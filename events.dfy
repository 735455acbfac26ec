/** Events as an output codec sees them: a payload and a metadata side-channel. */
module Events {

  /** A payload value: a JSON-like scalar, a list, or a nested object. */
  datatype Value =
    | Null
    | Bool(b: bool)
    | Num(n: int)
    | Str(s: string)
    | List(items: seq<Value>)
    | Object(fields: map<string, Value>)

  /** The text of the LOG event type, as `EventType.LOG.toString()` gives it. */
  const LOG: string := "LOG"

  /** Event metadata: the event-type classifier and the set of tags. */
  datatype EventMetadata = EventMetadata(eventType: string, tags: set<string>)

  /** An event: its payload (field name to value) and its metadata. */
  datatype Event = Event(data: map<string, Value>, metadata: EventMetadata)

  /** Whether `tag` is among the tags of `event`. */
  predicate HasTag(event: Event, tag: string) {
    tag in event.metadata.tags
  }
}

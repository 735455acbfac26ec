/**
 * The scenarios the unit tests of the output codec run, each as a method
 * whose postcondition is what the test asserts about the codec.
 */
module OutputCodecTests {
  import opened Events
  import opened Codec

  /** The payload after the loop's first `n` puts of a string field. */
  function StringFields(uuids: seq<string>, n: nat): map<string, Value>
    requires 2 * n <= |uuids|
  {
    if n == 0 then map[]
    else StringFields(uuids, n - 1)[uuids[2 * (n - 1)] := Str(uuids[2 * (n - 1) + 1])]
  }

  /**
   * A payload of two string fields and one field holding a list of three
   * strings, every key and value a random UUID. The UUIDs are supplied in
   * the order they are drawn: key, value, key, value, key, list items.
   * Putting a key again replaces its value.
   */
  method GenerateJson(uuids: seq<string>) returns (json: map<string, Value>)
    requires |uuids| == 8
    ensures json.Keys == {uuids[0], uuids[2], uuids[4]}
    ensures json[uuids[4]] == List([Str(uuids[5]), Str(uuids[6]), Str(uuids[7])])
    ensures uuids[2] != uuids[4] ==> json[uuids[2]] == Str(uuids[3])
    ensures uuids[0] != uuids[2] && uuids[0] != uuids[4] ==> json[uuids[0]] == Str(uuids[1])
    ensures uuids[0] != uuids[2] && uuids[0] != uuids[4] && uuids[2] != uuids[4] ==> |json| == 3
  {
    json := map[];
    var i := 0;
    while i < 2
      invariant 0 <= i <= 2
      invariant json == StringFields(uuids, i)
    {
      json := json[uuids[2 * i] := Str(uuids[2 * i + 1])];
      i := i + 1;
    }
    json := json[uuids[4] := List([Str(uuids[5]), Str(uuids[6]), Str(uuids[7])])];
    assert |json.Keys| == |json|;
  }

  /**
   * A LOG event tagged "tag1" gains the tag "Tag": the tagged event differs
   * from the original, and the default size estimate of the original is 0.
   */
  method WriteMetrics(uuids: seq<string>) returns (event: Event, tagged: Event, estimatedSize: int)
    requires |uuids| == 8
    ensures event.metadata == EventMetadata(LOG, {"tag1"})
    ensures tagged.data == event.data
    ensures tagged.metadata == EventMetadata(LOG, {"tag1", "Tag"})
    ensures tagged != event
    ensures estimatedSize == 0
  {
    var codec := new OutputCodec();
    var json := GenerateJson(uuids);
    event := Event(json, EventMetadata(LOG, {"tag1"}));
    tagged := codec.AddTagsToEvent(event, "Tag");
    var context := new OutputCodecContext();
    estimatedSize := codec.GetEstimatedSize(event, context);
  }

  /** Two writers created with the same arguments are two objects. */
  method CreateWriterReturnsNewInstance(stream: OutputStream, event: Event, context: OutputCodecContext)
    returns (first: Writer, second: Writer)
    ensures first != second
  {
    var codec := new OutputCodec();
    first := codec.CreateWriter(stream, event, context);
    second := codec.CreateWriter(stream, event, context);
  }

  /** Creating a writer starts the stream once, with the same arguments. */
  method CreateWriterCallsStart(stream: OutputStream, event: Event, context: OutputCodecContext)
    returns (codec: OutputCodec)
    ensures codec.invocations == [StartInvoked(stream, event, context)]
    ensures Times(codec.invocations, StartInvoked(stream, event, context)) == 1
  {
    codec := new OutputCodec();
    var writer := codec.CreateWriter(stream, event, context);
  }

  /** A writer's `WriteEvent` reaches the codec with the writer's stream. */
  method WriterWriteEventCallsWriteEvent(stream: OutputStream, event: Event, context: OutputCodecContext)
    returns (codec: OutputCodec)
    ensures codec.invocations == [StartInvoked(stream, event, context), WriteEventInvoked(event, stream)]
    ensures Times(codec.invocations, WriteEventInvoked(event, stream)) == 1
  {
    codec := new OutputCodec();
    var writer := codec.CreateWriter(stream, event, context);
    writer.WriteEvent(event);
  }

  /** A writer's `Complete` reaches the codec with the writer's stream. */
  method WriterCompleteCallsComplete(stream: OutputStream, event: Event, context: OutputCodecContext)
    returns (codec: OutputCodec)
    ensures codec.invocations == [StartInvoked(stream, event, context), CompleteInvoked(stream)]
    ensures Times(codec.invocations, CompleteInvoked(stream)) == 1
  {
    codec := new OutputCodec();
    var writer := codec.CreateWriter(stream, event, context);
    writer.Complete();
  }
}

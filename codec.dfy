/**
 * The output codec contract: three required lifecycle operations (start,
 * writeEvent, complete), the default behaviours every codec inherits, and
 * the Writer session that binds a codec to one output stream.
 */
module Codec {
  import opened Events

  /** An output stream, as an opaque handle: the codec only passes it on. */
  datatype OutputStream = OutputStream(handle: nat)

  /** The outcome of a validation: success, or a configuration error. */
  datatype Outcome = Pass | Fail(error: string)

  /**
   * The sink-side configuration handed to a codec: which payload keys to
   * keep and which to drop. It is owned by the caller.
   */
  class OutputCodecContext {
    var includeKeys: seq<string>
    var excludeKeys: seq<string>

    /** The default context constrains nothing. */
    constructor ()
      ensures includeKeys == [] && excludeKeys == []
    {
      includeKeys := [];
      excludeKeys := [];
    }
  }

  /** One call to a required operation of a codec, with its arguments. */
  datatype Invocation =
    | StartInvoked(stream: OutputStream, event: Event, context: OutputCodecContext)
    | WriteEventInvoked(event: Event, stream: OutputStream)
    | CompleteInvoked(stream: OutputStream)

  /** How many times `call` occurs in `log`. */
  function Times(log: seq<Invocation>, call: Invocation): (n: nat)
    ensures n <= |log|
    ensures n == 0 <==> call !in log
    ensures n == |log| <==> forall i :: 0 <= i < |log| ==> log[i] == call
    ensures n == multiset(log)[call]
  {
    if log == [] then 0
    else
      assert log == [log[0]] + log[1..];
      (if log[0] == call then 1 else 0) + Times(log[1..], call)
  }

  /**
   * Counting distributes over concatenation of logs: a corollary of the
   * multiset of a concatenation being the union of the two multisets.
   */
  lemma TimesAppend(a: seq<Invocation>, b: seq<Invocation>, call: Invocation)
    ensures Times(a + b, call) == Times(a, call) + Times(b, call)
  {
  }

  /** Appending one call adds one occurrence of it and none of anything else. */
  lemma TimesAppendOne(log: seq<Invocation>, added: Invocation)
    ensures forall call :: (Times(log + [added], call) == Times(log, call) + (if call == added then 1 else 0))
  {
  }

  /**
   * A codec. The three required operations are the ones each format
   * supplies; here they record their call in `invocations`, which stands
   * for what a mocked codec remembers. Everything else is the default
   * behaviour a codec inherits unless it overrides it.
   */
  class OutputCodec {
    /** The calls made to the required operations, oldest first. */
    var invocations: seq<Invocation>

    constructor ()
      ensures invocations == []
    {
      invocations := [];
    }

    /** Required: write the stream preamble. */
    method Start(stream: OutputStream, event: Event, context: OutputCodecContext)
      modifies this
      ensures invocations == old(invocations) + [StartInvoked(stream, event, context)]
    {
      invocations := invocations + [StartInvoked(stream, event, context)];
    }

    /** Required: write one event. */
    method WriteEvent(event: Event, stream: OutputStream)
      modifies this
      ensures invocations == old(invocations) + [WriteEventInvoked(event, stream)]
    {
      invocations := invocations + [WriteEventInvoked(event, stream)];
    }

    /** Required: write the stream postamble. */
    method Complete(stream: OutputStream)
      modifies this
      ensures invocations == old(invocations) + [CompleteInvoked(stream)]
    {
      invocations := invocations + [CompleteInvoked(stream)];
    }

    /** Default: the format does not compress on its own. */
    function IsCompressionInternal(): (internal: bool)
      ensures !internal
    {
      false
    }

    /**
     * Default: every context is accepted. With no reads clause this
     * function cannot look at the context's fields nor at the codec.
     */
    function ValidateAgainstCodecContext(context: OutputCodecContext): (outcome: Outcome)
      ensures outcome.Pass?
    {
      Pass
    }

    /** Default: no size estimate is available, reported as 0. */
    function GetEstimatedSize(event: Event, context: OutputCodecContext): (size: int)
      ensures size == 0
    {
      0
    }

    /**
     * Default: a new event with the same payload and event type, whose tags
     * are the original tags and `tag`. The argument is a value, so it is
     * left as it was.
     */
    function AddTagsToEvent(event: Event, tag: string): (tagged: Event)
      ensures tagged.data == event.data
      ensures tagged.metadata.eventType == event.metadata.eventType
      ensures HasTag(tagged, tag)
      ensures forall t :: HasTag(event, t) ==> HasTag(tagged, t)
      ensures forall t :: HasTag(tagged, t) ==> t == tag || HasTag(event, t)
      ensures tagged != event <==> !HasTag(event, tag)
    {
      Event(event.data, EventMetadata(event.metadata.eventType, event.metadata.tags + {tag}))
    }

    /** A new tag grows the tag set by exactly one. */
    lemma AddTagsToEventGrowsByOne(event: Event, tag: string)
      requires !HasTag(event, tag)
      ensures |AddTagsToEvent(event, tag).metadata.tags| == |event.metadata.tags| + 1
    {
    }

    /**
     * Tagging twice with the same tag is tagging once: a tag that is already
     * present leaves the event as it was.
     */
    lemma AddTagsToEventIdempotent(event: Event, tag: string)
      ensures AddTagsToEvent(AddTagsToEvent(event, tag), tag) == AddTagsToEvent(event, tag)
    {
    }

    /**
     * Default: start the stream once, then hand back a new Writer bound to
     * this codec and `stream`.
     */
    method CreateWriter(stream: OutputStream, event: Event, context: OutputCodecContext)
      returns (writer: Writer)
      modifies this
      ensures fresh(writer)
      ensures writer.codec == this && writer.stream == stream
      ensures invocations == old(invocations) + [StartInvoked(stream, event, context)]
      ensures forall call :: (Times(invocations, call) == Times(old(invocations), call) + (if call == StartInvoked(stream, event, context) then 1 else 0))
    {
      Start(stream, event, context);
      TimesAppendOne(old(invocations), StartInvoked(stream, event, context));
      writer := new Writer(this, stream);
    }
  }

  /**
   * A session bound to one codec and one stream: it forwards each call to
   * the codec together with the stream it was created with.
   */
  class Writer {
    const codec: OutputCodec
    const stream: OutputStream

    constructor (codec: OutputCodec, stream: OutputStream)
      ensures this.codec == codec && this.stream == stream
    {
      this.codec := codec;
      this.stream := stream;
    }

    /** Forwards to the codec's `WriteEvent` with the bound stream. */
    method WriteEvent(event: Event)
      modifies codec
      ensures codec.invocations == old(codec.invocations) + [WriteEventInvoked(event, stream)]
      ensures forall call :: (Times(codec.invocations, call) == Times(old(codec.invocations), call) + (if call == WriteEventInvoked(event, stream) then 1 else 0))
    {
      codec.WriteEvent(event, stream);
      TimesAppendOne(old(codec.invocations), WriteEventInvoked(event, stream));
    }

    /** Forwards to the codec's `Complete` with the bound stream. */
    method Complete()
      modifies codec
      ensures codec.invocations == old(codec.invocations) + [CompleteInvoked(stream)]
      ensures forall call :: (Times(codec.invocations, call) == Times(old(codec.invocations), call) + (if call == CompleteInvoked(stream) then 1 else 0))
    {
      codec.Complete(stream);
      TimesAppendOne(old(codec.invocations), CompleteInvoked(stream));
    }
  }
}

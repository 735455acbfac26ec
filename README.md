# Output codec contract of Data Prepper

Data Prepper sinks write events through an `OutputCodec`. A codec serialises
events to an `OutputStream` in three steps: `start` writes the stream's
preamble, `writeEvent` writes one event, and `complete` writes the postamble.
Each format supplies those three. Every codec also inherits default behaviour:

- it does not compress internally;
- it accepts any `OutputCodecContext` without looking at it;
- it gives no size estimate (0);
- it can tag an event;
- it can open a `Writer`, a session bound to one stream.

This project models those defaults as they are pinned down by the unit test
`OutputCodecTest`. For the lifecycle defaults (compression, validation, size
estimate, writer creation and forwarding) it proves what the test asserts for
all arguments, not only for the test's fixtures. The test leaves the meaning of
`addTagsToEvent` largely open. The model states one reading of it, set out under
"## Left out".

Layout:

- `events.dfy` (module `Events`): payload values, event metadata (event type and
  tag set) and events, all as immutable values.
- `codec.dfy` (module `Codec`) holds the codec side:
  - the stream handle, the context class and the invocation record;
  - the count `Times` that gives meaning to Mockito's `verify` (exactly one
    matching call);
  - the `OutputCodec` class with its required operations and its defaults;
  - the `Writer` class.
- `output_codec_tests.dfy` (module `OutputCodecTests`): one method per test and the
  `generateJson` fixture builder. Each method's postcondition is the test's
  assertion.

Modelling decisions:

- The required operations of the codec append their call, with its arguments, to
  the field `invocations`. That field is the record a Mockito mock keeps.
- Defaults that compute a value are functions with no `reads` clause. So
  `ValidateAgainstCodecContext` and `GetEstimatedSize` cannot read the
  context's fields or the codec's state. This is how "no interaction with the
  context" is stated.
- `AddTagsToEvent` is a function on event values. The input event therefore
  cannot change, and the result shares nothing mutable with it. Its second
  argument is read as a tag added to the metadata tag set, with the payload kept.
- `CreateWriter` allocates a new `Writer` (`fresh`). It starts the stream
  exactly once and changes the count of no other call.
- `Writer.WriteEvent` and `Writer.Complete` each forward exactly one call to the
  codec, with the stream captured at creation.
- The tags of an event are a set. The test builds them with `Set.of("tag1")`
  (line 82) and hands them to the metadata builder as a `Set<String>`. So tags
  have no order, and adding a tag that is already present changes nothing.

## Model

| member | source | states |
|---|---|---|
| Codec.Times | data-prepper-api/src/test/java/org/opensearch/dataprepper/model/codec/OutputCodecTest.java:128-130 | the number of matching calls is the call's multiplicity in the multiset of the log; it is at most the log's length; it is zero exactly when the call is absent; it equals the length exactly when every entry is that call |
| Codec.TimesAppend | data-prepper-api/src/test/java/org/opensearch/dataprepper/model/codec/OutputCodecTest.java:139-143 | counting calls distributes over concatenating two logs, as multiset union does |
| Codec.TimesAppendOne | data-prepper-api/src/test/java/org/opensearch/dataprepper/model/codec/OutputCodecTest.java:139-143 | appending one call adds one occurrence of it and leaves the count of every other call unchanged |
| Codec.OutputCodecContext.constructor | data-prepper-api/src/test/java/org/opensearch/dataprepper/model/codec/OutputCodecTest.java:90 | the default context has no include and no exclude keys |
| Codec.OutputCodec.constructor | data-prepper-api/src/test/java/org/opensearch/dataprepper/model/codec/OutputCodecTest.java:114 | a new codec has recorded no calls |
| Codec.OutputCodec.Start | data-prepper-api/src/test/java/org/opensearch/dataprepper/model/codec/OutputCodecTest.java:65-66 | the codec records exactly one start call with the given stream, event and context |
| Codec.OutputCodec.WriteEvent | data-prepper-api/src/test/java/org/opensearch/dataprepper/model/codec/OutputCodecTest.java:69-70 | the codec records exactly one writeEvent call with the given event and stream |
| Codec.OutputCodec.Complete | data-prepper-api/src/test/java/org/opensearch/dataprepper/model/codec/OutputCodecTest.java:73-74 | the codec records exactly one complete call with the given stream |
| Codec.OutputCodec.IsCompressionInternal | data-prepper-api/src/test/java/org/opensearch/dataprepper/model/codec/OutputCodecTest.java:44-47 | the default answer is false |
| Codec.OutputCodec.ValidateAgainstCodecContext | data-prepper-api/src/test/java/org/opensearch/dataprepper/model/codec/OutputCodecTest.java:51-58 | the default accepts every context; it reads neither the context nor the codec, so it cannot interact with them |
| Codec.OutputCodec.GetEstimatedSize | data-prepper-api/src/test/java/org/opensearch/dataprepper/model/codec/OutputCodecTest.java:90 | the default estimate is 0 for every event and context |
| Codec.OutputCodec.AddTagsToEvent | data-prepper-api/src/test/java/org/opensearch/dataprepper/model/codec/OutputCodecTest.java:82-89 | with the second argument read as a metadata tag: the result has the input's payload and event type; its tags are the input's tags plus the given tag and nothing else; it differs from the input exactly when the tag was not there yet (the test asserts only that the serialised form changes; see "## Left out") |
| Codec.OutputCodec.AddTagsToEventGrowsByOne | data-prepper-api/src/test/java/org/opensearch/dataprepper/model/codec/OutputCodecTest.java:82-89 | a tag not yet present grows the tag set by exactly one |
| Codec.OutputCodec.AddTagsToEventIdempotent | data-prepper-api/src/test/java/org/opensearch/dataprepper/model/codec/OutputCodecTest.java:82-88 | tagging twice with the same tag gives the same event as tagging once, so a tag already present leaves the event unchanged: the case in which the model does not promise a changed serialised form |
| Codec.OutputCodec.CreateWriter | data-prepper-api/src/test/java/org/opensearch/dataprepper/model/codec/OutputCodecTest.java:113-131 | the writer is a new object bound to this codec and the given stream; exactly one start call with the same stream, event and context is recorded, and nothing else |
| Codec.Writer.constructor | data-prepper-api/src/test/java/org/opensearch/dataprepper/model/codec/OutputCodecTest.java:139 | the writer holds the codec and the stream it is given |
| Codec.Writer.WriteEvent | data-prepper-api/src/test/java/org/opensearch/dataprepper/model/codec/OutputCodecTest.java:139-143 | exactly one writeEvent call is forwarded to the codec, carrying the event and the writer's own stream, and nothing else is recorded |
| Codec.Writer.Complete | data-prepper-api/src/test/java/org/opensearch/dataprepper/model/codec/OutputCodecTest.java:152-156 | exactly one complete call is forwarded to the codec, carrying the writer's own stream, and nothing else is recorded |
| OutputCodecTests.GenerateJson | data-prepper-api/src/test/java/org/opensearch/dataprepper/model/codec/OutputCodecTest.java:93-101 | the payload's keys are the three drawn keys; the last key holds the list of the three last UUIDs; an earlier key holds its string value unless a later put replaced it; distinct keys give exactly three fields |
| OutputCodecTests.WriteMetrics | data-prepper-api/src/test/java/org/opensearch/dataprepper/model/codec/OutputCodecTest.java:61-91 | tagging a LOG event tagged tag1 with Tag keeps its payload, gives the tags tag1 and Tag, and yields a different event; the size estimate is 0 |
| OutputCodecTests.CreateWriterReturnsNewInstance | data-prepper-api/src/test/java/org/opensearch/dataprepper/model/codec/OutputCodecTest.java:112-120 | two writers created with identical arguments are distinct objects |
| OutputCodecTests.CreateWriterCallsStart | data-prepper-api/src/test/java/org/opensearch/dataprepper/model/codec/OutputCodecTest.java:122-131 | after creating a writer the codec has recorded exactly one start with the same stream, event and context, and nothing else |
| OutputCodecTests.WriterWriteEventCallsWriteEvent | data-prepper-api/src/test/java/org/opensearch/dataprepper/model/codec/OutputCodecTest.java:133-144 | the writer's writeEvent reaches the codec exactly once, with the writer's stream |
| OutputCodecTests.WriterCompleteCallsComplete | data-prepper-api/src/test/java/org/opensearch/dataprepper/model/codec/OutputCodecTest.java:146-157 | the writer's complete reaches the codec exactly once, with the writer's stream |

## Left out

- Codec.OutputCodec.AddTagsToEvent: the interface's own default implementation is not part
  of this model. The test (lines 82-89) fixes only that the JSON text of the returned event
  differs from the input's. The model assumes that the second argument is a tag added to the
  metadata tag set, and that the payload and event type are kept. Under that reading,
  re-tagging with a tag that is already present returns the input unchanged, so the model
  promises a changed event only when the tag is new (`AddTagsToEventIdempotent` proves the
  unchanged case). The model does not capture other readings, for instance one in which the
  argument names a payload key that receives the existing tags, and the serialised form
  always changes.

- The source of the `OutputCodec` interface is not part of this model. Its defaults are
  modelled from what the test asserts about them. `OutputCodecContext`, `JacksonEvent`,
  `JacksonLog` and `DefaultEventMetadata` are not part of this model either. The
  context's two key lists stand for the configuration it carries.
- `getExtension` is not modelled. It is a required operation that every format supplies,
  and the test's anonymous codec returns null from it (lines 76-79).
- Overriding: there are no traits here, so there is one codec class. It carries the default
  behaviours and records the calls to the required operations, as the mocks in the test do.
- Byte output and format-specific encoding are not modelled. The required operations have
  empty or mocked bodies in the test, so they only record their call.
- I/O failures are not modelled. The `IOException` that the lifecycle operations may throw
  is never raised in the test.
- Jackson serialisation is not modelled. "The serialised forms differ" (line 89) is modelled
  as inequality of the event values.
- Metadata other than the event type and the tags is not modelled. That includes attributes
  and the time received.
- Insertion order is not modelled. `generateJson` fills a `LinkedHashMap`, while the
  payload here is a `map`, so the order of fields is lost.
- Randomness is not modelled. The eight random UUIDs that `generateJson` draws are a
  parameter.
- Numbers in payload values are integers.
- Mockito's mechanics (`mock`, `doCallRealMethod`, `verifyNoInteractions`) are not
  modelled. The invocation record and the absence of `reads` clauses take their place.
- A writer has no open or closed state. Nothing in the test checks one.

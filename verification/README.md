# Server-sent events client: the text-to-event pipeline

This project models the core of the .NET client `Foxrough.ServerSentEvents.Client`. The core turns the raw text a
connection worker reads into batches of `EventMessage` records. It has four parts:

- **Line split** (`EventMessageFactory.TryExtractMessageField`): a line is split at its first `:` into a field
  name and a value, verbatim.
- **Frame fold** (`EventMessageFactory.CreateFromRawMessage`): a frame is split into lines at every `'\n'`, and
  the lines are folded into one `EventMessage(event, id, retry, data)`. `data` lines append their value; the
  last `id` and `event` line wins; the last `retry` line gives its `int.TryParse` value, or 3000 when it does
  not parse. Keys match case-insensitively.
- **Frame assembly** (`EventMessagesParsingStrategy`): every chunk is appended to a cache. The prefix of the
  cache through the first `"\n\n"` is cut off as a frame, over and over, until no separator is left. Each cut
  frame gives one event.
- **The facade** (`ServerSentEventProxy`): `Start` sets the running flag and creates a fresh cancellation
  source and a started worker; `Stop` cancels the current source and clears the flag. The chunk callback feeds
  one parser, extracts every complete event, sets the worker's retry hint from the last event of the batch, and
  delivers the batch once.

The model is functional. Strings are `seq<char>`, the event is an immutable datatype, and the retry value is a
32-bit `int32` newtype, as C#'s `int` is. The cache and the facade's state are values, and every operation
returns a new one. Delivery to subscribers is modelled as appending the batch to a log, `delivered`.

The headline results are two chunking-invariance lemmas. `ParsingStrategy.ChunkingInvariance` shows that
feeding a stream chunk by chunk, with a full extraction after each chunk, gives the same events and the same
leftover cache as adding the whole text at once. `Proxy.OnChunksDeliverStream` lifts this to the facade: the
events it delivers, in order, its parser cache and its final retry hint do not depend on how the stream was
cut into chunks.

Values are not trimmed (`EventMessageFactory.cs:75`), so `event: update` gives the event `" update"`.
`Scenarios.UpdateFrame` proves that `"event: update\nid: 1\ndata: hello\n\n"` gives event `" update"`, id
`" 1"` and data `[" hello"]`, leading spaces kept.

Modules follow the source files: `Constants`, `Messages` (the `EventMessage` record as a datatype), `Int32Parsing` (the `int.TryParse` grammar),
`MessageFactory`, `ParsingStrategy`, `Instance` (the two pure fragments of the worker) and `Proxy`. `Scenarios`
holds worked examples. `Wrappers` and `Seqs` are small generic helpers.

## Model

All source paths are under `Foxrough.ServerSentEvents.Client/`.

| member | source | states |
|---|---|---|
| Constants.SeparatorIsTwoLineBreaks | Foxrough.ServerSentEvents.Client/Impl/ServerSentEventsConstants.cs:11-16 | Documentation only, true by evaluating the two constants: the frame separator is two line separators, and the length cut with it is 2. |
| Int32Parsing.LeadingWhiteCount | Foxrough.ServerSentEvents.Client/Impl/EventMessageFactory.cs:59 | The white-space prefix `int.TryParse` skips is all white and maximal: the next character, if any, is not white. |
| Int32Parsing.TrailingWhiteCount | Foxrough.ServerSentEvents.Client/Impl/EventMessageFactory.cs:59 | The white-space suffix `int.TryParse` skips is all white and maximal. |
| Int32Parsing.TryParse | Foxrough.ServerSentEvents.Client/Impl/EventMessageFactory.cs:59 | Only computes; its contract is stated by `Int32Parsing.TryParseComplete` and `Int32Parsing.TryParseSound`, which together say it succeeds exactly on the integer grammar, with the value the text denotes. |
| Int32Parsing.TryParseComplete | Foxrough.ServerSentEvents.Client/Impl/EventMessageFactory.cs:59-60 | Every text of the form white, optional sign, one or more digits, white parses to its signed decimal value when that value fits in 32 bits, and fails otherwise. Negative values and 0 are accepted. |
| Int32Parsing.TryParseSound | Foxrough.ServerSentEvents.Client/Impl/EventMessageFactory.cs:59-60 | Only such texts parse, and the value is the one the digits and sign denote. Anything else, such as `" abc"`, fails. |
| Messages.SameFieldsSameEvent | Foxrough.ServerSentEvents.Client/EventMessage.cs:8-25 | Documentation only, true of every Dafny datatype (extensionality): the record is modelled with exactly the four get-only properties, so two events that agree on `Event`, `Id`, `Retry` and `Data` are the same event. |
| MessageFactory.IndexOf | Foxrough.ServerSentEvents.Client/Impl/EventMessageFactory.cs:71-72 | Ordinal `IndexOf(char)`: no result exactly when the character is absent; otherwise the position holds the character and no earlier position does. |
| MessageFactory.Split | Foxrough.ServerSentEvents.Client/Impl/EventMessageFactory.cs:17 | `Split('\n')` gives at least one piece, no piece contains `'\n'`, and joining the pieces with `'\n'` gives the frame back, so empty pieces are kept. |
| MessageFactory.SplitJoin | Foxrough.ServerSentEvents.Client/Impl/EventMessageFactory.cs:17 | Splitting undoes joining: every non-empty list of lines without `'\n'` is recovered from its join, empty lines included. |
| MessageFactory.TryExtractMessageField | Foxrough.ServerSentEvents.Client/Impl/EventMessageFactory.cs:64-77 | A line has a field exactly when it contains `:`. The line is then the name, the colon and the value, with no colon in the name, so the split is at the first colon and nothing is trimmed. The value is empty when the colon is last. |
| MessageFactory.FieldSplitIsUnique | Foxrough.ServerSentEvents.Client/Impl/EventMessageFactory.cs:71-75 | Conversely, a colon-free name, a colon and any value are split back into exactly that name and that value. |
| MessageFactory.EqualsLowerCaseKey | Foxrough.ServerSentEvents.Client/Impl/EventMessageFactory.cs:41 | For a lower-case key, case-insensitive equality with a name holds exactly when the ASCII-lowered name is the key. |
| MessageFactory.Classify | Foxrough.ServerSentEvents.Client/Impl/EventMessageFactory.cs:29-33 | A name selects the data, id, event or retry extractor exactly when its lowered form is that key. The kinds exclude each other, so at most one extractor fires. |
| MessageFactory.RetryValue | Foxrough.ServerSentEvents.Client/Impl/EventMessageFactory.cs:55-61 | Only computes; its contract is stated by `MessageFactory.RetryValueOfText` and `MessageFactory.RetryValueSound`. |
| MessageFactory.RetryValueOfText | Foxrough.ServerSentEvents.Client/Impl/EventMessageFactory.cs:59-60 | A retry value in the integer grammar gives its value when that fits in 32 bits, and 3000 when it does not. |
| MessageFactory.RetryValueSound | Foxrough.ServerSentEvents.Client/Impl/EventMessageFactory.cs:59-60 | A retry other than 3000 comes only from a value in the integer grammar, and is the value that text denotes. |
| MessageFactory.ApplyLine | Foxrough.ServerSentEvents.Client/Impl/EventMessageFactory.cs:24-34 | One loop step: a line without a colon, or one starting with a colon (empty name), leaves the event unchanged. Any line changes at most one of the four fields. |
| MessageFactory.ApplyLineEffect | Foxrough.ServerSentEvents.Client/Impl/EventMessageFactory.cs:39-62 | A data line appends its value. An id or event line replaces that field. A retry line sets the parsed value or the default, not the previous value. Every other field stays as it was. |
| MessageFactory.FieldValuesNoneOfKind | Foxrough.ServerSentEvents.Client/Impl/EventMessageFactory.cs:24-34 | Lines of other kinds contribute no value to a kind, so a frame without lines of a kind leaves that field at its default. |
| MessageFactory.FoldLines | Foxrough.ServerSentEvents.Client/Impl/EventMessageFactory.cs:19-34 | Only computes the `foreach` over the lines; its contract is stated by `MessageFactory.FoldLinesData`, `FoldLinesId`, `FoldLinesEvent` and `FoldLinesRetry`, one per field. |
| MessageFactory.FoldLinesData | Foxrough.ServerSentEvents.Client/Impl/EventMessageFactory.cs:39-45 | The fold appends the value of every data line, in line order, each as its own entry (empty values included). |
| MessageFactory.FoldLinesId | Foxrough.ServerSentEvents.Client/Impl/EventMessageFactory.cs:47-53 | The fold keeps the value of the last id line, or the starting id when there is none. |
| MessageFactory.FoldLinesEvent | Foxrough.ServerSentEvents.Client/Impl/EventMessageFactory.cs:47-53 | The fold keeps the value of the last event line, or the starting event when there is none. |
| MessageFactory.FoldLinesRetry | Foxrough.ServerSentEvents.Client/Impl/EventMessageFactory.cs:55-62 | The fold's retry is set by the last retry line only: its parsed value, or 3000 when that line does not parse, whatever earlier retry lines said. |
| MessageFactory.CreateFromRawMessage | Foxrough.ServerSentEvents.Client/Impl/EventMessageFactory.cs:15-37 | The event of a frame. Its data is the data values of the frame's lines, in order. Its id and event are the last such values, or `""`. Its retry is that of the last retry line, or 3000. It is total. |
| MessageFactory.UnrecognisedFrameIsEmpty | Foxrough.ServerSentEvents.Client/Impl/EventMessageFactory.cs:19-36 | A frame with no recognised field gives event `""`, id `""`, retry 3000 and no data. |
| ParsingStrategy.IndexOfSeparatorFrom | Foxrough.ServerSentEvents.Client/Impl/EventMessagesParsingStrategy.cs:40 | The search from a position finds nothing exactly when no separator starts there or later. Otherwise it finds the first separator from that position on. |
| ParsingStrategy.IndexOfSeparator | Foxrough.ServerSentEvents.Client/Impl/EventMessagesParsingStrategy.cs:40-41 | Ordinal `IndexOf("\n\n")`: no result exactly when the cache has no separator; otherwise the position of the first one. |
| ParsingStrategy.AddMessagePart | Foxrough.ServerSentEvents.Client/Impl/EventMessagesParsingStrategy.cs:21-22 | The part is appended verbatim: the new cache is the old cache followed by the part, with nothing parsed or dropped. |
| ParsingStrategy.TryCutFrame | Foxrough.ServerSentEvents.Client/Impl/EventMessagesParsingStrategy.cs:40-50 | A cut exists exactly when the cache holds a separator. The cache is then the frame followed by the rest, and the frame ends with the separator and holds no earlier one. |
| ParsingStrategy.CutOfFrame | Foxrough.ServerSentEvents.Client/Impl/EventMessagesParsingStrategy.cs:40-50 | Whatever follows it, a frame at the front of the cache is exactly what gets cut. |
| ParsingStrategy.TryExtractOneMessage | Foxrough.ServerSentEvents.Client/Impl/EventMessagesParsingStrategy.cs:36-53 | It fails exactly when the cache holds no separator. Otherwise it removes a prefix of at least the separator's length, that prefix is a frame (through the first separator), and the event is the one built from that frame. |
| ParsingStrategy.Drain | Foxrough.ServerSentEvents.Client/Impl/EventMessagesParsingStrategy.cs:29-50 | A full drain loses and adds nothing: the cache is the cut pieces, in order, followed by what is left. |
| ParsingStrategy.DrainIsFrames | Foxrough.ServerSentEvents.Client/Impl/EventMessagesParsingStrategy.cs:29-50 | Every piece a drain cuts is a frame, ending with the separator with none before it, and no separator is left in the rest. |
| ParsingStrategy.DrainWithoutSeparator | Foxrough.ServerSentEvents.Client/Impl/EventMessagesParsingStrategy.cs:41-45 | With no separator in the cache, a drain cuts nothing and leaves the cache unchanged. |
| ParsingStrategy.DrainUnique | Foxrough.ServerSentEvents.Client/Impl/EventMessagesParsingStrategy.cs:29-50 | That decomposition is unique: any split of the cache into frames followed by a separator-free rest is the drain's. |
| ParsingStrategy.DrainAppend | Foxrough.ServerSentEvents.Client/Impl/EventMessagesParsingStrategy.cs:21-50 | Draining `b + c` cuts the frames of `b`, then the frames of what `b` left followed by `c`. |
| ParsingStrategy.ExtractCompleteMessageFromCache | Foxrough.ServerSentEvents.Client/Impl/EventMessagesParsingStrategy.cs:27-34 | The cache left behind holds no separator, and at least one event comes out when the cache held a separator. `ParsingStrategy.ExtractLoopStops` covers the case without one. |
| ParsingStrategy.ExtractKeepsSuffix | Foxrough.ServerSentEvents.Client/Impl/EventMessagesParsingStrategy.cs:47-50 | The cache left behind is a tail of the given one: extraction only ever removes a prefix. |
| ParsingStrategy.ExtractLoopStops | Foxrough.ServerSentEvents.Client/Impl/EventMessagesParsingStrategy.cs:29-45 | When the cache holds no separator, `TryExtractOneMessage` fails, and the extraction yields no event and leaves the cache unchanged. |
| ParsingStrategy.ExtractLoopContinues | Foxrough.ServerSentEvents.Client/Impl/EventMessagesParsingStrategy.cs:29-52 | When it holds one, `TryExtractOneMessage` succeeds, and the extraction yields the event of that one cut first, then the events of the cache it left. So every cut frame gives exactly one event, in cut order, and none is filtered. |
| ParsingStrategy.ExtractAppend | Foxrough.ServerSentEvents.Client/Impl/EventMessagesParsingStrategy.cs:21-53 | Extracting from `b + c` gives the events of `b`, then the events of what `b` left followed by `c`, and that extraction's leftover cache. |
| ParsingStrategy.ChunkingInvariance | Foxrough.ServerSentEvents.Client/Impl/EventMessagesParsingStrategy.cs:21-53 | Adding chunks one at a time, each followed by a full extraction, yields the events and the leftover cache of adding all the chunks at once and extracting once. |
| ParsingStrategy.ChunkingsAgree | Foxrough.ServerSentEvents.Client/Impl/EventMessagesParsingStrategy.cs:21-53 | Two chunkings of the same text yield the same events and the same cache. |
| Instance.NewWorker | Foxrough.ServerSentEvents.Client/Impl/ServerSentEventInstance.cs:30-43 | A fresh worker is not started, has started no thread, and has retry hint 0 (the `int` property's default). |
| Instance.StartAsync | Foxrough.ServerSentEvents.Client/Impl/ServerSentEventInstance.cs:135-143 | After `StartAsync` the worker is started and has started exactly one thread. On a started worker it changes nothing, and it never touches the retry hint. |
| Instance.StartAsyncIdempotent | Foxrough.ServerSentEvents.Client/Impl/ServerSentEventInstance.cs:137-140 | Any number of further `StartAsync` calls leaves the worker as the first call did. |
| Instance.RetrySleep | Foxrough.ServerSentEvents.Client/Impl/ServerSentEventInstance.cs:66-68 | The sleep after a failure is always positive: the retry hint when it is positive, else 3000. |
| Proxy.NewProxy | Foxrough.ServerSentEvents.Client/ServerSentEventProxy.cs:16-34 | A new facade is not running, has an empty parser cache and satisfies the facade invariant. |
| Proxy.Start | Foxrough.ServerSentEvents.Client/ServerSentEventProxy.cs:36-47 | While running, `Start` changes nothing. Otherwise it makes a fresh, newest, uncancelled source and a fresh worker, started once, with hint 0. It keeps the parser and the deliveries, and the facade ends up running with its invariant intact. |
| Proxy.StartIdempotent | Foxrough.ServerSentEvents.Client/ServerSentEventProxy.cs:38 | `Start` twice is `Start` once. |
| Proxy.StopAsWritten | Foxrough.ServerSentEvents.Client/ServerSentEventProxy.cs:83-87 | `Stop` as written faults exactly when no source was ever made. Otherwise it requests cancellation on the current source, clears the running flag, and keeps the parser, the worker, the generation count and the deliveries. |
| Proxy.StopBeforeStartFaults | Foxrough.ServerSentEvents.Client/ServerSentEventProxy.cs:85 | Stopping a facade that was never started faults with a null reference. |
| Proxy.Stop | Foxrough.ServerSentEvents.Client/ServerSentEventProxy.cs:83-87 | The guarded `Stop` agrees with the written one wherever that one succeeds, is a no-op before any `Start`, leaves any existing source cancelled and the facade not running, and keeps the invariant, the parser and the deliveries. |
| Proxy.StopBeforeStartIsNoOp | Foxrough.ServerSentEvents.Client/ServerSentEventProxy.cs:83-87 | With the guard, stopping a facade that was never started leaves it as it was. |
| Proxy.RestartKeepsParser | Foxrough.ServerSentEvents.Client/ServerSentEventProxy.cs:36-66 | A stop followed by a start leaves the facade running with the same parser cache, so a partial frame survives a restart. |
| Proxy.OnChunk | Foxrough.ServerSentEvents.Client/ServerSentEventProxy.cs:54-64 | The chunk callback keeps the facade invariant (no complete frame waits in the parser, no empty batch delivered). It does not touch the running flag, the source or the worker's generation, and of the worker it changes at most the retry hint (the start flag and thread count stay). |
| Proxy.OnChunkDelivers | Foxrough.ServerSentEvents.Client/ServerSentEventProxy.cs:57-63 | The chunk is appended and every complete event extracted. An empty batch is not delivered and leaves the retry hint alone. A non-empty batch is delivered once, whole and in order, and sets the hint to its last event's retry. |
| Proxy.OnChunks | Foxrough.ServerSentEvents.Client/ServerSentEventProxy.cs:54-64 | Any run of chunk callbacks keeps the facade invariant. |
| Proxy.OnChunkStream | Foxrough.ServerSentEvents.Client/ServerSentEventProxy.cs:57-63 | One callback adds exactly its extracted events to the delivered stream, keeps earlier batches, and sets the hint to the retry of the last new event, if any. |
| Proxy.OnChunksFeed | Foxrough.ServerSentEvents.Client/ServerSentEventProxy.cs:54-64 | Over a run of chunks, the facade delivers the events of alternating add and extract, keeps its leftover cache, and ends with the retry of the last event. |
| Proxy.OnChunksDeliverStream | Foxrough.ServerSentEvents.Client/ServerSentEventProxy.cs:54-64 | However the stream is chunked, the delivered events are those of the whole text extracted at once, in order. The parser keeps that extraction's leftover, and the hint is the retry of the stream's last event. |
| Scenarios.UpdateFrame | Foxrough.ServerSentEvents.Client/Impl/EventMessageFactory.cs:15-37 | `"event: update\nid: 1\ndata: hello\n\n"` gives event `" update"`, id `" 1"`, retry 3000 and data `[" hello"]`. |
| Scenarios.AbcIsNoInteger | Foxrough.ServerSentEvents.Client/Impl/EventMessageFactory.cs:59-60 | `" abc"` is not an integer. |
| Scenarios.RetryAbcFrame | Foxrough.ServerSentEvents.Client/Impl/EventMessageFactory.cs:55-62 | `"retry: abc\n\n"` gives the all-default event, with retry 3000. |
| Scenarios.TwoDataLinesFrame | Foxrough.ServerSentEvents.Client/Impl/EventMessageFactory.cs:39-45 | `"data: a\ndata: b\n\n"` gives the two data entries `" a"` and `" b"`, in order. |
| Scenarios.BareSeparator | Foxrough.ServerSentEvents.Client/Impl/EventMessagesParsingStrategy.cs:29-50 | A bare `"\n\n"` is one frame. It gives one all-default event and leaves an empty cache. |

## Left out

- The worker's I/O and concurrency are not modelled: its thread, `HttpWebRequest` and `GetResponse`, the blocking `Stream.Read`, the 500 ms abort timer, the reconnect loop and `Dispose`. Only the start flag (`Instance.StartAsync`) and the choice of the sleep (`Instance.RetrySleep`) are modelled.
- Each 512-byte read is decoded from UTF-8 on its own, so a character split across two reads is corrupted. Chunks here are already-decoded strings, and no byte-level chunking invariance is claimed.
- Delivery raises the .NET `DataReceived` event, through a `SynchronizationContext` post when one was captured at construction. It is modelled as appending the batch to the `delivered` log.
- The fault continuation attached to `StartAsync` is empty and is left out. The unobserved task it watches is not modelled either.
- The facade's `uri` and `ILogger`, the logger interface and the console demo program are left out: they carry no logic of the pipeline.
- Int32Parsing.TryParse: .NET's `int.TryParse` also accepts trailing `'\0'` characters and takes its signs from the current culture's number format. The model accepts `+` and `-` only and no trailing NULs.
- MessageFactory.Classify: `InvariantCultureIgnoreCase` folds non-ASCII case and ignores some zero-width characters. The model folds ASCII `A`–`Z` only.
- ParsingStrategy.IndexOfSeparator: `string.IndexOf(string)` is culture-sensitive in .NET, and a culture may treat `"\r\n"` or zero-width characters specially. The model searches ordinally.
- ParsingStrategy.ExtractCompleteMessageFromCache: the source yields events lazily, and the facade forces them all with `ToList`. The model is the forced, eager extraction.
- Proxy.OnChunk: an old worker whose source was cancelled may still call the callback until its read returns. The model allows the callback in any state with a worker, but does not model which worker thread makes the call or any interleaving between threads.

## Findings

| source | as written | input that shows it | evidently intended | confidence | as-written member | corrected member |
|---|---|---|---|---|---|---|
| Foxrough.ServerSentEvents.Client/ServerSentEventProxy.cs:83-87 | `Stop` calls `Cancel` on `cancellationTokenSource` without checking it, and that field stays null until the first `Start` | a new facade, then `Stop()` | stopping a facade that was never started does nothing | not executed | Proxy.StopBeforeStartFaults | Proxy.StopBeforeStartIsNoOp |

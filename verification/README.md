# Verified model of the gateway's core

The gateway accepts Anthropic and OpenAI chat requests, routes each to one of several upstream providers, retries
over their API keys, translates requests and streamed replies between the two formats, and accounts for spending,
rates and cached answers. This project models the parts of it that are state machines, codecs and schedulers, and
proves what they promise, over every input, every run or every reachable state.

`dafny verify dfyconfig.toml` checks everything.

## How the model is laid out

| files | component |
|---|---|
| `Sorting`, `StreamTypes`, `Translator`, `EventGrammar` | the OpenAI to Anthropic stream translator and the grammar of what it writes |
| `Collectors`, `DenseStream`, `StreamAgreement`, `TranslatedBlocks`, `StreamLayout`, `Agreement`, `Synthetic`, `StreamMeaning` | the two collectors, the replay writer, the agreement of the three views of one message, and what each says in words and figures |
| `EventStream`, `EventStreamRoundTrip` | the AWS event-stream frame decoder and a printer for its frames |
| `Resp`, `RespReplies` | the RESP2 command writer and the recursive reply reader; replies and commands spelled out |
| `Requests`, `PlainTexts`, `RequestMeaning`, `WholeRequests` | request translation in both directions and their composition, message by message and for whole requests |
| `KeyPool`, `KeyCooling`, `Breaker`, `Routing`, `RetryLoop`, `RetryProperties`, `RetryOutcomes` | key choice and cooling, circuit breaker, rule order, session rotation, the retry loop, how a request ends |
| `Calendar`, `BudgetPeriods`, `Budget`, `BudgetOvershoot` | calendar arithmetic, budget periods, spending, admission under concurrency |
| `TokenBucket`, `Drain` | the token bucket and the shutdown protocol |
| `Cache`, `RealFacts`, `Similarity` | the response cache, Newton's root and cosine similarity, the semantic index |
| `Common` | Option, FirstNonEmpty and facts on remainders |

Code that updates fields is a class whose methods are proved equal to a function on its view; what the source
promises is proved about that function. A Go string is a sequence of bytes, one `char` per byte. Decoded JSON is
given by datatypes; validity and compaction of JSON text are the parameters `valid` and `canon`, random identifiers
are the parameters `rand`, `id` and `freshId`, the clock is a parameter of each step, and the upstreams are the
`World` of `RetryLoop`.

## Where the code does not do what one would expect

Each of these follows the code. For each but the last a lemma says exactly when the code does what one would expect;
where that does not already show an input that fails, another lemma gives one.

- `CollectAnthropicStream` looks for `stop_reason` at the top level of `message_delta`
  (`internal/core/collect.go:153`), while the writers put it inside `delta` (`internal/core/collect.go:293`). A
  collected stream therefore always says `end_turn`: fails in `Agreement.StopReasonLost`, exactly when in
  `Agreement.StopReasonAgreement`.
- A tool call whose arguments are not JSON takes the whole assistant message with it, because marshalling its blocks
  fails (`internal/core/openai_inbound.go:148-154`): fails in `RequestMeaning.InvalidArgumentsDropMessage`, exactly
  when in `RequestMeaning.AssistantDroppedIff`.
- A tool's name or id that does not come with its first fragment is kept by `CollectOpenAIStream` and lost in the
  translated events: fails in `Agreement.LateNameLost`, exactly when in `Agreement.StreamingAgreesIff`.
- A request need not come back from the other format as it was: exactly when it does is
  `WholeRequests.RequestRoundTripIff`. A tool call without an identifier, an empty text among an assistant's texts or a
  second system message are lost or changed.
- A tool choice in OpenAI's own form, a word or a function object, is dropped; only the Anthropic form comes through:
  `WholeRequests.ToolChoiceKeptIff`.
- While every key is cooling and the coolest was already tried, `Pick` keeps returning that key and the retry loop
  spends its budget on it: fails in `RetryProperties.SecondKeyNeverCalled`, exactly when in `RetryProperties.StuckIff`.
- A huge Retry-After overflows 64 bits and the wait can come out negative: fails in `RetryLoop.SecondsOverflow`,
  exactly when in `RetryLoop.SecondsHonouredIff`.
- `Cache.Get` removes an expired key from the map but not from `order`. A later `Put` can be evicted at once: fails in
  `Cache.SecondPutLost`, exactly when in `Cache.PutReadableIff`. Or it lists the key twice, and the new entry goes long
  before its turn: fails in `Cache.DuplicateEvictsLive`, exactly when a duplicate appears in `Cache.DuplicateFreeIff`.
- `periodKeyNow` takes the ISO week of the time as shown in its zone, while days, months and all resets are in UTC.
  A weekly reset is right exactly where local time is UTC: `BudgetPeriods.WeeklyHoldsIff`.
- `add` takes its time before the mutex. Around a reset a late charge of the old period erases the new period's
  spending: fails in `Budget.LateChargeErases`, exactly when in `Budget.RecordedIsSumIff`.
- Two requests that end at nearly the same time during shutdown can both close `done`: fails in `Drain.DoubleClose`,
  exactly when in `Drain.DoubleClosePossibleIff` and, for the ends already under way, `Drain.DoubleCloseIff`.
- An `end` that was late to look at `closing` can let `wait` return while a request is still in flight: fails in
  `Drain.EarlyReturn`, exactly when in `Drain.EarlyReturnIff`.
- 24 Newton steps are not enough for huge or tiny vectors: the root of x is not below x / 2^24 nor below 1 / 2^24, so
  such a vector, just added, is not found again: fails in `Similarity.HugeVectorsMiss` and `Similarity.AloneMisses`,
  holds in `Similarity.SearchAfterAdd`.

Besides, `fillFirst` makes no difference to what `Pick` returns: `KeyPool.KeyPool.Pick` has one contract for both
settings.

## Model

| member | source | states |
|---|---|---|
| `Sorting.SortInts` | internal/core/stream.go:193-199 | The in-place exchange loop leaves the array equal to the reference insertion sort of what it held. |
| `Sorting.Sink` | internal/core/stream.go:195-197 | The inner loop inserts a[i] into the sorted part below it and touches nothing above. |
| `Sorting.SortAscending` | internal/core/collect.go:225-231 | The sorted list is ascending with the same elements. |
| `Sorting.SortPermutes` | internal/core/collect.go:225-231 | Sorting is a permutation. |
| `Sorting.SortStrict` | internal/core/stream.go:193-199 | A list without repetitions becomes strictly ascending. |
| `StreamTypes.EmittedLinesScan` | internal/core/stream.go:44-50 | Scanning the lines written for any events hands on exactly those events, and no end marker. |
| `Translator.StreamTranslator.Start` | internal/core/stream.go:52-70 | Emits `message_start` once, on the first call only. |
| `Translator.StreamTranslator.EnsureTextBlock` | internal/core/stream.go:72-84 | Opens a text block at the next index unless one is open. |
| `Translator.StreamTranslator.CloseTextBlock` | internal/core/stream.go:86-92 | Stops the open text block, if any. |
| `Translator.StreamTranslator.ToolCall` | internal/core/stream.go:131-155 | A fragment of an unseen index closes the text block and opens a tool block; known indices only receive arguments. |
| `Translator.StreamTranslator.Chunk` | internal/core/stream.go:103-160 | One chunk takes the translator's state to the specified next state: usage, text, tool fragments, stop reason. |
| `Translator.StreamTranslator.Finalize` | internal/core/stream.go:162-191 | Closes text, stops the tools in some ascending order of their indices whatever the map's order, writes `message_delta` and `message_stop`, returns the usage. |
| `Translator.TranslateOpenAIStream` | internal/core/stream.go:201-226 | The whole translation of a source is the final output of the state reached by its payloads; the scanner's error is reported unless the end marker came before it was recorded. |
| `EventGrammar.PayloadsInOrder` | internal/core/stream.go:103-160 | Every sequence of payloads keeps the output well-formed so far: indices dense, exactly the tools' blocks and at most one text block open, deltas only to open blocks of their kind. |
| `EventGrammar.OutputGrammar` | internal/core/stream.go:52-226 | The output is one message_start, block events, one message_delta and one message_stop, accepted by the grammar's monitor, if and only if there was a payload or the scanner showed no error. |
| `EventGrammar.AcceptedCounts` | internal/core/stream.go:72-191 | In an accepted stream the block indices are exactly 0 to n-1, each started once and stopped once. |
| `Collectors.OaiCollector.Fragment` | internal/core/collect.go:66-80 | Records one tool fragment: first appearance in `order`, later identity overwrites, arguments appended. |
| `Collectors.OaiCollector.Handle` | internal/core/collect.go:47-86 | Folds one payload into the collector's state. |
| `Collectors.OaiCollector.Finish` | internal/core/collect.go:90-117 | Builds the message: text block, then tools by ascending index with invalid arguments replaced, defaults for stop reason, model and usage. |
| `Collectors.CollectOpenAIStream` | internal/core/collect.go:35-118 | The collected message is the fold of all payloads up to the end marker; a scanner error before it gives none. |
| `Collectors.AnthCollector.Handle` | internal/core/collect.go:138-200 | Folds one event into blocks, inputs, order and usage; an error event stops the scan. |
| `Collectors.AnthCollector.Finish` | internal/core/collect.go:202-222 | Builds the message from the blocks by ascending index, with invalid tool inputs replaced. |
| `Collectors.CollectAnthropicStream` | internal/core/collect.go:127-223 | The collected message is the fold of all events up to the end marker or an error event; a scanner error gives none if it comes before the marker, or was recorded when the error event broke the scan off. |
| `Collectors.ScanEnds` | internal/core/collect.go:16-33 | Once the marker or an error event was seen, the remaining lines change nothing. |
| `DenseStream.CollectsList` | internal/core/collect.go:139-201 | Over any grammatical stream the collector's map holds exactly the list of blocks the events describe. |
| `DenseStream.CollectFramed` | internal/core/collect.go:127-223 | Collecting any well-formed stream gives the header's identity, the finished list of its blocks and the usage of its delta. |
| `StreamAgreement.CollectorSummarizes` | internal/core/collect.go:47-86 | The direct collector's state is the concatenated text and, per tool index, last identity and all arguments, in order of first appearance. |
| `TranslatedBlocks.PayloadsTrack` | internal/core/stream.go:103-160 | After any payloads the blocks written carry exactly the text and the tool fragments read, tools in order of first appearance. |
| `StreamLayout.PayloadsLaid` | internal/core/stream.go:103-160 | After any payloads the blocks written are exactly those laid out from the chunks alone: text runs cut where a new tool begins, each tool at its first appearance. |
| `StreamLayout.TextRunsApart` | internal/core/stream.go:122-134 | In that layout two text blocks are never adjacent. |
| `Agreement.CollectedTranslation` | internal/core/stream.go:201-226 | The whole message that collecting the translator's own events gives, for every chunk sequence: identity, model, the exact block list laid out from the chunks, the default stop reason, the output tokens. |
| `Agreement.LaidOutParts` | internal/core/stream.go:103-160 | That block list carries all the text, and the tools in order of first appearance. |
| `Agreement.FinalOutput` | internal/core/stream.go:175-190 | Finalize's usage in terms of the chunks: the last usage, or the estimate from text length and number of tools when completion tokens are 0. |
| `Agreement.CollectedDirectly` | internal/core/collect.go:35-118 | What collecting the chunks directly gives: text, tools by ascending index, stop reason. |
| `Agreement.TranslatedAndCollected` | internal/core/stream.go:201-226 | What re-collecting gives for every source, with or without a payload and a scanner error: all the text, the tools in order of first appearance, end_turn. |
| `Agreement.StreamingAgreesIff` | internal/core/stream.go:103-191 | For every source both routes give the same text, and for each tool the same block exactly when its first fragment carries the id and name of all its fragments together, drawn ids filled in. |
| `Agreement.StreamingAgreesWithCollecting` | internal/core/stream.go:103-191 | For consistent fragments both routes give the same text and the same id, name and input per tool; the same order of tools if indices first appear in ascending order. |
| `Agreement.LateNameLost` | internal/core/stream.go:131-155 | A name that comes with the second fragment is kept by the direct collector and lost in the events. |
| `Agreement.ToolOrderAgreesIff` | internal/core/collect.go:93-106 | With distinct ids the order of the tools agrees exactly when the indices first appear in ascending order. |
| `Agreement.StopReasonAgreement` | internal/core/collect.go:153 | The stop reason inside message_delta equals the directly collected one, and survives re-collection exactly when the chunks give none or the default. |
| `Agreement.StopReasonLost` | internal/core/collect.go:153 | One chunk that finishes for length: the direct collection says max_tokens, the re-collection end_turn. |
| `Agreement.UsageAgreement` | internal/core/stream.go:175-190 | Finalize's usage equals the collector's except exactly when prompt tokens came without completion tokens and there was something to estimate. |
| `StreamMeaning.StopReasonAnswers` | internal/core/translate_resp.go:8-21 | For every source the stop reason written in message_delta and the one collected directly are max_tokens exactly if the last non-empty finish word is "length", tool_use exactly if it is "tool_calls" or "function_call", and end_turn exactly for any other word and for none. |
| `StreamMeaning.FrameWritten` | internal/core/stream.go:162-191 | The events around the blocks in literal form: message_start with 0 input and 1 output token, message_delta with that stop reason and the last usage or (bytes + 3) / 4 + 60 per tool, message_stop. |
| `StreamMeaning.CollectedHeader` | internal/core/collect.go:90-117 | The directly collected model is the last non-empty name or "unknown"; the usage is the last one, estimated only if it counts nothing at all. |
| `StreamMeaning.CollectedVisible` | internal/core/collect.go:202-222 | The content collected of any complete accepted stream is its blocks without the thinking ones, a tool input that is not JSON being replaced by {}; one empty text if nothing is left. |
| `StreamMeaning.ErrorEventEnds` | internal/core/collect.go:138-200 | Whatever lines follow an error event do not count. |
| `StreamMeaning.VoidLinesIgnored` | internal/core/collect.go:16-33 | A blank line, a line of another field and a payload that is not JSON change nothing, wherever they stand. |
| `Synthetic.WriteSyntheticStream` | internal/core/collect.go:233-297 | The writer emits the specified replay of a message. |
| `Synthetic.ReplayAccepted` | internal/core/collect.go:233-297 | The replay of any message is a complete well-formed stream carrying its blocks in order. |
| `Synthetic.ReplayFrame` | internal/core/collect.go:233-297 | The events around the blocks of a replay in literal form: the own identifier, stop reason and output tokens if there are any, else the fresh one, end_turn and a quarter of all lengths, rounded up. |
| `Synthetic.SyntheticRoundTrip` | internal/core/collect.go:233-297 | For every message, what collecting its replay gives: identity, model, kept blocks, usage with the length estimate when the count is 0. |
| `Synthetic.RoundTripIff` | internal/core/collect.go:127-223 | The content survives unchanged exactly when it is non-empty and every block is plain. |
| `Synthetic.ReplayOfCollected` | internal/server/handlers.go:428-453 | The handler's buffered path: the whole message a client collects of a collected and replayed OpenAI stream: the same blocks, model and input tokens, the output tokens or their estimate, end_turn. |
| `EventStream.EventStreamReader.Headers` | internal/provider/eventstream.go:69-124 | The header loop computes the declared parse, on any bytes, without leaving them. |
| `EventStream.EventStreamReader.NextFrameInto` | internal/provider/eventstream.go:52-146 | One frame is consumed and its bytes buffered, or the error of the declared decoder is returned. |
| `EventStream.EventStreamReader.ReadFull` | internal/provider/eventstream.go:44-50 | Exactly n bytes or an error, end of input distinguished from a cut. |
| `EventStream.EventStreamReader.Read` | internal/provider/eventstream.go:27-42 | An error is reported exactly when nothing is pending; otherwise the next bytes are handed out, at least one if there is room. |
| `EventStream.ReadSchedule` | internal/provider/eventstream.go:27-42 | For any schedule of buffer sizes the reads together are a prefix of the decoded stream, all of it once an error is reported. |
| `EventStreamRoundTrip.HeadersSay` | internal/provider/eventstream.go:69-124 | Of any printed list of headers of any value types the decoder keeps the value of the last ":message-type" and that of the last ":content-type", empty if there is none. |
| `EventStreamRoundTrip.HeadersParseIff` | internal/provider/eventstream.go:69-117 | The header parser accepts exactly the printed lists of headers. |
| `EventStreamRoundTrip.BadFrameIff` | internal/provider/eventstream.go:52-67 | A frame is refused exactly if its lengths do not fit or its header bytes are no list of headers. |
| `EventStreamRoundTrip.ShortFrameFails` | internal/provider/eventstream.go:44-67 | A frame that has not arrived ends with the source's error, unexpected end of file if it was cut. |
| `EventStreamRoundTrip.BigEndian` | internal/provider/eventstream.go:57-58 | Lengths are big-endian. |
| `EventStreamRoundTrip.FrameParses` | internal/provider/eventstream.go:52-146 | A printed frame followed by anything is read as that frame and leaves exactly what follows. |
| `EventStreamRoundTrip.FramesRoundTrip` | internal/provider/eventstream.go:27-146 | Decoding any printed frames gives the concatenated meaning of the frames, whatever follows. |
| `EventStreamRoundTrip.EventFramesDecode` | internal/provider/eventstream.go:118-146 | Printed frames with exactly the headers ":message-type" "event" and ":content-type", in either order, decode to their payloads one after the other, or to the bytes inside if the content type is "application/json". |
| `EventStreamRoundTrip.TruncationGivesPrefix` | internal/provider/eventstream.go:44-67 | Any bytes cut anywhere decode to a prefix of the whole output, ending cleanly unless nothing was lost. |
| `Resp.ReadReply` | internal/state/state.go:225-269 | The recursive reader consumes and returns what the declared reader does, on every input, and terminates. |
| `Resp.ReadArray` | internal/state/state.go:256-265 | The element loop reads n items or fails with the first failing one. |
| `Resp.Reader.ReadFull` | internal/state/state.go:271-281 | Fills the buffer from reads of any size, exactly when enough bytes are left. |
| `Resp.Encode` | internal/state/state.go:194-198 | The command bytes are the serialization of an array of bulk strings. |
| `Resp.ParsePrinted` | internal/state/state.go:241-243 | Every 64-bit integer survives printing and parsing. |
| `Resp.ReadSerialized` | internal/state/state.go:225-269 | Every representable value of any depth, serialized and followed by any bytes, is read back, and exactly those bytes are left. |
| `Resp.ReadRepresentable` | internal/state/state.go:225-269 | Whatever bytes arrive, a reply that is read is representable. |
| `Resp.RoundTripIff` | internal/state/state.go:225-281 | The round trip holds exactly for the representable values. |
| `Resp.CommandDecodes` | internal/state/state.go:194-198 | The server reading a command gets exactly its arguments and consumes nothing more. |
| `RespReplies.IntegerRead` | internal/state/state.go:239-250 | Digits with an optional sign are read as the number they say, clamped to 64 bits. |
| `RespReplies.JunkIsZero` | internal/state/state.go:239-250 | Anything else of at most 19 characters behind a sign is read as 0. |
| `RespReplies.UnsignedJunkIsZero` | internal/state/state.go:239-250 | So is anything else of that length without a sign. |
| `RespReplies.LineReplies` | internal/state/state.go:234-260 | A line is a string, an error or an integer by its first byte; strings and arrays of negative length are absent values. |
| `RespReplies.BulkReply` | internal/state/state.go:244-252 | A bulk string is the announced number of bytes, and the two behind them are skipped, whatever they are. |
| `RespReplies.BulkCut` | internal/state/state.go:244-252 | It fails exactly if fewer bytes are left. |
| `RespReplies.Refused` | internal/state/state.go:225-269 | An empty line, a line of another kind and input without a line feed are refused. |
| `RespReplies.GetOnTheWire` | internal/state/state.go:194-198 | The bytes of a command, spelled out. |
| `Requests.ToAnthropic` | internal/core/openai_inbound.go:41-128 | The inbound translation equals its specification. |
| `Requests.TranslateUser` | internal/core/translate_req.go:124-164 | The buffer-and-flush loop over a user message equals its specification. |
| `Requests.TranslateAssistant` | internal/core/translate_req.go:93-123 | The assistant branch equals its specification. |
| `Requests.TranslateRequest` | internal/core/translate_req.go:74-199 | The whole outbound translation equals its specification; a content that is no block list fails the request. |
| `Requests.DataUrlRebuilt` | internal/core/openai_inbound.go:161-177 | A data URL is rebuilt from what was parsed of it. |
| `Requests.DataUrlParsesIff` | internal/core/openai_inbound.go:161-177 | A URL is taken apart exactly if it is "data:", a media type without a semicolon, ";base64," and data. |
| `Requests.ImageSent` | internal/core/openai_inbound.go:93-103 | Such an image is sent as its data, any other by its URL. |
| `PlainTexts.SystemWritten` | internal/core/translate_req.go:27-46 | The translated request begins with one system message holding exactly the non-empty texts of the system value in order, a blank line between any two, and has none if there is no such text. |
| `PlainTexts.FlattenIs` | internal/core/translate_req.go:48-72 | A tool result becomes its string, or its non-empty texts and the bracketed kinds of its other blocks line by line. |
| `PlainTexts.AssistantWritten` | internal/core/translate_req.go:93-123 | Any assistant block list becomes its non-empty texts, a blank line between any two, and its tool calls in order; it is dropped if it has neither. |
| `PlainTexts.SystemCollected` | internal/core/openai_inbound.go:130-146 | System messages that are texts are joined line by line into the system value. |
| `PlainTexts.TranslationFailsIff` | internal/core/translate_req.go:84-90 | The translation fails exactly if some content is neither a text nor a list. |
| `PlainTexts.ToolsWritten` | internal/core/translate_req.go:166-178 | Tools come through with name and description; a schema that is absent or null becomes that of an object without properties. |
| `PlainTexts.ToolChoiceWritten` | internal/core/translate_req.go:179-197 | auto stays auto, any becomes required, a tool is named, and nothing else gives a choice. |
| `RequestMeaning.FlushKeepsOrder` | internal/core/translate_req.go:124-164 | For every block list the messages written carry exactly its non-empty texts, image URLs and result texts in order; no user message is empty, a single text is written as a string, and no two user messages are adjacent. |
| `RequestMeaning.UserSurvives` | internal/core/openai_inbound.go:84-114 | A regular user message comes back as one equal message. |
| `RequestMeaning.UserSurvivesIff` | internal/core/openai_inbound.go:84-114 | A user message comes back as one equal message exactly when it is a non-empty text or a non-empty list of non-empty texts and usable images. |
| `RequestMeaning.ToolSurvivesIff` | internal/core/openai_inbound.go:78-83 | A tool result comes back as one equal message exactly when its content is a string or a list of one text. |
| `RequestMeaning.AssistantSurvivesIff` | internal/core/openai_inbound.go:58-77 | With non-empty drawn identifiers, an assistant message comes back as one equal message exactly when it says something or calls a tool, all it says is non-empty text, and its calls have identifiers and arguments that are absent or JSON other than null. |
| `RequestMeaning.InvalidArgumentsDropMessage` | internal/core/openai_inbound.go:148-154 | Arguments that are not JSON take the whole assistant message with them. |
| `RequestMeaning.AssistantDroppedIff` | internal/core/translate_req.go:93-123 | An assistant message is dropped exactly when some block's input is not JSON, or it has neither a non-empty text nor a tool call. |
| `WholeRequests.MessageSurvivesIff` | internal/core/openai_inbound.go:54-116 | Any message but the system's comes back as at most one message, equal to it exactly when it is regular for its role. |
| `WholeRequests.ListSurvivesIff` | internal/core/translate_req.go:84-165 | A list of such messages comes back equal, in order, exactly when every one is regular. |
| `WholeRequests.SystemSurvivesIff` | internal/core/openai_inbound.go:130-146 | A system message in front comes back as itself exactly when it is a non-empty text. |
| `WholeRequests.RequestRoundTripIff` | internal/core/translate_req.go:74-199 | With non-empty drawn identifiers, translating an OpenAI request to Anthropic form and back gives the same messages in order, tools, sampling fields and the tool choice in OpenAI form, exactly when all messages are regular and only the first may be the system's, a non-empty text. |
| `WholeRequests.ToolChoiceKeptIff` | internal/core/translate_req.go:176-197 | A tool choice comes through exactly if it is an object of the three Anthropic types. |
| `KeyPool.KeyPool.constructor` | internal/provider/pool.go:33-41 | The keys are the non-empty values in order, all live and unused, and the cursor is at the first. |
| `KeyPool.NewKeysHold` | internal/provider/pool.go:33-41 | A value is among the new keys exactly if it was given and is not empty. |
| `KeyPool.NewKeysAre` | internal/provider/pool.go:33-41 | The new keys are the non-empty values in order, with all counts and times 0. |
| `KeyPool.KeyPool.SetFillFirst` | internal/provider/pool.go:52-56 | Sets the flag and nothing else. |
| `KeyPool.KeyPool.Scan` | internal/provider/pool.go:86-101 | The scan returns the first live key from the cursor on and counts the picks, or remembers the coolest. |
| `KeyPool.KeyPool.Pick` | internal/provider/pool.go:79-110 | The key at the specified position is returned and the pool becomes the specified one, for either fillFirst. |
| `KeyPool.KeyPool.ReportHint` | internal/provider/pool.go:116-147 | A report changes exactly the first key with that value, as specified for its kind. |
| `KeyPool.RoundRobinFair` | internal/provider/pool.go:79-110 | While the live keys are those of L, any consecutive picks as many as L has keys return each of them exactly once and no cooling key. |
| `KeyPool.FallbackIsCoolest` | internal/provider/pool.go:79-110 | With no live key the pick has minimal coolUntil and the cursor stays. |
| `KeyCooling.HardFailRests` | internal/provider/pool.go:142-143 | After a hard failure the key is live exactly from ten minutes later on. |
| `KeyCooling.SoftFailRests` | internal/provider/pool.go:129-141 | After the n-th soft failure in a row it is live exactly after its old time and after the larger of the hint and 10 s doubled n - 1 times, capped at 300 s. |
| `KeyCooling.SuccessWakes` | internal/provider/pool.go:125-128 | After a success it is live at every time after the zero time. |
| `KeyCooling.ReportElsewhere` | internal/provider/pool.go:120-123 | A report leaves all other keys and the cursor alone. |
| `KeyCooling.ReportCounts` | internal/provider/pool.go:125-143 | A soft failure and a success are counted; no report changes the picks. |
| `KeyCooling.CountIsSoftRun` | internal/provider/pool.go:116-147 | Over every sequence of picks and reports the count of a key is its number of soft failures since its last success. |
| `KeyCooling.PickIsLive` | internal/provider/pool.go:86-101 | While some key is live the pick is a live one. |
| `KeyCooling.FailedKeyRests` | internal/provider/pool.go:79-147 | After a failure, whatever picks and reports follow without a success of the key, it is not picked within its rest while another key is live. |
| `Breaker.CircuitBreaker.NoteUpstream` | internal/provider/provider.go:133-142 | Success clears the 32-bit count; a failure that brings it to five opens the breaker for 120 seconds. |
| `Breaker.CircuitBreaker.IsOpen` | internal/provider/provider.go:144-147 | Reports whether the time is before the stored second. |
| `Breaker.BreakerRefinesHistory` | internal/provider/provider.go:133-147 | Over every history in time order the breaker is open exactly while some tripping failure is less than 120 seconds old. |
| `Breaker.TripsIsRunOfFive` | internal/provider/provider.go:133-142 | Below 2^31 outcomes a failure trips exactly when it ends a run of at least five. |
| `Breaker.RunMeans` | internal/provider/provider.go:133-142 | A run of k means the last k outcomes all failed. |
| `Routing.SortRules` | internal/provider/registry.go:90-96 | The exchange sort leaves a permutation ordered by descending prefix length. |
| `Routing.SettlePlace` | internal/provider/registry.go:91-95 | The inner loop makes one more place final. |
| `Routing.MatchRules` | internal/provider/registry.go:245-278 | Returns the first rule whose prefix matches. |
| `Routing.MatchIsLongest` | internal/provider/registry.go:245-278 | In sorted rules that is a rule with a longest matching prefix, and none is returned only if none matches. |
| `Routing.MatchIndependentOfOrder` | internal/provider/registry.go:90-96 | With pairwise distinct prefixes the chosen rule does not depend on the configured order. |
| `Routing.Fnv32` | internal/provider/registry.go:222-229 | The hash loop computes 32-bit FNV over the bytes. |
| `Routing.KnownHashes` | internal/provider/registry.go:222-229 | The published values for the empty text, "a" and "foobar". |
| `Routing.StickyRotate` | internal/provider/registry.go:213-220 | The target list is rotated by the session's hash. |
| `Routing.RotationPermutes` | internal/provider/registry.go:213-220 | Rotation is a permutation. |
| `Routing.RotationCyclic` | internal/provider/registry.go:213-220 | Rotation keeps the cyclic order. |
| `Routing.PickHealthy` | internal/provider/registry.go:170-185 | The filter loop returns the targets whose provider is not open, or all if none is left. |
| `Routing.FilterOmitsOpen` | internal/provider/registry.go:170-185 | An open provider is left out unless every target is open, and a non-empty list stays non-empty. |
| `Routing.FilterKeepsCyclicOrder` | internal/provider/registry.go:170-185 | Filtering after rotating is rotating after filtering. |
| `Routing.FailingProviderOmitted` | internal/provider/registry.go:170-185 | With the breakers' histories: a target is left out exactly when a recent failure ended a run of five for its provider, unless that holds of all. |
| `RetryLoop.ClassifyStatus` | internal/server/handlers.go:56-68 | A status in the key-failure list is hard, else in the retry list soft, else fatal. |
| `RetryLoop.ParseRetryAfter` | internal/server/handlers.go:22-44 | Computes the wait a header asks for, by seconds or date, capped at ten minutes, 0 for anything else. |
| `RetryLoop.SecondsHonouredIff` | internal/server/handlers.go:27-33 | A wait in seconds is the one asked for, capped, exactly when it is below the cap or its nanoseconds modulo 2^64 lie between the cap and 2^63. |
| `RetryLoop.SecondsOverflow` | internal/server/handlers.go:27-33 | Up to 9223372036 seconds the wait is right; with one more it is negative. |
| `RetryLoop.OtherWaits` | internal/server/handlers.go:22-44 | A date asks for the time up to it, at most ten minutes; a past date, a number that is not positive and no readable header ask for none. |
| `RetryLoop.Provider.Settle` | internal/server/handlers.go:359-396 | After a call pool and breaker are told what the specification says, and the request is answered exactly in the specified cases. |
| `RetryLoop.Provider.TryKeys` | internal/server/handlers.go:333-550 | The inner loop over one provider's keys computes the specified run: keys called, attempts left, pool, breaker, ending. |
| `RetryLoop.TryTargets` | internal/server/handlers.go:273-552 | The outer loop over targets computes the specified run over all providers. |
| `RetryProperties.VisitBounded` | internal/server/handlers.go:333-342 | Trying one target uses at most the attempts left and sends no key twice. |
| `RetryProperties.RunBounded` | internal/server/handlers.go:265-552 | In every world at most the attempt budget of calls goes upstream, and no key twice within a target. |
| `RetryProperties.EveryKeyOnce` | internal/server/handlers.go:265-552 | With ready pools, distinct providers, retryable replies and enough budget, every key of every target is called exactly once, in round-robin order, before exhaustion. |
| `RetryProperties.FromPermutes` | internal/provider/pool.go:86-101 | The keys from the cursor on are all the keys. |
| `RetryProperties.LiveKeysFirst` | internal/server/handlers.go:333-342 | While the live keys are those of L, the budget covers them and every reply is retryable, the first calls of a visit are exactly the keys of L, each once, in cyclic order from the cursor. |
| `RetryProperties.StuckOnFallback` | internal/server/handlers.go:334-342 | While every key is cooling and the coolest was tried, the loop uses up its budget without another call. |
| `RetryProperties.StuckIff` | internal/server/handlers.go:334-342 | While every key is cooling, a visit that may go on makes no further call exactly when the key the next pick returns was already tried. |
| `RetryProperties.SecondKeyNeverCalled` | internal/server/handlers.go:334-342 | Two cooling keys, any budget: the second is never called. |
| `RetryOutcomes.RequestEnds` | internal/server/handlers.go:265-552 | In every world the request ends as served, blocked or passed through with a status exactly if the reply to its last call is delivered, stopped by the guardrail, or a rejection with that status in neither list; no call follows such a reply, every earlier reply was one to try again after, and the last status is that of the last reply. |
| `RetryOutcomes.UpFrontOnly` | internal/server/handlers.go:273-331 | A request is answered from the cache or fails for its payload only at the first target with keys where this is the case, with no call at or behind it; an exhausted one met no such target. |
| `RetryOutcomes.ReplyTells` | internal/server/handlers.go:359-396 | What each reply tells pool and breaker: a status of the key-failure list rests the key ten minutes, one of the retry list or a transport error its soft rest, a success wakes it; the breaker hears a failure, a failure, a success; any other status tells them nothing. |
| `Calendar.YearOf` | internal/server/budget.go:114-119 | Every day lies in the year found for it. |
| `Calendar.DateOf` | internal/server/budget.go:114-119 | Every day lies in the month found for it, at the day of the month found. |
| `Calendar.DateRoundTrip` | internal/server/budget.go:127-129 | The calendar date of a day denotes that day. |
| `Calendar.WeekStartsOnMonday` | internal/server/budget.go:141-149 | For every day, isoWeekStart of its ISO year and week is the Monday of its week. |
| `Calendar.SameWeek` | internal/server/budget.go:115-117 | Two days have the same ISO year and week exactly when they lie in the same Monday-to-Sunday week. |
| `Calendar.FirstWeek` | internal/server/budget.go:142 | Week 1 is the week of 4 January. |
| `Calendar.WeekNumbers` | internal/server/budget.go:116-117 | Week numbers run from 1 to at most 53. |
| `Calendar.YearDays` | internal/server/budget.go:127-129 | The leap-year rule. |
| `Calendar.MonthDays` | internal/server/budget.go:134-135 | The lengths of the months. |
| `Calendar.Epoch` | internal/server/budget.go:143-148 | 1 January 1970 is day 719162, a Thursday, and weekdays repeat every seven days. |
| `Calendar.KnownWeeks` | internal/server/budget.go:115-117 | 3 January 2021 lies in week 53 of 2020, 30 December 2024 in week 1 of 2025. |
| `BudgetPeriods.DailyReset` | internal/server/budget.go:127-129 | The daily reset is the next UTC midnight. |
| `BudgetPeriods.WeeklyReset` | internal/server/budget.go:130-133 | The weekly reset is midnight UTC of the Monday after the local ISO week. |
| `BudgetPeriods.MonthlyReset` | internal/server/budget.go:134-135 | The monthly reset is the first UTC midnight of the next month. |
| `BudgetPeriods.KeyTurnsAtReset` | internal/server/budget.go:111-139 | The period key is constant from now up to the next reset and different there, exactly when the period is not weekly or the time is shown in UTC. |
| `BudgetPeriods.WeeklyHoldsIff` | internal/server/budget.go:115-117 | For weeks that holds exactly at offset 0. |
| `BudgetPeriods.KeysContiguous` | internal/server/budget.go:111-123 | In one zone the instants that share a key are contiguous. |
| `Budget.Budgets.constructor` | internal/server/budget.go:69-88 | Clients with a token are configured, later ones replacing earlier, limits of 0 or less meaning none. |
| `Budget.ConfiguredIs` | internal/server/budget.go:69-88 | A token has the settings of the last client given for it, and a limit exactly if that is positive. |
| `Budget.NotConfigured` | internal/server/budget.go:69-88 | Other tokens and the empty one are not configured. |
| `Budget.Budgets.SpentFor` | internal/server/budget.go:156-167 | The recorded amount if it belongs to the current period, else 0. |
| `Budget.Budgets.Exceeded` | internal/server/budget.go:169-176 | A limited token is over exactly when its current spending has reached the limit. |
| `Budget.Budgets.Add` | internal/server/budget.go:178-197 | A positive charge to a limited token is added to its current period, starting a new period at 0; nothing else changes. |
| `Budget.RecordedIsSumIff` | internal/server/budget.go:178-197 | Over every history of charges in any order, what is recorded under a period's key is the sum of the period's charges exactly when none of them is followed by a positive charge of the token in another period. |
| `Budget.LateChargeErases` | internal/server/budget.go:178-197 | A charge of the day before that comes late erases what was spent in the new day. |
| `Budget.SpentIsPeriodSum` | internal/server/budget.go:156-197 | Over every history of charges in time order, spending is the sum of the charges in the current period, across resets. |
| `Budget.RefusedIff` | internal/server/budget.go:169-176 | A configured client is refused exactly if its limit is positive and its charges in the current period have reached it, over every history in time order. |
| `BudgetOvershoot.OvershootBounded` | internal/server/handlers.go:202-538 | In every state reachable by admissions and completions, spending is below the limit plus what the permitted number of requests in flight can cost. |
| `BudgetOvershoot.OvershootReached` | internal/server/handlers.go:202-538 | From any idle state below the limit a full load overshoots by all of it, so the bound is sharp. |
| `TokenBucket.Limiter.constructor` | internal/server/ratelimit.go:31-41 | The rate is rpm / 60 and the burst rpm, with 30 for rpm of 0 or less. |
| `TokenBucket.Limiter.Allow` | internal/server/ratelimit.go:43-63 | The call is admitted and the key's bucket updated as specified. |
| `TokenBucket.TokensInBounds` | internal/server/ratelimit.go:52-62 | Over every run each bucket holds between 0 and the burst. |
| `TokenBucket.RateBound` | internal/server/ratelimit.go:43-63 | For every run, key and interval the requests admitted are at most burst plus rate times length. |
| `TokenBucket.SpacedNeverRefused` | internal/server/ratelimit.go:43-63 | A key whose calls are spaced by the time of one token is never refused. |
| `TokenBucket.BurstAdmitted` | internal/server/ratelimit.go:43-63 | Of any number of calls a rested key makes at once exactly those up to the burst are admitted. |
| `TokenBucket.MinuteRested` | internal/server/ratelimit.go:31-63 | A key that has not called for a minute may make rpm calls at once, and no more. |
| `TokenBucket.TokenTime` | internal/server/ratelimit.go:35 | The time of one token is 60 / rpm seconds. |
| `TokenBucket.KeysIndependent` | internal/server/ratelimit.go:46-51 | A key's bucket is what it would be if it were the only client. |
| `Drain.NoWakeupIsLost` | internal/server/ratelimit.go:76-103 | In every interleaving, if the waiter is blocked and the count is 0, done is closed or an end that reached zero is on its way to closing it. |
| `Drain.WakeupArrives` | internal/server/ratelimit.go:81-90 | From such a state the ends take boundedly many steps, and when none is left the waiter can return. |
| `Drain.DoubleClose` | internal/server/ratelimit.go:81-90 | A run in which two ends close the channel. |
| `Drain.DoubleCloseIff` | internal/server/ratelimit.go:81-90 | Exactly from which states the ends on their way can close the channel twice. |
| `Drain.DoubleClosePossibleIff` | internal/server/ratelimit.go:76-103 | Over all interleavings, once closing, a second close can still happen exactly unless done is closed and no end that found it open is left. |
| `Drain.EarlyReturn` | internal/server/ratelimit.go:92-103 | A run in which wait returns although the count has not been 0 since closing. |
| `Drain.EarlyReturnIff` | internal/server/ratelimit.go:92-103 | Over all interleavings, from a waiting state with requests in flight, wait can return undrained exactly when done is already closed or an end that reached zero is still on its way. |
| `Drain.OrderlyRunsAreSafe` | internal/server/ratelimit.go:76-103 | If no request begins while an end is on its way, the channel is closed at most once and wait returns only after the count has been 0 since closing. |
| `Cache.Cache.constructor` | internal/cache/cache.go:30-42 | An empty cache with the defaults filled in. |
| `Cache.Cache.Get` | internal/cache/cache.go:54-70 | A hit only if present and not expired; an expired entry leaves the map, not the list. |
| `Cache.Cache.Put` | internal/cache/cache.go:93-105 | The same with the cache's own time to live. |
| `Cache.Cache.PutWithTTL` | internal/cache/cache.go:72-84 | Stores the entry, lists a new key, and drops the oldest keys until the list fits. |
| `Cache.Cache.Flush` | internal/cache/cache.go:86-91 | Empties map and list. |
| `Cache.Cache.Len` | internal/cache/cache.go:107-111 | The number of entries held. |
| `Cache.CapacityHolds` | internal/cache/cache.go:54-105 | Over every run the keys held are listed and there are at most max. |
| `Cache.HitIsLatest` | internal/cache/cache.go:54-70 | Over every run there is a hit exactly if the key is held and its put is no older than its own time to live or, without one, the cache's; it is the entry of the latest put on the key since the last flush. |
| `Cache.PutReadableIff` | internal/cache/cache.go:72-84 | An entry just put is found exactly when its key was present, the list had room, or another key was at its head; else it is gone. |
| `Cache.PutReadable` | internal/cache/cache.go:72-84 | While no expired entry was dropped since the last flush every put can be read back. |
| `Cache.FirstInFirstOut` | internal/cache/cache.go:72-105 | Until then the list is duplicate-free, equals the key set and is the last max insertions of a first-in first-out cache. |
| `Cache.SecondPutLost` | internal/cache/cache.go:65-84 | With one place: put, expire, put again, and the second put is lost. |
| `Cache.DuplicateFreeIff` | internal/cache/cache.go:72-84 | A put keeps a duplicate-free list so exactly when its key is held, or is not listed, or is at the head of a full list. |
| `Cache.DuplicateEvictsLive` | internal/cache/cache.go:65-84 | A run with two places: put, expire, put again, put another key, and the live first key is gone although both would fit. |
| `Similarity.SqrtF` | internal/cache/cache.go:149-158 | The loop computes the 24th Newton iterate. |
| `Similarity.RootBounds` | internal/cache/cache.go:149-158 | For every positive x the square lies between x and x (1 + max(x, 1/x) / 4^24). |
| `Similarity.SlackIs` | internal/cache/cache.go:149-158 | The relative error bound is max(x, 1/x) divided by 281474976710656. |
| `Similarity.RootLow` | internal/cache/cache.go:149-158 | However large x is, the square of the root is at least x^2 / 4^24. |
| `Similarity.RootLowOne` | internal/cache/cache.go:149-158 | However small x is, the square of the root is at least 1 / 4^24. |
| `Similarity.Cosine` | internal/cache/cache.go:136-147 | The loop computes the quotient of the inner product and the two roots, 0 for a zero vector. |
| `Similarity.CauchySchwarz` | internal/cache/cache.go:136-147 | The square of the inner product is at most the product of the squared lengths. |
| `Similarity.CosineBounded` | internal/cache/cache.go:136-147 | The similarity lies between -1 and 1. |
| `Similarity.CosineNearTrue` | internal/cache/cache.go:136-147 | The similarity has the sign of the inner product, and its square is that of the true cosine, at most smaller by the errors of the two roots. |
| `Similarity.SelfSimilarity` | internal/cache/cache.go:136-147 | A vector's similarity to itself is at least 1 / (1 + the error of the root). |
| `Similarity.LargeVectorsDiffer` | internal/cache/cache.go:136-147 | No vector is more similar to one of length l than 2^24 / l. |
| `Similarity.SelfSimilarityFades` | internal/cache/cache.go:136-147 | A vector's similarity to itself is at most 4^24 divided by its squared length, and at most 4^24 times that. |
| `Similarity.SemanticIndex.constructor` | internal/cache/cache.go:126-134 | Defaults for a threshold or size of 0 or less. |
| `Similarity.SemanticIndex.Add` | internal/cache/cache.go:160-167 | The entry is appended and the oldest dropped beyond max. |
| `Similarity.IndexKeepsLast` | internal/cache/cache.go:160-167 | After any adds the index holds the last max entries in the order they came. |
| `Similarity.SemanticIndex.Search` | internal/cache/cache.go:169-184 | Hits exactly when the first most similar entry reaches the threshold and has a key, and returns it. |
| `Similarity.SearchAfterAdd` | internal/cache/cache.go:160-184 | Searching for a non-zero vector just added always hits when no stored key is empty and the threshold leaves room for the error of the root. |
| `Similarity.HugeVectorsMiss` | internal/cache/cache.go:169-184 | Searching for a vector whose squared length exceeds 4^24 / threshold^2 never hits, whatever is stored, the vector itself included. |
| `Similarity.AloneMisses` | internal/cache/cache.go:160-184 | Searching for a vector just added to an empty index misses if its squared length is above 4^24 / threshold or below threshold / 4^24. |

## Left out

- JSON, base64, regular expressions: the text form of JSON and base64 is opaque (`valid`, `canon`, `json`); server-sent events are modelled from the trimmed line on, without scanner line limits.
- `message_start` without a message object is treated as any other event; the constant fields `role` and `type`, flushing and thinking blocks' deltas carry no content here.
- `RedactRequestText`, `RequestTraits` and `EstimateRequestTokens`: they summarise or edit a request and take no part in either translation.
- CRCs of event-stream frames are not checked by the code and not modelled.
- `Resp.ReadReply`: Go's allocation limits and the overflow of n + 2 for a bulk length near 2^63 are not modelled.
- `cmd`: reconnects, deadlines and the reply error type.
- `KeyPool.KeyPool.Pick`: keys are values in a list, so the sharing of key pointers is not captured; each method under the mutex is one step.
- `Breaker.CircuitBreaker.NoteUpstream`: its atomic operations are taken as one step.
- `RetryLoop.Provider.TryKeys`: begin and end metrics, logging, response headers, the body of the reply, and the status and message reported on exhaustion are left out.
- `RetryProperties.EveryKeyOnce`: other requests using the same pools at the same time are not modelled.
- `Routing.MatchRules`: chains, model maps, prefix stripping and weighted balancing of a rule; the hash offset assumes a 64-bit int.
- `BudgetPeriods.KeyTurnsAtReset`: a zone has a fixed offset, so changes of local time inside a week are not modelled; a lifetime budget has no reset; keys are values, not formatted strings.
- `Budget.Budgets.Exceeded`: the shared store, the limit updates and additions by the administrator; the read of the maps outside the mutex is taken as one step.
- `Budget.RecordedIsSumIff`: all charges are in one zone of fixed offset.
- `TokenBucket.Limiter.Allow`: the clock is read before the mutex, so two calls can swap; the runs have nondecreasing times.
- `Drain.NoWakeupIsLost`: one waiter, as in the server; its context may expire at any time.
- `Cache.Cache.Get`: the hash that makes keys is opaque.
- `Similarity.RootBounds`: numbers are reals, so floating-point rounding is not modelled, here and for money and tokens.
- Weighted load balancing, memory store, log aggregates, prices, metrics, authentication, signing, dashboard and HTTP plumbing.

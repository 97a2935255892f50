# Verified model of the gateway

The gateway takes requests in Anthropic's Messages format, applies usage rules, sends them to
Amazon Bedrock or to a LangChain provider, and streams the answer back while keeping an audit
record. This project models five connected parts of it in Dafny and proves what they promise.
`dafny verify dfyconfig.toml` checks everything.

**Streaming.** `ConverseStream.dfy` is the generator that turns Bedrock events into internal
chunks, both as a step function and as the code's own loop over mutable variables, with a
consumer that may stop at any chunk. Three views of one answer are then shown to agree:
`StreamFold.dfy` (what was stored is what was sent), `ClientView.dfy` (what a client rebuilds
from the SSE events of `SseEncoder.dfy` is the stored response) and `StreamAgreement.dfy`
(streaming gives what invoking gives); `ThreeViews.dfy` closes the triangle between the client
and the non-streaming response. `StreamReport.dfy` follows the reported token counts and stop
reason to every place they reach, and `StreamSpelled.dfy` shows that every answer can be streamed.
`StreamGrammar.dfy` is the grammar of the chunks, and
`LangChainStream.dfy` is the stream of the other provider; `LangChainView.dfy` composes it with
the encoder and compares what a client rebuilds with what is stored.

**The producer and its client.** `StreamProtocol.dfy` is the bounded queue, the disconnect flag,
the draining producer and the one audit write, as a transition system over all interleavings, with
a client that leaves while the generator waits for an event or while it is suspended at its yield.
`StreamOutcome.dfy` says what its row says; `StreamAudit.dfy` puts the Bedrock stream, the encoder and this system together, and
`LangChainAudit.dfy` the LangChain stream.

**Configuration.** `ConfigMerge.dfy` and `ConfigDicts.dfy` are deep merge, on values and on
dict objects in place; `ConfigIncludes.dfy` and `ConfigRefs.dfy` are includes and
cross-references, each compared with plain unfolding that knows nothing of cycles;
`IncludeMeaning.dfy` and `ConfigPaths.dfy` say what an include key and a ref path mean.

**Rules.** `Rules.dfy` and `RulesConvert.dfy` are matching and its stored JSON; `UsageWindow.dfy`,
`QuotaMetadata.dfy` and `QuotaAgreement.dfy` are moving-window quotas and Retry-After;
`RulesCache.dfy` is the cache of several workers over one database. `RuleMeaning.dfy` says what
conditions look at and what rows and JSON become rules, and `UsageCounted.dfy` which requests count
and for how much.

**Translation.** `AnthropicWire.dfy` prints and parses content blocks, and `CitationWire.dfy` and
`WireMeaning.dfy` say what they hold, key by key; `DocumentNames.dfy` and `BedrockRequest.dfy`
convert a request's messages and name its documents, `DocumentTitles.dfy` and `RequestMeaning.dfy`
say what becomes of titles, media types and sources, and `BedrockContent.dfy` shows what conversion
keeps of their content.

## What the proofs found

- Tool arguments that parse to JSON other than an object make `finally` raise
  (src/ttllm/core/providers/bedrock/converse.py:502-506, 727): the stream then has no terminal
  chunk and the accumulator is left unset. `StreamGrammar.OutputGrammar` says exactly when,
  `StreamGrammar.ArrayArgumentsLoseTheEnding` gives a stream.
- Tool arguments that do not parse are stored as an empty object, so a client cannot rebuild what
  the gateway stores (`ClientView.ClientReassembly`, `ClientView.BrokenArgumentsDiffer`).
- A failed stream is accounted with zero tokens, whatever usage Bedrock had reported: the encoder
  returns at the ERROR chunk, and the row is written before the generator's `finally` has run
  (`StreamAudit.RowOfStream`, `StreamAudit.UsageOfAFailureIsLost`).
- A client that leaves once, while the generator waits for an event, is harmless to the very end
  (`StreamProtocol.UncancelledRunsEnd`). The request can lose its row in two ways, both of which
  cancel the producer: the generator is closed while it is suspended at its yield, or it is cancelled
  a second time while it awaits the shielded producer. It then has no row unless it was written before
  (`StreamProtocol.CancellingLosesTheRow`), and apart from a producer that raises there is no other
  way (`StreamProtocol.NoRowExactlyWhenCancelledFirst`).
- A producer cancelled by a generator closed at its yield still puts the end marker, since the flag
  is not set; with a full queue it waits forever, and this is possible exactly for streams of at
  least 17 events (`StreamProtocol.HangExactlyWhenQueueCanFill`).
- `merge_dicts` is associative exactly on layers that can be merged pairwise
  (`ConfigMerge.Associative`, `ConfigMerge.OrderCanMatter`). An empty source dict merges into
  anything, because its loop never touches the destination.
- A rule that a worker writes after a load of its own has read the table, and finishes before that
  load is installed, is missed by that worker for the TTL (`RulesCache.OlderExactlyWhenOvertaken`,
  `RulesCache.OvertakenForTheTtl`, `RulesCache.LoadUnderWayMissesTheWrite`).
- The gateway's own README (README.md:342-343) says that one rule cannot put two windows on one
  measure. In the code the namespace is shared by all rules, so two rules cannot either;
  `QuotaAgreement.PrecomputingIsExact` is the exact condition.
- A document name can hold two blanks in a row, when a title is cut off right after a blank and
  the name then needs a suffix (`DocumentNames.NameIsValid`, `DocumentNames.TwoBlanksHappen`).
- LangChain tool arguments without an id are streamed and not stored;
  `LangChainStream.ArgumentsAgreeExactlyWithoutStrays` says exactly when that shows, and
  `LangChainStream.StrayHappens` gives a stream.
- LangChain arguments that come late reach a block that has been stopped, and ones without an id
  can reach a text block; text after a call is stored before it; and get_response leaves out the
  cache tokens that message_delta has (`LangChainView.SseGrammarExactly`,
  `LangChainView.ReassemblyExactly`, `LangChainView.EndingExactly`).
- Tool arguments that parse to JSON other than an object cost a LangChain stream its audit row,
  but only if its client stays: with 499 no response is built
  (`LangChainAudit.NoRowExactlyForRejectedCalls`, `LangChainAudit.ArrayArgumentsHaveNoRow`).

## Model

| member | source | states |
|---|---|---|
| `ConverseStream.StreamConverse` | src/ttllm/core/providers/bedrock/converse.py:606-755 | The whole generator, for a consumer that takes at most `limit` chunks: what it receives is a prefix of the full output, and the accumulator ends up with the usage, stop reason, rebuilt parts and remapped verdicts of the loop as it stood at that moment, also after an error or an early close; a rebuilt part that is rejected makes `finally` raise and leaves the accumulator unset |
| `ConverseStream.StreamEvents` | src/ttllm/core/providers/bedrock/converse.py:638-755 | The same for a stream that did open, with the error recorded only if the consumer was still there when the loop raised |
| `ConverseStream.DrainEvents` | src/ttllm/core/providers/bedrock/converse.py:638-719 | The `async for` loop over mutable locals performs the run of the per-event step function, up to the consumer's limit |
| `ConverseStream.ChunkGenerator.Turn` | src/ttllm/core/providers/bedrock/converse.py:639-719 | One event changes the locals and yields chunks as the step function says, unless the consumer closes in the middle of it |
| `ConverseStream.ChunkGenerator.OnStart` | src/ttllm/core/providers/bedrock/converse.py:643-662 | A contentBlockStart resets the index's builder and sends one BLOCK_START, also on an index already open |
| `ConverseStream.ChunkGenerator.OnDelta` | src/ttllm/core/providers/bedrock/converse.py:664-699 | A delta opens its block if need be, appends to the builder of its kind, and raises on a builder of another kind |
| `ConverseStream.LazyBlocks` | src/ttllm/core/providers/bedrock/converse.py:669-678 | A delta whose block had no start opens it: reasoning of whatever form opens a thinking block, anything else a text block |
| `ConverseStream.ChunkGenerator.OnStop` | src/ttllm/core/providers/bedrock/converse.py:701-705 | A contentBlockStop always sends BLOCK_STOP and moves the default index on |
| `ConverseStream.ChunkGenerator.Finish` | src/ttllm/core/providers/bedrock/converse.py:739-755 | The blocks still open are closed in ascending order, then comes the final chunk, as far as the consumer takes them |
| `ConverseStream.Settle` | src/ttllm/core/providers/bedrock/converse.py:726-755 | From `finally` on: the accumulator is set from the rebuilt parts, and the ending is sent only if nothing failed and the consumer is there |
| `ConverseStream.AssembledToParts` | src/ttllm/core/providers/bedrock/converse.py:491-509 | The loop over the sorted indices rebuilds the parts of all builders, or fails at the first that is rejected |
| `ConverseStream.RemapSafeguards` | src/ttllm/core/providers/bedrock/converse.py:316-350 | The remapping loop treats each entry as the remapping of one entry says, and keeps their order and number |
| `ConverseStream.RemapIsPositional` | src/ttllm/core/providers/bedrock/converse.py:323-349 | With as many verdicts as tool calls, and distinct call ids, the n-th verdict goes to the n-th call and no verdict is lost; otherwise none is kept |
| `ConverseStream.DictZipIsPositional` | src/ttllm/core/providers/bedrock/converse.py:342-342 | `dict(zip(ids, verdicts))` over distinct ids keeps every pair in its place |
| `ConverseStream.IdsInOrder` | src/ttllm/core/providers/bedrock/converse.py:353-354 | The ids that verdicts go to are those of the tool calls, in order, whatever stands between them |
| `ConverseStream.LastVerdictStays` | src/ttllm/core/providers/bedrock/converse.py:342-342 | When ids repeat, the last verdict for an id stays |
| `StreamFold.StoredIsWhatWasSent` | src/ttllm/core/providers/bedrock/converse.py:638-737 | However the stream ends and wherever its consumer stops it, the builders stored in `finally` are the fold of exactly the chunks received |
| `StreamFold.RunMirrors` | src/ttllm/core/providers/bedrock/converse.py:638-719 | The same at every chunk of the loop: at each yield the builders are the fold of the chunks sent so far |
| `StreamFold.HandleMirrors` | src/ttllm/core/providers/bedrock/converse.py:639-719 | One event keeps the builders equal to the fold of the chunks |
| `StreamGrammar.OutputGrammar` | src/ttllm/core/providers/bedrock/converse.py:630-755 | For every event sequence each delta lies inside an open block, all blocks are closed at MESSAGE_STOP, and one terminal chunk ends the stream, an ERROR exactly when the loop raised; a stream has no terminal chunk exactly when it did not fail and some tool call's arguments are JSON other than an object |
| `StreamGrammar.ArrayArgumentsLoseTheEnding` | src/ttllm/core/providers/bedrock/converse.py:502-506 | A stream without an ending: a tool call whose arguments are an empty array |
| `ConverseStream.PartsFailExactly` | src/ttllm/core/providers/bedrock/converse.py:491-509 | The parts can be built unless some tool call's arguments parse to JSON other than an object |
| `StreamGrammar.BracketsFollowBedrock` | src/ttllm/core/providers/bedrock/converse.py:643-705 | The chunks are well bracketed per index if Bedrock's events are, and for streams that do not fail only if they are |
| `StreamGrammar.RunKeepsGrammar` | src/ttllm/core/providers/bedrock/converse.py:638-719 | Tracking the chunks gives the loop's set of open blocks at every step |
| `StreamAgreement.Invoke` | src/ttllm/core/providers/bedrock/provider.py:99-114 | The non-streaming path fills the accumulator from the parsed response, and raises exactly when a tool input is not an object |
| `StreamAgreement.StreamingAgreesWithInvoking` | src/ttllm/core/providers/bedrock/provider.py:81-130 | Every answer of text, cited text, tool calls and reasoning, cut into deltas in any way, gives the same content, stop reason, usage and verdicts when streamed as when invoked |
| `StreamAgreement.DrainedAnswersAsInvoked` | src/ttllm/core/providers/bedrock/provider.py:43-93 | The accumulator left by the stream gives the same get_response, raw usage and cost as the one filled by invoke |
| `StreamAgreement.StreamAndInvoke` | src/ttllm/core/providers/bedrock/provider.py:99-130 | Both paths side by side on two new accumulators: the stream raises exactly when invoking does, and otherwise response, raw usage and cost are equal, and those of the parsed answer |
| `StreamReport.StreamAndReport` | src/ttllm/core/providers/bedrock/converse.py:707-737 | The accumulator of a drained stream has the token counts that Bedrock reported last, field by field and zero where it reported none, their price at the model's four rates, and the stop reason that Bedrock's means |
| `StreamReport.InvokeAndReport` | src/ttllm/core/providers/bedrock/provider.py:99-114 | The accumulator that invoking fills has the counts, price and stop reason that the response reports |
| `StreamReport.LastReportsCount` | src/ttllm/core/providers/bedrock/converse.py:707-719 | The same for the loop's variables, and the wire's usage made of them |
| `StreamReport.ResponseReports` | src/ttllm/core/adapters/anthropic.py:427-448 | The response for a client has the reported counts, cache tokens only if there were some, and the stop reason |
| `SseEncoder.ResponseIsWritten` | src/ttllm/core/adapters/anthropic.py:427-448 | A response holds the result's parts, each as its block, or one empty text, with its model, stop reason, verdicts and usage, and fails exactly if a part cannot be printed |
| `SseEncoder.SilentStreamEnds` | src/ttllm/core/adapters/anthropic_stream.py:46-56 | A stream that tells nothing of how it ended closes as a turn that ended, without usage |
| `StreamReport.ClientIsTold` | src/ttllm/core/adapters/anthropic_stream.py:108-139 | So has the message_delta that closes a stream |
| `StreamReport.RowReports` | src/ttllm/api/messages.py:309-338 | So has the audit row of a stream that completed, with 200 or 499 |
| `StreamReport.CountersOnTheWay` | src/ttllm/core/providers/bedrock/converse.py:726-737 | Until the chunks of the loop are over, the counters are zero |
| `StreamSpelled.AnswerCanBeStreamed` | src/ttllm/core/providers/bedrock/converse.py:638-719 | Every answer of text, cited text, reasoning and tool calls whose inputs can be written as JSON has a stream |
| `StreamAgreement.OtherBlocksAreParsed` | src/ttllm/core/providers/bedrock/converse.py:478-488 | The blocks that are not streamed: images with the media type of their format, and all others as text |
| `StreamAgreement.CutIsRebuilt` | src/ttllm/core/providers/bedrock/converse.py:491-509 | The builder fed with any cut of one block becomes the part that parsing the block gives, and its argument text, if any, parses |
| `StreamAgreement.FeedingMoves` | src/ttllm/core/providers/bedrock/converse.py:680-699 | Deltas fed to an open block end up in its builder: texts joined, citations in order, the last signature |
| `ThreeViews.ClientSeesTheAnswer` | src/ttllm/core/adapters/anthropic_stream.py:33-139 | However an answer of at least one block is cut into deltas, what a client puts together from the events has the content of the non-streaming response, and the closing event its stop reason, usage and verdicts |
| `StreamAgreement.RunFeedsEverySlot` | src/ttllm/core/providers/bedrock/converse.py:639-719 | What becomes of one index depends only on the events about that index, in order |
| `StreamAgreement.RunKeepsTrailer` | src/ttllm/core/providers/bedrock/converse.py:707-719 | Stop reason, verdicts and usage after the loop are those of the last messageStop and metadata events |
| `SseEncoder.EncodeSse` | src/ttllm/core/adapters/anthropic_stream.py:33-139 | The encoder's loop yields the events of the encoding function, and raises when a block cannot be written or the chunks break off |
| `SseEncoder.CloseBlocks` | src/ttllm/core/adapters/anthropic_stream.py:126-128 | The defensive loop stops every block still open, in ascending order |
| `ClientView.SseShape` | src/ttllm/core/adapters/anthropic_stream.py:45-139 | Over the Bedrock producer the events are message_start, ping, one event for each chunk, then message_delta and message_stop with the defensive loop adding nothing; or one error event at the end and no message_delta; or, if the parts cannot be built, an exception after the chunks of the loop and neither |
| `ClientView.SseGrammar` | src/ttllm/core/adapters/anthropic_stream.py:58-139 | For well-bracketed Bedrock events the part in between is (start delta* stop)* per index, with all blocks closed |
| `ClientView.ClientReassembly` | src/ttllm/core/adapters/anthropic_stream.py:58-117 | Folding the events of a stream that did not fail gives the content of the stored response if and only if there is at least one block and all tool arguments parse |
| `ClientView.ClientEnding` | src/ttllm/core/adapters/anthropic_stream.py:108-139 | The closing message_delta carries the stop reason, usage and verdicts of the stored response |
| `ClientView.BrokenArgumentsDiffer` | src/ttllm/core/providers/bedrock/converse.py:500-506 | A stream on which the two differ: a tool call whose arguments do not parse is stored with none, and the client cannot put it together |
| `ClientView.FoldCommutes` | src/ttllm/core/providers/bedrock/converse.py:680-699 | Folding wire events and folding chunks commute with turning builders into client blocks |
| `ClientView.RunIsTyped` | src/ttllm/core/providers/bedrock/converse.py:664-699 | Each delta the producer sends has the kind of its block |
| `StreamProtocol.Reachable` | src/ttllm/api/messages.py:260-359 | The invariants of queue, order, producer and consumer hold in every reachable state of all interleavings |
| `StreamProtocol.AuditRow` | src/ttllm/api/messages.py:287-338 | At most one row is written, after the stream was drained to its end, with the final counters; its status is the classified error, else 499 with the client gone, else 200, and only a 200 row has the response; a producer that raised, in building that response or in the write, has written none |
| `StreamProtocol.RowOfRequest` | src/ttllm/api/messages.py:309-338 | The row is the one for the final counters and the flag, one with 200 only if its response can be built, and a client that stayed has received all that was offered |
| `StreamProtocol.FlagAtDecision` | src/ttllm/api/messages.py:309-338 | The row is fixed by the disconnect flag as it stood when the stream had been drained |
| `StreamProtocol.DecisionFixesTheRow` | src/ttllm/api/messages.py:309-341 | The whole outcome, when everything has come to a stop and nobody cancelled the producer: the flag at the decision fixes the row, or that there is none because writing it, or building the response of a 200, raises |
| `StreamProtocol.AuditNonInterference` | src/ttllm/api/messages.py:287-338 | Two runs of one request write the same counters whenever the client leaves; their rows differ at most in 200 against 499 |
| `StreamProtocol.Delivery` | src/ttllm/api/messages.py:265-351 | The queue holds at most 16 events, what was queued is an in-order prefix of what was offered, all of it while the client is there, and a client that stays receives everything |
| `StreamProtocol.LeavingFindsOneEvent` | src/ttllm/api/messages.py:343-355 | A cancellation that reaches the generator while it waits for an event finds at most one event in the queue |
| `StreamProtocol.StuckStates` | src/ttllm/api/messages.py:268-359 | If neither task can move, both have ended, or the generator was closed at its yield over a full queue |
| `StreamProtocol.Progress` | src/ttllm/api/messages.py:268-359 | Every run ends within ten steps per event and a few more; one that has stopped has ended or hangs in that one way, and a producer that came to its end has written its row unless it raised |
| `StreamProtocol.UncancelledRunsEnd` | src/ttllm/api/messages.py:268-359 | As long as nobody cancels the producer there is no deadlock, whenever the client leaves: every run that has stopped has both tasks done, the end marker included, and its row written unless the producer raised |
| `StreamProtocol.RunsOut` | src/ttllm/api/messages.py:268-359 | From every reachable state the two tasks can go on without the client until they stop |
| `StreamProtocol.CancellingLosesTheRow` | src/ttllm/api/messages.py:343-359 | Once the producer has been cancelled, by a generator closed at its yield or cancelled a second time while it awaits the shielded producer, nothing more is written: the request has a row then only if it had one already |
| `StreamProtocol.NoRowExactlyWhenCancelledFirst` | src/ttllm/api/messages.py:268-359 | When everything has come to a stop, a request is without a row if and only if the producer raised instead or was cancelled, in one of those two ways, before it had written one |
| `StreamProtocol.ClosedEarlyLeavesNoRow` | src/ttllm/api/messages.py:350-359 | A schedule without a row, which is possible for every stream with an event: the generator is closed while the first event is being sent |
| `StreamProtocol.CancelledTwiceLeavesNoRow` | src/ttllm/api/messages.py:354-359 | Another, possible for every stream: the generator is cancelled while it waits for the first event, and again while it awaits the producer |
| `StreamProtocol.HangExactlyWhenQueueCanFill` | src/ttllm/api/messages.py:339-359 | Closing the generator at its yield can wait forever, for a cancelled producer whose end marker finds no room, if and only if at least 17 events are offered |
| `StreamOutcome.ErrorsAreClassified` | src/ttllm/api/messages.py:28-63 | Every provider error has its status, its type and its message, for each of AWS's error codes |
| `StreamOutcome.EventsAreOffered` | src/ttllm/api/messages.py:287-307 | What is offered to a client is the events in order, with an error frame after them exactly if an exception reached the endpoint and the provider recorded none itself |
| `StreamOutcome.RowSaysWhatHappened` | src/ttllm/api/messages.py:309-338 | Of every schedule: from the decision on there is at most one row, with the status and text of the provider's recorded error or else of the exception, or 499 and its text if the client had left, or 200 with a response |
| `StreamOutcome.NothingIsQueuedForTheGone` | src/ttllm/api/messages.py:268-285 | When the client has left before the row was written, at most the event that is on its way is still queued, and no end marker |
| `StreamOutcome.EventCanBeDropped` | src/ttllm/api/messages.py:275-283 | A run in which an event on its way is dropped because the client left |
| `StreamOutcome.EventCanBeLate` | src/ttllm/api/messages.py:272-285 | A run in which an event is queued after the producer was cancelled, by a put that outlives it |
| `StreamOutcome.CountersFollowEvents` | src/ttllm/api/messages.py:287-292 | Until the stream is over, the counters are those of the last event it gave |
| `StreamProtocol.StaysSettled` | src/ttllm/api/messages.py:326-338 | Once decided, the row is written as decided or not at all |
| `StreamAudit.OfferedIsRendered` | src/ttllm/api/messages.py:287-307 | What the producer offers are the encoder's events, and one made-up error frame exactly when the encoder raises because the parts cannot be built |
| `StreamAudit.ResponseIsBuilt` | src/ttllm/api/messages.py:320-325 | The response of a Bedrock stream that completed can always be built |
| `StreamAudit.BedrockRequestsHaveRows` | src/ttllm/api/messages.py:287-338 | A request served from Bedrock has its row when everything has come to a stop, if nobody cancelled the producer and the write did not raise |
| `StreamAudit.RowOfStream` | src/ttllm/api/messages.py:287-338 | The row of a Bedrock stream: the classified error and zero counters if it failed or its parts cannot be built, otherwise the reported usage with 200 or 499, and a client that stayed has received all events of a 200 |
| `StreamAudit.UsageOfAFailureIsLost` | src/ttllm/core/adapters/anthropic_stream.py:119-124 | A stream and a run of it whose row has counters of zero although Bedrock reported usage: it fails after that |
| `StreamAudit.AuditedAsInvoked` | src/ttllm/api/messages.py:326-338 | The row of a streamed answer holds the usage of the non-streaming response, whenever the client leaves |
| `AnthropicWire.ConvertToolResult` | src/ttllm/core/adapters/anthropic.py:189-206 | The loop over a tool result's content converts every item in order or fails at the first unsupported one |
| `AnthropicWire.CitationsSurvive` | src/ttllm/core/adapters/anthropic.py:87-125 | Citations of all five kinds, printed and parsed, print the same again, in order and with none lost |
| `AnthropicWire.DocumentCitationSurvives` | src/ttllm/core/adapters/anthropic.py:91-125 | The same for citations into documents by character, page or block |
| `AnthropicWire.SearchCitationSurvives` | src/ttllm/core/adapters/anthropic.py:91-125 | The same for search results |
| `AnthropicWire.WebCitationSurvives` | src/ttllm/core/adapters/anthropic.py:91-110 | The same for web citations, which drop what the wire does not carry |
| `AnthropicWire.ItemsSurvive` | src/ttllm/core/adapters/anthropic.py:153-171 | The same for the items of a document's pre-chunked content |
| `AnthropicWire.PrintParsePrint` | src/ttllm/core/adapters/anthropic.py:209-424 | For every part that can be printed, parsing the printed block succeeds and printing the result gives the same block |
| `CitationWire.LocationIsPrinted` | src/ttllm/core/adapters/anthropic.py:106-125 | Each of Bedrock's five kinds of location is printed with its own keys and no others: start and end, page or block numbers, titles and sources each under its key; a location of another kind is dropped |
| `CitationWire.CitationReachesClient` | src/ttllm/core/providers/bedrock/converse.py:683-687 | A citation delta of Bedrock's is one citations_delta of the same block, printed so |
| `CitationWire.CitationIsRead` | src/ttllm/core/adapters/anthropic.py:87-103 | A citation of a request is read key by key, is rejected if a value has another type, and is dropped if it is of an unknown type |
| `CitationWire.CitationsAreRead` | src/ttllm/core/adapters/anthropic.py:140-144 | A list of them is read in order |
| `CitationWire.ConcatJoins` | src/ttllm/core/providers/bedrock/converse.py:447-447 | The cited text is the pieces of the source, joined |
| `WireMeaning.BlockIsRead` | src/ttllm/core/adapters/anthropic.py:128-246 | A block of a request is refused exactly if it or something in it is of a kind that the gateway does not take; otherwise its part says what the block says and asks for a cache point just when the block, or something in it, is marked |
| `WireMeaning.TextIsRead` | src/ttllm/core/adapters/anthropic.py:140-144 | A text block's citations are those that were read, if there are any |
| `WireMeaning.RequestSaysTheMessage` | src/ttllm/core/providers/bedrock/converse.py:237-281 | What Bedrock is sent for a message says what the client's blocks said, in the same order, with a cache point right after each marked block and nowhere else |
| `WireMeaning.BlockIsPrinted` | src/ttllm/core/adapters/anthropic.py:388-424 | A printed block says what the part says, and is never marked |
| `WireMeaning.FieldsArePrinted` | src/ttllm/core/adapters/anthropic.py:388-424 | Field by field: media types, titles, contexts and what passes through unread |
| `WireMeaning.OtherFieldsAreRead` | src/ttllm/core/adapters/anthropic.py:231-246 | Field by field what is read of redacted thinking and server tools |
| `WireMeaning.RepeatedFieldsFail` | src/ttllm/core/adapters/anthropic.py:412-421 | Extra fields of a server tool that repeat one of its own cannot be printed |
| `ConfigRefs.FindTarget` | src/ttllm/config.py:307-312 | The loop that walks a ref path finds the value of the dotted path or fails where a key is missing |
| `ConfigPaths.SplitCutsAtDots` | src/ttllm/config.py:312-312 | A ref path is cut at all of its dots and nowhere else |
| `ConfigPaths.DottedIsSplit` | src/ttllm/config.py:312-312 | Keys without dots, joined with dots, are cut into those keys again |
| `ConfigPaths.PathLeadsToTarget` | src/ttllm/config.py:312-317 | The path of some keys points at a value if and only if the keys lead there from the root, one nested entry after another |
| `ConfigPaths.OneRefIsReplaced` | src/ttllm/config.py:295-321 | A configuration whose only ref is such a path resolves to itself with the value in place of the ref, wherever it stands |
| `ConfigPaths.NoRefStays` | src/ttllm/config.py:307-321 | A configuration in which no string begins with ref: stays as it is |
| `ConfigRefs.ResolutionIsUnfolding` | src/ttllm/config.py:295-321 | Resolution succeeds exactly on the configurations whose repeated replacement of refs comes to an end, and gives its result: detecting cycles refuses nothing else |
| `ConfigRefs.FailsExactlyAtDeadEnds` | src/ttllm/config.py:303-319 | It raises exactly when a chain of refs from the configuration runs into a missing path or into itself |
| `ConfigRefs.ResolvedIsFixed` | src/ttllm/config.py:295-321 | No ref is left at any depth of the result, and resolving it again changes nothing |
| `ConfigRefs.UnfoldResolves` | src/ttllm/config.py:295-321 | A value that has a meaning is resolved to it while other refs are being resolved, if those need more depth |
| `ConfigRefs.ResolveUnfolds` | src/ttllm/config.py:295-321 | What resolution gives is reached within as many replacements as there are ref paths |
| `ConfigRefs.NoRefsIsFixed` | src/ttllm/config.py:298-321 | A tree without refs is left as it is, whatever the root |
| `ConfigMerge.MergedReads` | src/ttllm/config.py:110-121 | Every path of the merged dict reads as the source's value where it has one, as nothing where the source's value blocks it, and as the destination's elsewhere |
| `ConfigMerge.Idempotent` | src/ttllm/config.py:110-121 | Merging twice is merging once, for every source and destination |
| `ConfigMerge.Associative` | src/ttllm/config.py:110-121 | Three layers merge to one and the same dict in both orders if and only if any two of them can be merged, the upper into the lower |
| `ConfigMerge.MergesPairwise` | src/ttllm/config.py:110-121 | A layer merges into two merged ones exactly when it merges into each of them |
| `ConfigMerge.LeftFirstHides` | src/ttllm/config.py:110-121 | Merging the upper two first succeeds exactly when they merge and all that clashes with the lowest lies under plain values of the uppermost |
| `ConfigMerge.OrdersAgree` | src/ttllm/config.py:110-121 | The orders come to the same, a dict or a failure, if and only if the lower two can be merged or the uppermost does not hide all that clashes |
| `ConfigMerge.OrderCanMatter` | src/ttllm/config.py:110-121 | Three layers for which one order raises and the other does not |
| `ConfigMerge.LayersAgree` | src/ttllm/config.py:110-121 | Under mergeable lower layers both orders succeed together and give the same dict |
| `ConfigDicts.MergeDicts` | src/ttllm/config.py:110-121 | In place: raises exactly on incompatible trees, otherwise leaves the destination as the merged value; the source is unchanged and shares no dict with the destination afterwards |
| `ConfigDicts.MergeKey` | src/ttllm/config.py:115-120 | One turn of the loop sets one key of the destination and leaves the others |
| `ConfigDicts.MergeAt` | src/ttllm/config.py:116-118 | The recursive call merges into whatever the destination holds under the key, a dict or not |
| `ConfigDicts.DictNode.SetDefault` | src/ttllm/config.py:117-117 | `setdefault` adds a new empty dict object only if the key is missing |
| `ConfigDicts.DictNode.Set` | src/ttllm/config.py:120-120 | A plain value replaces whatever the key held |
| `ConfigIncludes.LoadingIsExpansion` | src/ttllm/config.py:247-293 | Loading succeeds exactly on the trees whose repeated replacement of includes comes to an end, and gives its result, for every finite set of files, circular ones too |
| `ConfigIncludes.NoIncludeIsLeft` | src/ttllm/config.py:247-293 | No include key is left at any depth of the result, lists included |
| `ConfigIncludes.Precedence` | src/ttllm/config.py:266-293 | At each path sibling keys win over included files and later files over earlier ones |
| `IncludeMeaning.IncludedFilesAreLayers` | src/ttllm/config.py:257-293 | A dict with an include key is the files that the key names, one or a list, the first at the bottom and each over those before it, with its other keys on top |
| `IncludeMeaning.IncludingOneFile` | src/ttllm/config.py:260-293 | With one file named, every path reads as the dict's own value, else as the file's |
| `IncludeMeaning.OtherValuesAreRejected` | src/ttllm/config.py:265-266 | An include key with any other value is an error |
| `IncludeMeaning.FileIsLoaded` | src/ttllm/config.py:270-283 | A file is found from the directory of the one that names it, must exist and not be open already, and is processed from its own directory |
| `IncludeMeaning.KeyByKey` | src/ttllm/config.py:257-258 | A dict without an include key is processed key by key |
| `IncludeMeaning.ItemByItem` | src/ttllm/config.py:251-252 | A list is processed item by item |
| `IncludeMeaning.NamingNoFileStays` | src/ttllm/config.py:251-258 | A tree in which no dict has an include key stays as it is |
| `ConfigIncludes.MergeIncludes` | src/ttllm/config.py:266-285 | The loop over the include list, which merges each file before opening the next, gives the pile of the loaded files |
| `ConfigIncludes.ExpandProcesses` | src/ttllm/config.py:247-293 | A tree that has a meaning is loaded as that while other files are being loaded, if those need more depth |
| `ConfigIncludes.ProcessExpands` | src/ttllm/config.py:247-293 | What loading gives is reached within as many nested includes as there are files |
| `ConfigIncludes.PileReads` | src/ttllm/config.py:266-293 | A pile of layers reads at each path as its topmost layer that has the path |
| `Rules.EvaluateGroup` | src/ttllm/core/rules.py:253-263 | The loop that collects all results decides as the recursive reading of and/or |
| `Rules.Evaluate` | src/ttllm/core/rules.py:266-275 | None exactly when no enabled rule matches, otherwise the earliest in the list of the heaviest enabled rules that match |
| `Rules.ByWeightSorts` | src/ttllm/core/rules.py:267-271 | The stable sort gives all rules by descending weight and loses none |
| `Rules.FirstByWeightWins` | src/ttllm/core/rules.py:266-275 | The first match of the sorted list is the winner of the unsorted one |
| `Rules.WinnerWins` | src/ttllm/core/rules.py:266-275 | The winner is the earliest of the heaviest matching rules |
| `Rules.LeavesDecide` | src/ttllm/core/rules.py:253-284 | A group's result depends on the context only through its leaves |
| `RuleMeaning.HeadersAreCompared` | src/ttllm/core/rules.py:171-174 | A header condition compares the header of that name in lower case, or an empty text |
| `RuleMeaning.ParametersAreCompared` | src/ttllm/core/rules.py:177-191 | A parameter condition compares one of six parameters or an entry of the metadata, and fails on anything else |
| `RuleMeaning.TextsAreCompared` | src/ttllm/core/rules.py:194-200 | A content condition compares the system prompt's text or that of the messages |
| `RuleMeaning.FunctionsAreCompared` | src/ttllm/core/rules.py:203-209 | A function condition compares the function's result, and fails without one |
| `RuleMeaning.QuotasAreCompared` | src/ttllm/core/rules.py:212-222 | A quota condition compares the measure's value, or zero |
| `RulesConvert.ConvertGroup` | src/ttllm/services/rules_service.py:181-197 | For field, window and per of their declared types, conversion raises exactly on JSON that is not a valid group, with Python's iteration over odd values, and otherwise gives the group |
| `RulesConvert.MatchingReadsJson` | src/ttllm/services/rules_service.py:181-197 | Matching a converted group is the direct recursive reading of the JSON |
| `RulesConvert.LeavesInOrder` | src/ttllm/core/rules.py:278-284 | iter_conditions yields exactly the leaves of the JSON, in order |
| `RulesConvert.ConversionReadsBack` | src/ttllm/services/rules_service.py:181-197 | Every group is what its JSON converts to |
| `RulesConvert.DefaultsMayBeLeftOut` | src/ttllm/services/rules_service.py:188-196 | A key left out is its default written down |
| `RulesConvert.NegateTakesAnyString` | src/ttllm/services/rules_service.py:193-193 | A condition whose negate is stored as the string "false" is negated |
| `RuleMeaning.ConditionsAreListed` | src/ttllm/services/rules_service.py:184-184 | A group's conditions are the elements of its conditions key; without it or with an empty value there are none, and no other value can be read |
| `RuleMeaning.ReadableGroups` | src/ttllm/services/rules_service.py:181-197 | Exactly which groups can be read |
| `RuleMeaning.ReadableItems` | src/ttllm/services/rules_service.py:184-196 | Exactly which elements of a group can be read, for field, window and per of their declared types |
| `RuleMeaning.ItemsAreRead` | src/ttllm/services/rules_service.py:184-196 | Each of them is a group if it has conditions of its own, and else one condition |
| `RuleMeaning.LogicIsRead` | src/ttllm/services/rules_service.py:182-182 | All must hold, unless the logic is or; no other word will do |
| `RuleMeaning.NegateIsTruth` | src/ttllm/services/rules_service.py:193-193 | negate is taken by its truth value, whatever its type |
| `UsageWindow.AggregateNeverGrows` | src/ttllm/services/usage_service.py:58-81 | With no new rows the aggregate of a window never grows and never gets negative |
| `UsageWindow.NextFreeBounds` | src/ttllm/services/rules_service.py:309-316 | For rows not dated after now, next_free is between 0 and the window |
| `UsageWindow.NextFreeIsTight` | src/ttllm/services/rules_service.py:309-316 | The oldest row counts up to now + next_free and for less than a second more |
| `UsageWindow.NothingFreesEarly` | src/ttllm/services/usage_service.py:58-81 | Up to now + next_free the aggregate stays exactly what it is |
| `UsageWindow.OldestIsGoneAfter` | src/ttllm/services/usage_service.py:58-81 | From now + next_free + 1 second on only newer rows count, and fewer than now |
| `UsageWindow.OldestThatCounts` | src/ttllm/services/usage_service.py:61-68 | MIN(created_at) is the earliest row that counts |
| `UsageCounted.OneMoreRequest` | src/ttllm/services/usage_service.py:61-81 | One request more adds what it used, its cost, its tokens or one, and is perhaps the oldest, if it is of this user and model, within the window and has status 200 or 499; otherwise nothing changes |
| `UsageCounted.NoRequests` | src/ttllm/services/usage_service.py:50-54 | Without requests nothing is used, and there are no measures but the three |
| `UsageCounted.LeavingEvadesNothing` | src/ttllm/services/usage_service.py:31-68 | Two histories that differ only in which requests were left early have the same aggregates |
| `UsageCounted.SecondsAreTruncated` | src/ttllm/services/rules_service.py:309-316 | int() takes whole seconds, towards zero from either side |
| `UsageCounted.ConditionReadsItsScope` | src/ttllm/services/rules_service.py:265-298 | When no measure is asked about in two ways, a quota condition reads the usage of the requesting user, on the requested model alone if its scope names the model, over its own window |
| `QuotaMetadata.Populate` | src/ttllm/services/rules_service.py:249-298 | The two loops fill the namespace from one query per distinct (measure, window, per), in order, or raise on an unknown measure |
| `QuotaMetadata.CollectSpecs` | src/ttllm/services/rules_service.py:265-280 | The nested loops collect the specs of all leaves of all rules |
| `QuotaMetadata.RunQueries` | src/ttllm/services/rules_service.py:282-298 | The loop over the specs fills the namespace in their order |
| `QuotaMetadata.OneSpecPerKey` | src/ttllm/services/rules_service.py:265-280 | No key has two specs, and there are as many specs as distinct keys |
| `QuotaMetadata.ThresholdIsTheFirst` | src/ttllm/services/rules_service.py:275-280 | A spec's threshold is that of the first condition with its key |
| `QuotaMetadata.LastSpecWins` | src/ttllm/services/rules_service.py:286-298 | A measure's bucket is that of the last spec on it |
| `QuotaMetadata.FilledWhenKnown` | src/ttllm/services/usage_service.py:52-54 | Filling raises exactly when a spec has an unknown measure |
| `QuotaAgreement.PrecomputingIsExact` | src/ttllm/services/rules_service.py:249-298 | Whatever the usage, every quota condition reads the bucket of its own window and scope if and only if no measure is asked about in two ways, in one rule or in several |
| `QuotaAgreement.PrecomputingRefinesDirectEvaluation` | src/ttllm/services/rules_service.py:241-298 | Under that condition the rules decide as if each quota condition ran its own query on the spot |
| `QuotaAgreement.LongestWaitIsMaximum` | src/ttllm/core/rules.py:311-324 | Retry-After is the largest next_free among the rule's quota conditions |
| `QuotaAgreement.RetryAfterIsTheLongest` | src/ttllm/core/rules.py:311-324 | A rule has a Retry-After exactly if it has a quota condition with a bucket, and it is the longest next_free of these |
| `QuotaAgreement.RetryAfterIsHonest` | src/ttllm/core/rules.py:311-324 | For Retry-After seconds some quota condition of the rule sees no change at all, and one second later all of them have let their oldest row go |
| `RulesCache.CacheModule.Refresh` | src/ttllm/services/rules_service.py:65-85 | Under the lock a stale cache becomes the convertible rules of the query's answer, stamped now, and a fresh one is left alone |
| `RulesCache.CacheModule.GetActiveRules` | src/ttllm/services/rules_service.py:59-62 | The answer is the cache after that |
| `RulesCache.CacheModule.Invalidate` | src/ttllm/services/rules_service.py:88-91 | The cache is as if never loaded |
| `RulesCache.ConvertRows` | src/ttllm/services/rules_service.py:76-81 | The loop keeps the rules that convert, in order, and skips the others |
| `RulesCache.LoadRefreshes` | src/ttllm/services/rules_service.py:65-85 | A load that nothing comes between is the refresh of the worker's globals, and the answer is what they then hold |
| `RulesCache.ServesOneRecentState` | src/ttllm/services/rules_service.py:59-91 | In every run each answer is the enabled convertible rules of one committed state, current when it was read, and put into the cache less than the TTL ago, or just now |
| `RuleMeaning.ActiveRulesAreMade` | src/ttllm/services/rules_service.py:65-85 | The active rules are made of the enabled rows of the table that convert, all of them and no others, the heaviest first, each with its row's name, weight, action and conditions |
| `RuleMeaning.ServedRulesAreMade` | src/ttllm/services/rules_service.py:59-91 | In every run each answer is made so of one committed state |
| `RuleMeaning.RowMakesRule` | src/ttllm/services/rules_service.py:168-212 | A row converts exactly if its conditions do and its action is of a known type with the keys that the type needs |
| `RulesCache.NeverGoesBack` | src/ttllm/services/rules_service.py:59-117 | A worker that finished a write never again serves an older state, unless a load under way had read the table before the write was committed; and no worker goes back to a state older than one it served |
| `RulesCache.OlderExactlyWhenOvertaken` | src/ttllm/services/rules_service.py:59-117 | In every reachable state: after finishing a write a worker can come to serve an older state, in some continuation, if and only if a load of its own under way read the table before the write was committed |
| `RulesCache.OvertakenForTheTtl` | src/ttllm/services/rules_service.py:53-85 | Once it has installed what such a load read, the worker serves the older state to every request within the TTL, and the first one after that finds the cache stale |
| `RulesCache.LoadUnderWayMissesTheWrite` | src/ttllm/services/rules_service.py:72-84 | A run in which a load reads the table before a write is committed and installs it after the write is finished: for any table written, the worker serves the state before it right after its own write |
| `RulesCache.LoadsAreApart` | src/ttllm/services/rules_service.py:53-85 | Two loads of one worker with no finished write in between are at least the TTL apart |
| `RulesCache.PickedUpWithinTtl` | src/ttllm/services/rules_service.py:39-43 | Within the TTL and the duration of its last load every worker serves a change or a later one, whoever made it |
| `RulesCache.EveryRequestIsAnsweredOnce` | src/ttllm/services/rules_service.py:59-85 | In every run each worker has answered every request once, but for those that wait for the lock or load |
| `RulesCache.EveryWriteFinishesOnce` | src/ttllm/services/rules_service.py:88-117 | And no write is finished twice |
| `RulesCache.StepKeeps` | src/ttllm/services/rules_service.py:53-91 | Every step of every worker keeps the invariants |
| `DocumentNames.Allocator.Take` | src/ttllm/core/providers/bedrock/converse.py:148-155 | The loop ends and gives the base name or the base with the least suffix that makes a new name, and remembers it |
| `DocumentNames.NotAllTaken` | src/ttllm/core/providers/bedrock/converse.py:151-153 | The search cannot run past the number of names in use |
| `DocumentNames.NameIsInjective` | src/ttllm/core/providers/bedrock/converse.py:150-153 | Different suffixes make different names |
| `DocumentNames.NameIsValid` | src/ttllm/core/providers/bedrock/converse.py:139-155 | A name uses only allowed characters, is new, has at most 200 characters while fewer than 999 are in use, and has two blanks in a row exactly when a suffix follows a base cut off after a blank |
| `DocumentNames.TwoBlanksHappen` | src/ttllm/core/providers/bedrock/converse.py:148-155 | A title whose second document gets a name with two blanks in a row |
| `DocumentNames.BaseIsClean` | src/ttllm/core/providers/bedrock/converse.py:149-149 | A base is clean, starts with no blank, and has 1 to 194 characters |
| `DocumentTitles.BaseIsSpaced` | src/ttllm/core/providers/bedrock/converse.py:136-149 | For every title the base is its letters, digits, hyphens and brackets in order, with one blank where anything else stood between two of them, cut off after 194 characters; and document if there are none |
| `DocumentTitles.SpacedKeeps` | src/ttllm/core/providers/bedrock/converse.py:149-149 | No kept character is lost, added or moved |
| `DocumentTitles.BlankWhereSomethingStood` | src/ttllm/core/providers/bedrock/converse.py:149-149 | Two neighbouring kept characters have a blank between them if and only if something else stood there |
| `DocumentTitles.KeptCharacters` | src/ttllm/core/providers/bedrock/converse.py:136-136 | The characters that are kept, by their codes |
| `DocumentTitles.DecimalReadsBack` | src/ttllm/core/providers/bedrock/converse.py:153-153 | A suffix's number is written in decimal |
| `DocumentTitles.ReportTitle` | src/ttllm/core/providers/bedrock/converse.py:149-149 | The title q3_report.final!! gives q3 report final |
| `DocumentNames.CleanTitleIsKept` | src/ttllm/core/providers/bedrock/converse.py:149-149 | A title that is a valid name of up to 194 characters is its own base |
| `BedrockRequest.ConvertItem` | src/ttllm/core/providers/bedrock/converse.py:158-206 | An item of content converts, a document taking a name only if it is supported |
| `BedrockRequest.ConvertItems` | src/ttllm/core/providers/bedrock/converse.py:220-234 | The loop over a tool result's content, with the request's allocator |
| `BedrockRequest.ConvertPart` | src/ttllm/core/providers/bedrock/converse.py:237-269 | A part converts to a block, to nothing, or to an error, with the request's allocator |
| `BedrockRequest.ConvertMessage` | src/ttllm/core/providers/bedrock/converse.py:272-281 | The loop over a message's parts, with cache points after the parts that ask for them |
| `BedrockRequest.ConvertMessages` | src/ttllm/core/providers/bedrock/converse.py:366-368 | One allocator serves all messages of the request |
| `BedrockRequest.RequestIsNamedInOrder` | src/ttllm/core/providers/bedrock/converse.py:139-368 | Documents are named by successive takes of their titles, in order, those inside tool results included |
| `BedrockRequest.NamesAreDistinct` | src/ttllm/core/providers/bedrock/converse.py:139-281 | All names of a request are pairwise distinct, of allowed characters, and up to 999 documents at most 200 characters long |
| `BedrockRequest.MessageConvertsWhenSupported` | src/ttllm/core/providers/bedrock/converse.py:158-269 | A message converts exactly when all of its parts, and the items of its tool results, are supported |
| `RequestMeaning.FirstUnsupportedDecides` | src/ttllm/core/providers/bedrock/converse.py:237-269 | The first part that is not supported decides the error: a server tool, or content that Bedrock does not take |
| `RequestMeaning.ImageTypesAreRead` | src/ttllm/core/providers/bedrock/converse.py:158-167 | An image's format is the second part of its media type, or all of it, in lower case, jpg being jpeg |
| `RequestMeaning.DocumentTypesAreRead` | src/ttllm/core/providers/bedrock/converse.py:122-133 | A document's format is that of its media type without parameters, stripped and in lower case |
| `RequestMeaning.SourcesAreSent` | src/ttllm/core/providers/bedrock/converse.py:170-200 | A document's text is sent as text, or as pieces, only with citations enabled, otherwise as bytes; pieces must all be text |
| `RequestMeaning.ParagraphsJoin` | src/ttllm/core/providers/bedrock/converse.py:188-188 | Pieces become paragraphs |
| `RequestMeaning.ContextIsSent` | src/ttllm/core/providers/bedrock/converse.py:202-203 | A document's context is sent unless it is empty |
| `RequestMeaning.CachePointsAreSent` | src/ttllm/core/providers/bedrock/converse.py:272-281 | Each kind of part can ask for a cache point and gets it right after its block |
| `BedrockContent.ContentIsKept` | src/ttllm/core/providers/bedrock/converse.py:158-281 | A converted message says what the message said, in order: texts, images, documents without their titles, search results, calls, results and thoughts with their ids and signatures, and a cache point right after each part, tool results whole, that asked for one and nowhere else |
| `BedrockContent.SourceKeepsText` | src/ttllm/core/providers/bedrock/converse.py:174-201 | Enabling citations changes the form of a document's source but neither its text nor its format |
| `BedrockContent.ItemsSayTheSame` | src/ttllm/core/providers/bedrock/converse.py:220-234 | The same for the items of a tool result |
| `LangChainStream.StreamChunks` | src/ttllm/core/providers/langchain/provider.py:57-156 | A consumer that takes at most `limit` chunks gets that much of the run; the accumulator is set just before MESSAGE_STOP, and left alone if the stream raises or its consumer stops before |
| `LangChainStream.StrayHappens` | src/ttllm/core/providers/langchain/provider.py:121-126 | A stream on which stored and streamed arguments differ: the second half of the arguments comes without an id |
| `LangChainStream.TakeMessages` | src/ttllm/core/providers/langchain/provider.py:77-133 | The outer loop |
| `LangChainStream.TakeTools` | src/ttllm/core/providers/langchain/provider.py:103-125 | The inner loop over tool pieces |
| `LangChainStream.CollectText` | src/ttllm/core/providers/langchain/provider.py:78-87 | The loop that collects a message's text |
| `LangChainStream.StreamIsDisciplined` | src/ttllm/core/providers/langchain/provider.py:64-156 | Blocks are numbered 0, 1, 2 and so on and never overlap, text goes to the open block, arguments to a started one, and MESSAGE_STOP comes last with nothing open |
| `LangChainStream.StoredIsWhatWasStreamed` | src/ttllm/core/providers/langchain/provider.py:134-150 | The stored text and calls are those of the chunks, and the stop reason is tool_use exactly when a tool block was started |
| `LangChainStream.ArgumentsAgreeExactlyWithoutStrays` | src/ttllm/core/providers/langchain/provider.py:121-126 | The stored arguments of all calls are those streamed if and only if no arguments without an id came while a tool block was open |
| `LangChainStream.RunKeeps` | src/ttllm/core/providers/langchain/provider.py:77-133 | Every message keeps chunks, tables and open block in step |
| `LangChainView.SseOfStream` | src/ttllm/core/adapters/anthropic_stream.py:45-139 | The events of a LangChain stream that ends are message_start, ping, one event for each chunk, message_delta and message_stop, with every block closed; one that raises breaks off after its chunks |
| `LangChainView.SseGrammarExactly` | src/ttllm/core/providers/langchain/provider.py:106-126 | The events in between are (start delta* stop)* per index if and only if no arguments came for a call whose block was no longer open, and all deltas are of their block's kind if and only if no arguments without an id came while a text block was open |
| `LangChainView.ReassemblyExactly` | src/ttllm/core/providers/langchain/provider.py:206-230 | What a client puts together from the events is the content of the stored response if and only if there was some text or call, no text came after a call was started, and the client reads the arguments sent for each call as they are stored |
| `LangChainView.ReassemblyWithoutStrays` | src/ttllm/core/providers/langchain/provider.py:206-230 | When no arguments without an id came for an open tool block, the last condition is that all stored arguments parse |
| `LangChainView.EndingExactly` | src/ttllm/core/providers/langchain/provider.py:224-230 | message_delta carries the stored stop reason, and the stored usage if and only if no tokens were read from a cache |
| `LangChainView.RunKeepsView` | src/ttllm/core/providers/langchain/provider.py:77-133 | Every message keeps the client's blocks in step with the loop's text, calls and open block |
| `LangChainView.LateHappens` | src/ttllm/core/providers/langchain/provider.py:121-126 | A stream with a delta outside its block: arguments for the first of two calls come after the second was started |
| `LangChainView.MisplacedHappens` | src/ttllm/core/providers/langchain/provider.py:121-126 | A stream with a delta of the wrong kind: text, and then arguments without an id |
| `LangChainView.TextAfterToolHappens` | src/ttllm/core/providers/langchain/provider.py:88-97 | A stream whose content is stored in another order: a call, and then text |
| `LangChainAudit.RowOfLangChain` | src/ttllm/api/messages.py:287-338 | The row of a LangChain stream: the classified error and zero counters if it raised, otherwise the streamed counters with 200 or, the client gone, 499, and 200 only if the stored arguments of all calls are objects or do not parse |
| `LangChainAudit.CountersOnTheWay` | src/ttllm/core/providers/langchain/provider.py:141-145 | Until MESSAGE_STOP is due, the counters are zero |
| `LangChainAudit.OfferedIsRendered` | src/ttllm/api/messages.py:287-307 | What is offered are the events of the stream, and a made-up error frame after them if it raised |
| `LangChainAudit.ResponseRaisesExactly` | src/ttllm/core/providers/langchain/provider.py:206-230 | The response cannot be built exactly when some call's stored arguments are JSON other than an object |
| `LangChainAudit.NoRowExactlyForRejectedCalls` | src/ttllm/api/messages.py:309-341 | Of a LangChain stream that ends there is no row at all if and only if its response cannot be built and the client was there when the row was decided |
| `LangChainAudit.ArrayArgumentsHaveNoRow` | src/ttllm/api/messages.py:320-325 | A stream and a run of it without a row: a tool call whose arguments are an empty array, for a client that stays to the end |

## Left out

- Databases, boto3, LangChain, HTTP, logging, latency stamps and the byte form of SSE: a query's
  answer, a provider's events, the clock and the JSON parser are parameters. The table of audit
  rows is a sequence, and a commit is one step.
- Pydantic's lenient coercions: wire and event fields are taken to have their declared types, and
  the one rejection that real answers can meet, a tool input that is not an object, is modelled.
- ConverseStream.StreamConverse: building the request and opening the client come before the
  generator's try block and are not part of it; an exception of the event iterator is one event.
- StreamProtocol.Progress: takes from the event loop that a getter woken by a put runs before the
  producer can put again, and that every step that can be taken is taken at some time; a client
  that never asks for the next event is not told apart from a slow one.
- StreamAudit.RowOfStream: takes from Python that a generator which its consumer has dropped is
  closed in a later turn of the event loop, after the row's counters have been read.
- Image and redacted-reasoning streaming: the code does not support them.
- ConfigRefs.ResolutionIsUnfolding: the kinds of error (path not found, circular) are one failure;
  `ConfigRefs.FailsExactlyAtDeadEnds` tells them apart by the chain. The same holds for includes.
- The rest of the config loader (env:// and secret:// values, environments, local overrides, the
  cache of loaded files) and YAML keys that are not strings.
- ConfigDicts.MergeDicts: keys are taken in any order; dicts inside lists are values, since merging
  never changes a list.
- Rules.Evaluate: text, regular-expression and number comparison (`_compare`), `str.lower` and the
  registered functions are parameters. Actions and message templates are not interpreted.
- RulesConvert.ConvertGroup: a stored condition whose field is not a string, whose window is
  neither an integer nor null, or whose per is not a list of strings counts as one that does not
  convert. The code converts it and may raise when the rules are evaluated.
- QuotaMetadata.Populate: sums are exact reals, where the comparison goes through Python floats;
  the entries filled before an unknown measure raises are not described.
- RulesCache.ServesOneRecentState: speaks of the list at the moment it is returned. It is the
  cache's own list, and a later load or invalidation clears it in place while its reader may still
  hold it.
- QuotaAgreement.PrecomputingIsExact: requires what ConditionSchema enforces, a known measure and a
  window for every quota condition.
- AnthropicWire.PrintParsePrint: tool results, which providers never return, cannot be printed, and
  extras of server tools that clash with declared fields are excluded.
- BedrockRequest.ConvertMessages: message roles, base64 decoding, tools, system prompt and
  inference settings of `build_converse_request` are not part of this model.
- BedrockContent.ContentIsKept: a document's title is not compared; it goes into the document's name
  (`BedrockRequest.RequestIsNamedInOrder`). Cache marks inside a tool result are not sent here; parsing
  has moved them to the result.
- LangChainStream.StreamChunks: absent and empty ids or arguments are one case, as in the code; the
  non-streaming path of this provider is not part of this model.
- LangChainView.ReassemblyExactly: a client is taken to leave alone a delta that its block does not
  take, such as arguments for a text block.
- Routes, permissions, the CLI, the web UI, migrations and reports: thin wrappers around the above.

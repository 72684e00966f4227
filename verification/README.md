# OpenBaD Desktop, verified core

A Dafny model of the stateful core of OpenBaD Desktop, a desktop coding agent,
with proofs about it. Check everything with `dafny verify dfyconfig.toml`.

## What is modelled

| module | component |
|---|---|
| `Chat`, `Utf8`, `Pairing` | chat messages, their byte lengths, the history repair, and what it means that every tool call is answered once, in place and in order |
| `Compaction`, `CompactionCalls` | token estimates, the range and chunk selection, the chunked rewrite of old history, and what the summariser is given |
| `TurnLoop` | the agent's turn loop: a pure state machine and the imperative loop that refines it; provider answers, cancellation, steering and tool results are arbitrary inputs |
| `TurnLog`, `TurnEnds`, `TurnContents`, `TurnPairing`, `TurnBudget`, `TurnGrowth`, `TurnTranscript`, `TurnSettlement`, `TurnSteering` | what holds over every run of that loop |
| `TurnCases` | runs at the inputs where the loop parts from its documentation |
| `Sse`, `StreamReply`, `StreamContents` | the incremental stream decoder and the assembly of a streamed answer |
| `EventLog`, `Replay`, `ReplayContents` | the event log, its projections, the rebuild, and the independent replay |
| `Civil`, `CivilText`, `Cursor`, `CursorContents` | calendar arithmetic, timestamps, and the poll cursor of a source |
| `Terminal` | the lossy output buffer of a terminal |
| `Transfer`, `TransferRows` | bundle import as a merge with id remapping |
| `Vault`, `VaultContents` | the encrypted vault, file step by file step |
| `CanonicalJson`, `JsonReader` | the canonical printer behind request hashes, and a reader that knows nothing of it |
| `Mcp`, `McpFrames` | the MCP manager's cache of two files and its clients |

Code that changes state is modelled as classes and methods with loops; each is
proved equal to a specification function, and the theorems are lemmas about
those functions. What an operation computes is told a second time without naming
that function, from its inputs alone and as far as can be by position (the modules
whose names end in `Contents`, `Calls`, `Rows`, `Frames` or `Text`, and `JsonReader`):
these statements fix the result, so no other function meets them. Integers are unbounded except where a cap or a truncating
division in the code matters; those are written out. Lemmas carry
`{:induction false}` wherever the verifier would otherwise add an induction
hypothesis of its own: every proof states the induction it uses.

## Where the code and its documentation part

The model follows the code.

- `select_compaction_chunk` is documented to keep calls and results together. It
  does unless its budget runs out between two results of a turn with no later turn
  in reach (`Compaction.ChunkCutsClean` is the exact condition). When the last chunk
  of an adopted rewrite ends there, every later request carries a result without its
  call (`TurnPairing.RunPaired`; `TurnCases.OpenCutSent` is such a run).
- `derive_messages` says its placement of the checkpoint mirrors the store's. They
  differ when a developer message comes first (`Replay.ReplayAgrees`,
  `Replay.DeveloperFirstDiffers`).
- An answer without text or calls that was cut at the output limit writes its note
  onto the message before it, which was already sent (`TurnGrowth.RunGrows`,
  `TurnCases.TextlessCutSent`).
- Giving up over unusable arguments ends the run without a settlement or step end.
  It happens exactly when a step that sends its request gets a whole answer with
  calls and, among the calls it runs, a third payload in a row is unusable, counted
  across batches and steps (`TurnEnds.RunEnds`, `TurnSettlement.RunFrames`;
  `TurnCases.GivenUpOpen` is such a run).
- Steering claimed after a final answer is in no settlement
  (`TurnSteering.RunSettlesOwn`), and the run leaves it exactly when a later step
  completes the run (`TurnSteering.LateSteering`). It is lost when the budget is
  spent (`TurnCases.LateSteeringLost`) and whenever a later step ends the run in any
  other way (`TurnCases.LateSteeringCancelled`).
- Events that a push has already parsed are lost when a later frame of the same
  push does not parse (`StreamReply.DeliversAllIff`, `StreamReply.FailureLosesChunk`).
- The cursor calls eviction safe because old triggers cannot come back; the cursor
  itself only rules out a repeat within the last 2048 (`Cursor.NextEmitted`,
  `Cursor.EmittedTwice`).
- A terminal read whose status query fails has already drained the buffer and
  cleared the flag (`Terminal.MarkBetweenOutputs`, `Terminal.FailedReadLosesBytes`).
- Storing is called atomic; a replacement by a different value whose index write
  fails reports an error with the new value in place (`Vault.PutAtomicIff`,
  `Vault.ReplacementSlips`), and the writer lets in one entry more than the reader
  accepts (`Vault.PutReadable`).
- Removing an MCP server edits memory before its second save (`Mcp.RemoveKeeps`,
  `Mcp.HalfRemovedStays`).

## Model

| member | source | states |
|---|---|---|
| `Chat.NormalizeHistory` | `crates/openbad-agent/src/lib.rs:2223-2242` | the loop strips reasoning from call-less assistant messages and drops empty ones, nothing else, in order |
| `Chat.NormalizeKeeps` | `crates/openbad-agent/src/lib.rs:2223-2242` | the repaired history is, in order and by position, every message but the assistant ones without call or text; each has its role, text, calls and call id, and its reasoning unless it is a call-less assistant message |
| `Chat.DropEmptyAssistantMessages` | `crates/openbad-llm/src/chat.rs:151-158` | exactly the messages that are not empty assistant turns remain, in order |
| `Chat.StripThenDrop` | `crates/openbad-agent/src/lib.rs:2223-2242` | repairing while dropping is the same as stripping every message first and dropping afterwards |
| `Chat.NormalizeIdempotent` | `crates/openbad-agent/src/lib.rs:2223-2242` | repairing a repaired history changes nothing, so doing it every step cannot move the prompt |
| `Chat.SanitizeToolArguments` | `crates/openbad-llm/src/chat.rs:416-424` | arguments that are no JSON object become `{}`; ids, names, order and good arguments stay |
| `Chat.SanitizedMeaning` | `crates/openbad-llm/src/chat.rs:416-424` | ids, names, order and usable arguments stay and the rest becomes `{}`; afterwards every argument is usable, so a second time changes nothing, and nothing changes if and only if all were usable |
| `Chat.NormalizeValid` | `crates/openbad-agent/src/lib.rs:2223-2242` | repair keeps a request valid |
| `Utf8.ByteLenIs` | `crates/openbad-agent/src/lib.rs:2084-2098` | the lengths the estimates count are those of the UTF-8 encoding (section 3 of RFC 3629) |
| `Utf8.CostIs` | `crates/openbad-agent/src/lib.rs:2084-2106` | a message is estimated at four tokens and one for every three bytes begun, of 32 bytes and the UTF-8 encoding of its content, reasoning and call names and arguments |
| `Pairing.PairedMeaning` | `crates/openbad-agent/src/lib.rs:579-593` | the recursive reading of "every call answered in place and in order" agrees with the index reading, both ways |
| `Pairing.PairedTailIff` | `crates/openbad-agent/src/lib.rs:2121-2157` | cutting a well-paired list leaves both parts well paired if and only if the cut is not in front of a result |
| `Pairing.NormalizePaired` | `crates/openbad-agent/src/lib.rs:2223-2242` | repair breaks no pairing |
| `Pairing.NormalizePairedIff` | `crates/openbad-agent/src/lib.rs:2223-2242` | a history is well paired if and only if its repair is and no empty assistant turn stands directly in front of a result, so repair makes a pairing exactly by dropping such turns |
| `Pairing.RepairMakesPairing` | `crates/openbad-agent/src/lib.rs:2236-2241` | a concrete history that only its repair pairs |
| `Compaction.SelectCompactionEnd` | `crates/openbad-agent/src/lib.rs:2121-2157` | the three backward scans compute the specified end |
| `Compaction.CompactionEndMeaning` | `crates/openbad-agent/src/lib.rs:2121-2157` | the end is the latest user message that leaves `retain_tokens` before the current turn, and there is none only if no message does |
| `Compaction.CompactionEndKeepsTurns` | `crates/openbad-agent/src/lib.rs:2121-2157` | the previous and the current user turn lie wholly after the end, enough is retained, and no pair is split |
| `Compaction.SelectCompactionChunk` | `crates/openbad-agent/src/lib.rs:2165-2206` | the loops over `fit`, turn alignment and back-off compute the specified chunk end |
| `Compaction.ChunkMeaning` | `crates/openbad-agent/src/lib.rs:2165-2206` | the chunk fits the budget, and it ends at the budget's reach, at the last turn start within reach, or before calls left open there |
| `Compaction.ChunkRefused` | `crates/openbad-agent/src/lib.rs:2165-2206` | no chunk is chosen if and only if there is nothing to cover, no budget, a first message over it, or, in a longer range, nothing but calls behind the first message up to where the chunk would stop |
| `Compaction.ChunkCutsClean` | `crates/openbad-agent/src/lib.rs:2165-2206` | a chunk ends in front of a result if and only if the budget stops between two results with no turn start from the fourth message up to there; on a paired history and on what earlier chunks left of it |
| `Compaction.SingleCallsCutClean` | `crates/openbad-agent/src/lib.rs:2197-2206` | with at most one call per message no chunk splits a call from its result |
| `Compaction.ParallelCallsCutOpen` | `crates/openbad-agent/src/lib.rs:2197-2214` | a concrete history with two parallel calls on which the loop selects an end and a chunk that stops between their results |
| `Compaction.ChunkLeavesRoom` | `crates/openbad-agent/src/lib.rs:1225-1231` | a returned chunk leaves the summariser `compact_max_tokens - 19` output tokens inside the window |
| `Compaction.CompactPassesShape` | `crates/openbad-agent/src/lib.rs:1237-1290` | after every accepted chunk the list is system, latest checkpoint, and the original from `1 + shadowed`, with shadowed + remaining = target; the loop terminates |
| `Compaction.CompactRangeMeaning` | `crates/openbad-agent/src/lib.rs:1237-1309` | a rewrite is recorded exactly as it happened and only if bytes strictly shrank; otherwise the original list is back |
| `Compaction.CompactRangeCuts` | `crates/openbad-agent/src/lib.rs:1237-1309` | the tail an adopted rewrite retains begins with a result if and only if the last chunk it accepted stopped between results |
| `Compaction.AdoptMeaning` | `crates/openbad-agent/src/lib.rs:1290-1309` | a rewrite is adopted if and only if some chunk was accepted and the bytes shrank |
| `Compaction.CompactHistory` | `crates/openbad-agent/src/lib.rs:1237-1309` | the imperative chunk loop equals the specified rewrite, which `CompactionCalls.RangeTold` tells call by call |
| `CompactionCalls.RangeTold` | `crates/openbad-agent/src/lib.rs:1232-1309` | from the original list and the replies alone: call i asks with the system message, then the checkpoint made of the trimmed reply to call i - 1, then the next span of the original, then the instruction, and for the most output that fits; each span ends where the chunk choice on that list says; the calls stop only when all is covered, no chunk or call is possible, or a reply is of no use; the record holds the last usable reply between head and tail, and the list is adopted if and only if it got smaller |
| `CompactionCalls.SpansCover` | `crates/openbad-agent/src/lib.rs:1265-1288` | every message that the checkpoint shadows was in exactly the span of an accepted call and was given to the summariser there |
| `CompactionCalls.TrimMeaning` | `crates/openbad-agent/src/lib.rs:1852-1858` | trimming takes all white space off both ends and nothing else, and twice is once |
| `TurnLoop.AppendInterruptedResults` | `crates/openbad-agent/src/lib.rs:579-593` | one interrupted result per open call, in order, on both lists |
| `TurnLoop.ExecuteTools` | `crates/openbad-agent/src/lib.rs:1618-1691` | the batch loop, with cancellation between batches and the unusable-arguments exit, produces the specified messages, which `TurnContents.CallsContents` tells call by call |
| `TurnLoop.HandleReply` | `crates/openbad-agent/src/lib.rs:1420-1572` | every kind of answer (failed, cut by cancellation, cut at the output limit, final, with calls) leads to the specified messages and ending |
| `TurnLoop.RunStep` | `crates/openbad-agent/src/lib.rs:1147-1706` | one step of the loop refines the specified step, state and report alike |
| `TurnLoop.RunWithObserver` | `crates/openbad-agent/src/lib.rs:1053-1706` | the whole imperative run equals the specified run on every environment |
| `TurnLog.ReadyMeaning` | `crates/openbad-agent/src/lib.rs:1188-1318` | what steering, repair and compaction together leave before the request |
| `TurnLog.ConcludeMeaning` | `crates/openbad-agent/src/lib.rs:1573-1616` | what each ending appends to the transcript and to the report, and which endings continue |
| `TurnPairing.RunPaired` | `crates/openbad-agent/src/lib.rs:1146-1706` | over any run from a well-paired history, each request is well paired if and only if no checkpoint is in force or the chunks chosen for it were not cut open, which is decided before the request is built; every settlement is well paired by itself |
| `TurnCases.OpenCutSent` | `crates/openbad-agent/src/lib.rs:1237-1347` | a concrete run from a paired history (first chunk accepted, second summary missing, bytes shrunk) that sends an unpaired request |
| `TurnPairing.RunWithWholeRangesPaired` | `crates/openbad-agent/src/lib.rs:1146-1706` | if every adopted checkpoint covered its whole selected range, every request of the run is well paired |
| `TurnPairing.CatalogKeepsPairing` | `crates/openbad-agent/src/lib.rs:1320-1325` | the catalog message added on the wire changes no pairing |
| `TurnBudget.RunFits` | `crates/openbad-agent/src/lib.rs:1326-1347` | in every run each request satisfies input + safety + output <= window, each summariser call fits with its allowance, and only calls of an answer that arrived whole are started |
| `TurnBudget.WireTokens` | `crates/openbad-agent/src/lib.rs:1201-1204` | the request as sent is estimated at the loop's own figure, and at four tokens more when it carries the catalog |
| `TurnBudget.RunNeverInvalid` | `crates/openbad-llm/src/chat.rs:258-294` | a history whose call arguments are JSON objects never makes a request fail its check |
| `TurnGrowth.RunGrows` | `crates/openbad-agent/src/lib.rs:1190-1200` | requests are numbered consecutively, at most one checkpoint is adopted per run, and without one in between each request extends the one before if and only if the answer in between was not a textless cut |
| `TurnCases.TextlessCutSent` | `crates/openbad-agent/src/lib.rs:1558-1571` | a concrete run with two consecutive requests, no checkpoint in between, the first no prefix of the second |
| `TurnTranscript.RunTranscript` | `crates/openbad-agent/src/lib.rs:1188-1616` | record, settlements and steering rebuild a prompt sent if and only if no step before it was a textless cut without steering of its own; a completed run returns exactly what was settled plus the steering claimed after answers if and only if none of its steps from the second to the last, that one included, was such a cut |
| `TurnTranscript.UnfinishedTranscript` | `crates/openbad-agent/src/lib.rs:1188-1616` | a run that is not given up has added what was settled plus the steering claimed after the answers of the steps before its last one, if and only if none of its answered steps from the second on was a textless cut without steering of its own |
| `TurnEnds.StepEnds` | `crates/openbad-agent/src/lib.rs:1420-1706` | whether a step goes on, completes the run or gives it up, told from the answer, the results of the calls it runs, its cancellations, what is pending and whether its prompt can be sent |
| `TurnEnds.ToolsGiveUp` | `crates/openbad-agent/src/lib.rs:1618-1691` | the calls are given up if and only if, among those before the first batch a cancellation catches, a third payload in a row is unusable; otherwise the row carried on is the one those results leave |
| `TurnEnds.StreakMeaning` | `crates/openbad-agent/src/lib.rs:1660-1684` | the row counts the results back to the last usable one, and further back if there is none |
| `TurnContents.BatchEndMeaning` | `crates/openbad-agent/src/lib.rs:1637-1652` | a batch ends at the next call that does not run together with the one before it |
| `TurnContents.ReachedMeaning` | `crates/openbad-agent/src/lib.rs:1618-1638` | calls are run up to the first such boundary at which a cancellation is seen, and cancellation is looked at nowhere else |
| `TurnContents.CallsContents` | `crates/openbad-agent/src/lib.rs:1618-1691` | by index: the result of call k is the text call k returned, under its own id, if it ran, and its own interrupted result if not; when the calls are given up, exactly the results ahead of the payload that was one too many are there, and its whole batch was started |
| `TurnContents.ProduceContents` | `crates/openbad-agent/src/lib.rs:1400-1691` | the messages of any answer: the assistant message with its text, thought, and calls (unusable arguments as `{}`), noted when calls were cut at the output limit, dropped when it has neither text nor calls; then for call k its own cut, interrupted or returned result |
| `TurnContents.ReadyIsTold` | `crates/openbad-agent/src/lib.rs:1188-1318` | before the request: the repaired list with the steering behind it, or, at most once in a run and exactly under pressure with a range to shadow, a rewrite as `CompactionCalls.RangeTold` tells it; and what of that is reported |
| `TurnContents.StepIsTold` | `crates/openbad-agent/src/lib.rs:1147-1706` | a whole step from its inputs: the prompt with the most output that fits, the calls started in order, the settlement message by message with the cut note on the last, the interrupted and cancelled flags and call count of its end, both lists, and the outcome with its reason |
| `TurnContents.RunIsTold` | `crates/openbad-agent/src/lib.rs:1053-1706` | any run is a sequence of such steps from the repaired history, ended by one in exactly the way its inputs say |
| `TurnContents.RunStartMeaning` | `crates/openbad-agent/src/lib.rs:1056-1097` | a run starts with the given or the configured system message in front of the repaired rest |
| `TurnContents.RunTurnMeaning` | `crates/openbad-agent/src/lib.rs:1094-1100` | the current turn starts at the last user message of that list, or at its end |
| `TurnEnds.RunEnds` | `crates/openbad-agent/src/lib.rs:1146-1706` | a run completes, or is given up, if and only if some step that every earlier step leads on to does so |
| `TurnSettlement.RunFrames` | `crates/openbad-agent/src/lib.rs:1188-1706` | every started step ends exactly once with at most one settlement if and only if no step gives the run up; a step that does, as told from its inputs, is left open and unsettled behind closed ones |
| `TurnCases.GivenUpOpen` | `crates/openbad-agent/src/lib.rs:1662-1684` | a concrete run that gives up with its only step started and neither settled nor ended |
| `TurnLog.PendingKept` | `crates/openbad-agent/src/lib.rs:1584-1616` | one step: steering claimed after a final answer starts another step with it, or, in the last step of the budget, is in no list the run leaves |
| `TurnSteering.RunSettlesOwn` | `crates/openbad-agent/src/lib.rs:1188-1196` | in any run the user messages of a settlement are the steering its own step began with, in front of all else; none was claimed after an answer |
| `TurnSteering.LateSteering` | `crates/openbad-agent/src/lib.rs:1584-1616` | in any run steering claimed after a final answer is in what the run leaves, with at most a cut note behind it, if and only if a later step completes the run and every step in between goes on, as told from their inputs |
| `TurnCases.LateSteeringLost` | `crates/openbad-agent/src/lib.rs:1584-1616` | a concrete run whose late steering is in no message list and no settlement |
| `TurnCases.LateSteeringCancelled` | `crates/openbad-agent/src/lib.rs:1592-1596` | a concrete run with budget left whose next step is cancelled at its start: its late steering is in no settlement and the run leaves no messages |
| `Sse.SseDecoder.Push` | `crates/openbad-llm/src/chat.rs:485-497` | the buffered line loop equals feeding the chunk byte by byte |
| `Sse.SseDecoder.Finish` | `crates/openbad-llm/src/chat.rs:499-508` | the leftover line is read as it stands, the block is closed, the decoder is back at its start |
| `Sse.SseDecoder.ConsumeLine` | `crates/openbad-llm/src/chat.rs:510-523` | one line, of each of its kinds, has the specified effect |
| `Sse.FeedAppend` | `crates/openbad-llm/src/chat.rs:485-497` | feeding two pieces one after the other is feeding their concatenation, in state and in frames |
| `Sse.DecodeChunks` | `crates/openbad-llm/src/chat.rs:485-508` | for every split into chunks, the pushes followed by finish give the frames of the whole byte stream |
| `Sse.RoundTrip` | `crates/openbad-llm/src/chat.rs:485-535` | whatever blocks a server writes (the decoder's subset of section 9.2.6 of the WHATWG HTML standard: values behind any blanks, comments and other fields in between, any number of returns before a newline) and however they are cut, the same frames come out |
| `StreamContents.OpenBlockSent` | `crates/openbad-llm/src/chat.rs:499-508` | a stream that ends inside a block still gives the frame of that block |
| `Sse.FinalNewline` | `crates/openbad-llm/src/chat.rs:491-508` | a stream without its last newline gives the same frames as with it, if and only if its last line is not a data line ending in a carriage return |
| `StreamContents.FrameSentIs` | `crates/openbad-llm/src/chat.rs:525-535` | a frame holds the values of its data lines with newlines in between, under the last event name given |
| `StreamReply.StreamDecoder.ParseFrames` | `crates/openbad-llm/src/chat.rs:565-601` | a push yields all of its frames' events, or fails with none when one frame does not parse; the decoder is finished from the first closing frame that no such frame precedes |
| `StreamContents.ChoiceEventsMeaning` | `crates/openbad-llm/src/chat.rs:582-597` | a choice gives its delta if it says anything, then its finish if it has one, and nothing else |
| `StreamContents.FrameEventsMeaning` | `crates/openbad-llm/src/chat.rs:567-601` | the closing frame gives one finish without reason; a chunk gives its usage first, then the events of its choices in order |
| `StreamReply.Receive` | `crates/openbad-llm/src/deepseek.rs:281-311` | the consumer's loop delivers the specified events and failure |
| `StreamReply.DeliverMeaning` | `crates/openbad-llm/src/chat.rs:555-601` | delivery fails if and only if some frame of the whole stream does not parse, delivers only events before that frame, and all events when none fails |
| `StreamReply.SplitInvariant` | `crates/openbad-llm/src/chat.rs:555-601` | two splits of one stream both fail or both succeed, with the same events on success |
| `StreamReply.DeliverAccounts` | `crates/openbad-llm/src/chat.rs:555-601` | the whole stream's events are those delivered followed by exactly those the failing push had parsed before its bad frame |
| `StreamReply.DeliversAllIff` | `crates/openbad-llm/src/chat.rs:565-601` | a stream delivers every event before its bad frame if and only if the push that fails, if any, has none of its own in front of it |
| `StreamReply.FailureLosesChunk` | `crates/openbad-llm/src/chat.rs:565-601` | a concrete stream where a good frame is lost because it shares a chunk with a bad one |
| `StreamReply.MergeDelta` | `crates/openbad-agent/src/lib.rs:2332-2352` | a delta goes to its index's slot, in index order |
| `StreamReply.StreamStep` | `crates/openbad-agent/src/lib.rs:1711-1790` | the event loop assembles the events before the first cancellation, reports cancelled exactly when one came, the failing event included, and fails exactly when the stream does and none came |
| `StreamReply.AssembleSpells` | `crates/openbad-agent/src/lib.rs:1724-1757` | slots are in index order, one per index seen, and each spells exactly its own index's deltas: last id, joined names and arguments |
| `StreamContents.SpelledMeaning` | `crates/openbad-agent/src/lib.rs:2341-2351` | a call has the last id its deltas gave, their names joined and their arguments joined |
| `StreamReply.AssembleTexts` | `crates/openbad-agent/src/lib.rs:1738-1746` | content and reasoning are the deltas' texts joined in order |
| `StreamReply.AssembleLast` | `crates/openbad-agent/src/lib.rs:1750-1757` | of several finish reasons, or usages, the last one counts |
| `StreamReply.InterleavingIrrelevant` | `crates/openbad-agent/src/lib.rs:2332-2352` | interleaving the calls' deltas differently gives the same calls |
| `StreamReply.SplitMessage` | `crates/openbad-agent/src/lib.rs:1711-1790` | two splits of one stream whose frames parse assemble one and the same message |
| `StreamContents.MessageSays` | `crates/openbad-agent/src/lib.rs:1711-1790` | from the frames of a whole stream to its message: texts and thoughts of all choices joined in order and absent if empty, one call for each index that occurs, in index order and spelled by the deltas of that index, the last finish reason and the last usage |
| `EventLog.ProjectOf` | `crates/openbad-store/src/projections.rs:12-158` | a session's rows come from that session's events alone |
| `EventLog.RebuildAgrees` | `crates/openbad-store/src/projections.rs:197-228` | under any interleaving that keeps each session's order, applying the log sorted by session and sequence gives the tables kept up event by event |
| `EventLog.Store.ApplyEvent` | `crates/openbad-store/src/projections.rs:12-158` | one event's row changes, in both tables; `EventLog.TurnRows` and `EventLog.MessageRows` tell the tables from the log alone |
| `EventLog.TurnRows` | `crates/openbad-store/src/projections.rs:15-93` | from the log alone: a turn has a row if and only if its session has a start or end event for it; tokens and cost are the sums over the usage events behind the first of these, steps the count of step ends behind it, `started_at` the time of the last start, or of the first end if there is none, and end and reason those of the last end, "unknown" if it names none |
| `EventLog.MessageRows` | `crates/openbad-store/src/projections.rs:94-152` | from the log alone: a message row for each message event and no other, saying what the event says, and on the surface if and only if no later checkpoint of the session hides it |
| `EventLog.Store.NextSeq` | `crates/openbad-store/src/store.rs:4266-4270` | a number above all of the session's, and the smallest such |
| `EventLog.Store.AppendEvent` | `crates/openbad-store/src/store.rs:4251-4316` | the log grows by one event and the tables stay its projection |
| `EventLog.Store.Rebuild` | `crates/openbad-store/src/projections.rs:319-329` | clearing and replaying leaves both tables as they were, every time |
| `Replay.DeriveMessages` | `crates/openbad-llm/src/replay.rs:23-54` | the imperative fold with its final move equals the specified history |
| `ReplayContents.KeptMeaning` | `crates/openbad-llm/src/replay.rs:23-71` | on any list of events: the fold keeps, in order and read by their kind, exactly the surface messages that no later surface event takes off, which it does to every checkpoint and to the range it names or its cutoff covers |
| `ReplayContents.HistoryMeaning` | `crates/openbad-llm/src/replay.rs:44-52` | the newest checkpoint among them is moved to the front, or behind a leading system message; nothing else moves |
| `Replay.SurfaceIsKept` | `crates/openbad-store/src/projections.rs:96-152` | the fold over events keeps exactly the projection's surface rows |
| `Replay.OneCheckpointKept` | `crates/openbad-llm/src/replay.rs:23-71` | at most one checkpoint survives the fold |
| `Replay.ReplayAgrees` | `crates/openbad-llm/src/replay.rs:44-52` | for well-marked logs the fold keeps the surface rows with at most one checkpoint, and the two replayed histories are equal if and only if the first message behind the checkpoint is not a developer message |
| `ReplayContents.StoreMeaning` | `crates/openbad-store/src/store.rs:1742-1765` | the store moves its newest checkpoint row to the front, or behind a leading system row; nothing else moves |
| `Replay.DeveloperFirstDiffers` | `crates/openbad-store/src/store.rs:1742-1765` | a concrete log on which they differ |
| `Civil.DaysInverse` | `crates/openbad-pipeline/src/source.rs:571-589` | every integer is the number of a valid date, the one `civil_from_days` gives |
| `Civil.CivilInverse` | `crates/openbad-pipeline/src/source.rs:557-589` | converting any valid Gregorian date to its number and back gives the date |
| `Civil.DaysSuccessive` | `crates/openbad-pipeline/src/source.rs:557-569` | the next calendar date has the next number, from 0 on 1 January 1970 |
| `Civil.QuotFloors` | `crates/openbad-pipeline/src/source.rs:562-574` | the branch for negative years and days turns truncated division into a floor |
| `Civil.TimestampRoundTrip` | `crates/openbad-pipeline/src/source.rs:522-554` | parsing a printed instant (section 5.6 of RFC 3339) returns it floored to the second, negatives clamped to 0, if and only if it lies before the year 10000 |
| `CivilText.IsoForm` | `crates/openbad-pipeline/src/source.rs:522-535` | character by character: before the year 10000 the text is `yyyy-mm-ddThh:mm:ssZ` in decimal digits, with the valid date whose number is that of the instant's day and the time of day to the second |
| `CivilText.ParseMeaning` | `crates/openbad-pipeline/src/source.rs:537-569` | a text is read if and only if it has twenty bytes, its six fields are optionally signed numbers, and month and day are within 12 and 31; its value counts the days on from the first of the month |
| `Cursor.SourceCursor.Accept` | `crates/openbad-pipeline/src/cursor.rs:53-64` | acceptance, trimming to 2048 ids and the watermark, as specified |
| `Cursor.Poll` | `crates/openbad-pipeline/src/source.rs:196-212` | the three reads in order into a copied cursor; any failure returns nothing and leaves the cursor |
| `Cursor.AdmitAllMeaning` | `crates/openbad-pipeline/src/source.rs:214-227` | a poll emits what its own offers' acceptance says, and fetched = emitted + own-bot + duplicate |
| `CursorContents.PollEmits` | `crates/openbad-pipeline/src/source.rs:196-227` | trigger by trigger: a poll fails if and only if one of its reads does; else it emits, from issues, comments and reviews in that order and unchanged, exactly those that are neither the bot's own nor among the last 2048 remembered when they come up, counts the others by reason, and remembers the emitted ids and the latest time |
| `Cursor.PollRunKnows` | `crates/openbad-pipeline/src/cursor.rs:37-64` | over any run of polls the remembered ids are the last 2048 emitted, without duplicates, equal ids are more than 2048 emissions apart, and the watermark is the latest time emitted |
| `Cursor.NextEmitted` | `crates/openbad-pipeline/src/cursor.rs:47-57` | the next trigger is emitted if and only if its id is not among the last 2048 emitted |
| `Cursor.EmittedTwice` | `crates/openbad-pipeline/src/cursor.rs:53-64` | a concrete run of polls that emits one id twice |
| `Cursor.SinceBehind` | `crates/openbad-pipeline/src/source.rs:197` | the printed `since` parses to the watermark less a minute, clamped at 0, floored to the second, if and only if that lies before the year 10000 |
| `Terminal.Session.Extend` | `crates/openbad-terminal/src/lib.rs:156-165` | a chunk is appended and the oldest bytes beyond 256 KiB are dropped and flagged |
| `Terminal.Session.ReadBuffer` | `crates/openbad-terminal/src/lib.rs:48-65` | at most 64 KiB leave the front, the flag is handed over and cleared, and a failed status query loses both |
| `Terminal.EveryRunFaithful` | `crates/openbad-terminal/src/lib.rs:151-170` | for every interleaving: the buffer is bounded and is the end of the stream; reads take contiguous, ordered, disjoint segments; a read is marked truncated if and only if bytes were lost since the previous one |
| `Terminal.FrontIs` | `crates/openbad-terminal/src/lib.rs:156-165` | no byte is dropped before it must be: the buffer starts where reading stood or 262144 bytes before the end of what was printed |
| `Terminal.NextRead` | `crates/openbad-terminal/src/lib.rs:48-65` | a read takes what was printed from there on up to 65536 bytes, and is marked if and only if something was dropped since reading stood |
| `Terminal.NothingLost` | `crates/openbad-terminal/src/lib.rs:48-65` | what was read plus what is buffered is everything printed if and only if nothing was ever marked lost |
| `Terminal.MarkBetweenOutputs` | `crates/openbad-terminal/src/lib.rs:48-65` | between two delivered outputs with only failed reads in between, the mark is right if and only if it is set or those reads took nothing |
| `Terminal.FailedReadLosesBytes` | `crates/openbad-terminal/src/lib.rs:50-58` | a concrete run in which a failed read loses a byte unmarked |
| `Transfer.PlanRight` | `crates/openbad-store/src/transfer.rs:574-607` | each bundled session is placed by its owner and its earlier copies alone |
| `Transfer.Database.PlaceSessions` | `crates/openbad-store/src/transfer.rs:574-607` | the loop with its shrinking table of earlier copies computes that plan |
| `Transfer.Database.ImportWorkspaceState` | `crates/openbad-store/src/transfer.rs:452-766` | the transaction commits the specified merge or changes no table; `TransferRows.ImportTold` and `TransferRows.ImportFails` tell the merge from the tables before it |
| `TransferRows.ImportTold` | `crates/openbad-store/src/transfer.rs:609-700` | after a successful import messages and turns are those there before and, in each free place the written bundles list, the body of the first row listed for it; events likewise, each under its given or the next fresh id, unless a row there before or taken earlier has its place or id; the counts are the growth of the tables |
| `TransferRows.ImportFails` | `crates/openbad-store/src/transfer.rs:609-660` | an import fails if and only if a hash to write does not decode or a session that is new is listed twice; otherwise the sessions are those before and the new ones |
| `Transfer.ForeignUntouched` | `crates/openbad-store/src/transfer.rs:574-730` | a session another workspace owns is altered in no table |
| `TransferRows.UnwrittenUntouched` | `crates/openbad-store/src/transfer.rs:574-730` | nor is any other session, whoever owns it, that no bundle is written to |
| `TransferRows.RecognisedCopy` | `crates/openbad-store/src/transfer.rs:425-450` | a session recognised as imported before is a copy this workspace owns and made of that very session |
| `Transfer.InsertOnce` | `crates/openbad-store/src/transfer.rs:609-640` | a successful import writes no new session twice |
| `Transfer.ParentsMapped` | `crates/openbad-store/src/transfer.rs:609-730` | a written session has the image of its in-bundle parent, the last listed if it is there more than once, a new one without such a parent has none, and its own fields are the bundle's or, when updated, as before |
| `Transfer.ImportIdempotent` | `crates/openbad-store/src/transfer.rs:425-450` | importing the same bundle again changes no table and counts nothing |
| `Vault.AssociatedDataInjective` | `crates/openbad-vault/src/lib.rs:633-640` | associated data is equal if and only if id and name are |
| `Vault.EncryptedOpens` | `crates/openbad-vault/src/lib.rs:587-631` | a sealed file opens under its own entry, and has the size reads allow |
| `Vault.MovedFileRejected` | `crates/openbad-vault/src/lib.rs:608-640` | a value file moved to another entry does not open, given that the cipher rejects that one sealed value under that one other associated data |
| `Vault.SortOrdered` | `crates/openbad-vault/src/lib.rs:476-482` | the written index lists names in order |
| `Vault.PutAtomic` | `crates/openbad-vault/src/lib.rs:194-238` | after every file step of a store, whatever fails, the disk is safe, no other name changed and this one has its old or its new secret; success ends with the new one, failure with the old one except after a replacement whose index write failed |
| `Vault.PutOutcome` | `crates/openbad-vault/src/lib.rs:194-238` | from name, size, directory, index, ids, sealing and the two writes alone: when a store touches the disk and when it succeeds |
| `VaultContents.PutWrites` | `crates/openbad-vault/src/lib.rs:194-238` | a store that gets past its checks first writes a file that opens to the value, under the name's own id or the first free drawn one; then an index in name order with that entry, its times and algorithm, in place of the name's old one and every other entry unchanged, and returns the entry; when the index cannot be written a new value is deleted again and the error returned |
| `VaultContents.PutRefused` | `crates/openbad-vault/src/lib.rs:194-238` | a store that does not writes nothing; each error it returns, told exactly from name, size, directory, index, ids and sealing |
| `Vault.PutAtomicIff` | `crates/openbad-vault/src/lib.rs:228-237` | a store either succeeds or leaves all secrets as they were, if and only if it is not a replacement by a different value that gets as far as the value file and then cannot write the index |
| `Vault.ReplacementSlips` | `crates/openbad-vault/src/lib.rs:228-237` | a concrete replacement that reports an error with the new value in place |
| `Vault.RemoveAtomic` | `crates/openbad-vault/src/lib.rs:264-279` | the same for a removal, which ends with no secret when it succeeds and changes nothing when it fails |
| `VaultContents.RemoveTells` | `crates/openbad-vault/src/lib.rs:264-279` | a removal leaves the index without exactly the named entry, in name order, then deletes exactly its file, and returns the entry; or it does nothing, for the reason it gives |
| `Vault.EveryStepSafe` | `crates/openbad-vault/src/lib.rs:194-280` | the same for every file step of every run with failures and crashes, from an empty vault |
| `VaultContents.PutTidy` | `crates/openbad-vault/src/lib.rs:228-237` | a store leaves a file no entry names if and only if a new value was written and can neither be listed nor deleted |
| `VaultContents.RemoveTidy` | `crates/openbad-vault/src/lib.rs:274-278` | a removal does if and only if the file cannot be deleted |
| `VaultContents.RunTidy` | `crates/openbad-vault/src/lib.rs:194-280` | in any run from an empty vault whose operations run to their end and can delete, the value files are exactly those the index names |
| `Vault.GetMeaning` | `crates/openbad-vault/src/lib.rs:241-255` | on a safe disk a read gives the secret the name stands for; it fails only for a file it cannot read, an index too long or a name not there, never for a broken file |
| `VaultContents.GetTells` | `crates/openbad-vault/src/lib.rs:241-255` | on any disk a read returns what the listed entry's file opens to under that entry, or exactly the error that applies first |
| `Vault.PutReadable` | `crates/openbad-vault/src/lib.rs:434-482` | a store leaves the index readable if and only if it is not one that writes value and index of a new name with ten thousand entries there |
| `Vault.TooLongForever` | `crates/openbad-vault/src/lib.rs:444-448` | past that no operation succeeds or writes anything again |
| `Vault.Vault.ReadIndex` | `crates/openbad-vault/src/lib.rs:434-474` | the checking loop accepts exactly the readable indexes |
| `Vault.Vault.FreshId` | `crates/openbad-vault/src/lib.rs:646-658` | up to eight draws; a returned id is valid and not taken |
| `VaultContents.NameMeaning` | `crates/openbad-vault/src/lib.rs:406-422` | names are 1 to 128 letters, digits, dots, underlines and dashes with a letter or digit in front, and no others |
| `VaultContents.IdMeaning` | `crates/openbad-vault/src/lib.rs:424-432` | ids are exactly what spells sixteen bytes, in letters of either size |
| `VaultContents.DecryptMeaning` | `crates/openbad-vault/src/lib.rs:608-631` | a file opens to a value if and only if it is the mark, a nonce and something that opens to it under that nonce and the entry |
| `VaultContents.NewIdMeaning` | `crates/openbad-vault/src/lib.rs:646-658` | an id is found if and only if one of eight draws, none failed before it, is free; it is the first such |
| `VaultContents.HexInjective` | `crates/openbad-vault/src/lib.rs:646-658` | different draws give different ids |
| `Vault.Vault.PutSecret` | `crates/openbad-vault/src/lib.rs:194-238` | the imperative store takes the specified file steps in order |
| `Vault.Vault.GetSecret` | `crates/openbad-vault/src/lib.rs:241-255` | the imperative read gives the specified result |
| `Vault.Vault.RemoveSecret` | `crates/openbad-vault/src/lib.rs:264-279` | the imperative removal takes the specified file steps in order |
| `CanonicalJson.WriteCanonical` | `crates/openbad-harness/src/prompt.rs:131-165` | the recursive writer appends exactly the canonical text |
| `JsonReader.CanonicalReads` | `crates/openbad-harness/src/prompt.rs:131-165` | the canonical text is a JSON text without white space (RFC 8259): an independent reader gets from it, with nothing left over, a value equal to the printed one up to key order, whose keys ascend at every depth |
| `CanonicalJson.CanonicalDecides` | `crates/openbad-harness/src/prompt.rs:131-165` | two values have the same canonical text if and only if they are equal up to key order at every depth |
| `CanonicalJson.CanonicalPrefixFree` | `crates/openbad-harness/src/prompt.rs:137-165` | the text is a prefix code: it can be told from any delimiter that follows |
| `CanonicalJson.QuotePrefixFree` | `crates/openbad-harness/src/prompt.rs:150-151` | escaped strings (section 7 of RFC 8259) determine their text and where they end |
| `CanonicalJson.SortAscending` | `crates/openbad-harness/src/prompt.rs:140-141` | distinct keys come out strictly ascending |
| `Wrappers.LessMeaning` | `crates/openbad-harness/src/prompt.rs:140-141` | ascending means by code point: at the first difference the smaller character, or the end of the string, comes first |
| `Mcp.StartValid` | `crates/openbad-mcp/src/lib.rs:359-401` | a manager that starts is in step with both files, and older project definitions are all defined |
| `McpFrames.StartTold` | `crates/openbad-mcp/src/lib.rs:359-401` | a start has the file's definitions with, behind them in order, exactly the older entries whose name is new; enabled are those the project enables and the older entries that were, no other; which save fails decides whether it starts and what each file holds |
| `Mcp.McpManager.Open` | `crates/openbad-mcp/src/lib.rs:359-401` | loading and migrating in the specified order of saves |
| `Mcp.ReloadKeeps` | `crates/openbad-mcp/src/lib.rs:440-477` | a reload brings memory level with the files and stops every client whose definition changed |
| `McpFrames.ReloadStops` | `crates/openbad-mcp/src/lib.rs:420-477` | memory catches up if and only if nothing changed or both files can be read, and a client survives if and only if its definition stands unchanged and its server was not disabled |
| `Mcp.McpManager.ReloadNow` | `crates/openbad-mcp/src/lib.rs:440-477` | the loops over old and new definitions stop exactly the specified clients |
| `Mcp.AddKeeps` | `crates/openbad-mcp/src/lib.rs:501-526` | adding keeps the invariant whatever save fails, and success defines the server |
| `McpFrames.AddTold` | `crates/openbad-mcp/src/lib.rs:501-526` | success puts the definition behind all others, sets its own enablement if asked and no other, and stops no client; every failure with what it leaves in memory and in each file |
| `Mcp.UpdateKeeps` | `crates/openbad-mcp/src/lib.rs:528-561` | so does updating; success replaces the definition and stops its client |
| `McpFrames.UpdateTold` | `crates/openbad-mcp/src/lib.rs:528-561` | success replaces the definition in its place, leaves every other one and all enablement, and stops exactly its client; every failure with what it leaves |
| `Mcp.SetEnabledKeeps` | `crates/openbad-mcp/src/lib.rs:591-624` | so does enabling or disabling |
| `McpFrames.EnableTold` | `crates/openbad-mcp/src/lib.rs:591-624` | success sets this server's enablement and no other, changes no definition, and stops exactly its client when disabling and none when enabling; every failure with what it leaves |
| `Mcp.RemoveKeeps` | `crates/openbad-mcp/src/lib.rs:563-588` | removal keeps the invariant if and only if it does not stop between its two saves |
| `McpFrames.RemoveTold` | `crates/openbad-mcp/src/lib.rs:563-588` | past its first save a removal takes out exactly this definition, its enablement and its client, whether the second save succeeds or not; every failure with what it leaves |
| `Mcp.HalfRemovedStays` | `crates/openbad-mcp/src/lib.rs:580-586` | after such a stop the stamps match, so memory goes on without an enablement the file has |
| `McpFrames.LostForgotten` | `crates/openbad-mcp/src/lib.rs:420-477` | a save that lost its file shows at the next operation: no definitions and no clients, or no enablement and no clients of servers that were enabled |
| `Mcp.RequestsCurrent` | `crates/openbad-mcp/src/lib.rs:627-700` | every request goes to the definition the files hold, and calls only to enabled servers and allowed tools |
| `McpFrames.CallTold` | `crates/openbad-mcp/src/lib.rs:627-705` | a call or probe is refused for exactly the first reason that applies, and otherwise goes to the loaded definition, starting a client only for a server that runs one and has none |
| `Mcp.RunValid` | `crates/openbad-mcp/src/lib.rs:420-624` | through any run of operations and outside edits between them memory is what the stamped files mean and every client runs a current definition, unless a removal stopped halfway |
| `Mcp.StepInSync` | `crates/openbad-mcp/src/lib.rs:420-700` | after one operation that accepts its arguments, can load the files and loses none of them, successful or not, memory equals the files |
| `Mcp.RunInSync` | `crates/openbad-mcp/src/lib.rs:420-700` | the same after each such operation in any run in which no removal stopped halfway |
| `Mcp.McpManager.Add` | `crates/openbad-mcp/src/lib.rs:501-526` | the imperative operation equals the specified one |
| `Mcp.McpManager.Update` | `crates/openbad-mcp/src/lib.rs:528-561` | the imperative operation equals the specified one |
| `Mcp.McpManager.Remove` | `crates/openbad-mcp/src/lib.rs:563-588` | the imperative operation equals the specified one |
| `Mcp.McpManager.SetServerEnabled` | `crates/openbad-mcp/src/lib.rs:591-624` | the imperative enabling equals the specified one, which `McpFrames.EnableTold` tells from the loaded files |
| `Mcp.McpManager.CallTool` | `crates/openbad-mcp/src/lib.rs:656-700` | the checks in their order and the client chosen |
| `Mcp.McpManager.ProbeServer` | `crates/openbad-mcp/src/lib.rs:627-640` | the imperative operation equals the specified one |
| `Mcp.McpManager.Servers` | `crates/openbad-mcp/src/lib.rs:480-498` | every definition with this project's enablement, after a reload |

## Left out

- Provider transport, retries, attempt reports, pricing and usage totals, audit files, spilled tool output, approvals and debug output: no effect on the message list.
- Replies with a role other than assistant, the `prefix` flag, the request envelope and the visible text of a run.
- Wording (notes, summariser instruction, checkpoint text) is a parameter; the results only use its length or that it is not empty.
- Machine width: token and byte counts are unbounded, casts between signed and unsigned database columns are exact, and ratios of type `f64` are exact reals, with non-finite ones kept apart.
- Prompt assembly, tool execution and the tool policy: a tool call is an arbitrary result with a usable flag.
- Bytes to text and JSON parsing in the stream decoder are arbitrary functions of a line and of a frame; a failing transport mid-stream only ends delivery.
- `SseDecoder` and `StreamDecoder` take those functions as constants; the normalisation of raw usage numbers is part of parsing.
- SQL, full-text tables and migrations: tables are maps with the keys the statements rely on.
- EventLog: row decoding errors and event kinds without a projection beyond one constructor for them.
- The three provider reads of a poll, request building and label filtering: each read is an arbitrary list or a failure.
- Terminal: the shell, signals and `read_until`, and the lossy decoding of bytes cut at a read boundary.
- Transfer: memories, knowledge and file checkpoints (upserts by id, or rows under fresh ids), so a checkpoint blob that does not decode is not a failure here; which of several copies is listed first is an arbitrary but fixed choice.
- Vault: key files, permissions, symbolic links, the index file's JSON and its size limit; the cipher is a pair of functions of which only correctness, and one rejection where stated, is assumed; temporary files are never read and do not appear.
- CanonicalJson: numbers are their printed tokens, so the two floating-point zeros, equal as numbers and printed differently, count as different values.
- Mcp: the YAML text is an arbitrary encoding that reads back what it wrote, and content stamps are taken as free of collisions; the requests clients answer, timeouts and HTTP are not modelled.
- Locks, poisoning and races between processes: operations are taken one at a time, and outside edits of files fall between them.
- The user interface, plugins, subagents, evaluation rules and ticket tables.

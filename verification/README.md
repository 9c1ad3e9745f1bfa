# A verified model of a local agent runtime

The runtime accepts turns for sessions, runs one agent at a time per session,
stores the conversation, compacts it under a token budget, streams events to a
terminal client, assembles streamed tool calls and manages background tasks.
These Dafny files model its protocols and loops and prove what the program
relies on.

Each stateful part is there twice: as functions on values, about which the
theorems are proved over all runs, and as the program's own classes, loops and
in-place updates, whose methods are proved to compute these functions.
`dafny verify dfyconfig.toml` checks everything.

- **Turn queue** (`SessionQueue`, `SessionInvariant`, `SessionTheorems`,
  `SessionIds`, `SessionManager`): one active turn, queueing, preemption of
  report batches, coalescing, and finish calls of runs cancelled earlier. Runs of
  submits, cancels and agent returns in any order, with fresh and with reused ids.
- **Report delivery** (`ReportDelivery`, `ReportResend`, `ReportLoss`,
  `ReportService`): list, submit and mark as separate steps, interleaved with
  clients that submit turns of either kind, agents and new reports.
- **Conversation** (`Transcript`, `ModelAdapter`, `MessageStore`, `MessageOrder`,
  `AgentLoop`, `StreamSpeech`, `AgentTurn`, `TurnOutcomes`, `AnthropicMessages`,
  `RenderedItems`, `AnthropicShape`, `RenderedTurns`): the validator, storing and
  reading back, what a stream says and what a turn stores of it over any streams
  and failures, and the rendering in alternating roles.
- **Budget and compaction** (`ContextBudget`, `ContextWindow`, `Microcompact`,
  `RequestValidity`, `Compaction`, `CompactionTheorems`, `SessionLife`,
  `TurnShapes`, `TurnRequests`): the token estimate, the window of a request and
  when it cuts an exchange, clearing of old tool results, the split by turns,
  snapshots, and a session over all its turns.
- **Event streaming** (`EventFrames`, `EventReading`, `EventCuts`, `EventLog`,
  `EventResume`, `TuiModel`, `TuiEntries`, `TuiShows`, `DeltaCoalescing`,
  `StreamedView`): the printed and parsed frames (WHATWG HTML Living Standard,
  sections 9.2.5 and 9.2.6), connections cut anywhere, resuming, merging of text
  deltas under any timer schedule, and what the terminal shows in the end.
- **Streamed tool calls** (`ToolCallTracker`, `ToolCallAssembly`,
  `ToolCallRepeats`, `ResponseStream`, `ToolArguments`, `JsonCompletion`): all that
  is sent for a response with interleaved argument deltas, and closing truncated
  JSON (RFC 8259, sections 4, 5 and 7).
- **Tasks and workflow runs** (`TaskManager`, `TaskTheorems`, `TaskSteps`,
  `TaskFailure`, `TaskCancellation`, `TaskReports`, `TaskDelivery`, `TaskMessages`,
  `WorkflowDedupe`): states, waiters, runs and retried deliveries with failing reads
  and writes, composed with the report service up to the session's message;
  get-or-create by key with callers interleaved query by query.

Where a plausible property is false of the code, the code is kept and a lemma
says exactly when the code meets it:

| property | holds exactly when | an input that breaks it |
|---|---|---|
| streamed events arrive once each and unchanged | no connection is closed inside a payload (`StreamedExactlyOnce`) | a close inside one delivers it cut, and it is never asked for again |
| what Fail made of a task lasts | the task has no live run, or its runner had returned an error before and no one is told (`FailLastsExactlyWhen`) | any live run that Fail cancels (`FailThen`) |
| a task that Cancel reached ends cancelled | it has no live run, or one whose runner had not returned, or had returned cancelled (`CancelHoldsExactlyWhen`) | a run that has returned and is not finished yet (`CancelThen`) |
| an ended task is reported once, or twice if Fail reached its run | no attempt to deliver it stores the report and ends busy (`BoundedExactlyWhenNoneIsStoredButBusy`), that is, no call finds an idle session and a busy query behind the insert (`ToldOnceExactlyWhen`) | `BusyReporterRepeats`, `BusyQueryReportsAgain` |
| a report marked delivered is in a message | the batch that marked it was not merged into a client's, or one kept before held it (`MarkedWasSentExactlyWhen`, `MarkedReportsWereSent`) | `MergedBatchIsLost` |
| no report is sent twice | no batch is kept while a report of one kept before is unmarked (`SentAgainExactlyWhen`); without merging, no batch follows a failed mark (`SentAgainAfterFailure`) | `FailedMarkSendsAgain` |
| an item gets one call | it is not named again behind a delta that ended it early (`EachItemIsCalled`, `CalledTwiceExactlyWhen`) | `LateDeltaSendsTwice` |
| no call is sent before the completion | no delta ends its item early (`CallsWithoutCompletion`, `CallsBeforeABadFrame`) | `LateDeltaSendsTwice` |
| a valid transcript is rendered with uses answered in the next message | it is content and exchanges with results in call order (`PairedExactlyWhenShaped`) | `ValidTranscriptRenderedUnpaired` |
| the late end of a cancelled run is harmless | the active turn does not carry its id; for good, no id is submitted while it is still carried (`ReuseIsHarmlessExactlyWhenNotBusy`) | `ReusedIdLosesTheActiveRun` |
| the history is cut from its oldest side (the comment at internal/v2/agent/context.go:18-20) | the newest message fits by itself, or none does (`CutFromOldestExactlyWhen`) | `OlderIsKeptInstead`, `OlderKeptInput` |
| the request sent is a valid transcript | neither end of its window cuts an exchange (`RequestIsValidExactlyWhen`, over all turns `EveryRequestIsValidExactlyWhen`), as when the whole history fits | `CutExchangeIsSent` |
| merging deltas keeps the last number | an event that carries it is not overwritten by the delta behind it (`LastSeqIsKeptExactlyWhen`) | `FallingNumberIsLost` |
| a stored transcript stays valid over a turn | speech is well shaped and no exchange is cut (`EveryHeadIsValid`, `EndIsValid`) | any iteration that is not (`IterationValidity`) |
| reading the table again gives the compacting turn's context | never, after a compaction that kept messages (`ReloadDropsTheKeptMessages`) | every successful compaction |

Fresh ids (turns, runs, snapshots, reports) are inputs that differ from earlier
ones, but for the turn ids of `SessionIds`. Reads, writes and decodings that may fail take a flag or an oracle that
says how they go. JSON is a pair of functions of which decoding undoes encoding.
Characters stand for Unicode code points; byte lengths enter the token estimate
through the UTF-8 length of each character.

## Model

| member | source | states |
|---|---|---|
| `SessionTheorems.OneAgentPerSession` | internal/v2/session/manager.go:142-237 | in every reachable state the live, uncancelled agent runs are exactly the one run of the active turn, an idle session has an empty queue, at most one report batch waits, and the counters are a recount of the queue |
| `SessionTheorems.CountersTell` | internal/v2/session/manager.go:228-287 | in every reachable state the counters tell how many turns wait, that at most one of them is a batch and whether one is, and that the rest are users' |
| `SessionTheorems.StaleFinishChangesNothing` | internal/v2/session/manager.go:180-206 | finishTurn called by a cancelled run changes nothing, with turn ids that are not reused |
| `SessionIds.ReturnIsHarmlessExactlyWhen` | internal/v2/session/manager.go:180-206 | in any state at all the end of a run only raises its own flag if and only if the active turn does not carry its id |
| `SessionIds.ReuseIsHarmlessExactlyWhenNotBusy` | internal/v2/session/manager.go:59-206 | with ids that may be reused: after any run in which each submitted id was carried by no live goroutine, waiting or active turn, a further submission that changes the session keeps every later stale return harmless over all such continuations if and only if its id is carried by none either |
| `SessionTheorems.TurnsAreConserved` | internal/v2/session/manager.go:59-226 | every submitted id is in exactly one place: active, queued, or ended as finished, cancelled, preempted or coalesced; no other id is in any |
| `SessionTheorems.CoalescedIntoQueuedBatch` | internal/v2/session/manager.go:154-177 | a submission gets another id back exactly when it is a batch, a turn is active and a batch already waits; then nothing changes and the id is that batch's |
| `SessionTheorems.StartedOnceAndInOrder` | internal/v2/session/manager.go:142-226 | no turn is started twice, and turns that waited are started in the order of submission |
| `SessionTheorems.NothingQueuedBeforeAStartedTurn` | internal/v2/session/manager.go:217-226 | once a waiting turn has been started, nothing queued before it is still queued |
| `SessionTheorems.AtMostOneOvertake` | internal/v2/session/manager.go:154-172 | overtakes so far plus report batches active or ahead of a waiting turn never exceed one |
| `SessionTheorems.OvertakesExactlyWhenPreempting` | internal/v2/session/manager.go:154-163 | a submission overtakes a waiting turn exactly when it is a user turn and a batch is active |
| `SessionTheorems.EndingMovesTheQueue` | internal/v2/session/manager.go:90-123 | a finish or cancel of the active turn activates the head of the queue and moves every other turn one place forward |
| `SessionTheorems.OthersKeepPlaces` | internal/v2/session/manager.go:90-199 | no other operation moves a waiting turn, but for removing the one that is cancelled |
| `SessionTheorems.StartsAfterEnoughEndings` | internal/v2/session/manager.go:217-226 | k + 1 endings get the turn at place k out of the queue, whatever happens between them |
| `SessionTheorems.GoneForGood` | internal/v2/session/manager.go:217-226 | a turn that has left the queue never returns to it |
| `SessionTheorems.CancelEndsExactlyThatTurn` | internal/v2/session/manager.go:90-123 | in every reachable state, cancelling an id that is active or waiting ends that turn as cancelled, out of its place, and says so; any other id is answered false and nothing changes |
| `SessionInvariant.StepKeepsInv` | internal/v2/session/manager.go:59-237 | every submit, cancel and agent return keeps the invariant of ids, queue, conservation, order and delay |
| `SessionInvariant.StaleReturn` | internal/v2/session/manager.go:201-206 | the goroutine of a cancelled run only raises its own flag |
| `SessionManager.QueueCounters` | internal/v2/session/manager.go:277-287 | the loop over the queue computes its counters |
| `SessionManager.EnqueueQueuedTurn` | internal/v2/session/manager.go:259-268 | appends, or finds the waiting batch whose id a further batch gets |
| `SessionManager.RuntimeState.StartTurn` | internal/v2/session/manager.go:142-178 | the record after a submission is the state the turn queue's model gives, with the id returned |
| `SessionManager.RuntimeState.CancelTurn` | internal/v2/session/manager.go:90-123 | the record follows the queue model, and the answer is true exactly if the id was active or waiting |
| `SessionManager.RuntimeState.FinishTurn` | internal/v2/session/manager.go:180-199 | only the active turn's id ends it and starts the head of the queue |
| `SessionManager.RuntimeState.RunReturns` | internal/v2/session/manager.go:201-206 | an agent that returns reports its own turn id |
| `SessionManager.RuntimeState.ActivateTurn` | internal/v2/session/manager.go:208-215 | the turn becomes active with a fresh context and a goroutine for it |
| `SessionManager.RuntimeState.DequeueAndActivateNext` | internal/v2/session/manager.go:217-226 | the head of the queue becomes active, if there is one |
| `SessionManager.RuntimeState.ClearActiveTurn` | internal/v2/session/manager.go:228-237 | no turn is active, and the counters are refreshed |
| `SessionManager.Manager.Register` | internal/v2/session/manager.go:49-57 | registering again keeps the record; a new session starts idle |
| `SessionManager.Manager.SubmitTurn` | internal/v2/session/manager.go:59-81 | an unknown session is an error, a blank id is generated, and no other session changes |
| `SessionManager.Manager.CancelTurn` | internal/v2/session/manager.go:90-123 | cancelling touches the one session's record only; the answer is true exactly if the session is known and the id was active or waiting in it |
| `SessionManager.Manager.QueuePayload` | internal/v2/session/manager.go:125-140 | the payload shows the active id and kind and the counters of the record |
| `ReportLoss.MarkedReportsWereSent` | internal/v2/reports/service.go:74-124 | over every interleaving, with clients submitting turns of either kind, and while marks succeed: every report marked delivered was in the message of a batch accepted under its own id if and only if no batch that was merged, because a turn was active and another batch waited, goes on to mark |
| `ReportLoss.MarkedReportsWereSentExactlyWhen` | internal/v2/reports/service.go:74-124 | the same with marks that fail: if and only if no merged batch marks a report that no batch kept before it held |
| `ReportLoss.MarkedWasSentExactlyWhen` | internal/v2/reports/service.go:111-122 | for each report that is marked: it is in an accepted message if and only if the batch that marked it was kept, or one kept before held it |
| `ReportLoss.MergedBatchIsLost` | internal/v2/app/routes.go:139-175 | otherwise: a client's turn and a client's report_batch arrive while the service prepares its batch, which is merged; its report is marked delivered in no message |
| `ReportLoss.BatchesAreKept` | internal/v2/reports/service.go:82-114 | no batch is merged unless a client submits one between the look at the idle queue and the submission |
| `ReportLoss.UndisturbedDelivery` | internal/v2/reports/service.go:74-124 | in runs in which clients do not, every marked report was sent, and one is sent again if and only if a batch is submitted after a failed mark |
| `ReportResend.SentAgainExactlyWhen` | internal/v2/reports/service.go:74-124 | over every interleaving, with clients submitting turns of either kind: some report is in the messages of two batches if and only if a batch is accepted under its own id while a report of one accepted before is still unmarked |
| `ReportResend.SentAgainAfterFailure` | internal/v2/reports/service.go:111-122 | in runs in which no batch is merged: if and only if a batch is submitted after a mark that failed |
| `ReportResend.StepSendsAgain` | internal/v2/reports/service.go:111-122 | one step makes a report be in two batches exactly if it submits a batch that is not merged while an accepted message holds an unmarked report |
| `ReportResend.NoReportIsSentTwice` | internal/v2/reports/service.go:74-124 | while marking succeeds no report is in the messages of two batches, nor twice in one, whatever clients submit |
| `ReportResend.FailedMarkSendsAgain` | internal/v2/reports/service.go:118-122 | a run in which that happens: a failed mark, and the same report in a second batch |
| `ReportDelivery.BatchKeepsItsIdExactlyWhen` | internal/v2/session/manager.go:154-177 | a submitted batch with a new id keeps that id if and only if no turn is active or no batch waits |
| `ReportDelivery.StepAddsBatchExactlyWhen` | internal/v2/session/manager.go:154-226 | where no batch is queued or active, a step of a client or agent puts one there if and only if it submits one |
| `ReportDelivery.GoesOnExactlyWhen` | internal/v2/reports/service.go:74-124 | at any moment of a run a call goes on exactly if the session is idle, and then exactly if its list works and holds a report not delivered; it holds all of these |
| `ReportService.Service.SubmitQueued` | internal/v2/reports/service.go:74-124 | without a manager, for a blank, unknown or busy session, and with nothing undelivered it succeeds and changes nothing; a failed query is the error; a refused turn has its row marked failed; otherwise the batch becomes active and exactly the reports marked before the first failed mark are delivered |
| `ReportService.Service.DeliverTaskReport` | internal/v2/reports/service.go:37-57 | the report is stored for the session the task names for it, or else its own, then submitted; it stays stored whatever error the submission ends with |
| `ReportService.FiledIsDelivered` | internal/v2/reports/service.go:37-124 | a report filed for a session that is known and idle is delivered when no error comes back |
| `ReportService.Service.SubmitBatchTurn` | internal/v2/reports/service.go:98-123 | the turn's row is created, the batch submitted, and its reports marked one after the other; a session that is no longer registered refuses it, and the row is marked failed |
| `ReportService.Service.MarkAll` | internal/v2/reports/service.go:118-122 | marks one by one until the store fails |
| `ReportService.SubmitQueuedIsSteps` | internal/v2/reports/service.go:74-124 | what the method does undisturbed, whichever query fails, is a run of the interleaved step machine |
| `ReportService.NextBatchTellsIt` | internal/v2/reports/service.go:74-124 | one undisturbed call for an idle session puts every report left over into its message and marks it, keeping the earlier messages |
| `Transcript.ValidateConversationItems` | internal/model/transcript.go:10-52 | the loop over the pending map reports the first fault, and success exactly on valid transcripts |
| `Transcript.NearestSafeConversationBoundary` | internal/model/transcript.go:54-95 | returns the greatest k not above the clamped preference whose prefix is valid |
| `Transcript.ValidMeansEveryExchangeCloses` | internal/model/transcript.go:10-52 | valid exactly when every call has an id, every result answers a call open at that point, and no call is open at a content item or at the end |
| `Transcript.FaultTellsWhy` | internal/model/transcript.go:10-95 | a reported fault is so: at its position stands a call without an id, a result without payload, id or open call, or content inside an exchange, with exactly the calls that are open there |
| `Transcript.FoldMeans` | internal/model/transcript.go:10-52 | the fold holds exactly the open calls, and stops exactly at the first misplaced item |
| `Transcript.ValidConcat` | internal/model/transcript.go:10-52 | after a valid prefix a transcript is valid exactly if its rest is |
| `Transcript.RestAfterBoundaryIsValid` | internal/model/transcript.go:54-95 | cutting a valid conversation at a safe boundary leaves a valid rest |
| `ModelAdapter.ToModelMessages` | internal/v2/agent/model_adapter.go:27-72 | the loop lists the items the stored messages read back as |
| `ModelAdapter.FromModelItems` | internal/v2/agent/model_adapter.go:74-105 | the loop lists the messages assistant items are stored as |
| `ModelAdapter.ItemsReadBack` | internal/v2/agent/model_adapter.go:27-152 | storing and reading back any list of items drops the blank ones, turns disguised text and nameless calls into what they look like, and keeps the rest in order |
| `ModelAdapter.ReadsBackUnchanged` | internal/v2/agent/model_adapter.go:74-152 | an assistant item reads back unchanged exactly when it is not blank, not disguised and not nameless |
| `ModelAdapter.ItemReadsBack` | internal/v2/agent/model_adapter.go:107-152 | the same for one item, through the encoded tool call and thinking block |
| `ModelAdapter.UsersAndToolsAreRead` | internal/v2/agent/model_adapter.go:27-72 | the texts of users and of summaries, and the results of tools with the ids they answer, are read back in order and in full |
| `MessageStore.MessageTable.Append` | internal/v2/store/message_repo.go:18-39 | rows are inserted one behind the other |
| `MessageOrder.ListIsStableSort` | internal/v2/store/message_repo.go:41-65 | whatever positions its rows have, listing a session gives them by rising position and, at one position, as inserted; no other list has these two properties |
| `MessageOrder.SavedRangeIsLoaded` | internal/v2/store/message_repo.go:77-110 | a snapshot that was saved loads exactly the rows its session has in its range by then, in that order, and the other snapshots load as before |
| `MessageOrder.ByPositionIsStableSort` | internal/v2/store/message_repo.go:101-105 | ordering by position permutes the rows, sorts them, and keeps the order of rows at one position |
| `MessageStore.MessageTable.AppendMessages` | internal/v2/agent/agent.go:434-460 | unplaced messages get consecutive positions behind the session's greatest, and blank turn ids the turn's |
| `MessageStore.AppendExtendsList` | internal/v2/agent/agent.go:434-460 | the messages come last in the session's list, positions keep rising, and no other session changes |
| `MessageStore.PlacedEach` | internal/v2/agent/agent.go:434-460 | each appended message keeps its text, role and turn id, gets the turn's id if it has none, and the next free position if it has none |
| `MessageStore.RangeIsSlice` | internal/v2/store/message_repo.go:92-110 | a range of positions holds exactly the listed rows from its first to its last |
| `MessageStore.SnapshotIsStable` | internal/v2/store/message_repo.go:77-110 | a saved range loads the same rows after any later append |
| `AgentLoop.StreamOnce` | internal/v2/agent/agent.go:261-361 | the stream loop collects text, thoughts and calls into items in the order spoken |
| `AgentLoop.ExecuteToolCalls` | internal/v2/agent/agent.go:363-417 | one result message for each call, in order, under the call's id |
| `AgentLoop.CallsAreTheCallItems` | internal/v2/agent/agent.go:261-361 | the calls handed to the tools are exactly the call items, in order |
| `StreamSpeech.ItemsSayWhatTheStreamSaid` | internal/v2/agent/agent.go:261-361 | letter by letter, the items say exactly what the stream's deltas said, thoughts with the signature that closed them and calls in their place, and no text follows another |
| `StreamSpeech.ItemsAreTold` | internal/v2/agent/agent.go:261-361 | which leaves one list of items |
| `StreamSpeech.EachPartIsKept` | internal/v2/agent/agent.go:261-361 | the texts joined are the text deltas joined, the thoughts joined the thinking deltas joined, and the calls are the ended calls in order |
| `StreamSpeech.HeardExactlyWhen` | internal/v2/agent/agent.go:261-361 | a stream is heard exactly if it brings no event the loop does not know |
| `AgentLoop.StepIsCompleteExchange` | internal/v2/agent/agent.go:205-253 | a step's stored speech and results read back as a complete exchange exactly when the speech is well shaped |
| `AgentLoop.QuietStreamsAreWellShaped` | internal/v2/agent/agent.go:261-361 | a stream with no text or thought behind a call, named calls and distinct trimmed ids is well shaped |
| `AgentTurn.RunStep` | internal/v2/agent/agent.go:183-254 | one iteration stores the opening, the speech and the results, or stops where a stream or a write fails |
| `AgentTurn.RunSteps` | internal/v2/agent/agent.go:183-259 | the loop up to its step limit |
| `AgentTurn.IterationValidity` | internal/v2/agent/agent.go:183-254 | an iteration from a valid store leaves a valid one unless it is cut between calls and results or goes on with misshapen speech |
| `AgentTurn.EveryHeadIsValid` | internal/v2/agent/agent.go:183-254 | at the head of every iteration the stored messages read back as a valid transcript if and only if all earlier speech was well shaped |
| `AgentTurn.EndIsValid` | internal/v2/agent/agent.go:183-259 | however the turn ends, what it leaves stored is valid if and only if it went on with well-shaped speech only and was not cut between storing named calls and their results |
| `AgentTurn.FaultStays` | internal/model/transcript.go:10-52 | a fault once stored is never repaired by a later iteration |
| `TurnOutcomes.IterationEndsAs` | internal/v2/agent/agent.go:191-259 | an iteration that asks for tools goes on exactly if its stream ends well and both writes succeed, one that does not is the last, and the store holds the input, what was said and the results behind what was there, or only what was written before the write that failed |
| `TurnOutcomes.SilenceCannotFail` | internal/v2/agent/agent.go:205-215 | with nothing to store no write fails |
| `TurnOutcomes.AllIsStored` | internal/v2/agent/agent.go:191-259 | at the head of every iteration but the first the turn has stored its input once and every exchange since, in order |
| `AnthropicMessages.ToAnthropicMessages` | internal/model/provider_anthropic.go:390-463 | the loop that appends to, or extends, the last message in place renders the items |
| `AnthropicMessages.ToAnthropicUserBlocks` | internal/model/provider_anthropic.go:465-502 | the blocks of one user item: its text and each usable part |
| `AnthropicMessages.RenderedFaithfully` | internal/model/provider_anthropic.go:390-463 | roles alternate, no message is empty, and the blocks are the items' blocks in order under their roles |
| `AnthropicMessages.GroupingIsUnique` | internal/model/provider_anthropic.go:390-463 | these properties leave one grouping only |
| `RenderedItems.RenderingReadsBack` | internal/model/provider_anthropic.go:390-502 | from the rendered blocks the items are read back: texts, thoughts, the id, name and arguments of every call and the id and trimmed text of every result |
| `AnthropicMessages.AgentTranscriptsRenderPaired` | internal/model/provider_anthropic.go:390-463 | for transcripts of the loop's shape each message of results answers exactly the uses of the message before |
| `AnthropicShape.PairedExactlyWhenShaped` | internal/model/provider_anthropic.go:390-463 | a valid transcript is rendered with each message of uses answered exactly by the next one if and only if it is content and complete exchanges in turn, each with its results in the order of its calls |
| `AnthropicShape.AnswersFixed` | internal/model/provider_anthropic.go:390-463 | whatever valid items follow, a message of results gets no further result once something else comes behind it |
| `AnthropicMessages.ValidTranscriptRenderedUnpaired` | internal/model/provider_anthropic.go:390-463 | a valid transcript without that shape: its rendering answers a use too late |
| `RenderedTurns.StepIsAgentShaped` | internal/v2/agent/agent.go:205-253 | a well-shaped step is content followed by one exchange |
| `RenderedTurns.EveryHeadRendersPaired` | internal/v2/agent/agent.go:183-254 | at the head of every iteration, after well-shaped speech, the stored conversation is rendered with every use answered in the next message |
| `RenderedTurns.QuietTurnsStayValid` | internal/v2/agent/agent.go:183-361 | from the streams alone: if they bring no text or thought behind a call, and named calls with distinct trimmed ids, then at the head of every iteration the stored conversation is valid and is rendered paired |
| `ContextBudget.ApproximateMessageTokens` | internal/v2/agent/context_budget.go:88-96 | the loop sums role, content and call id of every message |
| `ContextBudget.MessagesCostTheirTexts` | internal/v2/agent/context_budget.go:88-96 | messages cost what their roles, contents and call ids cost, each for itself |
| `ContextBudget.TokensMonotone` | internal/v2/agent/context_budget.go:69-86 | a longer text never has a smaller estimate |
| `ContextBudget.BytesOfText` | internal/v2/agent/context_budget.go:69-86 | a text has as many bytes as characters plus those its characters above 7, 11 and 16 bits need more |
| `ContextBudget.AsciiExactlyWhen` | internal/v2/agent/context_budget.go:69-86 | a text has one byte for each character exactly if all are ASCII |
| `ContextBudget.TokensAreLeast` | internal/v2/agent/context_budget.go:69-86 | the estimate is the least number that covers a quarter of the bytes and, if the text is not ASCII, half the characters |
| `ContextBudget.ThresholdsAreOrdered` | internal/v2/agent/context_budget.go:45-67 | what is kept, the threshold and the usable context lie in this order |
| `ContextBudget.SuffixTokens` | internal/v2/agent/context_budget.go:88-96 | the estimate of a suffix is the sum of the estimates of its two parts |
| `ContextWindow.MessagesAfterCompactBoundary` | internal/v2/agent/compaction.go:114-121 | the loop from the end finds what lies behind the last boundary |
| `ContextWindow.AfterBoundaryIsSuffix` | internal/v2/agent/compaction.go:114-125 | that is the longest suffix without a boundary |
| `ContextWindow.ReverseMessages` | internal/v2/agent/context.go:209-213 | reverses in place |
| `ContextWindow.SelectPrior` | internal/v2/agent/context.go:29-42 | walking back from the newest message selects one contiguous window |
| `ContextWindow.BuildContext` | internal/v2/agent/context.go:21-51 | every newer message left out is too big by itself, the window fits, one older message more would not, and the request is system prompt, window, turn |
| `ContextWindow.WindowIsUnique` | internal/v2/agent/context.go:29-42 | these conditions determine the window |
| `ContextWindow.RequestFits` | internal/v2/agent/context.go:21-51 | the estimate of the request is at most the budget, or prompt and turn alone, plus two for the system role |
| `ContextWindow.RequestIsInOrder` | internal/v2/agent/context.go:21-51 | the request is the system prompt, if there is one, the window in order, and the turn in order |
| `ContextWindow.CutFromOldestExactlyWhen` | internal/v2/agent/context.go:18-42 | what a request keeps of the history is its newest part if and only if the newest message fits by itself or none does |
| `ContextWindow.OlderIsKeptInstead` | internal/v2/agent/context.go:29-42 | otherwise: a newest message too big by itself is left out while the older one is sent |
| `RequestValidity.RequestIsValidExactlyWhen` | internal/v2/agent/context.go:21-51 | for a valid history of the loop's shape and a valid turn that begins with content: the request sent is a valid transcript if and only if its window reads as nothing or both ends of the window are safe boundaries of the history |
| `RequestValidity.PartIsValidExactlyWhen` | internal/model/transcript.go:10-95 | in a valid transcript of the loop's shape a non-empty part is valid if and only if what ends at its start and what ends at its end are valid |
| `RequestValidity.FittingHistoryIsSentValid` | internal/v2/agent/context.go:21-51 | a budget for the whole history guarantees a valid request |
| `RequestValidity.WholeHistoryExactlyWhen` | internal/v2/agent/context.go:29-42 | nothing of the history is left out if and only if prompt, turn and the whole history fit together |
| `RequestValidity.CutExchangeIsSent` | internal/v2/agent/context.go:29-42 | otherwise: of a valid history of one call and its result, a budget for the result alone sends the result without its call |
| `TurnRequests.EveryRequestIsValidExactlyWhen` | internal/v2/agent/agent.go:147-190 | after any turns and compactions of a session, none of them cut, and whatever the next turn's compaction does: each request of each of its iterations is a valid transcript if and only if neither end of the window that the costs leave cuts an exchange |
| `TurnRequests.WindowByCost` | internal/v2/agent/context.go:29-42 | that window ends behind the newest message that fits by itself and starts at the first place from which everything up to there fits together |
| `TurnRequests.TurnSoFarIsValid` | internal/v2/agent/agent.go:178-254 | at the head of every iteration the turn's own messages are a valid transcript of the loop's shape |
| `TurnRequests.UsersInputIsGood` | internal/v2/agent/agent.go:500-515 | any messages of a user, once normalized, are an input for which this holds, whatever they say |
| `TurnShapes.EveryContextIsShaped` | internal/v2/agent/agent.go:147-176 | after any turns of a session, none of them cut, and whatever compaction does, what the next turn goes on from is a valid transcript of the loop's shape |
| `TurnShapes.TurnAddsShaped` | internal/v2/agent/agent.go:183-259 | however a turn that is not cut ends, what it stores is content and complete exchanges in turn |
| `Microcompact.MicrocompactToolResults` | internal/v2/agent/microcompact.go:16-37 | at the threshold the loops over indexes leave of each clearable result with eight or more behind it a note of its size and a preview, all else as it was, and at most eight clearable results; below it nothing changes |
| `Microcompact.Idempotent` | internal/v2/agent/microcompact.go:16-50 | a second microcompaction changes nothing |
| `Microcompact.CompactionClears` | internal/v2/agent/microcompact.go:16-50 | a clearable result with eight or more behind it is cleared: the prefix, its estimate and at most its first 240 characters are left, and at most eight clearable ones remain |
| `Microcompact.ClearingIsUnique` | internal/v2/agent/microcompact.go:16-50 | which leaves one list of messages |
| `Microcompact.OnlyOldResultsChange` | internal/v2/agent/microcompact.go:16-46 | only the content of tool results changes, and never that of the newest eight |
| `Microcompact.KeepsValidity` | internal/v2/agent/microcompact.go:16-37 | microcompaction neither breaks nor repairs a transcript |
| `Compaction.SplitMessagesForCompaction` | internal/v2/agent/compaction.go:135-175 | a partition whose kept part starts a turn, fits the budget or is one turn, and is the longest such suffix |
| `Compaction.TurnStarts` | internal/v2/agent/compaction.go:143-154 | exactly the indexes at which the turn id changes, in order |
| `Compaction.TurnStartsExactlyWhen` | internal/v2/agent/compaction.go:143-154 | a turn starts where the trimmed turn id differs or both are blank; beside a blank one, unless the other is called like its place |
| `Compaction.SplitIsUnique` | internal/v2/agent/compaction.go:156-174 | these properties determine the split |
| `Compaction.SuffixIsValid` | internal/v2/agent/compaction.go:135-175 | a suffix that starts a turn is valid if every turn is |
| `Compaction.SummaryAndKeptAreValid` | internal/v2/agent/compaction.go:50-79 | boundary, summary and kept messages read back as a valid transcript if every turn is one |
| `Compaction.CompactMessagesRead` | internal/v2/agent/compaction.go:123-133 | the boundary reads back as nothing, the summary as one user message |
| `Compaction.SummaryIsShown` | internal/v2/agent/compaction.go:82-133 | the summary is shown to the model in full, trimmed, behind its heading |
| `Compaction.ContextCostsAll` | internal/v2/agent/compaction.go:20-38 | what is compared with the threshold is what prompt, history and turn cost together |
| `Compaction.MessagePositionRange` | internal/v2/agent/compaction.go:177-191 | the least and greatest positive position, or zeroes |
| `Compaction.StoreSummary` | internal/v2/agent/compaction.go:40-67 | the snapshot of the range, if it is one, then boundary and summary appended; a write that fails leaves what was written before it |
| `Compaction.CompactPriorIfNeeded` | internal/v2/agent/compaction.go:20-80 | below the threshold, with nothing to summarise, or with a failed or blank summary nothing is stored; otherwise the summary replaces what the split gives up, or the first write that fails is the error |
| `CompactionTheorems.TurnStartsValid` | internal/v2/agent/compaction.go:20-80 | whatever compaction does to active messages whose turns are valid, the turn goes on from a valid transcript |
| `CompactionTheorems.ActiveTurnsStayValid` | internal/v2/agent/microcompact.go:16-37 | the turns behind the last boundary stay valid transcripts when old results are cleared |
| `CompactionTheorems.SnapshotLoadsTheRawSegment` | internal/v2/agent/compaction.go:40-48 | the range told from microcompacted copies loads exactly the raw stored messages that were summarised, then and after any later writes |
| `CompactionTheorems.CompactionSavesWhatItSummarised` | internal/v2/agent/compaction.go:40-67 | the snapshot a compaction saves loads exactly what it summarised, for good, even if its later writes fail |
| `CompactionTheorems.ReloadDropsTheKeptMessages` | internal/v2/agent/compaction.go:65-79 | reading the table again gives the summary alone, never the context the compacting turn goes on with |
| `CompactionTheorems.StoredStaysValid` | internal/v2/agent/compaction.go:50-67 | a valid stored transcript stays valid when a compaction is stored behind it |
| `SessionLife.TurnsKeep` | internal/v2/agent/agent.go:161-259 | over any number of turns and compactions of a session, with well-shaped speech, no boundary among the inputs and none cut inside an exchange, the stored conversation stays valid and so does each turn behind the last boundary |
| `SessionLife.EveryTurnStartsValid` | internal/v2/agent/compaction.go:20-80 | after any such history from an empty session the next turn starts from a valid context, whether or not it compacts and however its writes go |
| `SessionLife.OutcomeOpensTheTurn` | internal/v2/agent/compaction.go:20-80 | whatever CompactPriorIfNeeded leaves in the table - nothing, boundary and summary, with or without a snapshot - is one of the openings over which a session's turns are proved |
| `SessionLife.TurnsGrow` | internal/v2/agent/compaction.go:135-154 | messages of one turn that are a valid transcript, stored behind valid turns, continue the last of them or are a valid turn of their own |
| `EventLog.EventTable.Append` | internal/v2/store/event_repo.go:18-39 | the table, ordered by number, holds exactly what it held and the rows of the items before the first whose own number is taken, unnumbered ones above all given out so far; if the numbers rise they extend the log at its end |
| `EventLog.NumberedEach` | internal/v2/store/event_repo.go:18-39 | an item keeps a number it brings, and gets the next above all given out so far if it brings none |
| `EventLog.EventTable.List` | internal/v2/store/event_repo.go:41-65 | a session's events behind a number, in order, cut at a positive limit |
| `EventLog.NoneIsLeftOut` | internal/v2/store/event_repo.go:41-65 | no event of the session behind the number asked for is left out |
| `EventLog.ReadingOn` | internal/v2/store/event_repo.go:41-65 | asking behind the last event read gives exactly what is left |
| `EventLog.GrownLogExtends` | internal/v2/store/event_repo.go:41-65 | a log that has grown at its end lists first what it listed before |
| `EventFrames.ParseEventFrame` | internal/v2/client/client.go:261-293 | the loop over a frame's lines: the last id and type, all data lines joined |
| `EventFields.FrameSays` | internal/v2/client/client.go:261-293 | any frame at all is read as an event of the type its last such line says, the number its last such line with a number says, and all its data lines joined, or as none without a type or data, or to keep alive |
| `EventFields.FrameIsReadOneWay` | internal/v2/client/client.go:261-293 | which leaves one reading |
| `EventFields.NumberParses` | internal/v2/client/client.go:261-293 | every number of 64 bits, as it is printed, is read as itself |
| `EventFields.OnlyNumbersParse` | internal/v2/client/client.go:261-293 | and nothing but a sign and digits of such a number is read as one |
| `EventFields.JoinSplits` | internal/v2/client/client.go:261-293 | joined lines are split where they were joined |
| `EventFrames.StreamEvents` | internal/v2/client/client.go:83-122 | the read loop delivers what the text, cut there and ended that way, holds |
| `EventFields.EachFrameIsRead` | internal/v2/client/client.go:83-122 | the lines up to an empty one, with or without carriage returns, are one frame, and reading goes on behind it |
| `EventFields.LastFrameIsRead` | internal/v2/client/client.go:83-122 | the lines before an orderly end are one as well, before a broken one none |
| `EventFields.EolIsReturns` | internal/v2/client/client.go:83-122 | what is dropped at a line's end are its carriage returns |
| `EventCuts.ReadFrame` | internal/v2/client/client.go:90-122 | a frame the server prints of an event with a positive number, a type and one-line trimmed type and payload is read as that event, unchanged |
| `EventCuts.CutFrames` | internal/v2/client/client.go:90-122 | frames of such events cut after any character are read as the whole ones, and on a closed connection perhaps one with its payload cut |
| `EventCuts.DeliversAPrefix` | internal/v2/client/client.go:90-122 | of such events a broken connection delivers whole ones only; a closed one does so exactly if it was not closed inside a payload |
| `EventResume.WriteAvailableEvents` | internal/v2/app/routes.go:1709-1721 | prints one page of events and advances to the last printed |
| `EventResume.StreamSession` | internal/v2/app/routes.go:1687-1707 | the polling loop prints the events behind its number, page by page |
| `EventResume.PolledIsPrefix` | internal/v2/app/routes.go:1687-1721 | over any polls of a growing log, failed ones included, what is printed is the beginning of the session's events |
| `EventResume.PollsCatchUp` | internal/v2/app/routes.go:1709-1713 | each poll of the full log brings a hundred events more until all are printed |
| `EventResume.Run` | internal/v2/tui/stream.go:46-73 | the reconnect loop asks each time behind the last number seen; its events are those read of each connection in turn |
| `EventResume.ForwardAll` | internal/v2/tui/stream.go:114-124 | the last number seen is the greatest so far |
| `EventResume.AdvancedIsGreatest` | internal/v2/tui/stream.go:114-124 | that number is at least the one before and all received, and one of them |
| `EventResume.StreamedExactlyOnce` | internal/v2/tui/stream.go:46-73 | over any sequence of connections the streamer gets a session's printable events once each, in order and unchanged, the rest being still to come - if and only if none was closed inside a payload |
| `StreamedView.TerminalShowsTheLog` | internal/v2/tui/stream.go:46-161 | from log to screen: however connections break and whenever the timer fires, the view is what the session's events up to the last number seen leave one by one, unless a connection was closed inside a payload |
| `TuiModel.Model.AppendAssistantDelta` | internal/v2/tui/entries.go:47-57 | a delta extends the streaming entry at the end, or begins one |
| `TuiModel.Model.CloseAssistantStream` | internal/v2/tui/entries.go:59-65 | the last assistant entry stops streaming and loses trailing newlines |
| `TuiModel.Model.AppendRepeated` | internal/v2/tui/entries.go:67-91 | a repeated notice or error is counted, a blank one dropped |
| `TuiModel.Model.UpsertToolDisplay` | internal/v2/tui/entries.go:116-127 | a known call's entry is updated in place, another is appended and indexed |
| `TuiModel.Model.UpsertToolEntry` | internal/v2/tui/entries.go:97-114 | title, body and status of a tool entry |
| `TuiModel.Model.ApplyEvent` | internal/v2/tui/cmdqueue.go:217-281 | every event type's effect on the view, and the greatest number seen |
| `TuiEntries.OneEntryPerCall` | internal/v2/tui/entries.go:97-127 | after any events a tool call with an id has one entry, the one the index points to and every further event of the call updates |
| `TuiEntries.EntriesOnlyGrow` | internal/v2/tui/entries.go:31-127 | no event takes an entry away or changes its kind or its call |
| `TuiShows.BusyExactlyWhen` | internal/v2/tui/cmdqueue.go:217-281 | after any events the terminal is busy exactly if the last event that starts or ends a turn starts one |
| `TuiShows.QueueIsTheLastTold` | internal/v2/tui/cmdqueue.go:217-281 | and shows the queue of the last queue event that can be read |
| `TuiShows.RequestsAreAsked` | internal/v2/tui/cmdqueue.go:217-281 | and has asked for timeline and reports once for each ended turn, for reports once for each report, in order |
| `TuiShows.ScreenShowsAllGiven` | internal/v2/tui/entries.go:31-127 | letter by letter, assistant texts, notices and errors are shown as the events gave them, in order, repeated ones counted |
| `TuiShows.EntryShowsTheLastEvent` | internal/v2/tui/entries.go:97-127 | a call's entry has the title, body and status its last event says |
| `TuiShows.LastEntryStreamsOpenText` | internal/v2/tui/entries.go:31-70 | the last entry streams exactly the text of the deltas since it was last closed |
| `TuiEntries.ApplyKeeps` | internal/v2/tui/cmdqueue.go:217-281 | each event keeps index and entries in step, entries numbered by their place |
| `DeltaCoalescing.ForwardEvents` | internal/v2/tui/stream.go:75-161 | the loop with its buffer sends what the inputs prescribe, flushing at the end |
| `DeltaCoalescing.CoalescingIsInvisible` | internal/v2/tui/stream.go:75-171 | for every timer schedule the coalesced events leave the same entries, tool index, busy flag, queue, status and requests as the raw ones, whatever their numbers |
| `DeltaCoalescing.LastSeqIsKept` | internal/v2/tui/stream.go:114-141 | numbers that do not fall leave the same last number, too |
| `DeltaCoalescing.LastSeqIsKeptExactlyWhen` | internal/v2/tui/stream.go:114-141 | whatever the numbers: the client is left with the same last number if and only if it had it before, or an event that carries it is not overwritten by a delta of its turn right behind it |
| `DeltaCoalescing.FallingNumberIsLost` | internal/v2/tui/stream.go:114-141 | otherwise: two merged deltas with falling numbers hide the greater one |
| `DeltaCoalescing.StepKeepsView` | internal/v2/tui/stream.go:119-147 | what one input sends and leaves buffered does what the buffer and the input would have done |
| `DeltaCoalescing.DeltasJoin` | internal/v2/tui/entries.go:47-57 | two deltas leave the entries their joined text leaves |
| `JsonCompletion.SafelyCompleteJSONStructure` | internal/model/provider_openai_compatible.go:807-859 | the stack scanner's answer |
| `JsonCompletion.ScanAll` | internal/model/provider_openai_compatible.go:816-848 | the scanning loop with its stack and flags |
| `JsonCompletion.ScannerDecidesBalance` | internal/model/provider_openai_compatible.go:816-848 | the scanner ends outside everything exactly on the texts the bracket and string grammar derives |
| `JsonCompletion.CompletesExactlyWhenClosersSuffice` | internal/model/provider_openai_compatible.go:807-859 | success exactly when the trimmed text opens a bracket first and some non-empty string of closers balances it |
| `JsonCompletion.CompletionIsShortest` | internal/model/provider_openai_compatible.go:852-858 | the result is balanced, adds closers only, and no other string that balances the text is as short |
| `JsonCompletion.CompletedIsNotCompletable` | internal/model/provider_openai_compatible.go:807-859 | a completed text cannot be completed again |
| `ToolArguments.ParseFunctionCallArguments` | internal/model/provider_openai_compatible.go:701-757 | the first candidate that decodes, else the first that completes, else nothing if all are cut short, else an error |
| `ToolArguments.WholeDeltasWin` | internal/model/provider_openai_compatible.go:110-120 | deltas that decode decide, whatever the snapshot says |
| `ToolArguments.SnapshotIsFallback` | internal/model/provider_openai_compatible.go:110-120 | without deltas the snapshot decides |
| `ToolArguments.FailsExactlyWhen` | internal/model/provider_openai_compatible.go:701-776 | an error exactly when no candidate decodes or completes to an object and one is not merely cut short |
| `ToolArguments.DecodedIs` | internal/model/provider_openai_compatible.go:701-757 | success brings what the first candidate that decodes, or else completes, decodes to |
| `ToolArguments.UnquotedExactlyWhen` | internal/model/provider_openai_compatible.go:758-776 | a candidate is unwrapped exactly if it is a string that holds an object or an array |
| `ToolCallTracker.FunctionCallTracker.Remember` | internal/model/provider_openai_compatible.go:65-80 | a new item joins the order; names and call ids are kept unless given anew |
| `ToolCallTracker.FunctionCallTracker.Finalize` | internal/model/provider_openai_compatible.go:110-135 | a call is sent and its item forgotten; a blank id sends nothing, a failure changes nothing |
| `ToolCallTracker.FunctionCallTracker.FinalizeOutstanding` | internal/model/provider_openai_compatible.go:137-147 | the open items in order, up to the first failure |
| `ToolCallTracker.FunctionCallTracker.HandleFrame` | internal/model/provider_openai_compatible.go:229-314 | the switch over one frame |
| `ToolCallTracker.FunctionCallTracker.Stream` | internal/model/provider_openai_compatible.go:199-369 | the loop over frames; those behind the completion are passed over, and an end before it is an error |
| `ResponseStream.CompletedSends` | internal/model/provider_openai_compatible.go:199-369 | a response that completes sends exactly what each frame before its completion says, in order, then the calls held, then the end |
| `ResponseStream.UncompletedSends` | internal/model/provider_openai_compatible.go:199-369 | one that ends without a completion sends exactly what its frames say and fails |
| `ResponseStream.BrokenSends` | internal/model/provider_openai_compatible.go:199-369 | one with a bad frame sends exactly what the frames before it say and fails |
| `ResponseStream.TextsAndPiecesAreSent` | internal/model/provider_openai_compatible.go:249-290 | the texts sent are the non-empty texts of the text frames, and the argument pieces the deltas of the argument frames, in order |
| `ToolCallRepeats.ExactCalls` | internal/model/provider_openai_compatible.go:229-314 | for all frames before the completion: the calls sent are one for each delta that ends its item early and then, in first-seen order, one for each item with a non-blank id named since, each from what was said of it since it last ended, up to the first that fails; the stream ends with an error exactly if one fails |
| `ToolCallRepeats.EachItemIsCalled` | internal/model/provider_openai_compatible.go:229-314 | if no call fails, each item with a non-blank id gets a call, and more than one if and only if a frame names it again behind a delta that ended it early |
| `ToolCallRepeats.CalledTwiceExactlyWhen` | internal/model/provider_openai_compatible.go:229-314 | in any completed stream an item gets more than one call if and only if two deltas end it early, or one does and the completion sends what it holds |
| `ToolCallRepeats.EarlyHistory` | internal/model/provider_openai_compatible.go:264-292 | how the early ends of an item, and being named again, show in what is still held of it |
| `ToolCallRepeats.CallsWithoutCompletion` | internal/model/provider_openai_compatible.go:208-216 | a response that is never completed always ends with an error; it has sent the calls of the items ended early and no other, so none if and only if no delta ends its item early |
| `ToolCallRepeats.CallsBeforeABadFrame` | internal/model/provider_openai_compatible.go:229-300 | a frame that does not decode always ends the stream with an error, behind the calls of the items ended early and no other |
| `ToolCallAssembly.EachCallIsSentOnce` | internal/model/provider_openai_compatible.go:229-314 | if no delta ends its item early, the completion sends one call for each item with a non-blank id, in first-seen order, from all its deltas and its last snapshot, or the stream ends with an error |
| `ToolCallAssembly.CallsWaitForTheCompletion` | internal/model/provider_openai_compatible.go:264-292 | calls wait for the completion if and only if no delta behind its item's snapshot makes that item decode |
| `ToolCallAssembly.NoLateDeltaNoEarlyCall` | internal/model/provider_openai_compatible.go:264-292 | streams without a delta behind its item's snapshot end no item early |
| `ToolCallAssembly.OneCallEach` | internal/model/provider_openai_compatible.go:137-147 | the calls are those of the items one by one, all of them exactly if every one decodes |
| `ToolCallAssembly.MetaIsTheLastGiven` | internal/model/provider_openai_compatible.go:65-108 | a call has the last call id and the last name that its item was given, if it was given any |
| `ToolCallAssembly.LateDeltaSendsTwice` | internal/model/provider_openai_compatible.go:264-292 | frames that get two calls sent for one item |
| `TaskManager.Manager.CreateTask` | internal/v2/tasks/manager.go:95-109 | a new row, its task and its waiter, or nothing |
| `TaskManager.Manager.StartTask` | internal/v2/tasks/manager.go:112-153 | a pending task with a runner runs; a failed write takes it back |
| `TaskManager.Manager.FailTask` | internal/v2/tasks/manager.go:156-198 | cancels the run, stores, delivers once and wakes, unless the task has ended; its error is the delivery's, whether or not a report was stored |
| `TaskManager.Manager.CancelTask` | internal/v2/tasks/manager.go:201-239 | cancels the run, or ends a task that has none, delivering it once; its error is the delivery's |
| `TaskManager.Manager.RunTaskReturns` | internal/v2/tasks/manager.go:294-302 | the runner returns, and whether its context was cancelled by then is noted before the lock is taken |
| `TaskManager.Manager.FinishRunOf` | internal/v2/tasks/manager.go:304-354 | the outcome noted at the return, over the row as it is, stored, delivered with its retries, waiters woken |
| `TaskManager.Manager.WaitOnce` | internal/v2/tasks/manager.go:267-282 | one pass of the waiting loop up to the select |
| `TaskTheorems.GivesUpExactlyWhileOpen` | internal/v2/tasks/manager.go:267-292 | whoever waited for a task and whose own context ends gets it exactly if its channel is closed by then, which is when it has ended, and an error otherwise |
| `TaskManager.Manager.WaiterLocked` | internal/v2/tasks/manager.go:398-416 | one channel a task, closed at most once |
| `TaskManager.Manager.DeliverReportLocked` | internal/v2/tasks/manager.go:427-448 | one attempt for a task that names a session: it stores a report or not and ends with an error or not, each independently; for another task nothing is done |
| `TaskManager.Manager.DeliverRetrying` | internal/v2/tasks/sqlite_retry.go:14-30 | the retry loop makes a further attempt exactly behind a busy one, twenty-one in all at most, keeps every report stored on the way, and returns the last attempt's error |
| `TaskTheorems.RunsAtMostOnce` | internal/v2/tasks/manager.go:112-153 | over every interleaving, failing reads and writes included, no task runs twice |
| `TaskTheorems.ReportedAsOftenAsStored` | internal/v2/tasks/manager.go:294-354 | over every interleaving a task is delivered once at most, twice if Fail reached it while it ran, never before it ended, and has exactly as many reports as attempts of its deliveries that stored one |
| `TaskReports.FinishReports` | internal/v2/tasks/manager.go:340-344 | a run that is finished adds exactly as many reports of its task as attempts of the retried delivery that stored one, and none of another task |
| `TaskReports.ReportedAtMostOnce` | internal/v2/tasks/sqlite_retry.go:14-30 | one report at most, two if Fail reached the task while it ran, as long as no attempt follows one that had stored its report; in any case no more than twenty-one for each delivery |
| `TaskReports.BoundedExactlyWhenNoneIsStoredButBusy` | internal/v2/tasks/manager.go:340-344 | for every set of attempts that may happen: over all runs of all tasks that bound of one, or two, holds if and only if none of them both stores its report and ends busy |
| `TaskReports.BusyReporterRepeats` | internal/v2/tasks/sqlite_retry.go:14-30 | otherwise: a task that Fail never touches is reported twenty-one times |
| `TaskDelivery.StoredButBusyExactlyWhen` | internal/v2/reports/service.go:37-124 | a DeliverTaskReport stores its report and ends busy if and only if the insert works, the session is known and idle, and the list, the turn's insert or a mark behind it is busy |
| `TaskDelivery.ToldOnceExactlyWhen` | internal/v2/reports/service.go:37-124 | for every kind of such calls: over all runs no task is reported more than once, or twice if Fail reached its run, if and only if no call of the kind finds an idle session and runs into a busy query behind its insert |
| `TaskDelivery.ClosedSessionIsToldOnce` | internal/v2/reports/service.go:82-97 | so for sessions that are unknown, busy or have something queued, whatever fails |
| `TaskDelivery.DeliveryFiles` | internal/v2/tasks/manager.go:340-344 | for all queries: the retried delivery to a session that nobody else touches stores one report for each insert that works while the session stays open, and after a busy mark at most one more; to a closed session one at most |
| `TaskDelivery.FiledAgainExactlyWhen` | internal/v2/tasks/manager.go:340-344 | it stores two or more if and only if the session is open and an attempt that stored one is followed by another that does |
| `TaskDelivery.BusyQueryReportsAgain` | internal/v2/reports/service.go:37-124 | so for a task that Fail never touches: two reports if a mark is busy once, twenty-one while the list stays busy |
| `TaskMessages.ToldInOneMessage` | internal/v2/reports/service.go:37-124 | from the task's end to the session's message, over every interleaving of tasks, reports, clients' turns of either kind and agents: while marks succeed, a task that Fail did not reach while it ran and whose delivery is not repeated behind a stored report is told in at most one message, and once its report is marked in one if and only if the batch that marked it was kept |
| `TaskMessages.ToldWhenLeftAlone` | internal/v2/reports/service.go:37-124 | with clients that submit no batch while one is prepared: once its report is marked, in exactly one |
| `TaskTheorems.WaitersAreReleasedAtTheEnd` | internal/v2/tasks/manager.go:267-292 | a waiter's channel is closed exactly when its task has ended, and Wait on an ended task returns at once |
| `TaskTheorems.BlockedIsReleased` | internal/v2/tasks/manager.go:267-292 | whoever blocked on a task finds the channel closed once it has ended |
| `TaskTheorems.EndedForGood` | internal/v2/tasks/manager.go:304-354 | a task never leaves the terminal states |
| `TaskFailure.FailLastsExactlyWhen` | internal/v2/tasks/manager.go:156-198 | for a known task that has not ended: over all continuations it stays failed, with no report but Fail's own, if and only if it has no live run, or its runner had already returned an error uncancelled and it names no session to report to |
| `TaskFailure.FailThen` | internal/v2/tasks/manager.go:294-354 | at every later moment the task is as Fail left it or, once its run was finished, ended as that run's return says - cancelled unless the runner had returned before; exactly then it was delivered once more, with a report more for each attempt that stored one |
| `TaskFailure.DoomedUntilFinished` | internal/v2/tasks/manager.go:294-354 | until its run is finished a failed task is not changed by anything; then it ends as announced and is delivered exactly once more |
| `TaskCancellation.CancelHoldsExactlyWhen` | internal/v2/tasks/manager.go:201-239 | over all continuations a cancelled task is cancelled once no run of it is live, if and only if it had no live run or one that had not returned uncancelled |
| `TaskCancellation.CancelThen` | internal/v2/tasks/manager.go:201-354 | a live run is cancelled and, once finished, ends the task cancelled unless its runner had returned before; without one the task is cancelled at once, or unchanged if its row cannot be written |
| `TaskCancellation.RunEndsItsTask` | internal/v2/tasks/manager.go:304-354 | a finished run leaves its task for good cancelled, failed or completed, exactly as it returned |
| `TaskSteps.StartBeginsARun` | internal/v2/tasks/manager.go:109-153 | in every reachable state a run begins, and the task is running in memory and in its row, exactly for a task that is pending, or whose row says so or nothing, with a runner and a row that can be written; otherwise no run and no row changes |
| `TaskSteps.CreateStores` | internal/v2/tasks/manager.go:91-106 | a new task is stored and known, pending unless its caller gave it a state, its waiters released exactly if that state has ended |
| `TaskSteps.UnknownTaskIsRead` | internal/v2/tasks/manager.go:109-220 | a task that is only in its row is read first, and then treated as if it had been known |
| `TaskSteps.FailSays` | internal/v2/tasks/manager.go:156-198 | a failed task has its caller's trimmed text, or a stock one, in memory and in its row |
| `TaskSteps.FinishedSays` | internal/v2/tasks/manager.go:304-335 | a finished run's text is its runner's, or else says how it ended, with the error |
| `TaskSteps.ReportsTellTheEnd` | internal/v2/tasks/manager.go:156-354 | every report made tells the state in which its task has ended |
| `TaskSteps.RetriedWhileBusy` | internal/v2/tasks/sqlite_retry.go:14-30 | a delivery is tried again exactly while the database is busy, up to the limit |
| `TaskSteps.OthersAreUntouched` | internal/v2/tasks/manager.go:91-354 | a call or a run changes nothing of any other task |
| `WorkflowDedupe.RunTable.GetRunByDedupeRef` | internal/v2/store/workflow_repo.go:142-150 | the run of the trimmed key, nothing, or an error if the query fails |
| `WorkflowDedupe.RunTable.CreateRun` | internal/v2/store/workflow_repo.go:113-133 | a run is stored exactly if the insert works and neither its id nor its non-empty key is taken; then its key finds it, old rows are kept, and keys stay unique |
| `WorkflowDedupe.RunTable.GetOrCreateRunByDedupeRef` | internal/v2/store/workflow_repo.go:152-180 | look, insert, and after a lost race look again, with other writers before the insert and before the second look, and queries that may fail |
| `WorkflowDedupe.CallIsSteps` | internal/v2/store/workflow_repo.go:152-180 | the method makes the steps of the interleaved caller, whichever of its queries fail |
| `WorkflowDedupe.AdvanceKeeps` | internal/v2/schema/migration_012.go:29-31 | a caller's step adds at most its own row and keeps keys unique |
| `WorkflowDedupe.SameRunForAll` | internal/v2/store/workflow_repo.go:152-180 | callers with one non-empty key, however interleaved, get the same run, at most one created it, and the table never holds two rows of the key |
| `WorkflowDedupe.SomeoneCreatedIt` | internal/v2/store/workflow_repo.go:152-180 | if no one else inserts the key, one of the callers is told it created the run |
| `WorkflowDedupe.EachQueryEndsAs` | internal/v2/store/workflow_repo.go:152-180 | in every interleaving a caller fails exactly if its query does, or if the id it inserts is taken and that is reported; a key that is there is found or beats the insert and is found then; one that is not is inserted |
| `WorkflowDedupe.NormalizedKeeps` | internal/v2/store/workflow_repo.go:388-402 | a trimmed run is stored as given, queued if it has no state |

## Left out

- The mutexes themselves: each locked method is one step, and the moment between activating a turn and its goroutine's first statement is not separate.
- A session's interleaved message writes by an agent that was cancelled but still runs: the message table has one writer per session at a time.
- Emitted events, usage counting, metrics, turn and session state rows, project state updates and role loading in RunTurn: they do not touch the conversation.
- AgentTurn.RunStep: building the request and emitting events are not part of it; the model's answer is an arbitrary stream.
- AgentLoop.ExecuteToolCalls: tool lookup, access policy and the texts of errors are folded into an arbitrary output for each call.
- AnthropicMessages.ToAnthropicMessages: structured tool results and reasoning summaries are opaque strings.
- ToolCallTracker.FunctionCallTracker.HandleFrame: the response metadata that one provider profile sends with the completion is not modelled, and the transport's own SSE reader is not: frames are given as decoded values.
- ToolCallAssembly.EachCallIsSentOnce: stated for streams in which no delta ends its item early; ToolCallRepeats.ExactCalls states the calls of all streams.
- DeltaCoalescing.LastSeqIsKept: stated for numbers that do not fall, which the event log guarantees; DeltaCoalescing.LastSeqIsKeptExactlyWhen has no such condition.
- TaskManager.Manager.FinishRunOf: the retries of the row's update are folded into how it ends; those of the delivery are not, since each may store a report. The waits between retries are left out.
- ReportService.Service.ListUndelivered: lists reports as they were inserted; that a report may be listed before one inserted earlier, its time being read before its insert, is in ReportDelivery.
- TaskMessages.ToldInOneMessage: all tasks of the joint machine name one session; that the session is ever idle again is up to its users and agents, so delivery itself is ReportService.NextBatchTellsIt.
- EventCuts.ReadFrame: stated for events with a positive 64-bit number, a non-empty type other than keepalive, and a type and payload of one line without surrounding white space, as the runtime's encoded events have them; for others the printed frame and the parser do not agree on what an event is.
- EventCuts.CutFrames: stated for the same events.
- EventCuts.DeliversAPrefix: stated for the same events.
- EventResume.StreamedExactlyOnce: stated for sessions all of whose events are such; EventFrames.StreamEvents and EventResume.Run have no such condition.
- StreamedView.TerminalShowsTheLog: stated for the same sessions.
- SessionLife.TurnsKeep: a turn's input that is itself a compaction boundary, or carries another turn's id, is not covered.
- Argument maps of tool calls: opaque strings.
- compactionTranscript and the prompts around it: the summary is an arbitrary answer, or an error, for the messages to be summarised.
- Message ids and timestamps; the snapshot label.
- UTF-8 decoding: a connection is cut between characters, not inside one, and bytes that are no UTF-8 do not occur.
- Context cancellation in the client's and the streamer's loops: what was sent before is as modelled, and nothing is sent after.
- The time field of events on the wire; the client fills it in from its clock.
- Rows deleted, or moved to another key by an update, while callers get or create a workflow run.
- FlushWorkspace, ListByWorkspace, severity and message texts of reports: they repeat the modelled steps or only format.
- The workflows package, HTTP handlers, tools, path policy, configuration, skills, memory scoring and rendering: outside the protocols modelled here.
- TextTokens: the final guard that raises an estimate below one cannot be reached for a non-empty text and is not modelled.

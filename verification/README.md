# Kodex/Maju: verified models of its state machines and codecs

Kodex/Maju is a desktop client for coding agents with a relay server for a phone companion and an
ACP adapter for Claude. This project models the parts of it that carry state over long runs, and the
codecs beside them, and proves what they promise over every run or every input.

Most modules come in pairs. A small value type with step functions says what an operation does; where
the program changes fields, vectors or tables in place, a class with the program's own fields and
loops is proved to do exactly that. The results about whole runs are then lemmas about the step
functions, and speak of histories (what was first on disk, what was sent, which replies were given)
that the code itself does not keep.

| part | modules |
|---|---|
| file change tracker | `FileTracker`, `FileUndo`, `FileReports`, `FileHints` |
| event pump | `Events`, `Coalescing`, `PromptTasks`, `PromptBatches` |
| UI reducer | `Reducer`, `UiSnapshots`, `ReducerRuns`, `IdleTools`, `ToolLife`, `ToolStatus`, `ToolStatusRuns`, `SessionView`, `TextLaws`, `CoalescingInvisible`, `Usage`, `UsageRuns`, `UsageEffects`, `BoundedTail` |
| Claude adapter | `Pushables`, `PromptBaton`, `PromptOrder`, `PromptFates`, `PromptSessions`, `SessionConfig`, `ConfigEffects`, `ToolTrace`, `ToolTraceEffects`, `Fence` |
| relay server | `RateLimiters`, `RateLimitBound`, `RelayDb`, `ConnectionRegistry`, `Relay`, `RelayRuns`, `RelayEffects`, `Login`, `LoginRuns`, `HttpReader`, `HttpRequests`, `HttpOutcomes` |
| codecs of the client | `Base64`, `Base64Decoding`, `FileUri`, `FileUriReading`, `Utf8Text` |
| shared | `Options`, `Text`, `Sequences`, `Counting` |

What comes from outside is a parameter: the clock, the random codes, path normalisation and the
workspace boundary, UTF-8 validity and the content hash of the tracker, the display form of tool
summaries, the model names a request may mean. UUIDs are fresh numbers.

## Where the code and its promise differ

Each of these is kept as the code has it; a lemma shows the exact condition or a concrete input.

- Undo restores all tracked paths of a window exactly when each of them is among the first 64
  candidates and `FileUndo.Restorable`, or is past them and unchanged. The limit counts candidates, not
  tracked paths: a new window keeps every copy of a repeated hint, and a hint that brings its own diff
  takes a place without a baseline, so that two tracked paths, or even one, can be too many. Directories,
  unreadable or large first contents, and changes that modification time, length and hash all miss are
  not restorable.
- A disconnect finishes a prompt only when it is met at the first poll of a collect. A collect that
  drains a last event and then meets the closed channel does not finish; a wait that gets a last event
  which is not terminal does, with a made-up interruption; a wait that gets none fails.
- Prompts take over in the order of arrival exactly when every replay that hands over is that of the
  prompt that has waited longest. A waiting prompt whose message is never replayed, as that of a local
  command, is overtaken.
- Two assistant chunks may be merged without the reader noticing unless a blank first chunk that
  holds more than line breaks starts a new message before a chunk with text. Merged user chunks are
  always visible.
- The omission count in the tool log's header is right for the first cut only; the text after it is
  always the exact tail.
- "Idle means no tool runs" holds; "idle means no tool is open" does not. A new session has a pending
  scan tool; from the first end of a turn on it holds exactly until a partial update of an unknown tool
  comes at rest.
- A finished tool can be taken out of its final state by exactly five kinds of event.
- An effort level `""` that a model offers can be selected, but a rebuild puts the default in its
  place; that is the only request after which the options differ from a rebuild.
- The rate limiter's documentation speaks of a rolling window. The window is fixed, so twice the limit
  fits into an interval of the same length, and no more; the limit itself holds for every such interval
  only if it is zero or windows have no length, and in a run for every interval inside which no window
  starts. A reset, which a successful authentication
  makes on the same limiter, starts the count again.
- Among pairings made in the same millisecond the database chooses which partner hears of a session
  reset.
- A pairing code can be used up without the phone hearing of it: when the PC's registry entry leads to
  a dead channel, the pairing is made and the handler ends there.
- The base64 decoder accepts more than one spelling of the same bytes.
- A `file://` round trip fails for a path that is not ASCII, that has a backslash, or where a drive
  follows the leading slash.
- The fence is measured against runs in the first column, whereas CommonMark also lets a fence that is
  indented by up to three spaces close the block.
- A request head that ends between byte 65538 and byte 69632 is read or refused depending on how its
  bytes were split.
- A tool's updates all follow its call exactly when it first appears under a shown name or only ever
  appears under hidden ones.

## Model

| member | source | states |
|---|---|---|
| FileReports.VerdictExactly | crates/app-core/src/file_tracker.rs:281-397 | a path with a baseline is reported if and only if it is in the workspace and a file came, went, or is seen to differ from the first one; the report says which, with which texts, and `LargeFileSkipped`, `BinarySkipped` or `MissingBaseline` exactly when it cannot show the change |
| FileTracker.ExactModificationsDiffer | crates/app-core/src/file_tracker.rs:347-368 | a `Modified` verdict with exact quality carries two different texts |
| FileTracker.FileChangeTracker.StartRecording | crates/app-core/src/file_tracker.rs:96-144 | the in-place maps after opening or extending a window are the specified windows: hints normalised and skipped, repeats kept by a new window and not by an open one, only new paths given a baseline |
| FileTracker.FileChangeTracker.RecordPathBaseline | crates/app-core/src/file_tracker.rs:146-180 | one path is observed once: metadata, text when it is small and readable, or missing |
| FileTracker.FileChangeTracker.AddCandidate | crates/app-core/src/file_tracker.rs:182-202 | a late hint adds the candidate and takes a baseline only if the path has none |
| FileTracker.FileChangeTracker.AddDiffCandidate | crates/app-core/src/file_tracker.rs:204-215 | a diff hint adds a candidate to an open window and never a baseline |
| FileTracker.FileChangeTracker.FinishRecording | crates/app-core/src/file_tracker.rs:267-404 | the loop over the first 64 candidates returns the specified reports; the window stays open exactly when it had candidates and nothing was found |
| FileTracker.FileChangeTracker.DiscardRecording | crates/app-core/src/file_tracker.rs:406-408 | only this window goes |
| FileUndo.RunInv | crates/app-core/src/file_tracker.rs:96-215 | over every interleaving of disk changes and tracker calls, an open window remembers for each hinted path exactly what was on disk at the first hint |
| FileUndo.FirstSeenIsStable | crates/app-core/src/file_tracker.rs:120-180 | no later hint, disk change or failed finish overwrites what was first seen |
| FileUndo.UndoExact | crates/app-core/src/file_tracker.rs:267-404 | undoing the report puts a checked path back to its first-seen content if and only if the change is restorable, for every first state and every present state |
| FileUndo.UndoFrame | crates/app-core/src/file_tracker.rs:267-404 | undo touches no other path |
| FileUndo.WholeWindowExact | crates/app-core/src/file_tracker.rs:96-404 | over every interleaving, undo puts all tracked paths of a window back if and only if each is checked and restorable, or past the limit and unchanged |
| FileUndo.UndoRestoresEverything | crates/app-core/src/file_tracker.rs:96-404 | when all tracked paths are checked and were and are absent or small text files told apart by the hash, undo restores all of them and leaves the rest of the disk alone |
| FileUndo.DistinctTrackedPathsAreChecked | crates/app-core/src/file_tracker.rs:278-281 | up to 64 different tracked paths are all checked if no candidate is listed twice or has only a diff |
| FileUndo.RepeatsUseUpTheLimit | crates/app-core/src/file_tracker.rs:96-143 | 64 copies of one hint push a second tracked path past the limit, and its change is not undone |
| FileUndo.DiffHintsUseUpTheLimit | crates/app-core/src/file_tracker.rs:204-215 | 64 hints with diffs push the only tracked path past the limit |
| FileUndo.ExactReportsAreReal | crates/app-core/src/file_tracker.rs:281-397 | an exact report is a real change: its old text is the first-seen content, its new text is on disk, and they differ |
| FileUndo.EmptyFinishKeepsTheWindow | crates/app-core/src/file_tracker.rs:272-403 | a finish that finds nothing keeps the same baselines for a retry, unless the window never had a candidate |
| FileUndo.PastTheLimitIsNeverUndone | crates/app-core/src/file_tracker.rs:16-16 | a tracked path past the limit is back at its first content after undo only if it never changed |
| FileUndo.RevertAllAt | crates/app-core/src/application/shell_bridge.rs:301-313 | rejecting each report of a list, as the cited code rejects one diff record, changes each path as its own report says |
| FileReports.NoBaselineNoVerdict | crates/app-core/src/file_tracker.rs:289-311 | a candidate that was never looked at, as one with only a diff, is never reported |
| FileReports.ReportsExactly | crates/app-core/src/file_tracker.rs:281-397 | a list of candidates is reported path by path, in its order, each report describing first and present state |
| FileReports.FinishReportsExactly | crates/app-core/src/file_tracker.rs:267-404 | over every interleaving: a finish reports, in the order of the first 64 candidates, exactly the tracked paths where a file came, went or differs; the window closes exactly when something is reported or it never had a candidate |
| FileHints.SkippedExactly | crates/app-core/src/file_tracker.rs:91-93 | a path is skipped if and only if one of its parts is `.git`, `target`, `node_modules` or `.kodex` |
| FileHints.HintsExactly | crates/app-core/src/file_tracker.rs:97-101 | hints are taken in their order, normalised, without empty and skipped paths |
| FileHints.StartTakesTheHints | crates/app-core/src/file_tracker.rs:123-143 | a new window has exactly the hints as its candidates |
| FileHints.RestartAddsNewHints | crates/app-core/src/file_tracker.rs:107-119 | an open window gains the hints it does not have, each once |
| FileHints.LateHintsExactly | crates/app-core/src/file_tracker.rs:182-215 | a late hint joins its window once or opens one, a hint with a diff only joins an open window; other hints change nothing |
| Coalescing.CoalesceReadyEvents | crates/acp-core/src/client.rs:494-540 | the loop that appends into the last element computes the coalesced list |
| Coalescing.CoalesceIsNormal | crates/acp-core/src/client.rs:494-540 | no two neighbours of the output can be merged |
| Coalescing.NormalFormMeansNoMergeableNeighbours | crates/acp-core/src/client.rs:494-540 | being a normal form is the same as having no mergeable neighbours |
| Coalescing.NormalFormsAreFixed | crates/acp-core/src/client.rs:494-540 | coalescing a normal form changes nothing |
| Coalescing.CoalesceIsIdempotent | crates/acp-core/src/client.rs:494-540 | coalescing twice is coalescing once |
| Coalescing.CoalesceConcat | crates/acp-core/src/client.rs:494-540 | coalescing two halves first makes no difference |
| Coalescing.CoalesceConserves | crates/acp-core/src/client.rs:494-540 | every character stays in its stream and in its place among all other events |
| Coalescing.NormalFormsAreUnique | crates/acp-core/src/client.rs:494-540 | any list without mergeable neighbours and without empty chunks that holds the same characters and events is the coalesced list |
| PromptTasks.PromptTask.WaitForEvents | crates/acp-core/src/client.rs:416-431 | what a blocking wait hands out, leaves behind and says about being finished, or its failure on a closed channel |
| PromptTasks.PromptTask.CollectReadyEvents | crates/acp-core/src/client.rs:433-475 | what a drain hands out: at most 32 received events up to a terminal one, and a made-up interruption when the channel is closed and nothing else is left |
| PromptTasks.BatchesCoalesce | crates/acp-core/src/client.rs:433-540 | re-coalescing the batches gives the coalesced stream |
| PromptTasks.CollectMoves | crates/acp-core/src/client.rs:433-475 | one collect moves the next events of the feed in order and finishes exactly on a terminal event |
| PromptTasks.EveryRun | crates/acp-core/src/client.rs:416-492 | over every timing and every sequence of calls: batches are bounded, nothing is lost or reordered, finished means a terminal event was handed out |
| PromptTasks.MadeUpExactly | crates/acp-core/src/client.rs:433-458 | for every state and call: one interruption is added to what was sent if and only if the first poll of the collect finds the channel closed and nothing terminal came before; otherwise nothing is added |
| PromptTasks.FinishedExactly | crates/acp-core/src/client.rs:416-475 | a call finishes the prompt if and only if it hands out a terminal event, received or made up |
| PromptTasks.LastEventDecides | crates/acp-core/src/client.rs:416-475 | with one last event that is not terminal, a collect leaves the prompt unfinished and a wait finishes it |
| PromptTasks.WaitingOnAClosedChannelNeverFinishes | crates/acp-core/src/client.rs:416-431 | with nothing sent, repeated waits on a closed channel change nothing; one collect finishes |
| PromptBatches.CollectIsMaximal | crates/acp-core/src/client.rs:433-475 | for every state: a collect stops only with at least 32 events, with the feed used up, or right after a poll that found nothing and was not its first |
| PromptBatches.WaitIsMaximal | crates/acp-core/src/client.rs:416-475 | a wait takes the first event that comes and then as much as such a collect |
| PromptBatches.CollectTakesTheFirst | crates/acp-core/src/client.rs:433-475 | on a feed of ready events a collect that starts empty hands out exactly the first 32 of them, or all |
| UiSnapshots.UiSnapshot.ApplyEvent | crates/app-core/src/reducer.rs:16-572 | the reducer over mutable fields and vectors does what the step function says, for every event |
| UiSnapshots.UiSnapshot.ApplyEvents | crates/app-core/src/reducer.rs:16-572 | a batch of events does to the object what the fold of the step function does, so that the laws about runs hold of it |
| UiSnapshots.UiSnapshot.EnsureTool | crates/app-core/src/reducer.rs:1117-1164 | the tool with the call id, found or appended together with its timeline item, and the parent link of a subagent |
| UiSnapshots.UiSnapshot.PushToolLog | crates/app-core/src/reducer.rs:1333-1352 | the log after an entry: no repeated neighbour, capped texts, at most twelve entries |
| UiSnapshots.UiSnapshot.FinalizeRunningChildren | crates/app-core/src/reducer.rs:1178-1195 | exactly the running children of the parent, except one, succeed |
| UiSnapshots.UiSnapshot.FinalizeOpenTools | crates/app-core/src/reducer.rs:1197-1255 | every pending or running tool is closed as the stop reason says, and no other tool changes |
| UiSnapshots.UiSnapshot.InterruptOpenTools | crates/app-core/src/reducer.rs:551-571 | the loop closes every open tool with the reason |
| UiSnapshots.UiSnapshot.RefreshSessionStatus | crates/app-core/src/reducer.rs:1166-1176 | the session's status follows its running tools |
| UiSnapshots.UiSnapshot.PushMessage | crates/app-core/src/reducer.rs:574-598 | a chunk extends the last message of the same role or starts a message without leading line breaks |
| UiSnapshots.UiSnapshot.ApplyUsageUpdate | crates/app-core/src/reducer.rs:1514-1588 | one usage event in the session's ledger |
| UiSnapshots.UiSnapshot.UpdateUsageModelSummary | crates/app-core/src/reducer.rs:1590-1668 | one usage event in the row of its model, provider and agent, found or appended |
| ReducerRuns.EventKeepsShape | crates/app-core/src/reducer.rs:16-572 | every event keeps: unique call ids, a timeline that lists messages and tools in the order of their lists, short logs without repeated neighbours |
| ReducerRuns.EventKeepsCalm | crates/app-core/src/reducer.rs:16-572 | every event keeps: an idle or interrupted session has no running tool |
| ReducerRuns.EveryRun | crates/app-core/src/reducer.rs:16-572 | both, over every event sequence |
| ReducerRuns.EverySession | crates/app-core/src/bootstrap.rs:69-118 | both, in every session, starting from the bootstrap state |
| ReducerRuns.TurnFinishedShape | crates/app-core/src/reducer.rs:1197-1255 | after a turn no tool is running |
| IdleTools.QuietExactly | crates/app-core/src/reducer.rs:135-195 | for every event: a session that has no open tool at rest stays so if and only if the event is not a partial update of an unknown tool at rest |
| IdleTools.QuietRuns | crates/app-core/src/reducer.rs:16-572 | throughout a run no tool is open at rest if and only if no such update comes |
| IdleTools.QuietFromTheFirstTurnOn | crates/app-core/src/bootstrap.rs:89-115 | a new session is idle with a pending tool; every end of a turn leaves no open tool |
| IdleTools.PendingToolInIdleSession | crates/app-core/src/reducer.rs:135-195 | a partial update of an unknown tool after the end of any turn leaves an open tool in an idle session |
| ToolLife.RedeliveryChangesNothing | crates/app-core/src/reducer.rs:88-134 | a start, a result or a failure for a finished tool changes nothing at all |
| ToolLife.OtherToolsPass | crates/app-core/src/reducer.rs:1178-1255 | an event leaves tools that it does not address alone, except that it may close open ones |
| ToolLife.FinishedStaysFinished | crates/app-core/src/reducer.rs:77-434 | a finished tool leaves its final state if and only if the event is one of five kinds addressed to it |
| ToolLife.DetailStep | crates/app-core/src/reducer.rs:77-87 | an event either appends its chunk to a tool's log text or leaves that text alone |
| ToolLife.DetailIsBoundedStream | crates/app-core/src/reducer.rs:1480-1495 | in every run of the reducer a tool's log text is the bounded stream of the chunks addressed to it |
| ToolStatusRuns.ToolEventFollows | crates/app-core/src/reducer.rs:77-550 | every tool event that is not ignored: what it leaves of its addressee, of the children of the tools it names, and of all others, in status, error, labels, answers, outputs, stop state and log |
| ToolStatusRuns.EventFollowsTheTable | crates/app-core/src/reducer.rs:16-572 | the status law for every event and all tools at once: which exist, and how each stands |
| ToolStatusRuns.RunsFollowTheTable | crates/app-core/src/reducer.rs:16-572 | over every run the tools, keyed by call id, are the fold of the table over the events |
| ToolStatusRuns.BootstrapStands | crates/app-core/src/bootstrap.rs:69-118 | a session starts with its pending scan tool only |
| ToolStatus.NoteExactly | crates/app-core/src/reducer.rs:1333-1352 | an empty or repeated note is dropped; any other comes last, after as many of the latest as make twelve |
| SessionView.StatusExactly | crates/app-core/src/reducer.rs:16-572 | the session status after every event: waiting on activity, by the open tools after results and answers, streaming, idle or interrupted as the event says |
| SessionView.ToolEventsOnlyTools | crates/app-core/src/reducer.rs:1117-1164 | tool events leave messages, title and thinking alone; the timeline gains the tool exactly when it is new and the event is not ignored |
| SessionView.ChunkExactly | crates/app-core/src/reducer.rs:574-630 | a chunk extends the message the timeline ends with when the role is the same, or starts one without leading line breaks unless it is blank; what users say stands alone; internal metadata is dropped |
| SessionView.CompactionStartExactly | crates/app-core/src/reducer.rs:641-676 | a started compaction is noted unless the last message is such a notice |
| SessionView.CompactionEndExactly | crates/app-core/src/reducer.rs:632-695 | a finished compaction replaces the notice the timeline ends with, or is noted |
| SessionView.HeadingExactly | crates/app-core/src/reducer.rs:16-572 | title, model and thinking after every event |
| SessionView.HeadingOfARun | crates/app-core/src/reducer.rs:16-572 | the same for a run of events |
| TextLaws.SummaryExactly | crates/app-core/src/reducer.rs:1263-1277 | a completed tool is summed up in at most 120 characters: its words, or the first 117 characters of them and three dots |
| TextLaws.CollapseKeepsWords | crates/app-core/src/reducer.rs:1275-1277 | words stay in their order, one space apart |
| TextLaws.CollapseDropsBlanks | crates/app-core/src/reducer.rs:1275-1277 | white space in front does not matter, and alone is nothing |
| TextLaws.CapExactly | crates/app-core/src/reducer.rs:1497-1505 | a text within the limit stays; of a longer one the head stays and the number of omitted characters is said |
| TextLaws.AllowsExactly | crates/app-core/src/reducer.rs:1294-1303 | which answers let a tool run, by the words in them in letters of any size |
| TextLaws.KeepsRejectExactly | crates/app-core/src/reducer.rs:1279-1292 | when a rejection made here outlasts a later report of the agent |
| BoundedTail.StreamIsTheTail | crates/app-core/src/reducer.rs:1480-1495 | the log text is the whole stream while that fits, and afterwards a header and exactly its last 32768 characters |
| BoundedTail.TailIgnoresChunking | crates/app-core/src/reducer.rs:77-87 | how a stream is cut into chunks changes only the number in the header |
| BoundedTail.ShownCountIsHonestOnce | crates/app-core/src/reducer.rs:1480-1495 | the header's number counts what was omitted at the first cut, and after that only by coincidence |
| CoalescingInvisible.PushPair | crates/app-core/src/reducer.rs:574-630 | two chunks of the agent or the system can be pushed as one if and only if one of three conditions on the first chunk, the second and the last message holds |
| CoalescingInvisible.MergePair | crates/app-core/src/reducer.rs:57-70 | the same for two events in any reachable session |
| CoalescingInvisible.MergeSystemPair | crates/app-core/src/reducer.rs:57-70 | the same law for system chunks that are not internal metadata |
| CoalescingInvisible.MergeProgressPair | crates/app-core/src/reducer.rs:340-347 | two progress notes of a tool can be merged if and only if the first is empty |
| CoalescingInvisible.CoalescingIsInvisible | crates/acp-core/src/client.rs:494-540 | folding the reducer over the coalesced events gives the same state as folding it over the events, for every plain stream and every reachable session |
| CoalescingInvisible.UserChunksAreVisible | crates/app-core/src/reducer.rs:574-598 | two user chunks make two messages and their merger makes one |
| Usage.SessionTotalMeaning | crates/app-core/src/reducer.rs:1514-1588 | the session total is the last non-empty reported total, or else the saturated sum of all turn deltas, on every axis |
| Usage.RowsMeaning | crates/app-core/src/reducer.rs:1590-1668 | each row is the ledger of its own events, keys are unique, every event has its row |
| Usage.CountsAddUp | crates/app-core/src/reducer.rs:1629-1642 | event counts sum to the number of events and request counts to the number of turn deltas |
| Usage.RowsAddUpToSession | crates/app-core/src/reducer.rs:1734-1747 | without reported totals the session total is the sum of the rows, saturated once |
| Usage.RowsAddUpExactly | crates/app-core/src/reducer.rs:1734-1747 | without saturation they agree exactly |
| UsageRuns.LedgerOfARun | crates/app-core/src/reducer.rs:1514-1562 | the ledger after any run of the reducer is the ledger of its usage events, each completed from the session of its moment; no other event touches it |
| UsageRuns.UsageOfEverySession | crates/app-core/src/reducer.rs:1514-1668 | all of these laws, for every session and every list of events from the bootstrap state on |
| UsageEffects.CurrentTurnExactly | crates/app-core/src/reducer.rs:1564-1573 | the current turn is what the last turn delta reported |
| UsageEffects.EmptyReportsExactly | crates/app-core/src/reducer.rs:1716-1722 | a report is empty if and only if it says nothing on any axis |
| UsageEffects.RowsShowExactly | crates/app-core/src/reducer.rs:1590-1646 | every row shows the largest occupancy of its own events and is called by its model, or else by its agent |
| UsageEffects.SameRowExactly | crates/app-core/src/reducer.rs:1596-1601 | two events share a row if and only if they agree on model, provider and agent |
| UsageEffects.UsageGoesToItsRow | crates/app-core/src/reducer.rs:1514-1588 | an event without model or agent counts for those of the session; its row counts it and no other row changes |
| Pushables.Pushable.Push | kodex-claude/src/utils.ts:13-20 | a pushed item answers the oldest waiting reader or joins the queue; delivered and queued items are what was pushed, in order |
| Pushables.Pushable.End | kodex-claude/src/utils.ts:22-28 | every waiting reader is told that nothing more comes |
| Pushables.Pushable.Next | kodex-claude/src/utils.ts:30-45 | a reader gets the oldest queued item, the end, or waits |
| PromptBaton.EveryRun | kodex-claude/src/acp-agent.ts:740-753 | in every run at most one prompt loop is active and the flag says so, no waiter is without an active loop, every waiter is released exactly once |
| PromptBaton.EndResumesTheOldest | kodex-claude/src/acp-agent.ts:1239-1254 | a loop that ends without hand-off resumes the waiter that arrived first |
| PromptOrder.TakeOverInArrivalOrder | kodex-claude/src/acp-agent.ts:1082-1095 | throughout a run prompts take over in the order they arrived if and only if every replay that hands over names the prompt that has waited longest |
| PromptOrder.OrderedReplaysKeepTheOrder | kodex-claude/src/acp-agent.ts:1082-1095 | replays in push order keep the order, also when messages of prompts that do not wait are never replayed |
| PromptOrder.UnreplayedPromptIsOvertaken | kodex-claude/src/acp-agent.ts:367-369 | a waiting prompt that is never replayed is overtaken by the next |
| PromptBaton.OldestIsFirst | kodex-claude/src/acp-agent.ts:1239-1254 | the smallest order number belongs to the first waiter |
| PromptFates.EveryPromptHasOneFate | kodex-claude/src/acp-agent.ts:740-753 | over every run: each prompt that arrived got to run, still waits, or was cancelled while waiting, and only one of these |
| PromptFates.ArrivalExactly | kodex-claude/src/acp-agent.ts:740-754 | a prompt runs at once if and only if no loop runs, and else waits as the last one; a closed session takes none |
| PromptFates.ReplayExactly | kodex-claude/src/acp-agent.ts:1082-1095 | a replay hands over if and only if its reader runs, nothing was cancelled since the last arrival, and its prompt waits; then that prompt alone runs |
| PromptFates.EndExactly | kodex-claude/src/acp-agent.ts:1228-1254 | at its end the session rests if and only if nobody waits, and else the first waiter runs; a dead process closes the session besides |
| PromptFates.CancelExactly | kodex-claude/src/acp-agent.ts:1269-1280 | a cancel drops exactly the waiting prompts; closing does the same and closes |
| PromptFates.ClosedStaysClosed | kodex-claude/src/acp-agent.ts:1358-1368 | a closed session stays closed and takes no prompt |
| PromptSessions.PromptSession.Prompt | kodex-claude/src/acp-agent.ts:740-754 | a prompt's message is pushed into the session's input, and it runs at once or waits with the next order number |
| PromptSessions.PromptSession.ReadReplay | kodex-claude/src/acp-agent.ts:1082-1095 | the replay of a waiting prompt's message hands the loop over to it |
| PromptSessions.PromptSession.EndLoop | kodex-claude/src/acp-agent.ts:1239-1254 | the end of a loop finds the oldest waiter by its order number and resumes it |
| PromptSessions.PromptSession.Cancel | kodex-claude/src/acp-agent.ts:1269-1280 | a cancel releases all waiters as cancelled and keeps the running loop |
| SessionConfig.BuiltOptions | kodex-claude/src/model-options.ts:23-93 | what a rebuild shows under each option id |
| SessionConfig.RebuildIsStable | kodex-claude/src/model-options.ts:60-93 | a rebuild that starts from the effort it chose chooses it again |
| SessionConfig.BuildAvailableModes | kodex-claude/src/acp-agent.ts:2820-2864 | which modes are offered, and when |
| SessionConfig.EffortChange | kodex-claude/src/acp-agent.ts:2224-2233 | a patched effort is what a rebuild keeps if and only if it is not the empty string, or the default is |
| SessionConfig.ModelChangeKeepsInv | kodex-claude/src/acp-agent.ts:2147-2223 | a model change keeps the options equal to a rebuild, clamps the mode and resends a changed effort |
| SessionConfig.ModeChangeKeepsInv | kodex-claude/src/acp-agent.ts:2142-2146 | patching the mode keeps the options equal to a rebuild |
| SessionConfig.CreateInv | kodex-claude/src/acp-agent.ts:2572-2623 | a new session satisfies the invariant, with its mode clamped |
| SessionConfig.RequestKeepsInv | kodex-claude/src/acp-agent.ts:1424-1545 | a request, accepted or refused, keeps the invariant if and only if it does not pick an empty level against the default |
| SessionConfig.IncrementalEqualsRebuild | kodex-claude/src/acp-agent.ts:2136-2234 | throughout any sequence of requests the options equal a rebuild, the current mode is offered and the effort last sent is the one shown, if and only if no request does that |
| SessionConfig.NamedLevelsSuffice | kodex-claude/src/model-options.ts:56-58 | no request does that when no model offers an empty level |
| SessionConfig.ConfigSession.constructor | kodex-claude/src/acp-agent.ts:2572-2623 | the session's first modes, options and effort |
| SessionConfig.ConfigSession.ApplyConfigOptionValue | kodex-claude/src/acp-agent.ts:2136-2234 | the assignments of one patch make the specified session |
| SessionConfig.ConfigSession.SetSessionConfigOption | kodex-claude/src/acp-agent.ts:1424-1509 | option lookup, value check, mode and effort handling |
| SessionConfig.ConfigSession.SetSessionMode | kodex-claude/src/acp-agent.ts:1414-1422 | only known and offered modes are applied |
| SessionConfig.ConfigSession.SetSessionModel | kodex-claude/src/acp-agent.ts:1393-1412 | the resolved model is applied |
| SessionConfig.ConfigSession.ExitPlanMode | kodex-claude/src/acp-agent.ts:1592-1699 | only an offered answer changes the mode |
| SessionConfig.ConfigSession.EnterPlanMode | kodex-claude/src/acp-agent.ts:2440-2450 | plan mode is entered and told to the client |
| ConfigEffects.SetModeExactly | kodex-claude/src/acp-agent.ts:1414-1422 | a mode request takes hold if and only if the mode is known and offered; otherwise nothing changes |
| ConfigEffects.SetModeOptionExactly | kodex-claude/src/acp-agent.ts:1424-1530 | the same through the mode option: current, shown, and known to the client |
| ConfigEffects.OfferedModesAreKnown | kodex-claude/src/acp-agent.ts:2820-2864 | every offered mode is one the requests know |
| ConfigEffects.PlanModeExactly | kodex-claude/src/acp-agent.ts:1592-1699 | leaving plan mode takes the chosen mode if and only if it is one of four and offered; entering it always takes hold |
| ConfigEffects.SetEffortExactly | kodex-claude/src/acp-agent.ts:2224-2233 | an effort request shows and sends the level if and only if the option exists and has it |
| ConfigEffects.SetModelOptionExactly | kodex-claude/src/acp-agent.ts:1424-1509 | a model request makes the matched model current and shown if and only if there is an offered match; the mode is kept when the new model offers it and otherwise the default, and the effort follows |
| ConfigEffects.SetSessionModelExactly | kodex-claude/src/acp-agent.ts:1393-1412 | the resolved model takes hold in the same way |
| ConfigEffects.UnknownOptionIsRefused | kodex-claude/src/acp-agent.ts:1435-1438 | an unknown option changes nothing |
| ConfigEffects.CreatedExactly | kodex-claude/src/acp-agent.ts:2572-2623 | what a new session has, shows and has sent |
| ConfigEffects.InfoExactly | kodex-claude/src/model-options.ts:54-58 | the first model entry with the name counts |
| ConfigEffects.OptionExactly | kodex-claude/src/acp-agent.ts:1435-1435 | the first option with the id counts |
| ToolTrace.OneCallPerTool | kodex-claude/src/acp-notifications.ts:251-366 | a tool id gets exactly one call if the name it first appeared under is shown, and otherwise none, over every run |
| ToolTrace.CallComesFirst | kodex-claude/src/acp-notifications.ts:324-363 | all updates of a tool that starts shown come after its call |
| ToolTrace.UpdatesFollowCallsExactly | kodex-claude/src/acp-notifications.ts:254-363 | a tool's updates all follow its call if and only if it first appears under a shown name or only ever appears under hidden ones |
| ToolTrace.UnseenToolsAreSilent | kodex-claude/src/acp-notifications.ts:376-382 | results and hooks of ids that never appeared are dropped |
| ToolTrace.HiddenToolsAreSilent | kodex-claude/src/acp-notifications.ts:264-272 | a tool that only has hidden names has no notification of its own |
| ToolTrace.HooksReportOnce | kodex-claude/src/acp-notifications.ts:275-315 | a tool's hook reports at most once and only for a tool with a call |
| ToolTrace.TerminalOutputComesRightBeforeExit | kodex-claude/src/acp-notifications.ts:420-453 | in every run a terminal's exit directly follows its output, and output is never left without exit |
| ToolTrace.RenamedToolHasNoCall | kodex-claude/src/acp-notifications.ts:254-341 | a tool renamed from hidden to shown gets an update without a call |
| ToolTrace.BatchesAreSteps | kodex-claude/src/acp-notifications.ts:215-217 | a message of many chunks is the same as one chunk after the other |
| ToolTrace.ToolNotifier.HandleToolUse | kodex-claude/src/acp-notifications.ts:251-366 | cache, hook registration and notification of a tool use |
| ToolTrace.ToolNotifier.HandleToolResult | kodex-claude/src/acp-notifications.ts:368-456 | the notifications of a result, by the cached name |
| ToolTrace.ToolNotifier.ToAcpNotifications | kodex-claude/src/acp-notifications.ts:175-489 | the loop over a message's chunks |
| ToolTrace.ToolNotifier.PostToolUse | kodex-claude/src/tools.ts:1016-1042 | a hook runs once, and only for a cached tool |
| ToolTraceEffects.UseExactly | kodex-claude/src/acp-notifications.ts:251-366 | over every run: a shown tool is told as a call when its id is new and as an update otherwise; to-do lists show in the plan, tasks not at all |
| ToolTraceEffects.ResultExactly | kodex-claude/src/acp-notifications.ts:368-456 | over every run: what a result tells, by the last name of its tool, its failure and its terminal |
| ToolTraceEffects.HookExactly | kodex-claude/src/tools.ts:1016-1042 | a hook reports, under the last name, if and only if it was registered by the first use and has not run |
| ToolTraceEffects.OtherChunksExactly | kodex-claude/src/acp-notifications.ts:217-250 | text is told, other chunks are not |
| Fence.MarkdownEscape | kodex-claude/src/tools.ts:915-923 | the nested loops produce the text between fences of the specified length |
| Fence.FenceIsExactlyLonger | kodex-claude/src/tools.ts:916-921 | the fence has three backticks, or exactly one more than the longest run that starts a line |
| Fence.ReadsUpToTheFirstCloser | kodex-claude/src/tools.ts:922-922 | the block read back is the text with a final newline if and only if no line of it closes the fence |
| Fence.ColumnZeroRoundTrip | kodex-claude/src/tools.ts:915-923 | with fences in the first column every text comes back with a final newline |
| Fence.CommonMarkRoundTrip | kodex-claude/src/tools.ts:915-923 | for a reader after section 4.5 of CommonMark it does so if and only if no line is an indented fence that is long enough |
| Fence.IndentedFenceEscapes | kodex-claude/src/tools.ts:915-923 | one text that does not come back |
| RateLimiters.RateLimiter.Allowed | server/src/ratelimit.rs:30-38 | the key's entry is made or restarted, and the answer says whether its count is below the limit |
| RateLimiters.RateLimiter.RecordFailure | server/src/ratelimit.rs:40-48 | the key's entry is made or restarted and counted up |
| RateLimiters.RateLimiter.Reset | server/src/ratelimit.rs:50-55 | only this key's entry goes |
| RateLimitBound.AdmittedIsBounded | server/src/ratelimit.rs:30-48 | over every timed run without a reset, with any other keys' traffic: at most the limit in a window and at most twice the limit in any interval as long as a window |
| RateLimitBound.TurnAdmitsTwice | server/src/ratelimit.rs:30-48 | twice the limit is reached around the turn of a window |
| RateLimitBound.OverTheLimitAcrossAStart | server/src/ratelimit.rs:30-48 | in every run an interval of any length holds more than the limit only if a window starts inside it |
| RateLimitBound.RollingWindowExactly | server/src/ratelimit.rs:11-12 | the limit holds for every run and every interval as long as a window if and only if it is zero or windows have no length |
| RateLimitBound.AdmitKeepsBounds | server/src/pairing.rs:24-27 | one more admitted attempt in a window that is not full keeps both bounds |
| RelayDb.Db.RegisterPairingCode | server/src/db.rs:109-136 | the PC's old codes go first; then the code is entered, unless another PC holds it |
| RelayDb.Db.TakePairingCode | server/src/db.rs:140-156 | the owner of an existing, unused code that has not expired |
| RelayDb.Db.MarkPairingCodeUsed | server/src/db.rs:158-167 | only this code becomes used |
| RelayDb.Db.CreatePairing | server/src/db.rs:183-201 | a row with a fresh token at the end of the table |
| RelayDb.Db.RebindPcPairingsToPhone | server/src/db.rs:290-303 | exactly the rows of the PC name the new phone |
| RelayDb.Db.PairingFor | server/src/db.rs:204-218 | whether any row joins the two devices, in either order |
| RelayDb.Db.LatestPairingPartnerFor | server/src/db.rs:246-264 | the partner in a row of the device that no later row exceeds, whichever of several the database picks |
| RelayDb.Db.PairingByToken | server/src/db.rs:454-477 | the row of a token |
| ConnectionRegistry.Connections.Insert | server/src/connections.rs:36-47 | the device's entry is replaced |
| ConnectionRegistry.Connections.RemoveIf | server/src/connections.rs:52-60 | the entry goes only if it belongs to this connection |
| Relay.Server.HandleDeviceAuth | server/src/auth.rs:46-59 | limiter, registry and session after an authentication, successful or not |
| Relay.Server.HandlePairingRegister | server/src/pairing.rs:18-47 | limiter, code table, answer |
| Relay.Server.AwaitCode | server/src/pairing.rs:66-78 | polling finds the owner exactly when the code is valid at the first look |
| Relay.Server.HandlePairingInitiate | server/src/pairing.rs:55-145 | the new row, the rebinding, the used code and who is told, in which order |
| Relay.Server.HandlePairingResume | server/src/pairing.rs:504-573 | the three refusals, the eviction of a dead PC entry, and the two confirmations |
| Relay.Server.RouteSealed | server/src/routing.rs:16-67 | size, form and pairing check, then delivery or eviction |
| Relay.Server.RoutePeerSessionReset | server/src/routing.rs:74-116 | the notice for the latest partner |
| Relay.Server.HandleText | server/src/session.rs:78-135 | authentication comes first, once, and every other message needs it |
| Relay.Server.Cleanup | server/src/session.rs:67-75 | the end of a session removes its own entry only |
| RelayRuns.EveryRun | server/src/session.rs:67-103 | in every run: entries lead to running sessions that authenticated as the device, all rows of a PC name the phone that claimed it last, tokens count the claims, a PC has at most one code |
| RelayRuns.SealedFramesStayBetweenPartners | server/src/routing.rs:30-48 | a frame is delivered, unchanged, if and only if it fits, its sender authenticated, one device is the other's current phone and the receiver takes frames; the receiving session authenticated as the receiver and still runs |
| RelayRuns.OthersHearOnlyPartners | server/src/pairing.rs:83-143 | whatever reaches another connection reaches a partner of the asking device |
| RelayRuns.DisconnectKeepsNewerConnections | server/src/connections.rs:49-60 | after a disconnect exactly the entries of other connections remain, unchanged |
| RelayRuns.RotationCutsOffTheOldPhone | server/src/pairing.rs:91-108 | after a new phone claimed a PC, another device is paired with the PC if and only if it is a PC whose current phone is that one |
| RelayRuns.TokensFollowTheCurrentPhone | server/src/pairing.rs:515-532 | a token is known if and only if it was handed out, and it is accepted from the current phone of its PC and from nobody else, also after rotations |
| RelayRuns.ConfirmationsCrossTheKeys | server/src/pairing.rs:110-143 | in every run a phone's confirmation names the claim of its token and carries the PC key scanned for it; a connected PC was told just before, with the phone's fresh key |
| RelayRuns.PairingMayGoUntold | server/src/pairing.rs:135-143 | an accepted pairing is told to the phone if and only if its channel is open and the PC is not behind a dead channel; the dead entry stays |
| RelayRuns.CodesWorkOnce | server/src/db.rs:109-167 | a code is good exactly for the PC that offered it last, until it expires, once, and until that PC asks for another |
| RelayRuns.ResetReachesANewestPartner | server/src/db.rs:246-264 | a reset notice goes to the partner of a claim that joins the sender with anyone today and that no such claim exceeds, whichever the database picks |
| RelayRuns.ResetReachesTheNewestPartner | server/src/db.rs:246-264 | when one such claim is newer than all others, it goes to that partner |
| RelayRuns.ResetWithoutPartnerIsDropped | server/src/routing.rs:78-88 | without such a claim nobody is told |
| RelayEffects.SpeakersHaveAuthenticated | server/src/session.rs:91-103 | over every run a connection speaks for a device only if it sent a valid authentication for it |
| RelayEffects.DeviceComesFromAuth | server/src/session.rs:91-103 | and it gains a device only in that step |
| RelayEffects.DeviceStays | server/src/session.rs:91-94 | a connection never changes its device |
| RelayEffects.AuthenticationExactly | server/src/auth.rs:46-59 | an authentication takes hold, with its Ack and its entry, if and only if it is valid, the device has failures left and the connection takes frames; otherwise nobody gains anything, an allowed failure counts one, and success forgets the failures |
| RelayEffects.SecondAuthenticationIsIgnored | server/src/session.rs:92-94 | a second authentication changes nothing, whatever it says |
| RelayEffects.UnauthenticatedIsRefused | server/src/session.rs:129-133 | without a device every other message is refused and changes nothing |
| RelayEffects.RegistrationExactly | server/src/pairing.rs:18-47 | registering a code: refused at the limit, counted otherwise; the old codes go, and the new one is entered unless another PC holds it |
| RelayEffects.BadCodeIsRefused | server/src/pairing.rs:77-82 | a code that is not good changes nothing and is answered with an error |
| RelayEffects.RedeemedExactly | server/src/pairing.rs:110-143 | a good code: who is told what, in which order, and what the handler returns |
| RelayEffects.ConnectionEventsExactly | server/src/session.rs:67-76 | what a new connection, a stopped writer and a disconnect change |
| RelayEffects.IgnoredExactly | server/src/session.rs:122-125 | other messages, and all after the end of a session, change nothing |
| RelayEffects.SealedExactly | server/src/routing.rs:18-67 | the answer to a sealed frame and its delivery, eviction or loss, in every run |
| RelayEffects.ResetExactly | server/src/routing.rs:74-116 | a reset reaches the partner of a newest pairing, or evicts its dead entry |
| RelayEffects.ResumeExactly | server/src/pairing.rs:515-558 | which refusal a resume meets, and both confirmations otherwise, in every run |
| Login.LoginServer.SendLoginCode | server/src/login.rs:39-59 | the cooldown, and the row of a new code |
| Login.LoginServer.VerifyAndLogin | server/src/login.rs:65-91 | the order of the five refusals, and what success changes |
| Login.LoginServer.IssueAccountSession | server/src/db.rs:569-599 | an account keeps its id and gets a new token, or is made |
| LoginRuns.EveryRun | server/src/login.rs:39-91 | the code row is what the replies say: the last code, its wrong guesses (at most five), whether it opened its one session; issues are a minute apart |
| LoginRuns.LoginSucceedsExactly | server/src/login.rs:65-91 | a guess opens a session if and only if it is the last issued code, at most ten minutes old, unused, and missed fewer than five times |
| LoginRuns.GuessesAreBounded | server/src/login.rs:19-22 | in any T milliseconds at most 5 * (T / 60000 + 2) wrong guesses are compared for an email |
| LoginRuns.ApartMeansFew | server/src/login.rs:44-49 | issues a minute apart: one in an interval, and one more per whole minute |
| LoginRuns.AccountIdsAreStable | server/src/db.rs:563-599 | two sessions have the same account id if and only if they are of the same email |
| LoginRuns.OnlyTheNewestTokenResolves | server/src/db.rs:353-365 | a token resolves to its own account, and only until the next session of that email |
| LoginRuns.GuessIsAnsweredExactly | server/src/login.rs:65-91 | which of the replies a guess gets, by the history of the email |
| LoginRuns.CodeIsIssuedExactly | server/src/login.rs:39-59 | a code is refused if and only if the last one is less than a minute old; otherwise it replaces that one, even when the mail fails, and no other email is affected |
| HttpReader.ReadRequest | server/src/http_auth.rs:71-125 | the reading loops return what one parse of all bytes returns, except that a head that overruns the limit at a read boundary is refused |
| HttpReader.ReadHead | server/src/http_auth.rs:74-89 | the head is found where the whole stream has it |
| HttpReader.FindSubsequence | server/src/http_auth.rs:204-206 | the first place of the empty line |
| HttpReader.HeadEndOfPrefix | server/src/http_auth.rs:83-85 | a prefix shows the end of the head exactly when it holds all of it |
| HttpReader.EarlyHeadIgnoresTheSplit | server/src/http_auth.rs:83-88 | a head that ends by byte 65537 is read the same for every split |
| HttpReader.LateHeadIsRefused | server/src/http_auth.rs:86-88 | a head that ends after byte 69632 is refused for every split |
| HttpReader.InBetweenTheSplitDecides | server/src/http_auth.rs:74-89 | in between, for every such stream one split is read and another is refused |
| HttpRequests.PrintedRequestsAreRead | server/src/http_auth.rs:90-124 | every printed request, with any other fields and any query, comes back with its method, its path up to the query and its body, however it is split |
| HttpRequests.HeadIsRead | server/src/http_auth.rs:91-109 | the head's lines, words and length field are read as printed |
| HttpRequests.RequestLineIsNoLength | server/src/http_auth.rs:101-109 | a request line is taken for the length field if and only if its method already starts like it |
| HttpOutcomes.AnnouncedBodiesExactly | server/src/http_auth.rs:111-124 | of a printed head with any length and whatever was sent: at most the announced bytes are read; fewer are kept when the peer closes and lost when it is silent |
| HttpOutcomes.HalfHeadsAreRefused | server/src/http_auth.rs:74-89 | a printed head that is cut short is refused, as closed, silent or too large |
| HttpOutcomes.NoEmptyLineNoRequest | server/src/http_auth.rs:74-89 | a stream gives a request only if it has an empty line, and is never "closed before headers" when it has one |
| HttpOutcomes.UndecodableHeadsAreEmpty | server/src/http_auth.rs:91-99 | a head that is not UTF-8 is read as one without method, path and length |
| HttpOutcomes.FirstReadableLengthDecides | server/src/http_auth.rs:101-109 | the first length field that can be read counts, and without one the length is zero |
| HttpOutcomes.LengthsExactly | server/src/http_auth.rs:104-107 | a length is a decimal number with at most one plus sign in front |
| Base64.EncodeBase64 | crates/app-core/src/editor_files.rs:126-148 | the encoder's shifts and masks give the sextets of the 24-bit groups |
| Base64.DecodeBase64 | crates/app-core/src/attachment_cache.rs:199-238 | the decoder's loops give the octets of the groups, or the first of three errors |
| Base64.DecodeOfEncode | crates/app-core/src/attachment_cache.rs:199-238 | decoding an encoding gives the bytes back, for every byte sequence; four characters for every three bytes begun |
| Base64.WhiteSpaceDoesNotMatter | crates/app-core/src/attachment_cache.rs:202-202 | white space anywhere does not change the result |
| Base64.ReencodesExactlyTheCanonical | crates/app-core/src/attachment_cache.rs:199-238 | an accepted text is encoded back to itself if and only if its padding is last and no bits are left over |
| Base64.SpellingsAreNotUnique | crates/app-core/src/attachment_cache.rs:209-222 | two spellings of one byte, and padding in front |
| Base64Decoding.DecodesExactly | crates/app-core/src/attachment_cache.rs:199-238 | for every input: which of the three errors, if any; and otherwise that padding counts as the letter A wherever it stands, and the bytes are those of that text without one for each padding |
| FileUri.EncodeSegment | crates/app-core/src/attachment_cache.rs:187-197 | the loop over a segment's bytes |
| FileUri.DecodePath | crates/app-core/src/attachment_cache.rs:135-152 | the loop over escapes and plain bytes |
| FileUri.EncodePathIsEncodeAll | crates/app-core/src/attachment_cache.rs:173-185 | splitting at slashes, encoding and joining leaves just the slashes alone |
| FileUri.DecodeInvertsEncode | crates/app-core/src/attachment_cache.rs:135-197 | read as bytes, decoding inverts encoding on every path |
| FileUri.RoundTrip | crates/app-core/src/attachment_cache.rs:93-133 | a path comes back from its URI if and only if it is ASCII, has no backslash, and starts with a slash that no drive follows or with a drive |
| FileUri.RoundTripWithForwardSlashes | crates/app-core/src/attachment_cache.rs:93-133 | the same for a path whose backslashes were turned |
| FileUriReading.NoPathExactly | crates/app-core/src/attachment_cache.rs:107-133 | there is no path if and only if nothing but white space and the scheme is given |
| FileUriReading.PlainPathsExactly | crates/app-core/src/attachment_cache.rs:111-129 | a plain ASCII path stands for itself, with or without either spelling of the scheme |
| FileUriReading.TrimExactly | crates/app-core/src/attachment_cache.rs:108-108 | trimming takes away the blanks on both sides, all of them and nothing else |
| FileUriReading.EscapesExactly | crates/app-core/src/attachment_cache.rs:139-147 | a percent sign and two hexadecimal digits of either case stand for their byte |
| FileUriReading.OtherPercentSigns | crates/app-core/src/attachment_cache.rs:148-149 | any other percent sign stands for itself |
| FileUriReading.DecodeAfterPlain | crates/app-core/src/attachment_cache.rs:139-151 | both, wherever in the text: what has no percent sign before it stays as it is |
| FileUriReading.EscapesOnly | crates/app-core/src/attachment_cache.rs:173-197 | a printed path has only unreserved characters, slashes and escapes with capital digits |
| FileUriReading.UnreservedPathsExactly | crates/app-core/src/attachment_cache.rs:93-101 | a path of such characters is printed as it is |
| Utf8Text.DecodeOfUtf8 | server/src/http_auth.rs:91-91 | the head's text is decoded from its own UTF-8 |
| Utf8Text.Utf8OfDecoded | server/src/http_auth.rs:91-91 | and from nothing else |

## Left out

- FileUndo.UndoExact: does not model two spellings of one path or links between paths; a path is its normalised text.
- FileUndo.RevertAllAt: is the model's own reading of undo. The code rejects one diff record at a time, which it looks up anew and refuses without an old text; here each report of a finished window is rejected as it stands, and one without an old text is skipped.
- UiSnapshots.UiSnapshot.ApplyEvent: does not model the plan, configuration and inspector panels, diff hunks and previews, JSON in tool inputs, or timestamps; such payloads are opaque or parameters.
- UiSnapshots.UiSnapshot.ApplyUsageUpdate: does not model timestamps, the context window and its occupancy.
- UiSnapshots.UiSnapshot.UpdateUsageModelSummary: does not model the latest time of a row or rows of other sessions.
- CoalescingInvisible.MergePair: when merging `ToolMessageChunk`s is visible is not stated; their log entries and the header of a cut text depend on where they were cut.
- Usage.CountsAddUp: does not model the width of the event counters.
- UiSnapshots.UiSnapshot.EnsureTool: does not model the reference it returns; an index stands for it.
- PromptTasks.EveryRun: does not model threads; the channel's timing is a list of polls.
- PromptBaton.EveryRun: does not model what a prompt does while it runs; resolving a waiter and its resumption are one step, and a reader of the input is not part of the session.
- SessionConfig.IncrementalEqualsRebuild: does not model failing SDK calls or two requests at once.
- ToolTrace.OneCallPerTool: does not model the content of notifications, plan entries or the accumulated tasks.
- Relay.Server.HandleText: does not model two handlers at once, failing database writes other than a code held by another PC, account binding or subscription messages.
- Relay.Server.AwaitCode: does not model a code that another handler registers during the wait; that wait is a later step.
- Relay.Server.HandleDeviceAuth: does not model the format, timestamp and signature checks; their result is a parameter.
- RelayRuns.CodesWorkOnce: does not model `expire_pairing_codes`, which nothing calls; expired codes are refused anyway.
- RateLimitBound.AdmittedIsBounded: does not model the 32-bit counter; without a reset it stays at most at the limit.
- LoginRuns.GuessesAreBounded: does not model two requests at once.
- HttpReader.ReadRequest: does not model the replacement of invalid bytes in the body, nor the five-second limit of a single read other than at the end of the stream.
- FileUri.RoundTrip: does not model turning a relative path into an absolute one.
- WebSocket, TLS and HTTP output, process spawning, SSH, mail, the image APIs and the React front end: input and output only.
- Settings watchers, timers, title generation, prompt formatting and model keyword tables: no state over runs.
- `ui_snapshot.rs`, `sessions.rs`, `permissions.rs` and the API proxy are not part of this model.

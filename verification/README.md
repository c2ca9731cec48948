# Verified protocols of the Longhouse Machine Agent

Longhouse's Rust engine runs one-shot coding-agent turns, streams their output to a server, and must stay
correct across crashes, lossy queues and concurrent shutdown. This project models the small protocols that
carry that burden and proves what they promise: over every input, every interleaving and every reachable
state. Where the code does not keep a promise, the model keeps the code as it is, a lemma gives a concrete run,
and another lemma says exactly when the promise holds.

Check everything with `dafny verify dfyconfig.toml` (Dafny 4.11).

## How to read it

Each protocol is a state machine of pure steps: one step per lock section, file operation or channel operation.
A disabled step leaves the state alone, so a run is any sequence of actions. `Run` (or `RunFrom`) folds the steps,
`Inv` is the inductive invariant, and the main lemmas quantify over all runs. Where the engine updates fields or
files in place, a class holds them and its methods, with the engine's own loops and early returns, are proved equal
to the specification functions that the lemmas are about. What those functions say is pinned in turn by lemmas
on the raw fields of lines, notifications, headers and files (`run_evidence.dfy`, `shown_events.dfy`,
`http_answers.dfy`, and the lemmas ending in `Exactly`), and by lemmas that the steps get something done.

| file | component | engine code |
|---|---|---|
| `stream_lines.dfy` | file growth into lines | `claude_print.rs`, `read_growth` |
| `stream_projection.dfy` | what a monitor does with a line | `claude_print.rs`, monitors and settlement |
| `claim_writes.dfy` | which marks survive unordered claim writers | `turn_claims.rs` |
| `projection_recovery.dfy` | crashes, checkpoints, recovery, cancellation, verdicts | `claude_print.rs`, `turn_claims.rs` |
| `repeated_settlement.dfy` | when a run is given two verdicts | `claude_print.rs`, `turn_claims.rs` |
| `run_evidence.dfy` | verdicts, signals and events read off the provider's lines | `claude_print.rs` |
| `monitor_progress.dfy` | what a monitor gets done by its own steps | `claude_print.rs`, `turn_claims.rs` |
| `recovery_runs.dfy` | concrete turns | `claude_print.rs`, `turn_claims.rs` |
| `decimals.dfy` | decimal text | `codex_exec.rs`, `claude_channel_server.rs` |
| `app_server_projection.dfy` | live projection of a console turn | `codex_exec.rs`, `AppServerProjection` |
| `event_pump.dfy` | two-lane event pump | `codex_exec.rs`, `post_events`, `run_runtime_event_pump` |
| `live_text.dfy` | projection and pump together | `codex_exec.rs` |
| `shown_events.dfy` | the projection without its state | `codex_exec.rs` |
| `worker_pool.dfy` | the pool's lock sections | `codex_exec.rs`, `CodexConsoleWorkerPool` |
| `pool_shutdown.dfy` | pool, turns and shutdown, interleaved | `codex_exec.rs` |
| `mcp_config.dfy` | reference-counted user config | `cursor_helm_launcher.rs` |
| `identity_claim.dfy` | pending and observed identity | `cursor_helm_launcher.rs`, `cursor_hooks.rs` |
| `terminal_keys.dfy` | terminal dedupe keys | `codex_teardown.rs` |
| `terminal_publication.dfy` | durable terminal publication | `codex_teardown.rs`, `codex_bridge.rs`, `outbox.rs` |
| `http_framing.dfy` | reading a request off a socket | `claude_channel_server.rs` |
| `http_answers.dfy` | what a client's bytes say | `claude_channel_server.rs` |
| `ownership_watch.dfy` | debounced ownership loss | `codex_bridge_ownership.rs` |
| `shell_command.dfy` | shell quoting, subsequence search | `codex_app_server_canary.rs` |

## Where the code falls short of its promise

Each of these is a lemma with a concrete run, next to the exact condition for all inputs.

- A crash after a checkpoint that passed the result line turns a completed run into a failed one, because the result
  is not in the claim (`RecoveryRuns.CrashAfterCheckpointLosesCompletion`; exactly when:
  `ProjectionRecovery.RecoveredVerdictExact`).
- An interrupted run is not reported as cancelled if it ends on a failed read, a failed wait for the child or a foreign
  line, if its claim cannot be read at settlement, or if every cancel mark written before settlement read the claim was
  overwritten by then, by a claim write of the monitor that had read the claim before it; a mark that comes after that
  reading is too late (`RecoveryRuns.FailedReadHidesCancel`, `FailedWaitHidesCancel`, `ForeignLineHidesCancel`,
  `UnreadableClaimHidesCancel`, `OverwrittenCancelIsLost`; exactly when: `ProjectionRecovery.CancelIsLostExactly`).
- A run can be given two verdicts under its one terminal key: while the claim's terminal record is not in place, because
  its write failed, a crash prevented it, or an interrupt's stale record replaced it, the next engine settles the run
  again, as cancelled or failed (`RecoveryRuns.UnsavedEndingSettlesTwice`, `StaleInterruptSettlesTwice`; exactly when:
  `RepeatedSettlement.SettledAgainExactly`, `EndingExactly`).
- A phase's dedupe key does not name its tool, so a run's phase signals clash exactly when two of its lines run
  different tools (`RecoveryRuns.TwoToolsShareAPhaseKey`; exactly when: `ProjectionRecovery.SignalKeysClashExactly`).
- A tool item's dedupe key repeats exactly when the item is started after an earlier event about it
  (`AppServerProjection.ToolKeysRepeatExactly`).
- The pump can exit with previews left in its lane and the counter above zero: `select!` evaluates its guards on
  entry, and the last sender may leave while the pump is parked, even after the terminal signal was taken
  (`EventPump.ExitCanStrandAPreview`; exactly when: `ExitExactly`).
- The user's config file is lost if the first launcher dies between renaming it and writing the state file, or if the
  last one cannot write it back but removes the state (`McpConfig.CrashAfterRenameLoses`, `FailedRestoreLoses`;
  exactly when: `LossExactly`).
- An observed identity is lost when a hook's late backup removal meets the next launch's reservation, or a promotion
  lands inside a launcher's check-then-write window (`IdentityClaim.LateBackupRemovalLoses`,
  `PromotionInsideRollbackLoses`; exactly when: `LossExactly`).
- Relaunching a session overwrites a committed stop that was never published
  (`TerminalPublication.RelaunchLosesUnpublishedStop`; exactly when: `LossExactly`).
- The reconciler adds a second pending copy of a stop if the bridge's own enqueue comes between its check and its
  rename, or if its scan of the outbox could not read the copy that was pending
  (`TerminalPublication.InterruptedTickCopiesTwice`, `UnreadableScanCopiesTwice`; exactly when: `SecondCopyExactly`).
  The server still keeps one.
- The reconciler skips a stop while a temporary with its key lies in the outbox, which the drain never posts and prunes
  after ten minutes: a bridge killed between writing that file and renaming it leaves one
  (`TerminalPublication.TemporaryHidesStop`; exactly when: `TickPublishes`, `PassLeavesPending`).
- Above 1 MiB, how the network cut an HTTP request can decide its answer: one way of cutting it is refused with 413, and
  the other gets the answer its bytes determine (`HttpFraming.CutsMatterExactly`).

## Model

| member | source | states |
|---|---|---|
| StreamLines.SplitMeaning | engine/src/claude_print.rs:591-607 | the lines of a file are non-empty and newline-free, and putting them back with their newlines and the tail gives the file without its blank lines |
| StreamLines.SplitUnique | engine/src/claude_print.rs:591-607 | no other lines and tail have that property |
| StreamLines.SplitAppend | engine/src/claude_print.rs:591-607 | keeping only the tail is enough to continue splitting where a read stopped |
| StreamLines.LinesGrow | engine/src/claude_print.rs:591-607 | appending to a file never changes a line that was complete |
| StreamLines.ReadOnceTracks | engine/src/claude_print.rs:591-607 | a read returns precisely the lines completed since the previous read, and `pending` is the unterminated tail |
| StreamLines.PendingFits | engine/src/claude_print.rs:561-566 | the pending tail never exceeds the offset, and what precedes it ends at a line boundary |
| StreamLines.ChunkInvariance | engine/src/claude_print.rs:591-607 | however reads cut an append-only file, their lines, the last offset and the pending tail are those of one read |
| StreamLines.ShortFileReadsNothing | engine/src/claude_print.rs:591-607 | a file shorter than the offset gives no lines and leaves the reader as it was |
| StreamLines.DrainLines | engine/src/claude_print.rs:596-606 | the drain loop ends, returns every complete non-empty line in order and leaves the tail |
| StreamLines.StreamReader.ReadGrowth | engine/src/claude_print.rs:591-607 | one read updates offset and pending as the specification says, including for a file shorter than the offset |
| StreamProjection.FirstStopMeaning | engine/src/claude_print.rs:333-353 | the line that ends a run is the first one that names another session |
| StreamProjection.AdvanceAllMeaning | engine/src/claude_print.rs:333-361 | after some lines a monitor knows their number, the last result among them and whether the session was announced |
| StreamProjection.Monitor.ProjectGrowth | engine/src/claude_print.rs:333-361 | the loop posts each line once under consecutive numbers with its binding or phase before it, stops before the first foreign init line, and learns what the specification says |
| StreamProjection.Monitor.ProjectLine | engine/src/claude_print.rs:335-356 | one line is posted, signalled and learned from, or stops the loop before anything is posted for it; a result line is learned as a success exactly if its subtype is "success" and its error flag is not set |
| StreamProjection.Monitor.PostSignals | engine/src/claude_print.rs:721-739 | a line posts its binding or its phase, never both |
| StreamProjection.ResultMeaning | engine/src/claude_print.rs:615-624 | a line is a result exactly if its kind says so, and a success exactly if moreover its subtype is "success" and its error flag is not set |
| StreamProjection.LastResultMeaning | engine/src/claude_print.rs:353-355 | the last result is a success exactly if some line is one and no result follows it |
| StreamProjection.IdentityMeaning | engine/src/claude_print.rs:626-643 | a line confirms the session or names another one exactly if it is an init event with that id or another |
| ClaimWrites.MarkMissingExactly | engine/src/turn_claims.rs:219-345 | for every log of read-then-replace writers: the cancel mark is missing if and only if every mark was overwritten by a monitor write that had read the record before it |
| ProjectionRecovery.InvRun | engine/src/claude_print.rs:319-566 | over any run of appends, reads, crashes, interleaved claim writers, lost writes, recoveries and settlements: log, signals, claim records, monitor and verdicts agree with the file |
| ProjectionRecovery.ReplayRefinesOnePass | engine/src/claude_print.rs:319-566 | the server's log of line events, first event per key, is a prefix of one uninterrupted pass, and no other line event is ever posted |
| ProjectionRecovery.NoKeyCarriesTwoLines | engine/src/claude_print.rs:740-784 | no numbered key, of a line or of a decode gap, ever carries two different lines |
| ProjectionRecovery.SignalsRefineOnePass | engine/src/claude_print.rs:721-739 | the bindings and phases posted are the first phase and those of the lines signalled so far, all lines an uninterrupted monitor handles |
| ProjectionRecovery.SignalKeysClashExactly | engine/src/claude_print.rs:700-719 | a binding or phase key carries two different signals if and only if two of those lines run different tools |
| ProjectionRecovery.SettledMeansComplete | engine/src/claude_print.rs:319-566 | after a last read that followed the provider's exit, the log equals the uninterrupted pass and every signal of its lines was posted |
| ProjectionRecovery.DeadClaimReadsEverything | engine/src/claude_print.rs:509-560 | settling a dead claim reads every line after the checkpoint |
| ProjectionRecovery.CheckpointsAreResumable | engine/src/claude_print.rs:561-566 | every persisted offset, even one that a stale claim write puts back, is a line boundary with the matching line count, never ahead of what was posted, and the saturating subtraction never saturates |
| ProjectionRecovery.CompletedIsEarned | engine/src/claude_print.rs:412-430 | a completed verdict implies no cancel in the claim read, an announced session, no foreign init line handled, and a last result that is a success |
| ProjectionRecovery.VerdictExact | engine/src/claude_print.rs:645-676 | for every verdict, however the run ended: exactly when it is cancelled and when it is completed |
| ProjectionRecovery.CancelIsLostExactly | engine/src/claude_print.rs:412-430 | a verdict is not cancelled if and only if the run ended on a failed read, a failed wait or a foreign line, the claim was unreadable, or every cancel mark written before settlement read the claim was overwritten by then |
| ProjectionRecovery.AcknowledgedIsRecorded | engine/src/turn_claims.rs:219-345 | over every run: an acknowledged interrupt wrote its mark, and the mark is missing from the claim if and only if every mark was overwritten by a monitor write that had read the claim before it |
| ProjectionRecovery.CompletedWasNotInterrupted | engine/src/claude_print.rs:282-317 | if a run completed with its claim readable, every cancel mark before settlement had been overwritten |
| ProjectionRecovery.RecoveredVerdictExact | engine/src/claude_print.rs:664-676 | over every run: exactly when a verdict recovered after the provider stopped is the one a live monitor would reach over the same lines after a clean exit |
| ProjectionRecovery.RecoveredVerdictAgrees | engine/src/claude_print.rs:664-676 | they agree when no result line precedes the checkpoint and no binding write was lost |
| ProjectionRecovery.StepsPostLikeTheLoop | engine/src/claude_print.rs:333-361 | handling a queue line by line posts what the monitor's loop posts |
| ProjectionRecovery.StepsSignalLikeTheLoop | engine/src/claude_print.rs:333-361 | and signals what it signals |
| ProjectionRecovery.StepsLearnLikeTheLoop | engine/src/claude_print.rs:333-361 | and learns what it learns |
| RepeatedSettlement.EndingExactly | engine/src/claude_print.rs:786-824 | in every step a run is settled only while it has not ended, a settlement ends it if and only if its claim write is built, and what has ended is reopened by exactly two kinds of step |
| RepeatedSettlement.EndingRun | engine/src/turn_claims.rs:219-312 | over every run a monitor works on an open claim only, and nobody but a settlement ends it |
| RepeatedSettlement.SettlesOnce | engine/src/claude_print.rs:224-281 | over every run without those steps and without a lost settlement write, whatever crashes and recovers, there is at most one verdict |
| RepeatedSettlement.SettledAgainExactly | engine/src/claude_print.rs:224-281 | at any point of any run, a restarted engine adds another verdict, cancelled or failed, if and only if the claim is not terminal |
| RunEvidence.VerdictFromLines | engine/src/claude_print.rs:609-676 | every verdict of every run, on the fields of its lines: completed if and only if it was settled, no cancel was seen, the session was announced, the last result says success without an error flag, and a live monitor saw a clean exit; cancelled if and only if the cancel was seen |
| RunEvidence.ForeignLinesStop | engine/src/claude_print.rs:333-353 | no line posted announces another session |
| RunEvidence.ForeignEndingNamesItsLine | engine/src/claude_print.rs:341-348 | a run ended by a foreign line stopped right before one that announces another session |
| RunEvidence.SignalsFromLines | engine/src/claude_print.rs:721-739 | in every run bindings, running and thinking phases are posted for exactly the announcements, tools and user lines among those signalled |
| RunEvidence.EventsFromLines | engine/src/claude_print.rs:740-784 | every line event is one of the file's lines under its number, as a gap exactly if it cannot be decoded |
| MonitorProgress.ReadQueuesTheRest | engine/src/claude_print.rs:333-361 | in every run a successful read queues every complete line not handled yet, and makes a checkpoint due exactly if there is one |
| MonitorProgress.DueCheckpointComesFirst | engine/src/claude_print.rs:357-361 | while one is due nothing reads, settles or ends the run |
| MonitorProgress.CheckpointAdvances | engine/src/claude_print.rs:561-566 | in every run a due checkpoint whose write succeeds moves the claim to the last line boundary read and its line count, an unterminated tail notwithstanding, and changes nothing else |
| MonitorProgress.RestartReadsOn | engine/src/claude_print.rs:224-281 | from every reachable open claim a restarted engine, whether the provider runs or not, resumes at the checkpoint and queues every complete line after it |
| MonitorProgress.BindingIsRecorded | engine/src/claude_print.rs:721-731 | in every monitor an announcement is recorded in the claim before anything is posted for its line |
| MonitorProgress.OutputIsTheProviders | engine/src/claude_print.rs:319-566 | in every run output and exit are what the provider did, the first exit counting |
| MonitorProgress.InterruptExactly | engine/src/claude_print.rs:282-317 | when an interrupt may begin, what it copies from the claim and what it acknowledges |
| MonitorProgress.LateInterruptsAreRefused | engine/src/claude_print.rs:282-317 | once the provider has exited and none is under way, no interrupt is ever acknowledged |
| MonitorProgress.MonitorSettles | engine/src/claude_print.rs:319-560 | from every reachable state of any of the three monitors whose provider has exited, its own steps settle the run once more within a bound, whatever its reads and writes answer |
| RecoveryRuns.UncrashedRunCompletes | engine/src/claude_print.rs:319-430 | a run with an init line, a success and a clean exit completes |
| RecoveryRuns.CrashAfterCheckpointLosesCompletion | engine/src/claude_print.rs:509-560 | the same run crashed after its last checkpoint fails |
| RecoveryRuns.UnreadableClaimHidesCancel | engine/src/claude_print.rs:412-430 | a run whose claim cannot be read at settlement completes despite an acknowledged and recorded interrupt |
| RecoveryRuns.OverwrittenCancelIsLost | engine/src/turn_claims.rs:219-245 | so does a run whose interrupt comes between a checkpoint's read and its write of the claim |
| RecoveryRuns.FailedReadHidesCancel | engine/src/claude_print.rs:363-372 | a run that ends because its output cannot be read fails despite an acknowledged and recorded interrupt |
| RecoveryRuns.FailedWaitHidesCancel | engine/src/claude_print.rs:433-442 | so does one whose monitor cannot learn whether its child has exited |
| RecoveryRuns.ForeignLineHidesCancel | engine/src/claude_print.rs:341-348 | so does one that ends because a line names another session |
| RecoveryRuns.TwoToolsShareAPhaseKey | engine/src/claude_print.rs:700-739 | a run whose two messages run different tools posts two phases under one key |
| RecoveryRuns.UnsavedEndingSettlesTwice | engine/src/claude_print.rs:786-824 | a run that completes, loses the claim write of its settlement and is failed by the next engine |
| RecoveryRuns.StaleInterruptSettlesTwice | engine/src/turn_claims.rs:219-230 | a run that completes, whose terminal record an interrupt's stale write replaces, and that is cancelled by the next engine |
| AppServerProjection.TextInvariant | engine/src/codex_exec.rs:129-150 | the text kept for an item is the concatenation of its deltas, for any interleaving of items |
| AppServerProjection.SeqInvariant | engine/src/codex_exec.rs:129-150 | the counters kept are the numbers of assistant events so far, in all and for each item |
| AppServerProjection.AssistantEventsAreNumbered | engine/src/codex_exec.rs:129-258 | assistant events carry 1, 2, 3, ... in all and per item, and the concatenation of their item's deltas so far |
| AppServerProjection.CompletedMessageCarriesAllDeltas | engine/src/codex_exec.rs:218-257 | a completed message whose item had deltas always yields an event with all of them |
| AppServerProjection.LiveKeyInjective | engine/src/codex_exec.rs:1288 | a live-transcript dedupe key determines item and item number, whatever characters item ids contain |
| AppServerProjection.LiveKeysNeverRepeat | engine/src/codex_exec.rs:1288 | no two assistant events of a run share a dedupe key |
| AppServerProjection.ToolKeyInjective | engine/src/codex_exec.rs:1251 | a tool event's dedupe key determines item and number, whatever characters item ids contain |
| AppServerProjection.ToolKeysRepeatExactly | engine/src/codex_exec.rs:151-217 | two events of a run carry the same tool key if and only if a tool item is started after an earlier event about it |
| AppServerProjection.Projection.Apply | engine/src/codex_exec.rs:125-258 | one event changes the maps and counters, and is projected, exactly as the specification step says |
| ShownEvents.ProjectionIsStateless | engine/src/codex_exec.rs:125-258 | for every stream each notification emits exactly what it shows given the notifications before it: phases, item, numbers, delta, text, command, output, status |
| ShownEvents.EveryDeltaIsShown | engine/src/codex_exec.rs:130-150 | every delta notification emits exactly one preview of its item, numbered, with its delta and the text so far |
| ShownEvents.DeltaFieldsAddUp | engine/src/codex_exec.rs:130-150 | the delta fields of an item's events concatenate to its deltas |
| ShownEvents.PostsShowEverything | engine/src/codex_exec.rs:1188-1305 | each notification posts its progress event and then one batch for each shown item, in order, previews included |
| EventPump.InvRun | engine/src/codex_exec.rs:1562-1722 | over any interleaving of producer, pump, answers and closing: counter, conservation, order, admission, bounds and closing hold |
| EventPump.EventsConserved | engine/src/codex_exec.rs:1562-1722 | every posted event is settled, in flight, in a lane, with the producer, or dropped before its lane: one place each |
| EventPump.CounterIsExact | engine/src/codex_exec.rs:1562-1595 | the counter equals the events in both lanes, the batch in flight and the batch being sent |
| EventPump.LanesAreFifo | engine/src/codex_exec.rs:1598-1722 | each lane keeps its order and its bound, and only previews are dropped for lack of room |
| EventPump.SendExactly | engine/src/codex_exec.rs:1562-1595 | when a batch enters its lane, waits, or is refused, and why |
| EventPump.DropsMeanFull | engine/src/codex_exec.rs:1575-1586 | in every run whatever was dropped for lack of room is a preview that found 256 batches waiting |
| EventPump.PostAndRefundExactly | engine/src/codex_exec.rs:1562-1595 | the counter is raised before a send and lowered for a refused batch |
| EventPump.KilledPumpStops | engine/src/codex_exec.rs:1624-1722 | a killed pump keeps its batch and takes nothing more |
| EventPump.SelectExactly | engine/src/codex_exec.rs:1638-1653 | in every run `select!` takes the oldest critical batch if there is one, else the oldest preview, and parks exactly while nothing waits and a sender is left |
| EventPump.PreviewsYield | engine/src/codex_exec.rs:1638-1667 | no preview is taken while a critical batch waits |
| EventPump.DeliveriesFollowTaking | engine/src/codex_exec.rs:1654-1721 | batches are delivered or given up in the order their events were taken |
| EventPump.CriticalBatchesArrive | engine/src/codex_exec.rs:1565-1574 | short of killing the pump, every critical batch posted reaches it, in order |
| EventPump.ExitExactly | engine/src/codex_exec.rs:1638-1653 | at exit the critical lane is empty and everything taken is settled; previews are left exactly after a raced close, else the counter is zero |
| EventPump.ExitCanStrandAPreview | engine/src/codex_exec.rs:1638-1653 | a run that posts its terminal signal last, in which that signal is delivered and the pump exits with one preview in its lane and the counter at one |
| EventPump.ClosedPumpExits | engine/src/codex_exec.rs:1638-1722 | from every reachable state without senders, short of an abort, the pump's own steps reach its exit whatever the server answers, within a bound |
| EventPump.ClosedPumpOnlyAdvances | engine/src/codex_exec.rs:1638-1722 | no step of anybody moves a pump without senders away from its exit, except an abort |
| EventPump.CollectedIsUnique | engine/src/codex_exec.rs:1654-1667 | the bounds on how many batches may join the first leave one possibility |
| EventPump.PumpTask.CollectBatch | engine/src/codex_exec.rs:1654-1667 | the coalescing loop joins critical batches before previews, up to the limit, and leaves the rest in place |
| EventPump.PumpTask.PostBatch | engine/src/codex_exec.rs:1668-1721 | a batch counts as delivered exactly if an attempt was acknowledged and all before it could be retried; the counter gives it up once |
| EventPump.StepsCollectLikeTheLoop | engine/src/codex_exec.rs:1654-1667 | the pump's steps, left alone, collect what the loop collects |
| EventPump.StepsPostLikeTheLoop | engine/src/codex_exec.rs:1668-1721 | and settle the batch as the attempt loop does |
| LiveText.OutputInvariant | engine/src/codex_exec.rs:175-192 | the output kept for a tool is the concatenation of its chunks |
| LiveText.CommandInvariant | engine/src/codex_exec.rs:151-174 | the command kept for a tool is the one its latest start named |
| LiveText.ToolEventsShowTheirItem | engine/src/codex_exec.rs:151-217 | for every stream a tool event shows the latest start's command and all output so far, unless the completion carries its own |
| LiveText.CriticalPostsAreFinal | engine/src/codex_exec.rs:1188-1230 | the critical batches of a turn are its binding, completed messages, completed tools and terminal signal, in order, with their full text |
| LiveText.FinalsReachThePump | engine/src/codex_exec.rs:1562-1722 | at every moment and for every pattern of dropped previews those batches, as far as they were posted, are taken, waiting or being sent, in order, and taken once the pump has exited |
| LiveText.DroppedPreviewsNeverLoseText | engine/src/codex_exec.rs:1188-1305 | once its notification was posted, a completed message is carried to the pump with the concatenation of all its deltas |
| LiveText.TakenEventsAreSettled | engine/src/codex_exec.rs:1654-1721 | every event the pump took is in a batch that was acknowledged or given up as a whole, or in the one in flight |
| LiveText.CompletedTextIsSettled | engine/src/codex_exec.rs:1188-1305 | at exit a completed message's whole text is in a batch that was acknowledged or given up after its attempts |
| LiveText.AcknowledgedTurnDeliversFinals | engine/src/codex_exec.rs:1562-1722 | if every batch was acknowledged, the server got exactly the events taken, in order, among them the turn's final batches in order |
| WorkerPool.PopAliveMeaning | engine/src/codex_exec.rs:405-423 | a lease takes the most recent live worker and drops only dead ones behind it |
| WorkerPool.LeaseExactly | engine/src/codex_exec.rs:405-423 | for every pool a lease succeeds if and only if the pool is open and has a live worker, and which one it takes |
| WorkerPool.CodexConsoleWorkerPool.ReserveSpawnSlot | engine/src/codex_exec.rs:73-83 | a slot is reserved exactly when pool and spawns are below the target and shutdown has not begun, whatever turns are active |
| WorkerPool.CodexConsoleWorkerPool.SettlePrewarm | engine/src/codex_exec.rs:376-397 | a reporting prewarm frees its slot and its worker is kept or handed back to be stopped |
| WorkerPool.CodexConsoleWorkerPool.LeaseWarmWorker | engine/src/codex_exec.rs:405-423 | leasing pops until a live worker turns up and registers it as active |
| WorkerPool.CodexConsoleWorkerPool.RegisterActiveWorker | engine/src/codex_exec.rs:429-438 | a cold worker is registered unless shutdown has begun |
| WorkerPool.CodexConsoleWorkerPool.UnregisterActiveWorker | engine/src/codex_exec.rs:440-445 | unregistering removes that worker's group and no other |
| WorkerPool.CodexConsoleWorkerPool.LatchShutdown | engine/src/codex_exec.rs:917-928 | the latch is set and the caller learns whether a spawn is outstanding |
| WorkerPool.CodexConsoleWorkerPool.TakeForShutdown | engine/src/codex_exec.rs:934-943 | shutdown takes all warm workers and a snapshot of the active groups |
| PoolShutdown.InvRun | engine/src/codex_exec.rs:355-980 | the pool's invariant over every interleaving of prewarms, turns, deaths and shutdown |
| PoolShutdown.PrewarmFillsPool | engine/src/codex_exec.rs:355-392 | from every reachable state before shutdown whose pool is below its target, whatever turns are active, a prewarm's own steps add one worker |
| PoolShutdown.PrewarmDelivers | engine/src/codex_exec.rs:376-392 | so does any prewarm in flight that has not failed |
| PoolShutdown.TurnLeasesExactly | engine/src/codex_exec.rs:405-423 | a turn leases the most recent live worker if there is one and starts cold otherwise |
| PoolShutdown.ColdTurnRunsExactly | engine/src/codex_exec.rs:429-438 | a cold turn runs, registered, unless shutdown has begun; then it is rejected |
| PoolShutdown.DeadAndFailedStartsGo | engine/src/codex_exec.rs:405-438 | a worker that dies is no longer live, so that no lease takes it, and a cold start that fails leaves no task |
| PoolShutdown.CancelledStartLeavesNothing | engine/src/codex_exec.rs:588-615 | a cancelled cold start leaves neither task nor worker |
| PoolShutdown.PoolBound | engine/src/codex_exec.rs:74-80 | warm and spawning workers never exceed the target, and `spawning` is the number of prewarms in flight |
| PoolShutdown.SettlingIsExact | engine/src/codex_exec.rs:376-392 | the saturating decrement is exact, and a spawned worker is discarded exactly when shutdown has begun |
| PoolShutdown.NoLostWakeup | engine/src/codex_exec.rs:894-931 | whenever shutdown is parked, a task still owes the notification it waits for |
| PoolShutdown.SpawnDebtorPays | engine/src/codex_exec.rs:376-402 | such a prewarm can pay by its own steps, and that wakes shutdown |
| PoolShutdown.ActiveDebtorPays | engine/src/codex_exec.rs:440-445 | so can a turn that still has to unregister |
| PoolShutdown.NobodyIsOrphaned | engine/src/codex_exec.rs:355-445 | every live worker leader is in the pool, held by a task, or held by shutdown |
| PoolShutdown.NothingEntersAfterLatch | engine/src/codex_exec.rs:914-931 | over any continuation after the latch, nothing is added to the pool or the active map |
| PoolShutdown.DoneLeavesOnlyDoomedWorkers | engine/src/codex_exec.rs:914-980 | when shutdown is done, budget or not, every worker alive belongs to a task bound to stop it, and with no task left none is alive |
| PoolShutdown.DoomedStaysDoomed | engine/src/codex_exec.rs:393-401 | and stays with that task until it is dead |
| PoolShutdown.DoomedStepsStop | engine/src/codex_exec.rs:376-401 | after the latch every step of such a task stops its worker or comes closer to that |
| PoolShutdown.DoomedDies | engine/src/codex_exec.rs:588-615 | and it gets there by its own steps alone |
| PoolShutdown.BudgetExpiresDuringSpawn | engine/src/codex_exec.rs:902-931 | the budget can run out with a spawn in flight, whose worker its task then stops |
| PoolShutdown.ShutdownOnlyAdvances | engine/src/codex_exec.rs:914-980 | a rank of shutdown's remaining work drops at each of its moves and is raised by nobody |
| PoolShutdown.ShutdownWaitsExactly | engine/src/codex_exec.rs:894-931 | short of its budget, shutdown goes on only when no prewarm is in flight, and is done only when no turn is active |
| PoolShutdown.ShutdownNeverStuck | engine/src/codex_exec.rs:902-912 | until it is done, some action of shutdown's own changes its state, the expiry of its budget included |
| McpConfig.LossExactly | engine/src/cursor_helm_launcher.rs:777-891 | a step loses the user's content exactly if it is one of two failures readable off the disk; every other step keeps the invariant |
| McpConfig.InvRun | engine/src/cursor_helm_launcher.rs:667-891 | over every other run: state present means it holds the user's exact content, state absent means the config is it, and every live holder is listed |
| McpConfig.LastDropRestores | engine/src/cursor_helm_launcher.rs:667-691 | the last holder's clean drop restores the user's exact file, absence included |
| McpConfig.DeadOwnersLeaveNoTrace | engine/src/cursor_helm_launcher.rs:789-801 | once all owners died, the next acquire behaves as on the user's untouched file |
| McpConfig.AcquireExactly | engine/src/cursor_helm_launcher.rs:777-848 | over every such run and all faults: an acquire succeeds if and only if the user's content takes the injection and no operation it needs fails, whoever else holds the config, and then lists exactly the live holders and itself |
| McpConfig.RefusedAcquireExactly | engine/src/cursor_helm_launcher.rs:802-848 | one that cannot inject leaves the others' files, or puts the user's file back |
| McpConfig.FailedAcquireKeepsOthers | engine/src/cursor_helm_launcher.rs:777-848 | one that fails leaves the list alone while anybody alive is on it |
| McpConfig.DropExactly | engine/src/cursor_helm_launcher.rs:667-691 | a clean drop removes its session and the dead; the config stays exactly as long as anybody alive is left |
| McpConfig.FaultyDropExactly | engine/src/cursor_helm_launcher.rs:667-691 | what a drop leaves of both files under any faults |
| McpConfig.EditsAndDeathsCount | engine/src/cursor_helm_launcher.rs:777-801 | edits while nobody holds the config take effect, and the death of the last live holder leaves it to the next acquire |
| McpConfig.InjectionsDoNotStack | engine/src/cursor_helm_launcher.rs:802-833 | every acquire injects into the user's own content, never into an injected one |
| McpConfig.HeldConfigStaysInjected | engine/src/cursor_helm_launcher.rs:667-691 | while somebody holds the config, nobody else's exit or failure takes it away |
| McpConfig.CrashAfterRenameLoses | engine/src/cursor_helm_launcher.rs:833-842 | a death between the rename and the state write loses the user's file |
| McpConfig.FailedRestoreLoses | engine/src/cursor_helm_launcher.rs:678-680 | so does a last drop that cannot write the file back but removes the state |
| McpConfig.ProjectFiles.WriteCursorMcpConfig | engine/src/cursor_helm_launcher.rs:777-848 | acquiring changes both files, and fails, exactly as the specification step says, with a failure possible at each file operation |
| McpConfig.ProjectFiles.DropConfig | engine/src/cursor_helm_launcher.rs:667-691 | so does dropping |
| IdentityClaim.LossExactly | engine/src/cursor_helm_launcher.rs:203-271 | the last observed identity is lost exactly by three kinds of step, read off the two files |
| IdentityClaim.InvRun | engine/src/cursor_helm_launcher.rs:203-271 | over every run without those steps it stays recoverable |
| IdentityClaim.IdentityIsNeverLost | engine/src/cursor_hooks.rs:195-207 | if hooks stay out of the launcher's two short windows and clean up before the next reservation, it is never lost, whatever dies where |
| IdentityClaim.RollbackRestores | engine/src/cursor_helm_launcher.rs:248-271 | the matching rollback restores the latest observed claim, or leaves nothing when there was none |
| IdentityClaim.ForeignRollbackIsInert | engine/src/cursor_helm_launcher.rs:251-260 | a rollback for another launch, or after promotion, changes nothing |
| IdentityClaim.CrashedLaunchesRollBackToTheLatest | engine/src/cursor_helm_launcher.rs:203-271 | a crashed launch's pending claim does not stop a later launch's rollback from restoring the latest identity |
| IdentityClaim.DeathBlocksNobody | engine/src/cursor_helm_launcher.rs:203-271 | in every orderly run a launcher's death leaves the next launch's rollback the latest identity |
| IdentityClaim.LaunchIsObserved | engine/src/cursor_hooks.rs:186-207 | from every state without a launcher at work, a launch that its hook observes ends with its identity and no backup |
| IdentityClaim.ConversationRotates | engine/src/cursor_hooks.rs:262-311 | a hook of the launch moves its claim on to another conversation |
| IdentityClaim.ForeignHooksAreInert | engine/src/cursor_hooks.rs:154-159 | hooks of another launch change nothing |
| IdentityClaim.LateBackupRemovalLoses | engine/src/cursor_hooks.rs:195-207 | a run in which a hook's late backup removal loses the identity |
| IdentityClaim.PromotionInsideRollbackLoses | engine/src/cursor_helm_launcher.rs:248-271 | a run in which a promotion inside a rollback is removed |
| IdentityClaim.ClaimFiles.WritePendingClaim | engine/src/cursor_helm_launcher.rs:203-246 | undisturbed, reserving is its two steps |
| IdentityClaim.ClaimFiles.RollbackPendingClaim | engine/src/cursor_helm_launcher.rs:248-271 | undisturbed, rolling back is its three steps |
| TerminalKeys.KeysAreInjective | engine/src/codex_teardown.rs:31-36 | within a session, and between sessions of which neither continues the other after a colon, a key determines the session and the run, a blank run counting as none |
| TerminalKeys.KeysCollideExactly | engine/src/codex_teardown.rs:31-36 | two sessions share a key for some runs if and only if one continues the other after a colon |
| TerminalKeys.ColonFreeRunsAreInjective | engine/src/codex_teardown.rs:31-36 | with runs that are not blank and have no colon the key determines session and run, whatever the sessions |
| TerminalKeys.KeyText | engine/src/codex_teardown.rs:31-36 | a key names its session, and the run unless it is all white space |
| TerminalKeys.UuidTextsExactly | engine/src/codex_bridge.rs:880-885 | the session ids accepted are exactly 32 hexadecimal digits, plain, hyphenated, braced or as a URN |
| TerminalKeys.StoppedExactly | engine/src/codex_teardown.rs:153-157 | a status means stopped exactly if it is that word in any case between white space |
| TerminalKeys.UuidsNeverClash | engine/src/codex_bridge.rs:880-885 | session ids that launching accepts never clash, in any spelling of a UUID, URNs included |
| TerminalPublication.InvRun | engine/src/codex_teardown.rs:96-241 | over every interleaving of bridges, reconciler and drain: state files speak of their own committed stops, "published" never lies, the server is sound |
| TerminalPublication.OnlyStopsArePublished | engine/src/codex_teardown.rs:153-157 | nothing is published that was not committed: running sessions never emit |
| TerminalPublication.LossExactly | engine/src/codex_bridge.rs:903-949 | exactly which steps lose a committed stop |
| TerminalPublication.StopsAreNeverLost | engine/src/codex_teardown.rs:142-241 | if sessions are relaunched only after their stop is published and the reconciler is off them, no crash or failed write loses a committed stop |
| TerminalPublication.StopIsOnDisk | engine/src/codex_bridge.rs:5937-5990 | then a committed stop is published, or waits in its state file, at every moment |
| TerminalPublication.TickPublishes | engine/src/codex_teardown.rs:201-241 | for every state and every outcome of scan, write and rename: a tick leaves a due stop's key pending if and only if it was, or it could be enqueued and the scan read no temporary with its key |
| TerminalPublication.TickCopiesExactly | engine/src/codex_teardown.rs:183-241 | an undisturbed tick makes a second pending copy of a key if and only if the key is pending and a due stop with it is enqueued because the scan read no file with the key |
| TerminalPublication.TickAddsNoSecondCopy | engine/src/codex_teardown.rs:183-241 | so never if the scan could read the outbox |
| TerminalPublication.InterruptedTickCopiesTwice | engine/src/codex_teardown.rs:217-229 | the bridge's own enqueue between a tick's check and its rename makes a second copy |
| TerminalPublication.UnreadableScanCopiesTwice | engine/src/codex_teardown.rs:183-197 | so does a check that could not list the outbox, with no bridge left |
| TerminalPublication.TemporaryHidesStop | engine/src/outbox.rs:102-120 | after a bridge is killed before its rename, every tick that can read the outbox leaves a committed stop unpublished and changes nothing |
| TerminalPublication.SecondCopyExactly | engine/src/codex_teardown.rs:213-229 | in every state, for every scan and whatever happens between check and rename: the reconciler makes a second pending copy if and only if the copies its check did not see, with those bridges enqueued since, outnumber those the drain deleted |
| TerminalPublication.CheckedMeansUnread | engine/src/codex_teardown.rs:183-197 | a check passes over pending copies only if the scan could not list the outbox or read any of them |
| TerminalPublication.QuietSessionCopiesExactly | engine/src/codex_teardown.rs:213-229 | over every run, if the session's bridge was down at the check and was not relaunched, a second copy arises if and only if unseen copies outnumber deletions |
| TerminalPublication.NoSecondCopyOfAQuietSession | engine/src/codex_teardown.rs:213-229 | so never if the scan could read the outbox |
| TerminalPublication.MarkedIsNeverReposted | engine/src/codex_bridge.rs:5937-5990 | once a bridge has marked its file while the reconciler is elsewhere, the file stays marked and the reconciler never takes the session up until its next launch |
| TerminalPublication.ReconciledIsNeverReposted | engine/src/codex_teardown.rs:222-239 | the same for a file the reconciler marks |
| TerminalPublication.LaunchedFileIsNotDue | engine/src/codex_bridge.rs:1135-1172 | a launch and a running bridge write files that are never due |
| TerminalPublication.RelaunchLosesUnpublishedStop | engine/src/codex_bridge.rs:1135-1172 | relaunching a session whose bridge died before publishing loses the stop |
| TerminalPublication.ServerKeepsOnePerRun | engine/src/codex_teardown.rs:26-36 | however often a stop is posted, the server keeps one event for its session and run, and no other run's, for launches that their sessions or colon-free runs keep apart |
| TerminalPublication.ServerKeepsTheFirst | engine/src/codex_teardown.rs:26-36 | what the server has for a key is the first event it was sent |
| TerminalPublication.AcceptedLaunchesAreApart | engine/src/codex_bridge.rs:880-911 | launches with UUID session ids are kept apart |
| TerminalPublication.DeliveryStaysPossible | engine/src/outbox.rs:352-414 | at any point of an orderly run every committed stop can still reach the server, by pruning, a tick that can read and write, and one post |
| TerminalPublication.IterationIsATick | engine/src/codex_teardown.rs:203-239 | an iteration of the reconciler's loop is a tick of the state machine |
| TerminalPublication.PassMeaning | engine/src/codex_teardown.rs:201-241 | a pass over any list of files only appends, marks only what is pending, and counts what it added |
| TerminalPublication.PassAddsOnlyDueStops | engine/src/codex_teardown.rs:201-241 | whatever a pass enqueues is the stop of a file whose status reads stopped and that is not marked |
| TerminalPublication.PassLeavesPending | engine/src/codex_teardown.rs:201-241 | a pass leaves a key pending if and only if it was, or one of its turns over a due stop with that key could enqueue it and its scan read no temporary with the key |
| TerminalPublication.CleanPassLeavesPending | engine/src/codex_teardown.rs:201-241 | without such temporaries, at the start or left by the pass: if and only if it was, or a due stop with the key could be enqueued |
| TerminalPublication.PassCopiesExactly | engine/src/codex_teardown.rs:201-241 | a pass makes a second pending copy of a key if and only if one of its turns enqueues it while it is pending |
| TerminalPublication.PassAddsNoSecondCopy | engine/src/codex_teardown.rs:201-241 | so never if its scans could read the outbox |
| TerminalPublication.Reconciler.OutboxAlreadyHolds | engine/src/codex_teardown.rs:183-197 | the scan, over renamed files and temporaries in any order, answers whether it could list the outbox and read one with the key |
| TerminalPublication.Reconciler.PublishTerminalEvent | engine/src/outbox.rs:102-120 | enqueueing appends the event, or leaves nothing, or leaves a temporary when it stops before the rename |
| TerminalPublication.Reconciler.ReconcileTerminalEventPaths | engine/src/codex_teardown.rs:201-241 | the loop, with its early continues and failures, is that pass |
| HttpFraming.HeaderEndOfPrefix | engine/src/claude_channel_server.rs:1074-1076 | the header end does not move as more bytes arrive |
| HttpFraming.ScanHeaderEnd | engine/src/claude_channel_server.rs:1074-1076 | the scan returns the first blank line's position |
| HttpFraming.FragmentationIndependent | engine/src/claude_channel_server.rs:928-981 | up to 1 MiB every way of cutting a stream into reads gives the outcome its bytes determine |
| HttpFraming.CutsMatterExactly | engine/src/claude_channel_server.rs:928-981 | for every stream: two ways of cutting it get different answers if and only if it lies in one window above 1 MiB |
| HttpFraming.ReadHttpRequest | engine/src/claude_channel_server.rs:928-981 | both read loops, with their limits and error exits, compute that function of the reads |
| HttpAnswers.ServedAsAnnounced | engine/src/claude_channel_server.rs:928-981 | for every stream and every way of cutting it: the answer is the one named by its first blank line, its head and the number in its first Content-Length, or 413 inside the window |
| HttpAnswers.BodyIsAsLongAsAnnounced | engine/src/claude_channel_server.rs:958-981 | if the first Content-Length is the decimal text of n, an accepted request's body is the n bytes after the blank line |
| HttpAnswers.LengthMeaning | engine/src/claude_channel_server.rs:958-963 | the length is the number in the first Content-Length, and zero if there is none or it is no number |
| HttpAnswers.ParseMeaning | engine/src/claude_channel_server.rs:961 | a text parses as n exactly if it is an optional plus sign, zeros and the decimal digits of n, and n fits |
| OwnershipWatch.OwnerExactly | engine/src/codex_bridge_ownership.rs:85-111 | which owner is reported, for each of the four |
| OwnershipWatch.EvidenceOnlyHelps | engine/src/codex_bridge_ownership.rs:85-111 | more evidence of an owner never makes a bridge debris |
| OwnershipWatch.UnownedMeaning | engine/src/codex_bridge_ownership.rs:84-111 | what counts as debris; a headless bridge never does |
| OwnershipWatch.TripsExactly | engine/src/codex_bridge_ownership.rs:143-154 | for every history the watch trips exactly when this and the two preceding successful observations are unowned |
| OwnershipWatch.FailedScansAreInvisible | engine/src/codex_bridge_ownership.rs:156-162 | histories that differ only in failed scans get the same answers |
| OwnershipWatch.OwnershipResets | engine/src/codex_bridge_ownership.rs:143-148 | after an owned observation at least two more successful ones precede a trip |
| OwnershipWatch.Watch.Observe | engine/src/codex_bridge_ownership.rs:143-154 | the field update keeps the counter of the whole history and answers by the specification |
| OwnershipWatch.Watch.ObservationFailed | engine/src/codex_bridge_ownership.rs:156-162 | a failed scan keeps the counter |
| ShellCommand.ReadQuoted | engine/src/codex_app_server_canary.rs:1429-1432 | a quoted NUL-free value is read by the shell as itself, into the word being read |
| ShellCommand.RoundTrip | engine/src/codex_app_server_canary.rs:1368-1380 | any line of plain and quoted words is read back as exactly the words meant |
| ShellCommand.RemoteExecIsReadBack | engine/src/codex_app_server_canary.rs:1368-1380 | both forms of the `exec` command are read back with each argument as one unchanged word |
| ShellCommand.ContainsSubsequence | engine/src/codex_app_server_canary.rs:1725-1741 | the greedy loop answers true if and only if the wanted states embed in order |

## Left out

- Processes, signals, PTYs, sockets and HTTP: a worker is a fresh id with an alive flag and an owner, a request is a sequence of reads, an answer is acknowledged, retryable or final.
- JSON: decoded events are datatypes with the fields that drive decisions; the stream decoder, the head parser and the config injection are parameters, so results hold for every such function.
- Timestamps, log lines, latency metrics and human-readable error texts.
- Pool: killed process groups die, pids are not reused, the process table is accurate, and one daemon owns the pool; a turn's task is not aborted from outside.
- Console monitors: one monitor works on a claim at a time; reading and renaming a claim record are atomic each; the `mark_failed` and `mark_spawned_invocation` writers come before the turn starts.
- ProjectionRecovery.SettledMeansComplete: says nothing about a verdict of `monitor_recovered_claim`, which reads before its liveness check and may miss output written in between.
- ProjectionRecovery.ReplayRefinesOnePass: counts an event as posted once it is handed to the outbox; a failed outbox write in `claude_print.rs` is only logged there and is not modelled.
- ProjectionRecovery.SignalKeysClashExactly: is about bindings and phases; for the terminal event's key see RepeatedSettlement.SettledAgainExactly.
- Claude events reach the server in the order they are posted; the outbox may reorder them.
- Event pump: one producer at a time posts, as the run's tasks do in sequence; the coalescing sleep and the retry delays are steps without effect.
- McpConfig.InvRun: the user does not edit the file while it is owned, all launchers use one state directory, plain writes are all-or-nothing, and an unreadable state file (where both sections stop without touching anything) does not occur.
- `CursorProjectHooks`: the same protocol as the config's, around a hook configuration that is not part of this model.
- Identity claims: malformed claim files and statuses other than pending and observed; failed writes of a single file.
- Terminal publication: one daemon; a session is launched only while no bridge of it runs; the state file's write is atomic, and a commit whose write fails is no commit; outbox files that do not parse, among them temporaries cut short, hold no key and are not modelled; nor is the age at which a temporary is pruned.
- HttpFraming.ReadHttpRequest: a failed read and the end of the stream are the same event, as both answer 400.
- ShellCommand.RemoteExecIsReadBack: covers the `exec` command; the constant `stty` and `export` prefix uses shell features the tokenizer does not have.
- Codex and Claude configuration, attachments, hooks, the permission gate and MCP tool dispatch: plumbing without a protocol of its own.

# Verified models of the Codex clients, daemon and analytics

Seven components whose guarantees concern whole runs are modelled in Dafny and proved correct on every run.

- `EventForwarding` — the worker that pushes events of the embedded app-server into a bounded queue, blocking for
  must-deliver events and replacing dropped ones by lag markers. Every channel operation is one atomic step, and the
  consumer may pop or hang up between any two. `InProcessWorker` is the worker as an object; its `Valid` says that the
  object is where its history of atomic steps leads.
- `RemoteWorker` — the remote client: handshake, request multiplexer, exit drain, event stream. Frames and write
  outcomes are arbitrary. `RemoteSession` is the object form, and `RemoteRuns` says when the loop ends and what it wrote.
- `Daemon`, `DaemonOutcomes`, `DaemonProgress`, `DaemonScenarios`, `DaemonHost` — lifecycle commands and the updater. An operation is the
  tree of its effectful calls; `Daemon` interleaves any number of processes, their crashes, a file lock, a settings file
  whose write can be torn, the managed server, and servers the daemon does not manage. `DaemonOutcomes` says what a
  successful operation has achieved on every interleaving, `DaemonProgress` what it comes to when nothing hinders it and
  why it may refuse, `DaemonScenarios` builds the runs that show where promises
  end, and `DaemonHost` has the operations as imperative methods that walk those trees and inherit the outcomes.
- `Reducer` and its companions — the analytics reducer: seven maps, facts in any order, events when a join is complete.
  `ReducerContext` and `ReducerThreads` say what is known of threads, connections and requests, `ReducerTurns` and
  `ReducerPayload` when a turn event comes and what it reports, `ReducerReviews` and `ReducerVerdicts` the same for
  reviews and items, `ReducerBounds` how many events there can be. `ReducerObject` has the maps as fields.
- `DiffParser` — the unified-diff parser, a printer of structured git diffs, and the round trip between them;
  `DiffCounting` has the parser's meaning on arbitrary text.
- `AnalyticsClient` — request batching and the dedupe windows.
- `WrapperArgs`, `WrapperReading` — the lint wrapper's argument scanner and printer, and what it reads and adds.

The pattern is the same throughout: a step function in the source's own branches, `Exec` or `Run` over an arbitrary
sequence of steps, invariants kept by every step, and theorems about all runs; the object forms are proved to perform
exactly such runs.

Conventions. Clocks, network frames, write outcomes, file errors and the order in which a hash map is drained are
parameters or arbitrary choices. `usize` saturation of the skipped-event counter is modelled; other counters are
unbounded. Hashes are kept as the values that are hashed. Rust's `char::is_alphanumeric` is a parameter.

Where the code does less than one would expect, the model follows the code and the exact condition is proved:

- Gap accounting is exact exactly while no increment was swallowed by saturation (`ExactGapAccounting`,
  `SaturationWitness`).
- Setting remote control can succeed while the managed server has the other mode: the request goes to whoever answers
  the socket (`MisdirectedWitness`), and an enable request sent without the lock can overtake a disable before that
  reports success (`UnlockedRequestRaces`). `RemoteControlConvergence` has the exact condition.
- Ensuring that remote control is started can succeed with nothing managed running, if the server dies or a foreign
  server binds the socket half-way (`ForeignServerFoolsEnsure`). `EnsureStartedConvergence` has the exact condition, and
  its companions those of start, restart and bootstrap.
- An operation can refuse although the managed server answered its probe: the server dies before it is looked for
  (`DeathMakesRestartRefuse`). `RefusesForReason` has both reasons there are.
- A foreign server on the socket protects the machine exactly if no managed server is hidden behind it
  (`ForeignSafetyExactly`), and only from operations whose probes reach it (`MissedProbeLaunches`).
- Items completed and steers accepted before the first fact of a turn are lost to its counts; `TurnConfluence` counts
  those that come later, in any order.
- Argument normalisation is idempotent exactly unless the manifest path is a bare `--` that has to be inserted
  (`NormalizeIdempotent`).
- A path that ends in white space loses it in the diff summary (`PathKept`).

## Model

| member | source | states |
|---|---|---|
| EventForwarding.ExactGapAccounting | codex-rs/app-server-client/src/lib.rs:196-262 | on every interleaving, markers between neighbouring delivered events sum to the drops between them, and trailing markers plus the counter to the drops since, if and only if no increment was swallowed by saturation |
| EventForwarding.SaturationWitness | codex-rs/app-server-client/src/lib.rs:221-231 | saturation is reachable and then breaks the accounting |
| EventForwarding.Losslessness | codex-rs/app-server-client/src/lib.rs:139-262 | on every run the queue stays within capacity, deliveries are in input order, and every must-deliver input is enqueued once and in order except the one in flight |
| EventForwarding.ServerRequestDichotomy | codex-rs/app-server-client/src/lib.rs:226-261 | on every run the server requests taken are, as multisets, those enqueued plus those failed plus the one in flight; refreshes are failed with their own code and never enqueued |
| EventForwarding.DroppedOnlyWhenFull | codex-rs/app-server-client/src/lib.rs:190-262 | on every run a step drops an event only with the channel open and its queue full, only if it is not one of the eight lossless kinds, and fails it with -32001 if it is a request; a step delivers only into a free slot; no other step settles an event or fails anything but a refresh, with -32000 |
| EventForwarding.ForwardedWhenRoom | codex-rs/app-server-client/src/lib.rs:190-262 | what becomes of any event from any idle state while the consumer does not act, in terms of queue, capacity and counter alone: delivered with its marker when both fit, waiting, dropped, failed or disabling otherwise |
| EventForwarding.HangUpDisables | codex-rs/app-server-client/src/lib.rs:205-237 | after the consumer hangs up the next event disables the stream and nothing more is read |
| EventForwarding.DisabledIsFinal | codex-rs/app-server-client/src/lib.rs:540-587 | once the stream is disabled nothing more is taken, dropped, failed or enqueued |
| EventForwarding.PopsUnblock | codex-rs/app-server-client/src/lib.rs:206-247 | two pops finish any forward |
| EventForwarding.ReachableInv | codex-rs/app-server-client/src/lib.rs:476-592 | all invariants hold in every reachable state, for every requested capacity |
| EventForwarding.InProcessWorker.FlushLag | codex-rs/app-server-client/src/lib.rs:205-237 | performs the marker's steps of the transition system and reports where the forward stands |
| EventForwarding.InProcessWorker.SendEvent | codex-rs/app-server-client/src/lib.rs:239-261 | performs the event's steps, blocking only for must-deliver events |
| EventForwarding.InProcessWorker.HandleRuntimeEvent | codex-rs/app-server-client/src/lib.rs:540-587 | one loop turn on an event is a run of the transition system that begins by taking it |
| RemoteWorker.ExactlyOnce | codex-rs/app-server-client/src/remote.rs:213-473 | on every run each received request has no answer exactly while it is pending and one otherwise, hence exactly one once the worker ended; a written request is never called a duplicate or a failed write |
| RemoteWorker.RequestFate | codex-rs/app-server-client/src/remote.rs:225-262 | the answer of a request received mid-run: duplicate, its own write failure, or what the rest of the run brings |
| RemoteWorker.WaiterGetsOutcome | codex-rs/app-server-client/src/remote.rs:317-333 | a pending waiter gets the first reply that bears its id, else the drain's error, and nothing else touches it |
| RemoteWorker.DuplicateLeavesNoTrace | codex-rs/app-server-client/src/remote.rs:225-262 | a request that reuses a pending id changes nothing anyone else can see on any continuation: same messages, events, pending requests and answers of all other waiters, earlier or later |
| RemoteWorker.StreamOrder | codex-rs/app-server-client/src/remote.rs:317-459 | what the caller reads is a prefix of handshake events, live events in arrival order, and at most one Disconnected; nothing is lost while it reads and nothing follows a Disconnected |
| RemoteWorker.MailArrives | codex-rs/app-server-client/src/remote.rs:331-360 | on every run the notifications and requests that a listening caller has read or can read are, payload for payload and in order, those of the handshake and of the known frames that arrived; what it read is a prefix |
| RemoteRuns.LoopEndsAtFirstFatal | codex-rs/app-server-client/src/remote.rs:213-473 | on every run the loop ends at the first fatal action, which decides the drain's error and whether a Disconnected is sent; up to there every frame is heard and every message owed is written, in order, and nothing after |
| RemoteRuns.ReadsInTurn | codex-rs/app-server-client/src/remote.rs:591-596 | a listening caller reads the first unread event, if there is one |
| RemoteRuns.GoneCallerReadsNothing | codex-rs/app-server-client/src/remote.rs:598-608 | a caller that let go of the events reads nothing more on any run |
| RemoteWorker.Initialize | codex-rs/app-server-client/src/remote.rs:792-934 | connects exactly when the first frame that is not benign accepts and the writes succeed; what was buffered, what was written before `initialized`, and the kind of every refusal |
| RemoteWorker.AwaitVerdict | codex-rs/app-server-client/src/remote.rs:817-915 | the handshake loop buffers known messages, refuses unknown requests with -32601 and stops at the first other frame |
| RemoteWorker.RemoteSession.SendRequest | codex-rs/app-server-client/src/remote.rs:225-262 | files, writes and on failure unfiles a request, as the step function says |
| RemoteWorker.RemoteSession.HandleCommand | codex-rs/app-server-client/src/remote.rs:219-316 | one command is one step of the run |
| RemoteWorker.RemoteSession.HandleIncoming | codex-rs/app-server-client/src/remote.rs:317-459 | one frame is one step of the run |
| RemoteWorker.RemoteSession.DrainPending | codex-rs/app-server-client/src/remote.rs:464-472 | answers all remaining waiters, in any order, and ends the worker |
| RemoteWorker.RemoteSession.RunWorker | codex-rs/app-server-client/src/remote.rs:213-473 | handles inputs in order, interleaved with the caller's reads and its letting go of the events, skips none until it leaves the loop, then drains |
| RemoteWorker.RemoteSession.DropEvents | codex-rs/app-server-client/src/remote.rs:598-608 | the caller lets go of the events, one step of the run |
| RemoteWorker.RemoteSession.ReadNextEvent | codex-rs/app-server-client/src/remote.rs:591-596 | yields buffered handshake events first, then the channel |
| Daemon.SingleManagedServer | codex-rs/app-server-daemon/src/lib.rs:294-403 | on every interleaving a process about to launch the app-server holds the lock and no managed server is there |
| Daemon.OperationsGuarded | codex-rs/app-server-daemon/src/lib.rs:294-624 | every operation checks or stops before it launches |
| Daemon.UnmanagedServerSafety | codex-rs/app-server-daemon/src/lib.rs:294-433 | with no managed server, and a foreign one that stays on the socket and answers every probe, no interleaving of operations changes settings, server, updater or socket |
| DaemonScenarios.ForeignSafetyExactly | codex-rs/app-server-daemon/src/lib.rs:294-624 | with a foreign server on the socket, operations change nothing on any run if and only if no managed server is hidden behind it |
| DaemonScenarios.StopReachesHiddenServer | codex-rs/app-server-daemon/src/lib.rs:405-433 | a stop behind a foreign server stops the managed server that is still there |
| DaemonScenarios.MissedProbeLaunches | codex-rs/app-server-daemon/src/lib.rs:294-330 | a run in which a probe misses the foreign server and a start launches a managed one beside it |
| DaemonOutcomes.RemoteControlConvergence | codex-rs/app-server-daemon/src/lib.rs:525-582 | on every interleaving a successful set leaves the setting equal to the mode, and a managed server in the other mode if and only if a request that strayed to a foreign server, or an unlocked enable that landed, was not followed by a death, a stop or a request for the mode that landed |
| DaemonOutcomes.EnsureStartedConvergence | codex-rs/app-server-daemon/src/lib.rs:491-508 | on every interleaving a successful ensure leaves remote control enabled in the settings; the managed server is disabled if and only if a stray request was not put right, and missing if and only if it died, or a probe was answered with nothing managed, and no launch followed |
| DaemonOutcomes.BootstrapConvergence | codex-rs/app-server-daemon/src/lib.rs:584-624 | the same for a bootstrap and its mode, from any settings, readable or not |
| DaemonOutcomes.RestartConvergence | codex-rs/app-server-daemon/src/lib.rs:332-357 | the same for a restart and the persisted mode, which it needs readable and does not change |
| DaemonOutcomes.StartConvergence | codex-rs/app-server-daemon/src/lib.rs:294-330 | the same for a start, except that a server already running in the other mode keeps it unless an event of the run cures that |
| DaemonOutcomes.StopConvergence | codex-rs/app-server-daemon/src/lib.rs:405-433 | on every interleaving a successful stop leaves no managed server |
| DaemonOutcomes.UndisturbedOutcome | codex-rs/app-server-daemon/src/lib.rs:294-624 | where no server dies, no foreign server comes and no unlocked enable overtakes a disable, an ensure, restart or bootstrap leaves the mode saved and a managed server running in it |
| DaemonOutcomes.RunFlaw | codex-rs/app-server-daemon/src/lib.rs:294-624 | at the end of any run of an operation the managed server is wrong or missing if and only if some event of the run caused that and none later cured it, or it was so before and nothing cured it |
| DaemonOutcomes.UpdaterConvergence | codex-rs/app-server-daemon/src/update_loop.rs:129-141 | an updater whose own binary is the managed one touches the server only after being told of a new version and never replaces itself; one whose binary differs ends without replacing itself only with no managed server left |
| DaemonProgress.HealthyOperationSucceeds | codex-rs/app-server-daemon/src/lib.rs:294-624 | from any state with readable settings and only the managed server on its socket, a run in which no call fails and the server binds brings a start, restart, stop, set, bootstrap or ensure to success and the machine to exactly what was asked for |
| DaemonProgress.ChangedVersionRestarts | codex-rs/app-server-daemon/src/lib.rs:360-403 | under the same conditions an updater that reads another version restarts the server in the persisted mode and succeeds |
| DaemonProgress.FairRunArrives | codex-rs/app-server-daemon/src/lib.rs:294-624 | from any state and machine an unhindered process arrives where the tables below say, with the machine they say |
| DaemonProgress.StartFinale | codex-rs/app-server-daemon/src/lib.rs:294-330 | where a start ends on every machine: it launches exactly if nothing is managed and nobody answers |
| DaemonProgress.RestartFinale | codex-rs/app-server-daemon/src/lib.rs:332-357 | where a restart ends: it refuses exactly if somebody answers and nothing is managed, and else a new server runs in the persisted mode |
| DaemonProgress.StopFinale | codex-rs/app-server-daemon/src/lib.rs:405-433 | where a stop ends: nothing managed is left, or a refusal if somebody answers and nothing was |
| DaemonProgress.SetFinale | codex-rs/app-server-daemon/src/lib.rs:525-582 | where a set ends: the mode saved and on the server, by request or by restart, or a refusal |
| DaemonProgress.BootstrapFinale | codex-rs/app-server-daemon/src/lib.rs:584-624 | where a bootstrap ends, from any settings: mode saved, server and updater renewed, or a refusal |
| DaemonProgress.EnsureFinale | codex-rs/app-server-daemon/src/lib.rs:491-508 | where an ensure ends, with and without an updater |
| DaemonProgress.UpdaterAttempt | codex-rs/app-server-daemon/src/update_loop.rs:129-141 | where an updater's attempt ends: the server is replaced exactly if the binaries differ or another version was read, and the updater replaces itself exactly if the binaries differ |
| DaemonProgress.VersionFinale | codex-rs/app-server-daemon/src/lib.rs:435-446 | the version command changes nothing and succeeds exactly if somebody answers |
| DaemonProgress.RefusesForReason | codex-rs/app-server-daemon/src/lib.rs:332-433 | on every interleaving an operation refuses only with nothing managed, after a probe of its own was answered with nothing managed or by a server that then died |
| DaemonProgress.FooledNeverSucceeds | codex-rs/app-server-daemon/src/lib.rs:332-357 | a restart, stop, set or bootstrap whose probe was answered with nothing managed never reports success |
| DaemonScenarios.MisdirectedWitness | codex-rs/app-server-daemon/src/lib.rs:541-551 | a run in which enabling succeeds and the managed server stays disabled |
| DaemonScenarios.ForeignServerFoolsEnsure | codex-rs/app-server-daemon/src/lib.rs:491-508 | a run in which ensuring succeeds with no managed server |
| DaemonScenarios.DeathMakesRestartRefuse | codex-rs/app-server-daemon/src/lib.rs:332-345 | a run in which the managed server answers the probe, dies, and the restart refuses |
| DaemonScenarios.UnlockedRequestRaces | codex-rs/app-server-daemon/src/lib.rs:510-518 | for either previous setting a run from an idle machine in which a disable succeeds, the setting is off and an unlocked enable has left the server enabled |
| DaemonHost.SoloRunIsInterleaving | codex-rs/app-server-daemon/src/lib.rs:276-292 | a run of one operation is a run of the interleaving model |
| DaemonHost.DaemonHost.RunStart | codex-rs/app-server-daemon/src/lib.rs:276-281 | after success a managed server is missing if and only if it died or a foreign server answered the probe, and no launch followed |
| DaemonHost.DaemonHost.RunRestart | codex-rs/app-server-daemon/src/lib.rs:282-285 | success has the exact outcome of a restart on every interleaving |
| DaemonHost.DaemonHost.RunBootstrap | codex-rs/app-server-daemon/src/lib.rs:486-489 | success has the exact outcome of a bootstrap on every interleaving |
| DaemonHost.DaemonHost.RunSetRemoteControl | codex-rs/app-server-daemon/src/lib.rs:520-523 | success leaves the mode saved, and the server in the other mode exactly as on every interleaving |
| DaemonHost.DaemonHost.RunEnsureStarted | codex-rs/app-server-daemon/src/lib.rs:491-508 | success has the exact outcome of an ensure on every interleaving |
| DaemonHost.DaemonHost.StartServer | codex-rs/app-server-daemon/src/lib.rs:294-330 | makes the calls of the start tree; the settings stay, and a managed server afterwards is the old one or has the persisted mode |
| DaemonHost.DaemonHost.RestartServer | codex-rs/app-server-daemon/src/lib.rs:332-357 | makes the calls of the restart tree; after success somebody answers and a managed server has the persisted mode |
| DaemonHost.DaemonHost.StopServer | codex-rs/app-server-daemon/src/lib.rs:405-433 | makes the calls of the stop tree; after success no managed server is left, and the settings stay |
| DaemonHost.DaemonHost.TryRestartIfRunning | codex-rs/app-server-daemon/src/lib.rs:360-403 | makes the calls of the updater tree, ends at a re-exec exactly when its outcome asks for one, and each outcome says what became of the server |
| DaemonHost.DaemonHost.SetRemoteControlLocked | codex-rs/app-server-daemon/src/lib.rs:525-582 | makes the calls of the set tree; after success the mode is saved |
| DaemonHost.DaemonHost.BootstrapLocked | codex-rs/app-server-daemon/src/lib.rs:584-624 | makes the calls of the bootstrap tree; after success the mode is saved, somebody answers, the updater runs and a managed server has the mode |
| DaemonHost.DaemonHost.EnsureRemoteControlStarted | codex-rs/app-server-daemon/src/lib.rs:491-508 | makes the calls of the ensure tree; after success remote control is enabled in the settings |
| DaemonHost.DaemonHost.WaitUntilReady | codex-rs/app-server-daemon/src/lib.rs:448-463 | polls until the deadline; success means that somebody answers the socket |
| ReducerContext.ContextMissingExactly | codex-rs/analytics/src/reducer.rs:1546-1582 | in every reachable state known threads have metadata and initialized connections, and the context lookup fails exactly when the thread is unknown or has no connection |
| ReducerContext.ContextIsKept | codex-rs/analytics/src/reducer.rs:1231-1247 | a thread that has its context once has it for the rest of the run |
| ReducerContext.ChainInherits | codex-rs/analytics/src/reducer.rs:543-569 | a connection is inherited through a chain of subagents of any length |
| ReducerThreads.LastReadyDecides | codex-rs/analytics/src/reducer.rs:1231-1247 | a thread announced on an initialized connection has the connection and metadata of the last such announcement, whatever subagent starts came |
| ReducerThreads.FirstSpawnDecides | codex-rs/analytics/src/reducer.rs:543-569 | a thread never announced has the metadata of its first subagent start |
| ReducerThreads.FirstLinkDecides | codex-rs/analytics/src/reducer.rs:543-569 | a thread never announced has the connection its parent had when it was first started under a connected parent |
| ReducerThreads.NeverLinkedHasNone | codex-rs/analytics/src/reducer.rs:543-569 | without announcement and without a connected parent a thread has no connection |
| ReducerThreads.ConnectionsExactly | codex-rs/analytics/src/reducer.rs:518-541 | a connection is known exactly if it was initialized |
| ReducerThreads.OpenRequestsExactly | codex-rs/analytics/src/reducer.rs:594-623 | a request is open exactly if the last fact about it made it, and is kept as it was asked |
| ReducerThreads.SteerEventsExactly | codex-rs/analytics/src/reducer.rs:1353-1417 | the answer or failure of a request emits a steer event exactly if the last fact about it asked for a steer on an initialized connection and a known thread, with what that asked |
| ReducerThreads.ThreadEventsExactly | codex-rs/analytics/src/reducer.rs:1231-1247 | announcements on known connections, subagent starts and reports of connected threads emit their event, others none |
| ReducerTurns.EmittedAtLastRequired | codex-rs/analytics/src/reducer.rs:1486-1544 | facts of one turn in any order, among its completed items, its steers and any other facts: nothing until the last required fact, which emits exactly the due events, counts included, and forgets the turn |
| ReducerTurns.TurnConfluence | codex-rs/analytics/src/reducer.rs:625-672 | two runs that show a turn the same facts, counted items and accepted steers in any orders emit the same events: one turn event and at most one accepted-lines event |
| ReducerTurns.FoldPermutation | codex-rs/analytics/src/reducer.rs:1181-1213 | a turn's state does not depend on the order of its facts, items and steers |
| ReducerPayload.TurnEventReports | codex-rs/analytics/src/reducer.rs:2443-2558 | every field of a turn event is the one a fact of the turn told and absent exactly if none did; the counts are the completed items by kind and the accepted steers since the turn's first fact; connection and metadata are the right ones; the accepted lines are those of its diff |
| ReducerPayload.OverdueTurnEmits | codex-rs/analytics/src/reducer.rs:625-672 | a complete turn whose context came late is emitted by a config, token, profile or completion fact, and by no other of its own |
| ReducerBounds.TurnEventBound | codex-rs/analytics/src/reducer.rs:1486-1544 | on every run a turn's events never exceed its config, profile or completion facts |
| ReducerBounds.ToolCountsAddUp | codex-rs/analytics/src/reducer.rs:369-394 | every total tool count kept or reported is the sum of its seven categories |
| ReducerBounds.ToolItemBound | codex-rs/analytics/src/reducer.rs:1095-1174 | an item has at most one event per accepted start |
| ReducerReviews.PendingIsOutstanding | codex-rs/analytics/src/reducer.rs:838-1037 | the pending map holds exactly the latest unanswered approval request of each id in the history |
| ReducerReviews.ReviewEventExactly | codex-rs/analytics/src/reducer.rs:1419-1465 | a review fact emits exactly the event of the review it ends, if the thread has a connection |
| ReducerVerdicts.ReviewEventsTell | codex-rs/analytics/src/reducer.rs:2060-2136 | every review event of a run was caused by a fact that ended a review: approved, denied or aborted exactly as the answer says, about what the latest request under that id asked for; a guardian's has its given status and follows its action |
| ReducerVerdicts.ItemOutcomesTell | codex-rs/analytics/src/reducer.rs:2227-2243 | an item's outcome is absent exactly without reviews, and else names reviewer and verdict of its last review, which a fact of the run gave |
| ReducerReviews.ReviewAccounting | codex-rs/analytics/src/reducer.rs:1467-1484 | an item's summary counts, by reviewer, the command, file-change and MCP reviews of exactly that thread, turn and item since the last clear, with the last outcome and all requested permissions |
| ReducerReviews.EveryToolItemReports | codex-rs/analytics/src/reducer.rs:1112-1174 | every tool-item event of a run reports that accounting and clears it |
| ReducerReviews.StartedIsOpen | codex-rs/analytics/src/reducer.rs:1095-1111 | the recorded starts are exactly the latest starts of the history that no completion has used |
| ReducerReviews.ToolItemExactly | codex-rs/analytics/src/reducer.rs:1112-1174 | a completion emits one event exactly when turn, open start, time, connection and outcome are there, with the time of that start and the reviews since the last clear |
| ReducerReviews.ApprovalsConserved | codex-rs/analytics/src/reducer.rs:954-1037 | accepted approval requests equal resolved plus aborted plus overwritten plus pending |
| ReducerObject.AnalyticsReducer.Ingest | codex-rs/analytics/src/reducer.rs:397-516 | the object performs exactly one more step of its run |
| DiffParser.ParseUndoesPrint | codex-rs/analytics/src/accepted_lines.rs:30-83 | the parser returns the counts and effective added lines of every structured git diff, also when hunk text looks like headers |
| DiffParser.ParseUndoesText | codex-rs/analytics/src/accepted_lines.rs:30-83 | the same through one text split into lines, carriage returns included |
| DiffParser.ParseSections | codex-rs/analytics/src/accepted_lines.rs:39-44 | the parse of a concatenation is the sum of the parses when the second part begins with its git header |
| DiffParser.AcceptedLines | codex-rs/analytics/src/accepted_lines.rs:30-83 | the loop with its five variables computes the parse |
| DiffParser.PathKept | codex-rs/analytics/src/accepted_lines.rs:143-155 | the reported path is the file's own if and only if that does not end in white space |
| DiffParser.NormalizeIdempotent | codex-rs/analytics/src/accepted_lines.rs:157-169 | a normalized line is its own normal form |
| DiffCounting.ParseByPosition | codex-rs/analytics/src/accepted_lines.rs:30-83 | on any text exactly the lines that are added or deleted by their position count, and the effective added lines are reported in order with the file named last before them |
| DiffCounting.EffectiveText | codex-rs/analytics/src/accepted_lines.rs:157-169 | the effective text is the line with its white space collapsed, unless that has at most three bytes or no letter, digit or underscore |
| DiffCounting.FileNameReported | codex-rs/analytics/src/accepted_lines.rs:143-155 | a file name is reported without surrounding blanks and without `a/` or `b/`, and the null device is none |
| DiffCounting.UnendedLine | codex-rs/analytics/src/accepted_lines.rs:39-39 | a last line without newline is a line and keeps its carriage return |
| AnalyticsClient.TrackEventRequestBatches | codex-rs/analytics/src/client.rs:489-510 | the loop returns an order-keeping partition of non-empty batches with isolated events alone and no two ordinary neighbours |
| AnalyticsClient.BatchingUnique | codex-rs/analytics/src/client.rs:489-510 | that partition is the only one |
| AnalyticsClient.BatchingMinimal | codex-rs/analytics/src/client.rs:489-510 | no partition that keeps order and isolates those events has fewer batches |
| AnalyticsClient.EmittedKeys.ShouldEnqueue | codex-rs/analytics/src/client.rs:161-174 | answers whether the key is new in the current window and keeps the window |
| AnalyticsClient.EmittedKeys.ShouldEnqueueApp | codex-rs/analytics/src/client.rs:143-159 | the same for apps, and always true without a connector id |
| AnalyticsClient.WindowBounded | codex-rs/analytics/src/client.rs:155-158 | the set never holds more than 4096 keys |
| AnalyticsClient.RepeatNeedsClear | codex-rs/analytics/src/client.rs:143-174 | two true answers for one key have a clear between them, possibly at the second |
| AnalyticsClient.FullWindow | codex-rs/analytics/src/client.rs:143-174 | between consecutive clears exactly 4096 pairwise distinct keys are accepted |
| AnalyticsClient.AcceptedExactly | codex-rs/analytics/src/client.rs:143-174 | a call is answered true exactly if no earlier call of its window had its key |
| AnalyticsClient.ClearsExactly | codex-rs/analytics/src/client.rs:155-158 | a window ends exactly when 4096 of its calls have been accepted |
| WrapperArgs.ParseWrapperArgs | tools/argument-comment-lint/wrapper_common.py:55-104 | the loop computes the scan |
| WrapperArgs.NormalizeIdempotent | tools/argument-comment-lint/wrapper_common.py:55-122 | normalising twice equals normalising once if and only if the manifest path is not a bare separator that has to be inserted |
| WrapperArgs.NormalizedIsComplete | tools/argument-comment-lint/wrapper_common.py:107-122 | reparsing a normalised list finds a manifest, no-deps, and targets or fix, and the user's arguments unchanged after the defaults |
| WrapperArgs.LintArgsRescan | tools/argument-comment-lint/wrapper_common.py:60-104 | rescanning collected lint arguments finds the same flags, dangling and consumed ones included |
| WrapperReading.ParseReads | tools/argument-comment-lint/wrapper_common.py:55-104 | for every argument list the parts before and after the first separator are kept, and a flag is given exactly if an argument spells it out or is the value that the argument before it asked for |
| WrapperReading.FinalArguments | tools/argument-comment-lint/wrapper_common.py:107-122 | for every argument list the final arguments are exactly the missing defaults, the user's lint arguments, and cargo's arguments with all targets added unless some were selected or fixing is on |

## Left out

- UnmanagedServerSafety: supposes that every probe reaches the foreign server; `MissedProbeLaunches` shows what happens otherwise.
- RemoteControlConvergence: like the other outcomes it is about operations that report success; what a failed or crashed operation leaves behind is only covered by the invariants.
- TurnConfluence: at most one fact of each kind other than items and steers, and facts that agree on the thread and its images; a second config or completion of one turn is covered by the bounds only.
- The pid-file backend of the daemon (reservation lock, stale records, signals): a managed server starts and stops in one step, so a crash in the middle of a spawn is not modelled.
- The updater's download of a new binary, its timers and its signals; its retry after a busy lock is an updater operation that gives up and is submitted again.
- Commands of the in-process client other than the event branch of its worker loop: they only forward to the runtime.
- The abort of the remote worker when it does not end within the shutdown timeout (codex-rs/app-server-client/src/remote.rs:619-622): the caller's side of a shutdown is not modelled.
- The wait of a Notify, Resolve or Reject command for its write result, and the version and home read from the initialize response.
- WebSocket, TLS, JSON and HTTP layers.
- Reducer facts that emit one event per call without touching the maps (skills, apps, hooks, plugins), and payload fields that no branch reads.
- Git lookups and SHA-1 hashing.
- Environment set-up and the lint driver in the wrapper script.

# paavo: the dispatch protocol, its log pipeline, and the algorithms beside them

paavo runs embedded tests on a fleet of boards. `paavod` takes uploaded tars, builds them in a fixed number of
build slots, runs the resulting ELF on a free board, and streams logs to viewers. This project models that
daemon and proves what it keeps.

**Dispatch protocol** (modules `Proto`, `Tables`, `SchedulerSpec`, `Protocol`, `Invariant`, `Theorems`,
`RowsBeyondSlots`, `DrainGap`, `Overtaking`, `Store`, `History`, `Rounds`, `DispatchLoop`). The database is a value;
every SQL statement or transaction is a function on it (`Tables`). One label of the transition system is one atomic
section of the source: a `db.lock()` scope, one registry call, one channel operation, or reading the drain flag. The
dispatcher keeps a program counter and its picks in hand between sections, and build tasks, run tasks, HTTP handlers,
quarantine, purge, drain and crash-plus-restart interleave with it at every section boundary. `Invariant` proves one
global invariant for every section; `Theorems` and `Overtaking` draw the safety results over all runs from it. `Store` and
`DispatchLoop` are the imperative side: the tables updated in place, and the loops and tasks of `dispatch.rs` as
straight-line methods with arbitrary steps of the other threads between any two sections (`Daemon.Interfere`). Each
section method appends exactly its label to the daemon's history, and `Valid()` says that the fields are the state
this history leads to. `Rounds` says in which order a thread's own sections must come, and every loop and task
ensures that what it added to the history has exactly that form, whatever the others added in between.

**Log pipeline** (`LogSink`, `Viewing`, `ViewerLog`, `CompleteLog`, `Sse`). A sink numbers, publishes and batches
frames; a viewer subscribes, reads history page by page and then follows the live channel, while the row is
finalized, cancelled or purged, reads fail, and other viewers come and go; the web proxy re-frames the body; the
client drops what it already has.

**Algorithms**: the scheduler's scans (`Scheduler`), the watchdog and worker pair over a clock (`Watchdog`, and
its two loops as methods in `RunThreads`), the build cache (`BuildCache`), the LIKE patterns (`LikePatterns`), the
stderr ring and UTF-8 cut (`StderrTail`), the failure counter as a fold over a board's history (`BoardHistory`), and
the run-cancel registry with the shutdown that uses it (`Cancellation`).

Where the code and its documentation differ, the model follows the code:

* `crates/paavo-core/src/scheduler.rs:6-10` calls the 200-row scan safe. It cuts off before starvation promotion,
  so with 201 waiting jobs the pick can pass over a starved one: `Scheduler.ScanLimitIsTight` gives the exact bound.
* `crates/paavod/src/log_sink.rs:40-43` speaks of a counter and clock shared by both phases. Dispatch makes new ones
  (`crates/paavod/src/dispatch.rs:227-228`, `310-317`), so the next phase continues after everything published only
  if the last flush of this one succeeded: `LogSink.HandoverIsCleanIff`, `ViewerLog.DirtyHandoverHides`.
* `crates/paavo-build/src/build.rs:404-405` expects a snapshot to lose one to three leading bytes. When exactly three
  bytes of a four-byte character are left in front, a replacement character appears instead:
  `StderrTail.SnapshotMeaning`. And a ring of capacity 0 is not bounded: `StderrTail.RingBoundedIff`.
* `crates/paavod/src/routes/jobs.rs:406-410` publishes nothing and drops no channel after an inline cancel, and
  viewers that arrive later are answered from the row (`521-546`). A viewer already tailing that job is let go only by
  another one that read the row before the cancel and re-checks it afterwards; without such a viewer it hangs for ever.
  `Viewing.ClosableIff` says exactly when a tail can end, `Viewing.CancelLeavesHanging` gives the run.
* `crates/paavod/src/shutdown.rs:88-91` takes an empty run registry for "all workers finished". A run that dispatch has
  claimed and not yet registered is Running and is not in it: `Theorems.EmptyRunRegistry` says that this is the only
  exception, `DrainGap.DrainCanOverlookRun` that it happens.
* `crates/paavod/src/dispatch.rs:172-176` sends the slot back before the row is finalized, so there can be more
  Building rows than slots: `RowsBeyondSlots.RowsBalance` says how many more, and `BuildingRowsBound` when not.
* `crates/paavo-runner/src/watchdog.rs:92-107` can stop a run for inactivity although a frame has just arrived and
  is not yet touched: `Watchdog.RunSoundness` bounds what is overlooked by one arrival, `Watchdog.OverlookedFrame`
  shows it can happen for any limits.
* A threshold of 0 does not quarantine a board with no failures: `BoardHistory.HealthyBelowThresholdIff`.

## Model

| member | source | states |
|---|---|---|
| Theorems.BoardExclusivity | crates/paavod/src/dispatch.rs:66-102 | in every reachable state no two Running rows share a board, and each has an existing board and an ELF, although pick and claim are separate lock sections |
| Theorems.SingleFlightBuilds | crates/paavod/src/dispatch.rs:113-139 | at most one row per tar is Building, and two tasks that still own their row never build the same tar |
| Theorems.SlotConservation | crates/paavod/src/dispatch.rs:39-45 | each slot 0..n-1 is exactly once in the channel, the dispatcher's hand or a build task, and no other slot exists |
| Theorems.BoundedBuilders | crates/paavod/src/dispatch.rs:160-176 | at most n tasks are inside `builder.build` |
| RowsBeyondSlots.RowsBalance | crates/paavod/src/dispatch.rs:172-176 | in every reachable state Building rows + free slots + a slot held for no row + tasks that advanced and still hold their slot = slots + tasks that sent their slot back and have not finalized their row |
| RowsBeyondSlots.BuildingRowsBound | crates/paavod/src/dispatch.rs:172-176 | at most one Building row beyond the slots per such late task, and no more rows than slots iff the late tasks do not outnumber the slots nobody builds with |
| RowsBeyondSlots.BuildingRowsCanExceedSlots | crates/paavod/src/dispatch.rs:172-176 | the bound is reached: a reachable state with one slot, one late task and two Building rows |
| Theorems.ReturningNeverBlocks | crates/paavod/src/dispatch.rs:134-137 | whoever is about to send a slot back finds room in the bounded channel |
| Theorems.WritesNeverMiss | crates/paavo-db/src/job.rs:545-616 | the advance, finalize and board updates of live tasks always hit their row; a claimed row is never handed over an existing task or registry entry |
| Theorems.DrainSafety | crates/paavod/src/dispatch.rs:46-53 | when the loop has returned both registries are empty, nothing is Running, and a Building row is held by a task past its unregister section with its outcome in hand |
| Theorems.RowsCoherent | crates/paavo-db/src/job.rs:593-616 | finished_at is set iff the state is terminal iff an outcome is stored, and the outcome matches the state |
| Theorems.CancelWindows | crates/paavod/src/routes/jobs.rs:406-425 | a Building row has no kill channel exactly between claim and registration or after unregistration; a Running row only between claim and registration |
| Theorems.ListeningWindow | crates/paavod/src/routes/jobs.rs:406-425 | a kill signal can be received only for a registered Building job; a Building row nobody listens for is between claim and registration, or its builder has already returned or panicked |
| Theorems.EmptyRunRegistry | crates/paavod/src/shutdown.rs:79-111 | with an empty run registry the rows still Running are exactly the one that dispatch has claimed and not yet registered |
| DrainGap.DrainCanOverlookRun | crates/paavod/src/shutdown.rs:88-91 | a reachable state with the drain flag up, an empty run registry and a Running row |
| Theorems.OnwardAlways | crates/paavo-db/src/job.rs:524-616 | over any run a row only moves forward through the stages, a terminal row is frozen until purged, and a purged id does not come back |
| Theorems.StepOnward | crates/paavo-db/src/job.rs:524-616 | the same for each single section |
| Theorems.CancelledInHand | crates/paavod/src/dispatch.rs:83-93 | a waiting job cancelled while in the dispatcher's hand stays aborted through any continuation, and the stale claim changes no table and gives up the stage |
| Invariant.StepKeepsInv | crates/paavod/src/dispatch.rs:34-412 | every atomic section by any thread keeps the global invariant |
| Invariant.DispatchKeepsInv | crates/paavod/src/dispatch.rs:46-149 | the dispatcher's sections keep it |
| Invariant.BuildKeepsInv | crates/paavod/src/dispatch.rs:160-308 | a build task's sections keep it, also after a panic |
| Invariant.RunKeepsInv | crates/paavod/src/dispatch.rs:310-389 | a run task's sections keep it |
| Invariant.OutsideKeepsInv | crates/paavod/src/routes/admin.rs:50-104 | submit, cancel, board administration, purge, log flushes and drain keep it |
| Invariant.RestartEstablishesInv | crates/paavod/src/main.rs:46-61 | from any crash point, the startup sweep alone re-establishes it |
| Invariant.RunKeepsInvariant | crates/paavod/src/dispatch.rs:34-412 | it holds after any run |
| Tables.RestartRecovery | crates/paavo-db/src/job.rs:629-682 | after the sweep no row is Building or Running, no other row changed, and each that was is aborted as interrupted now, with exactly one more frame, a warning stamped since its start and keyed last |
| Tables.RestartIdempotent | crates/paavo-db/src/job.rs:629-682 | a second sweep changes nothing |
| Tables.InsertFrameMeaning | crates/paavo-db/src/log.rs:43-65 | an insert is refused iff its (job, seq) key is taken, and otherwise adds exactly that row in key order |
| Tables.AppendBatchMeaning | crates/paavo-db/src/log.rs:43-65 | a committed batch adds exactly its rows, in key order |
| Tables.AppendAtEnd | crates/paavo-db/src/log.rs:43-65 | a batch that continues the keys is never refused and lands at the end |
| Tables.FlushFramesMeaning | crates/paavo-db/src/log.rs:43-65 | an empty flush commits, rows for an unknown job are refused, and otherwise exactly that job's log gets all rows or nothing changes |
| Tables.NextSeqMeaning | crates/paavo-db/src/job.rs:216-223 | the next key is 0 for an empty log and otherwise one more than the largest |
| Overtaking.BoundedOvertaking | crates/paavo-core/src/scheduler.rs:77-134 | in every run with later submissions: on picks at which a starved job could be taken with at most 200 rows waiting, whatever happens at the other picks, other jobs are claimed at most as often as there are jobs ahead of it, and never one submitted after it |
| Overtaking.AheadShrinks | crates/paavo-core/src/scheduler.rs:77-134 | the set of jobs that can precede it only shrinks |
| Overtaking.BuildPickAhead | crates/paavo-core/src/scheduler.rs:80-104 | a build pick made while a starved job is buildable is that job or one not submitted later |
| Overtaking.RunPickAhead | crates/paavo-core/src/scheduler.rs:109-134 | the same for run picks while it has an eligible board |
| Overtaking.StepKeepsHand | crates/paavod/src/dispatch.rs:66-149 | what a pick that found the job ripe left in hand stays a job not submitted later until it is claimed or given up |
| Overtaking.OvertakingPaid | crates/paavod/src/dispatch.rs:66-149 | each section pays for such an overtaking out of the jobs ahead; a section whose last pick did not find the job ripe owes nothing and never enlarges the set |
| DispatchLoop.OthersKeepOwn | crates/paavod/src/dispatch.rs:46-62 | no sequence of other threads' sections changes a thread's own control state |
| DispatchLoop.Daemon.constructor | crates/paavod/src/dispatch.rs:39-45 | a booted daemon has swept tables, a full slot channel and empty registries |
| DispatchLoop.Daemon.Yield | crates/paavod/src/dispatch.rs:160-190 | whatever the others did, the daemon stays in a reachable state, the thread where it was, and the sections it has performed are the same |
| DispatchLoop.Daemon.PickRunSection | crates/paavod/src/dispatch.rs:68-82 | the scan and sort make a legal run pick, kept in hand and added to the history as this one label |
| DispatchLoop.Daemon.ClaimRunLock | crates/paavod/src/dispatch.rs:85-95 | claim and board stamp are exactly the claim section; a claimed row is Running on that board, stamped with this time, and a lost claim changes no table and ends the stage |
| DispatchLoop.Daemon.RunRound | crates/paavod/src/dispatch.rs:66-102 | one round adds exactly pick, claim, register and spawn, or ends at an empty pick or a lost claim; which of the two is the answer |
| DispatchLoop.Daemon.RunStage | crates/paavod/src/dispatch.rs:66-102 | for every reading of the clock one full round (pick, claim, register, spawn), until a round ends the stage with an empty pick or a lost claim; exactly these are the dispatcher's sections, under any interference |
| DispatchLoop.Daemon.PickBuildSection | crates/paavod/src/dispatch.rs:114-126 | the scan makes a legal build pick, kept in hand and added to the history as this one label |
| DispatchLoop.Daemon.AcquireSlotSection | crates/paavod/src/dispatch.rs:127-130 | `try_recv` takes the oldest free slot and leaves the others, or ends the stage |
| DispatchLoop.Daemon.ClaimBuildLock | crates/paavod/src/dispatch.rs:131-138 | the claim section: the row is Building since this time, or nothing changed and the slot is left to give back |
| DispatchLoop.Daemon.BuildRound | crates/paavod/src/dispatch.rs:106-149 | one round adds exactly these sections, in this order |
| DispatchLoop.Daemon.BuildStage | crates/paavod/src/dispatch.rs:106-149 | the same with rounds of pick, acquire, claim, register and spawn; the last round ends at an empty pick, at no slot, or at a lost claim whose slot goes back |
| DispatchLoop.Daemon.AdvanceSection | crates/paavod/src/dispatch.rs:205-223 | the transition to AwaitingBoard at the end of either build path never fails |
| DispatchLoop.Daemon.BuildInner | crates/paavod/src/dispatch.rs:192-308 | for any cache, builder, copy and panic: a panic where the build passes is its infra error; a cached tar advances with the cached ELF unless the cache is skipped; otherwise the builder's failure, cancel or copied artifact decides; the row holds that ELF; and the sections are exactly those of the path |
| DispatchLoop.Daemon.FinalizeTerminalSection | crates/paavod/src/dispatch.rs:391-412 | the row takes the outcome and its state |
| DispatchLoop.Daemon.RunOneBuild | crates/paavod/src/dispatch.rs:160-190 | the same end, after the sections of its path then slot, registry entry and, if it did not advance, the row with that outcome; nothing of it stays behind |
| DispatchLoop.Daemon.FinalizeRunSection | crates/paavod/src/dispatch.rs:348-389 | the row takes the outcome and exactly that board is charged, in one lock scope |
| DispatchLoop.Daemon.RunOneRun | crates/paavod/src/dispatch.rs:310-346 | what the runner returned, or for a panic `InfraErr("dispatch")` with the probe not released, is what the first section reports and what the row keeps; then the registry entry goes, and no entry and no Running row remain |
| DispatchLoop.Daemon.CancelJob | crates/paavod/src/routes/jobs.rs:393-435 | 404 iff the id is unknown; a waiting job is aborted; for any other the answer is 204 exactly if its channel is registered when it is signalled and the receiver lives, and 409 otherwise; for a build that is exactly while it listens |
| DispatchLoop.Daemon.Submit | crates/paavod/src/routes/jobs.rs:54-265 | a job with a new id is Submitted, as one section of the protocol |
| DispatchLoop.Daemon.AddBoard | crates/paavod/src/routes/boards.rs:44-81 | succeeds iff the id is new, as one section |
| DispatchLoop.Daemon.QuarantineBoard | crates/paavod/src/routes/boards.rs:82-102 | succeeds iff the board exists, as one section |
| DispatchLoop.Daemon.UnquarantineBoard | crates/paavod/src/routes/boards.rs:103-118 | succeeds iff the board exists, as one section |
| DispatchLoop.Daemon.RemoveBoard | crates/paavod/src/routes/boards.rs:119-145 | only a quarantined board no job row references goes, as one section |
| DispatchLoop.Daemon.PurgeTables | crates/paavod/src/routes/admin.rs:50-104 | a purge that succeeds leaves no row, and no live build or run thread loses a row it still has to write |
| DispatchLoop.Daemon.FlushLog | crates/paavod/src/log_sink.rs:98-114 | a sink's flush is one section |
| DispatchLoop.Daemon.StartDraining | crates/paavod/src/shutdown.rs:79-86 | the flag is up before anything is waited for, as one section |
| DispatchLoop.Daemon.Tick | crates/paavod/src/dispatch.rs:46-62 | a pass is a drain check alone or with the run registry, or a run stage followed by a build stage, in that order; the loop returns only under drain, with nothing Running and every Building row's outcome in its build thread's hands |
| Store.Store.TransitionSubmittedToBuilding | crates/paavo-db/src/job.rs:524-541 | the guarded update, or an error and no change |
| Store.Store.TransitionBuildingToAwaitingBoard | crates/paavo-db/src/job.rs:545-562 | the guarded update, or an error and no change |
| Store.Store.TransitionAwaitingToRunning | crates/paavo-db/src/job.rs:566-583 | the guarded update with the board foreign key, or an error and no change |
| Store.Store.Finalize | crates/paavo-db/src/job.rs:593-616 | only a row that is not terminal takes an outcome |
| Store.Store.CancelIfPending | crates/paavo-core/src/cancel.rs:64-82 | only a waiting job is aborted; unknown ids and other states are told apart |
| Store.Store.InsertJob | crates/paavo-db/src/job.rs:104-132 | a new job starts Submitted with nothing else set |
| Store.Store.InsertBoard | crates/paavo-db/src/board.rs:28-57 | a new board starts with no failures, no reason and never used; a taken id is refused |
| Store.Store.TouchLastUsed | crates/paavo-db/src/board.rs:231-237 | stamps the board or reports it missing |
| Store.Store.Quarantine | crates/paavo-db/src/board.rs:264-271 | flips health and records the reason, leaving the counter |
| Store.Store.Unquarantine | crates/paavo-db/src/board.rs:276-283 | flips health back, clears reason and counter |
| Store.Store.Delete | crates/paavo-db/src/board.rs:295-350 | only a quarantined board that no job row references goes |
| Store.Store.Purge | crates/paavod/src/routes/admin.rs:55-104 | refused while anything is building, awaiting a board or running, and otherwise empties the job and log tables, with or without the boards |
| Store.Store.ApplyOutcomeToBoard | crates/paavo-core/src/quarantine.rs:37-71 | reset, or bump, re-read and quarantine at the threshold; true iff it quarantined |
| Tables.DecimalMeaning | crates/paavo-core/src/quarantine.rs:62-70 | the count in the quarantine reason is the decimal numeral of the counter |
| Store.Store.AppendBatch | crates/paavo-db/src/log.rs:43-65 | all rows of the batch or none |
| Store.Store.AbortInterruptedJobs | crates/paavo-db/src/job.rs:629-682 | the row-by-row loop is the specified sweep and returns the orphan count |
| Scheduler.ListByState | crates/paavo-db/src/job.rs:171-198 | the first rows, interactive before scheduled and then by submission time, none better left out |
| Scheduler.FindHealthyForSelector | crates/paavo-db/src/board.rs:185-216 | exactly the healthy boards of the kind, with the instance and wiring asked for, that no Running row has |
| Scheduler.EligibleIsMatches | crates/paavo-proto/src/board.rs:223-238 | the SQL's eligibility is `matches` plus healthy plus no running job |
| Scheduler.LruPick | crates/paavo-core/src/scheduler.rs:138-148 | a board never used if there is one, otherwise one whose last use is the earliest; among boards with the same last use the alphabetically first |
| Scheduler.LruLeMeaning | crates/paavo-core/src/scheduler.rs:138-148 | that order on the fields, in both directions |
| Scheduler.IdLeMeaning | crates/paavo-core/src/scheduler.rs:141-147 | ids: a prefix before its extensions, otherwise the smaller character at the first difference |
| Scheduler.PrecedesMeaning | crates/paavo-core/src/scheduler.rs:109-127 | promoted order on the fields: interactive or starved jobs first, then the earlier submission |
| Scheduler.LruLeAntisymmetric | crates/paavo-core/src/scheduler.rs:138-148 | that order leaves no ties between boards |
| Scheduler.PickBuildable | crates/paavo-core/src/scheduler.rs:80-104 | among the scanned rows whose tar no Building row has, one that goes first: interactive or starved before others, then the earlier submission; None iff there is no such row |
| Scheduler.PickRunnable | crates/paavo-core/src/scheduler.rs:109-134 | among the scanned rows that some board can take, one that goes first in the same order, with the board used first that can take it; None iff no scanned row and board fit |
| Scheduler.RunPickBest | crates/paavo-core/src/scheduler.rs:109-134 | with at most 200 waiting rows the run pick goes first among all of them that an eligible board can take, with the eligible board used first, and None iff no pair of job and eligible board exists |
| Scheduler.ScanLimitIsTight | crates/paavo-core/src/scheduler.rs:6-10 | the build pick is best among all waiting jobs for every table, clock and tie-break iff at most 200 wait |
| Scheduler.ListingComplete | crates/paavo-db/src/job.rs:171-198 | within the limit no waiting row is left out |
| BoardHistory.CounterIsHistory | crates/paavo-core/src/quarantine.rs:37-71 | the counter is the number of infra failures since the last other outcome, unquarantine or insertion; quarantined iff there is a reason |
| BoardHistory.HealthyBelowThresholdIff | crates/paavo-core/src/quarantine.rs:62-70 | every healthy board of every history is below the threshold iff the threshold is not 0 |
| Cancellation.CancellationRegistry.Register | crates/paavod/src/cancellation.rs:49-52 | a fresh open channel, other entries untouched |
| Cancellation.CancellationRegistry.TakeReceiver | crates/paavod/src/cancellation.rs:64-66 | the receiver is handed out once and is the one signals go to |
| Cancellation.CancellationRegistry.Unregister | crates/paavod/src/cancellation.rs:69-71 | the entry goes if there is one, the others stay |
| Cancellation.CancellationRegistry.Signal | crates/paavod/src/cancellation.rs:78-83 | true iff the command was put into a channel that can still be read, and into no other |
| Cancellation.CancellationRegistry.SignalAll | crates/paavod/src/cancellation.rs:88-92 | every reachable run gets the command once |
| Cancellation.Shutdown.DrainWithGrace | crates/paavod/src/shutdown.rs:79-111 | the drain flag is up; either no run is registered or, after the whole grace, every reachable one was told to shut down, last of all; cron is stopped afterwards in both cases |
| LogSink.AlwaysFlowing | crates/paavod/src/log_sink.rs:64-114 | through any phases, flushes and failures: table = base + kept frames in publishing order, published = kept or lost or pending in FIFO order, and table keys increase |
| LogSink.EventKeepsFlowing | crates/paavod/src/log_sink.rs:98-114 | each event keeps this, and no flush is ever refused for a taken key |
| LogSink.NothingLost | crates/paavod/src/dispatch.rs:226-267 | without a failed flush the persisted frames are the published ones, keyed without gaps across both phases |
| LogSink.HandoverIsCleanIff | crates/paavo-db/src/job.rs:216-223 | the next phase's keys exceed all published ones iff the last flush succeeded or nothing was published |
| LogSink.FrameSink.constructor | crates/paavod/src/log_sink.rs:44-60 | a sink starts with an empty batch at the given key |
| LogSink.FrameSink.Push | crates/paavod/src/log_sink.rs:64-80 | numbers, stamps and publishes the frame; flushes iff the batch is full or the interval has passed; fewer than 64 pending afterwards |
| LogSink.FrameSink.Tick | crates/paavod/src/log_sink.rs:85-89 | flushes a non-empty batch iff the interval has passed |
| LogSink.FrameSink.Finish | crates/paavod/src/log_sink.rs:92-96 | nothing stays pending |
| LogSink.FrameSink.FlushBatch | crates/paavod/src/log_sink.rs:98-114 | fails only if SQLite does or the job row is gone, and then drops the batch |
| ViewerLog.BoundedGap | crates/paavod/src/routes/jobs.rs:550-625 | a viewer's log is strictly increasing and invents nothing; without failed flushes, failing reads or lag it has every frame flushed by the last history query, which is never before its arrival, for viewers answered from the row too, and every frame between the subscription and the last event streamed: what is left is at most 64 frames, published and unflushed at the subscribe instant |
| ViewerLog.EveryLineRelayed | crates/paavod/src/routes/jobs.rs:597-625 | without faults a response is the beginning of the table, then every line streamed of what its channel delivered, phase changes included, and at most one line of its own |
| Viewing.SentReaches | crates/paavod/src/job_logs.rs:64-72 | a viewer on the broker's channel gets every frame, phase change and terminal event; any other gets nothing |
| Viewing.AnsweredFromRow | crates/paavod/src/routes/jobs.rs:667-725 | a viewer who finds the row terminal gets all of history, over however many pages, and then the stored outcome |
| ViewerLog.GapIsReal | crates/paavod/src/log_sink.rs:74-79 | such a frame can really be missing from the response and the rest of the channel |
| ViewerLog.DirtyHandoverHides | crates/paavod/src/dispatch.rs:310-317 | after a failed last flush a live client does not show the next phase's first frame |
| Viewing.ClosesOnceWithOutcome | crates/paavod/src/routes/jobs.rs:504-660 | without purges and failing reads a finished response ends with the stored outcome and has no other closing line, also when another viewer dropped the channel |
| Viewing.EndsClosed | crates/paavod/src/routes/jobs.rs:504-725 | whatever happens, purges and failing reads included: a finished response ends with the stored outcome or a truncation notice, and that is its only closing line iff no history query failed |
| Viewing.ClosableIff | crates/paavod/src/routes/jobs.rs:504-660 | over all runs a tail can still be closed iff the row is there and not terminal yet, a build or run thread finalized it, the channel is gone, or another viewer that found the row not terminal has still to re-check it |
| Viewing.CancelLeavesHanging | crates/paavod/src/routes/jobs.rs:393-435 | from any waiting job with a single viewer, an inline cancel after its re-check ends in a tail that no continuation closes |
| CompleteLog.CompleteWhenClosed | crates/paavod/src/dispatch.rs:226-267 | when rows become terminal only after their forwarder was joined, a response answered from the row shows the whole log, and one that followed the channel lacks at most what lies between the last history query and the subscription |
| ViewerLog.ClientOrdered | crates/paavo-web-ui/src/components/job_detail.rs:204-216 | whatever arrives, the client's log is strictly increasing and extends what it had |
| ViewerLog.ClientShows | crates/paavo-web-ui/src/components/job_detail.rs:204-216 | a frame newer than all before it is shown |
| ViewerLog.HistoricalLines | crates/paavod/src/routes/jobs.rs:694-725 | against any sequence of tables: what each query finds at its offset, up to the first page that is not full, or up to a failure, with a truncation notice |
| ViewerLog.PagesOfGrowing | crates/paavod/src/routes/jobs.rs:694-725 | while the table only grows, this is the whole table as of the last query, or its beginning |
| ViewerLog.DeletionSkips | crates/paavo-db/src/log.rs:92-112 | if rows before the offset are deleted between two queries, as many of the remaining rows are never read |
| Sse.NdjsonToSse | crates/paavo-web/src/proxy.rs:198-308 | the events are the batch meaning of the concatenated bytes and how the body ended: each message heard by its own event, frames tagged with their phase, less the trimmed ones, and a truncation notice if none closes |
| Sse.BatchReports | crates/paavo-web/src/proxy.rs:198-308 | what that batch meaning is, without the mapping used to compute it |
| Sse.EventsMeaning | crates/paavo-web/src/proxy.rs:221-285 | message by message: phase, frame, lag, outcome, cut-off and malformed line each become the event with their value, and a frame carries the phase announced last before it |
| Sse.TrimIsFilter | crates/paavo-web/src/proxy.rs:233-244 | with `since_seq` exactly the frame events up to that key are missing |
| Sse.OutcomeArrives | crates/paavo-web/src/proxy.rs:267-270 | the last event is `terminal` with an outcome iff the messages heard close with that outcome |
| Sse.LinesMeaning | crates/paavo-web/src/proxy.rs:214-220 | a body is its lines, each with its newline, and a rest that is not a line |
| Sse.ParsedMeaning | crates/paavo-web/src/proxy.rs:217-222 | one message a line, except that empty lines say nothing |
| Sse.ToCloseMeaning | crates/paavo-web/src/proxy.rs:267-285 | everything up to the first closing message is heard, and nothing after it |
| Sse.BodyMeaning | crates/paavo-web/src/proxy.rs:211-214 | the body is the chunks before the first transport error |
| Sse.DrainLines | crates/paavo-web/src/proxy.rs:217-284 | draining the buffer neither loses nor invents an event, whatever follows |
| Sse.CutAnywhere | crates/paavo-web/src/proxy.rs:214-218 | where the transport cuts the bytes makes no difference |
| Sse.ExactlyOneClosing | crates/paavo-web/src/proxy.rs:260-305 | every finite body yields exactly one closing event, last |
| Sse.FramingRoundTrip | crates/paavod/src/routes/jobs.rs:736-745 | newline-framed messages come out as the events of those messages, for any encoder and parser that agree on well-formed messages |
| Sse.LinesOfFramed | crates/paavod/src/routes/jobs.rs:730-745 | splitting undoes framing |
| Sse.TrimIsBandwidthOnly | crates/paavo-web/src/proxy.rs:233-244 | a client seeded up to `since_seq` shows the same log, and the same other events, with and without the trim |
| Sse.TrimInvisible | crates/paavo-web-ui/src/components/job_detail.rs:312-341 | the same for any messages |
| Watchdog.RunSoundness | crates/paavo-runner/src/worker.rs:44-203 | over all interleavings and clocks: one stop write, at most one late `next_event`, frames forwarded in order, timeouts report at least their limit, an inactivity stop has neither the start nor any touched arrival within the limit of the clock value it compared and overlooked at most one arrival, aborts were commanded, and Passed iff Bkpt after a `Test OK` info frame |
| Watchdog.WatchdogDecides | crates/paavo-runner/src/watchdog.rs:95-107 | a deserved stop happens: on the clock value read, Inactivity iff the last activity is more than that limit back, otherwise HardMax iff the start is, otherwise the watchdog goes on |
| Watchdog.CommandDecides | crates/paavo-runner/src/watchdog.rs:86-94 | a waiting command becomes the stop reason, the oldest one first |
| Watchdog.StopIsObeyed | crates/paavo-runner/src/worker.rs:122-126 | a decided stop is written, and the worker that sees it asks for no further event |
| Watchdog.StopIsTold | crates/paavo-runner/src/worker.rs:179-203 | the outcome of a stop is its limit with the whole milliseconds since the start, capped at 64 bits, or its commander |
| Watchdog.LimitsEnforced | crates/paavo-runner/src/watchdog.rs:81-108 | over all runs: while no stop is decided, the clock value last compared was within the hard limit of the start and within the inactivity limit of the last activity written by then |
| Watchdog.OutcomeIsTold | crates/paavo-runner/src/worker.rs:115-170 | over all runs: a session that ended with a breakpoint, panic, disconnect or I/O error returns exactly the outcome for that, and otherwise the stop or the failed attach does |
| Watchdog.TrimMeaning | crates/paavo-runner/src/worker.rs:131-139 | trimming takes white space from both ends, all of it and nothing else |
| Watchdog.OverlookedFrame | crates/paavo-runner/src/watchdog.rs:92-107 | for any limits there is a run stopped for inactivity although a frame arrived at the very instant the watchdog read the clock, because it was not touched yet |
| Watchdog.JoinIsBounded | crates/paavo-runner/src/watchdog.rs:81-107 | once the worker is done, at most four sections of the watchdog remain before it exits, and it is never stuck |
| Watchdog.StepKeepsRunOk | crates/paavo-runner/src/worker.rs:115-170 | every section of either thread keeps the invariant behind this |
| RunThreads.Session.RunWatchdog | crates/paavo-runner/src/watchdog.rs:73-108 | each turn adds exactly its four sections, or ends the loop at the done flag, a command or a limit; it returns only with a stop written or the worker done, and without returning neither limit was exceeded at the clock value of its last turn |
| RunThreads.Session.CompareSection | crates/paavo-runner/src/watchdog.rs:95-107 | the three cases of the comparison, silence before the total |
| RunThreads.Session.DriveSession | crates/paavo-runner/src/worker.rs:115-170 | each event adds exactly the sections of its kind, until a visible stop or an ending event; the result is the worker's |
| RunThreads.Session.HandleFrame | crates/paavo-runner/src/worker.rs:129-141 | touch, marker check and forward, in that order |
| RunThreads.Session.AttachSession | crates/paavo-runner/src/worker.rs:80-99 | a live session restarts the inactivity clock; a failed attach is an InfraErr |
| RunThreads.Session.RunJob | crates/paavo-runner/src/worker.rs:44-113 | attach, events, done signal and join, in this order and nothing else; a returned outcome is the one that the ending event, the stop or the failed attach tells, and all frames were forwarded |
| LikePatterns.EscapeLike | crates/paavo-db/src/like.rs:8-17 | the loop builds the escaped text |
| LikePatterns.SubsequencePattern | crates/paavo-db/src/like.rs:25-35 | the loop builds the compiled pattern |
| LikePatterns.SubsequencePatternMeaning | crates/paavo-db/src/like.rs:19-35 | a text matches the compiled pattern iff the query is a subsequence of it, for all strings |
| LikePatterns.SameMeaning | crates/paavo-db/src/like.rs:19-35 | characters match up to the case of ASCII letters only |
| LikePatterns.ContainsPatternMeaning | crates/paavo-db/src/board.rs:85-119 | a text matches `%` + escaped + `%` iff the query occurs in it literally, up to ASCII case |
| BuildCache.EvictionUnique | crates/paavo-db/src/build_cache.rs:142-169 | without ties the evicted list is determined by table and limit |
| BuildCache.TotalWithout | crates/paavo-db/src/build_cache.rs:90-105 | the size total does not depend on the order of summing |
| BuildCache.Cache.Upsert | crates/paavo-db/src/build_cache.rs:36-54 | `built_at` survives a refresh |
| BuildCache.Cache.CacheLookup | crates/paavo-core/src/build_cache.rs:41-54 | a hit iff row and file exist, and it is touched; a stale row is dropped |
| BuildCache.Cache.CacheStore | crates/paavo-core/src/build_cache.rs:60-85 | only a regular file is cached, under its size, and hits afterwards; other rows untouched |
| BuildCache.Cache.Stats | crates/paavo-db/src/build_cache.rs:90-105 | total and count of the table |
| BuildCache.Cache.EvictUntilUnder | crates/paavo-db/src/build_cache.rs:142-169 | what is left fits, nothing goes from a table that fits, evicted and survivors are the old table, no survivor is older than an evicted row, and every proper prefix of the evictions leaves too much |
| BuildCache.Cache.EvictLru | crates/paavo-core/src/build_cache.rs:93-99 | exactly the evicted rows' files go, and survivors still hit if they share no file with them |
| StderrTail.RingIsLast | crates/paavo-build/src/build.rs:423-435 | with capacity at least 1 the ring is the last bytes of the stream |
| StderrTail.RingBoundedIff | crates/paavo-build/src/build.rs:430-435 | the ring is bounded by its capacity iff that is not 0 |
| StderrTail.Tailer.PushLine | crates/paavo-build/src/build.rs:423-428 | feeds the line and a newline to the ring |
| StderrTail.TailOf | crates/paavo-build/src/build.rs:452-462 | the loop cuts at the first boundary from the size limit on |
| StderrTail.TailMeaning | crates/paavo-build/src/build.rs:449-462 | on UTF-8 the result is the longest suffix that fits and starts on a character, is UTF-8 again, and is at most three bytes short |
| StderrTail.CharIsEncoding | crates/paavo-build/src/build.rs:449-462 | what counts as a character is exactly the RFC 3629 encoding of a scalar value |
| StderrTail.EncodingIsChar | crates/paavo-build/src/build.rs:449-462 | and every such encoding counts |
| StderrTail.BrokenMeaning | crates/paavo-build/src/build.rs:437-446 | one replacement character stands for the longest beginning of a character, or for a single byte |
| StderrTail.SnapshotMeaning | crates/paavo-build/src/build.rs:437-446 | a snapshot is that suffix of the whole stream, with one replacement character in front iff three orphaned bytes were left |
| StderrTail.StreamUtf8 | crates/paavo-build/src/build.rs:423-428 | the stream of any text lines is UTF-8 |

## Left out

- DispatchLoop.Daemon.RunStage: new jobs can arrive for ever, so a stage is run for a given number of clock readings; the properties hold at every point of it.
- DispatchLoop.Daemon.BuildStage: for a given number of clock readings, as above.
- DispatchLoop.Daemon.Tick: one pass with given clock readings; the sleep between passes is not there.
- DispatchLoop.Daemon.CancelJob: whether the registered channel's receiver still lives is an input, pinned down for builds only, where the builder is taken to hold it until it returns; that a signal reaches the builder or the watchdog in time is not claimed.
- RunThreads.Session.DriveSession: the worker's loop is run for given events, so it can also be cut off before its end.
- RunThreads.Session.RunWatchdog: the watchdog's loop is run for a given number of turns.
- RunThreads.Session.RunJob: joining the watchdog is looking at it a given number of times; `Watchdog.JoinIsBounded` says that few are needed.
- ViewerLog.BoundedGap: assumes no failed flush or read, no purge and no broadcast lag (the 256-event capacity); a lagged viewer is told so but not modelled.
- CompleteLog.CompleteWhenClosed: assumes what holds unless a builder or runner panics, that a row becomes terminal only when its forwarder has finished.
- Viewing.EndsClosed: a terminal row without an outcome, which no operation writes, is not modelled, nor are the lag notices.
- ViewerLog.HistoricalLines: the saturation of the 32-bit offset is not modelled.
- LogSink.FrameSink.Push: the wrap-around of the 64-bit counter is not modelled.
- Store.Store.Purge: the build_cache table and the directories that a purge also clears are not part of these tables.
- DispatchLoop.Daemon.PurgeTables: the same.
- DispatchLoop.Daemon.Submit: the drain refusal, the upload, its checks and the board-selector test before the insert.
- DispatchLoop.Daemon.AddBoard: the health check and the probe selector's canonical form, either of which can refuse a board before the insert.
- DispatchLoop.Daemon.QuarantineBoard: the refusal of a blank reason before the update.
- Cancellation.Shutdown.DrainWithGrace: its registry is not the one of `Protocol`; `Theorems.EmptyRunRegistry` says what its emptiness means there.
- SQLite itself: each lock section is atomic, queries are selection loops over maps, and apart from failing log flushes no database error occurs.
- The legacy one-stage path (`pick_next`, `transition_to_building`, `transition_to_running`), which dispatch does not use and which would break exclusivity.
- Files the daemon keeps on disk (sandboxes, uploads, target directories, copied ELFs) and the filesystem half of purge.
- Timestamps across phases: each phase has its own clock, so `ts_us` is not monotone over a job.
- The probe session, cargo and its child process: arbitrary event source and arbitrary build result, including a panic.
- HTTP parsing, JSON, SSE formatting and the display timestamp: an abstract line parser and an abstract encoding on newline-free lines.
- The ranking function `fuzzy_score`, `to_lowercase` beyond ASCII, and NUL characters in LIKE operands.
- The command line's stream loops, which decode UTF-8 per chunk.
- Board list paging, dashboards and cron, and when retention runs: one-branch facts.

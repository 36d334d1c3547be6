/** The two-stage dispatch protocol as a labelled transition system.

    One label is one atomic section: a `db.lock()` scope, one registry call, one channel
    operation, or reading the drain flag. The dispatcher has a program counter and keeps its
    picks in hand between sections; build tasks, run tasks and HTTP handlers interleave freely. */
module Protocol {
  import opened Options
  import opened Proto
  import opened Tables
  import opened SchedulerSpec

  datatype Config = Config(slots: nat, starvationMs: int, infraThreshold: nat)

  /** Where the dispatch loop stands, with what it holds in its hands. */
  datatype Pc =
    | AtTop
    | AtDrainRuns                                   // the build registry was empty; the run registry comes next
    | AtPickRun
    | AtClaimRun(job: JobId, board: BoardId, now: int)
    | AtRegisterRun(job: JobId, board: BoardId)
    | AtSpawnRun(job: JobId, board: BoardId)
    | AtPickBuild
    | AtAcquireSlot(job: JobId, now: int)
    | AtClaimBuild(job: JobId, slot: nat, now: int)
    | AtReleaseSlot(slot: nat)
    | AtRegisterBuild(job: JobId, slot: nat)
    | AtSpawnBuild(job: JobId, slot: nat)
    | Exited

  /** What `build_inner` returned, or the outcome a panic was turned into. */
  datatype BuildEnd = Advanced | Terminal(outcome: JobOutcome)

  datatype BuildPc =
    | LookingUp
    | Hit(elf: string)
    | Calling                                       // inside `builder.build`, using the slot's target directory
    | Copying                                       // the builder succeeded; artifact copy, then store and advance
    | Returning(end: BuildEnd)                      // about to send the slot back
    | Unregistering(end: BuildEnd)
    | Finalizing(outcome: JobOutcome)

  datatype BuildTask = BuildTask(slot: nat, pc: BuildPc) {
    predicate HoldsSlot() { !pc.Unregistering? && !pc.Finalizing? }
    predicate Registered() { !pc.Finalizing? }
    /** The row is this task's to finish: it has not advanced it. */
    predicate OwnsRow() { !(pc.Returning? && pc.end.Advanced?) && !(pc.Unregistering? && pc.end.Advanced?) }
  }

  datatype RunPc = Active | Ending(outcome: JobOutcome, clean: bool) | Leaving
  datatype RunTask = RunTask(board: BoardId, pc: RunPc)

  datatype Sys = Sys(
    cfg: Config,
    db: Db,
    used: set<JobId>,               // every job id ever submitted; ULIDs do not repeat
    free: seq<nat>,                 // the slot channel
    buildCancel: set<JobId>,        // keys of BuildCancelRegistry
    cancellation: set<JobId>,       // keys of CancellationRegistry
    draining: bool,
    pc: Pc,
    builds: map<JobId, BuildTask>,  // live build tasks
    runs: map<JobId, RunTask>)      // live run tasks

  datatype BuilderResult = Built | BuildFailed(stderr: string) | BuildCancelled

  datatype DispatchStep =
    | ReadDrain
    | ReadRunRegistry
    | PickRun(rows: seq<JobRow>, placement: Option<Placement>, now: int)
    | ClaimRun
    | RegisterRun
    | SpawnRun
    | PickBuild(rows: seq<JobRow>, choice: Option<JobId>, now: int)
    | AcquireSlot
    | ClaimBuild
    | ReleaseSlot
    | RegisterBuild
    | SpawnBuild

  datatype BuildStep =
    | LookUp(hit: Option<string>)
    | AdvanceHit
    | BuilderReturns(result: BuilderResult)
    | CopyFails(message: string)
    | StoreAndAdvance(stable: string)
    | BuildPanics(message: string)
    | ReturnSlot
    | UnregisterBuild
    | FinalizeBuild(now: int)

  datatype RunStep =
    | RunnerReturns(outcome: JobOutcome, clean: bool)
    | FinalizeRun(now: int)
    | UnregisterRun

  datatype OutsideStep =
    | Submit(row: JobRow, now: int)
    | Cancel(job: JobId, now: int)
    | AddBoard(board: BoardRow)
    | QuarantineBoard(id: BoardId, reason: string)
    | UnquarantineBoard(id: BoardId)
    | RemoveBoard(id: BoardId)
    | PurgeTables(boards: bool)
    | FlushLog(job: JobId, batch: seq<LogFrame>)
    | StartDrain

  /** One atomic section, by whoever performs it. `Restart` is a crash at any point plus the startup sweep. */
  datatype Label =
    | Dispatch(d: DispatchStep)
    | Build(job: JobId, b: BuildStep)
    | Run(job: JobId, r: RunStep)
    | Outside(o: OutsideStep)
    | Restart(now: int)

  // ---- guards: a failed SQL statement is an outcome of its section, never a guard ----------

  ghost predicate DispatchEnabled(s: Sys, d: DispatchStep) {
    match d
    case ReadDrain => s.pc == AtTop
    case ReadRunRegistry => s.pc == AtDrainRuns
    case PickRun(rows, placement, now) =>
      s.pc == AtPickRun && Listing(s.db, AwaitingBoard, SCAN_LIMIT, rows)
      && RunPick(s.db, s.cfg.starvationMs, now, rows, placement)
    case ClaimRun => s.pc.AtClaimRun?
    case RegisterRun => s.pc.AtRegisterRun?
    case SpawnRun => s.pc.AtSpawnRun?
    case PickBuild(rows, choice, now) =>
      s.pc == AtPickBuild && Listing(s.db, Submitted, SCAN_LIMIT, rows)
      && BuildPick(s.db, s.cfg.starvationMs, now, rows, choice)
    case AcquireSlot => s.pc.AtAcquireSlot?
    case ClaimBuild => s.pc.AtClaimBuild?
    case ReleaseSlot => s.pc.AtReleaseSlot?
    case RegisterBuild => s.pc.AtRegisterBuild?
    case SpawnBuild => s.pc.AtSpawnBuild?
  }

  /** Only a job that allows the cache can hit it. */
  predicate BuildEnabled(s: Sys, j: JobId, b: BuildStep) {
    j in s.builds &&
    match b
    case LookUp(hit) => s.builds[j].pc.LookingUp? && (j in s.db.jobs && s.db.jobs[j].skipCache ==> hit == None)
    case AdvanceHit => s.builds[j].pc.Hit?
    case BuilderReturns(_) => s.builds[j].pc.Calling?
    case CopyFails(_) => s.builds[j].pc.Copying?
    case StoreAndAdvance(_) => s.builds[j].pc.Copying?
    case BuildPanics(_) =>
      s.builds[j].pc.LookingUp? || s.builds[j].pc.Hit? || s.builds[j].pc.Calling? || s.builds[j].pc.Copying?
    case ReturnSlot => s.builds[j].pc.Returning?
    case UnregisterBuild => s.builds[j].pc.Unregistering?
    case FinalizeBuild(_) => s.builds[j].pc.Finalizing?
  }

  predicate RunEnabled(s: Sys, j: JobId, r: RunStep) {
    j in s.runs &&
    match r
    case RunnerReturns(_, _) => s.runs[j].pc.Active?
    case FinalizeRun(_) => s.runs[j].pc.Ending?
    case UnregisterRun => s.runs[j].pc.Leaving?
  }

  /** Ids are ULIDs: a submit never reuses one. */
  predicate OutsideEnabled(s: Sys, o: OutsideStep) {
    o.Submit? ==> o.row.id !in s.used && o.row.submittedAt == o.now
  }

  ghost predicate Enabled(s: Sys, l: Label) {
    match l
    case Dispatch(d) => DispatchEnabled(s, d)
    case Build(j, b) => BuildEnabled(s, j, b)
    case Run(j, r) => RunEnabled(s, j, r)
    case Outside(o) => OutsideEnabled(s, o)
    case Restart(_) => true
  }

  // ---- effects ---------------------------------------------------------------

  /** An ignored error leaves the tables alone. */
  function Settle(db: Db, r: Result<Db, DbError>): Db { if r.Ok? then r.value else db }

  function ClaimRunSection(s: Sys): Sys
    requires s.pc.AtClaimRun?
  {
    var r := AwaitingToRunning(s.db, s.pc.job, s.pc.board);
    if r.Err? then s.(pc := AtPickBuild)
    else s.(db := Settle(r.value, TouchLastUsed(r.value, s.pc.board, s.pc.now)),
            pc := AtRegisterRun(s.pc.job, s.pc.board))
  }

  function ClaimBuildSection(s: Sys): Sys
    requires s.pc.AtClaimBuild?
  {
    var r := SubmittedToBuilding(s.db, s.pc.job, s.pc.now);
    if r.Err? then s.(pc := AtReleaseSlot(s.pc.slot))
    else s.(db := r.value, pc := AtRegisterBuild(s.pc.job, s.pc.slot))
  }

  function ApplyDispatch(s: Sys, d: DispatchStep): Sys
    requires DispatchEnabled(s, d)
  {
    match d
    case ReadDrain =>
      if !s.draining then s.(pc := AtPickRun)
      else if s.buildCancel == {} then s.(pc := AtDrainRuns)
      else s
    case ReadRunRegistry => s.(pc := if s.cancellation == {} then Exited else AtTop)
    case PickRun(_, placement, now) =>
      s.(pc := if placement.Some? then AtClaimRun(placement.value.job, placement.value.board, now) else AtPickBuild)
    case ClaimRun => ClaimRunSection(s)
    case RegisterRun =>
      s.(cancellation := s.cancellation + {s.pc.job}, pc := AtSpawnRun(s.pc.job, s.pc.board))
    case SpawnRun =>
      s.(runs := s.runs[s.pc.job := RunTask(s.pc.board, Active)], pc := AtPickRun)
    case PickBuild(_, choice, now) =>
      s.(pc := if choice.Some? then AtAcquireSlot(choice.value, now) else AtTop)
    case AcquireSlot =>
      if s.free == [] then s.(pc := AtTop)
      else s.(free := s.free[1..], pc := AtClaimBuild(s.pc.job, s.free[0], s.pc.now))
    case ClaimBuild => ClaimBuildSection(s)
    case ReleaseSlot => s.(free := s.free + [s.pc.slot], pc := AtTop)
    case RegisterBuild =>
      s.(buildCancel := s.buildCancel + {s.pc.job}, pc := AtSpawnBuild(s.pc.job, s.pc.slot))
    case SpawnBuild =>
      s.(builds := s.builds[s.pc.job := BuildTask(s.pc.slot, LookingUp)], pc := AtPickBuild)
  }

  function SetBuild(s: Sys, j: JobId, pc: BuildPc): Sys
    requires j in s.builds
  {
    s.(builds := s.builds[j := s.builds[j].(pc := pc)])
  }

  /** Both build paths end with the guarded `Building -> AwaitingBoard` update; its failure is an InfraErr. */
  function Advance(s: Sys, j: JobId, elf: string): Sys
    requires j in s.builds
  {
    var r := BuildingToAwaitingBoard(s.db, j, elf);
    SetBuild(s.(db := Settle(s.db, r)), j,
             Returning(if r.Ok? then Advanced else Terminal(Fail(InfraErr("transition_awaiting_board", "expected 'building'")))))
  }

  function ApplyBuild(s: Sys, j: JobId, b: BuildStep): Sys
    requires BuildEnabled(s, j, b)
  {
    match b
    case LookUp(hit) => SetBuild(s, j, if hit.Some? then Hit(hit.value) else Calling)
    case AdvanceHit => Advance(s, j, s.builds[j].pc.elf)
    case BuilderReturns(result) =>
      SetBuild(s, j, match result
                     case Built => Copying
                     case BuildFailed(e) => Returning(Terminal(Fail(BuildErr(e))))
                     case BuildCancelled => Returning(Terminal(Abort(User))))
    case CopyFails(m) => SetBuild(s, j, Returning(Terminal(Fail(InfraErr("artifact_copy", m)))))
    case StoreAndAdvance(stable) => Advance(s, j, stable)
    case BuildPanics(m) => SetBuild(s, j, Returning(Terminal(Fail(InfraErr("build_dispatch", m)))))
    case ReturnSlot =>
      SetBuild(s.(free := s.free + [s.builds[j].slot]), j, Unregistering(s.builds[j].pc.end))
    case UnregisterBuild =>
      var t := s.(buildCancel := s.buildCancel - {j});
      (match s.builds[j].pc.end
       case Advanced => t.(builds := t.builds - {j})
       case Terminal(o) => SetBuild(t, j, Finalizing(o)))
    case FinalizeBuild(now) =>
      s.(db := Settle(s.db, Finalize(s.db, j, s.builds[j].pc.outcome, now)), builds := s.builds - {j})
  }

  /** `finalize_run`: the row and the board's failure accounting in one lock scope. */
  function RecordRun(db: Db, j: JobId, t: RunTask, threshold: nat, now: int): Db
    requires t.pc.Ending?
  {
    var db1 := Settle(db, Finalize(db, j, t.pc.outcome, now));
    Settle(db1, ApplyOutcomeToBoard(db1, t.board, t.pc.outcome, t.pc.clean, threshold))
  }

  function ApplyRun(s: Sys, j: JobId, r: RunStep): Sys
    requires RunEnabled(s, j, r)
  {
    match r
    case RunnerReturns(o, clean) => s.(runs := s.runs[j := s.runs[j].(pc := Ending(o, clean))])
    case FinalizeRun(now) =>
      s.(db := RecordRun(s.db, j, s.runs[j], s.cfg.infraThreshold, now), runs := s.runs[j := s.runs[j].(pc := Leaving)])
    case UnregisterRun => s.(cancellation := s.cancellation - {j}, runs := s.runs - {j})
  }

  function OutsideDb(db: Db, o: OutsideStep): Db {
    match o
    case Submit(row, _) => Settle(db, InsertJob(db, row))
    case Cancel(j, now) => Settle(db, CancelIfPending(db, j, now))
    case AddBoard(b) => Settle(db, InsertBoard(db, b))
    case QuarantineBoard(b, reason) => Settle(db, Quarantine(db, b, reason))
    case UnquarantineBoard(b) => Settle(db, Unquarantine(db, b))
    case RemoveBoard(b) => Settle(db, DeleteBoard(db, b))
    case PurgeTables(boards) => Settle(db, Purge(db, boards))
    case FlushLog(j, batch) => Settle(db, FlushFrames(db, j, batch))
    case StartDrain => db
  }

  function ApplyOutside(s: Sys, o: OutsideStep): Sys {
    s.(db := OutsideDb(s.db, o),
       used := if o.Submit? then s.used + {o.row.id} else s.used,
       draining := s.draining || o.StartDrain?)
  }

  /** A daemon that has just started: every slot in the channel, empty registries, no task. */
  function Fresh(cfg: Config, db: Db, used: set<JobId>): Sys {
    Sys(cfg, db, used, seq(cfg.slots, (i: nat) => i), {}, {}, false, AtTop, map[], map[])
  }

  function Apply(s: Sys, l: Label): Sys
    requires Enabled(s, l)
  {
    match l
    case Dispatch(d) => ApplyDispatch(s, d)
    case Build(j, b) => ApplyBuild(s, j, b)
    case Run(j, r) => ApplyRun(s, j, r)
    case Outside(o) => ApplyOutside(s, o)
    case Restart(now) => Fresh(s.cfg, AbortInterrupted(s.db, now), s.used)
  }

  // ---- runs -------------------------------------------------------------------

  ghost predicate Legal(s: Sys, ls: seq<Label>)
    decreases |ls|
  {
    ls == [] || (Enabled(s, ls[0]) && Legal(Apply(s, ls[0]), ls[1..]))
  }

  ghost function After(s: Sys, ls: seq<Label>): Sys
    requires Legal(s, ls)
    decreases |ls|
  {
    if ls == [] then s else After(Apply(s, ls[0]), ls[1..])
  }
}

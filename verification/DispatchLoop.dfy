/** The dispatch code itself: straight-line sections over the shared state, with other threads running
    between any two of them, proved to perform only protocol sections, in the protocol's order. */
module DispatchLoop {
  import opened Options
  import opened Proto
  import opened Tables
  import opened SchedulerSpec
  import opened Protocol
  import opened Invariant
  import opened Theorems
  import opened Rounds
  import H = History
  import Sched = Scheduler
  import St = Store

  /** What a thread relies on: its own control state. */
  predicate OwnStateKept(s: Sys, t: Sys, me: Actor) {
    && t.cfg == s.cfg
    && match me
       case Dispatcher => t.pc == s.pc
       case BuildTaskOf(j) => j in s.builds ==> j in t.builds && t.builds[j] == s.builds[j]
       case RunTaskOf(j) => j in s.runs ==> j in t.runs && t.runs[j] == s.runs[j]
       case Handler => true
  }

  lemma StepKeepsConfig(s: Sys, l: Label)
    requires Enabled(s, l)
    ensures Apply(s, l).cfg == s.cfg
  {}

  lemma OneOtherKeepsPc(s: Sys, l: Label)
    requires Enabled(s, l) && !l.Dispatch? && !l.Restart?
    ensures Apply(s, l).pc == s.pc && Apply(s, l).cfg == s.cfg
  {}

  lemma OneOtherKeepsBuild(s: Sys, l: Label, j: JobId)
    requires BuildOwned(s, j) && j in s.builds
    requires Enabled(s, l) && !By(l, BuildTaskOf(j)) && !l.Restart?
    ensures Apply(s, l).cfg == s.cfg
    ensures j in Apply(s, l).builds && Apply(s, l).builds[j] == s.builds[j]
  {
    match l
    case Dispatch(d) => DispatcherKeepsBuild(s, d, j);
    case Build(i, b) => OtherBuildKeepsBuild(s, i, b, j);
    case _ =>
  }

  lemma DispatcherKeepsBuild(s: Sys, d: DispatchStep, j: JobId)
    requires BuildOwned(s, j) && j in s.builds && DispatchEnabled(s, d)
    ensures ApplyDispatch(s, d).cfg == s.cfg
    ensures j in ApplyDispatch(s, d).builds && ApplyDispatch(s, d).builds[j] == s.builds[j]
  {}

  lemma OtherBuildKeepsBuild(s: Sys, i: JobId, b: BuildStep, j: JobId)
    requires j in s.builds && i != j && BuildEnabled(s, i, b)
    ensures ApplyBuild(s, i, b).cfg == s.cfg
    ensures j in ApplyBuild(s, i, b).builds && ApplyBuild(s, i, b).builds[j] == s.builds[j]
  {}

  lemma OneOtherKeepsRun(s: Sys, l: Label, j: JobId)
    requires RunOwned(s, j) && j in s.runs
    requires Enabled(s, l) && !By(l, RunTaskOf(j)) && !l.Restart?
    ensures Apply(s, l).cfg == s.cfg
    ensures j in Apply(s, l).runs && Apply(s, l).runs[j] == s.runs[j]
  {
    match l
    case Dispatch(d) => DispatcherKeepsRun(s, d, j);
    case Build(i, b) =>
    case _ =>
  }

  lemma DispatcherKeepsRun(s: Sys, d: DispatchStep, j: JobId)
    requires RunOwned(s, j) && j in s.runs && DispatchEnabled(s, d)
    ensures ApplyDispatch(s, d).cfg == s.cfg
    ensures j in ApplyDispatch(s, d).runs && ApplyDispatch(s, d).runs[j] == s.runs[j]
  {}

  lemma OneOtherKeepsOwn(s: Sys, l: Label, me: Actor)
    requires Inv(s) && Enabled(s, l) && !By(l, me) && !l.Restart?
    ensures OwnStateKept(s, Apply(s, l), me)
  {
    match me
    case Dispatcher => OneOtherKeepsPc(s, l);
    case BuildTaskOf(j) =>
      assert BuildOwned(s, j);
      if j in s.builds { OneOtherKeepsBuild(s, l, j); }
    case RunTaskOf(j) =>
      assert RunOwned(s, j);
      if j in s.runs { OneOtherKeepsRun(s, l, j); }
    case Handler => StepKeepsConfig(s, l);
  }

  lemma {:induction false} OthersKeepOwn(s: Sys, ls: seq<Label>, me: Actor)
    requires Inv(s) && Legal(s, ls) && Others(ls, me)
    ensures OwnStateKept(s, After(s, ls), me)
    decreases |ls|
  {
    if ls != [] {
      OneOtherKeepsOwn(s, ls[0], me);
      StepKeepsInv(s, ls[0]);
      OthersKeepOwn(Apply(s, ls[0]), ls[1..], me);
    }
  }

  // ---- the shared state --------------------------------------------------------------

  datatype CancelAnswer = Cancelled | NoSuchJob | Signalled(state: JobState) | NotCancellable(state: JobState)

  class Daemon {
    const cfg: Config
    const store: St.Store
    var free: seq<nat>                 // the slot channel
    var buildCancel: set<JobId>
    var cancellation: set<JobId>
    var draining: bool
    ghost var boot: Sys                // where this process started
    ghost var trace: seq<Label>        // every section performed since, by any thread

    ghost function S(): Sys
      requires Legal(boot, trace)
      reads this
    {
      After(boot, trace)
    }

    /** The fields are those of the protocol state the trace leads to. */
    ghost predicate Valid()
      reads this, store
      ensures Valid() ==> Legal(boot, trace)
    {
      && Booted(boot) && Legal(boot, trace) && Inv(S())
      && S().cfg == cfg && S().db == store.Db() && S().free == free
      && S().buildCancel == buildCancel && S().cancellation == cancellation && S().draining == draining
    }

    /** A booted process: the startup sweep has run on the store it is given. */
    constructor (cfg: Config, db: Db, ghost used: set<JobId>, now: int)
      requires WellFormed(Fresh(cfg, db, used))
      ensures Valid() && S().pc == AtTop && S() == Fresh(cfg, AbortInterrupted(db, now), used)
      ensures fresh(store)
    {
      var s := new St.Store(db);
      var n := s.AbortInterruptedJobs(now);
      this.cfg := cfg;
      store := s;
      free := seq(cfg.slots, (i: nat) => i);
      buildCancel, cancellation, draining := {}, {}, false;
      boot := Fresh(cfg, AbortInterrupted(db, now), used);
      trace := [];
      new;
      RestartEstablishesInv(Fresh(cfg, db, used), now);
      assert Booted(boot);
    }

    /** A section of this thread is appended to the history. */
    ghost method Record(l: Label)
      requires Legal(boot, trace) && Inv(S()) && Enabled(S(), l)
      modifies this`trace
      ensures Legal(boot, trace) && S() == Apply(old(S()), l) && Inv(S())
      ensures trace == old(trace) + [l]
    {
      Resume(boot, trace, [l]);
      assert [l][1..] == [];
      StepKeepsInv(S(), l);
      trace := trace + [l];
    }

    /** Between two sections every other thread may have performed any number of its own. */
    method Interfere(ghost me: Actor)
      requires Valid()
      modifies this, store
      ensures Valid() && boot == old(boot)
      ensures old(trace) <= trace && Others(trace[|old(trace)|..], me)
    {}

    /** Letting the others go first costs this thread nothing it relies on, and adds nothing to what it has done. */
    method Yield(ghost me: Actor, ghost since: seq<Label>, ghost own: seq<Label>)
      requires Valid() && Performs(since, trace, me, own)
      modifies this, store
      ensures Valid() && boot == old(boot) && OwnStateKept(old(S()), S(), me)
      ensures Performs(since, trace, me, own) && old(trace) <= trace
    {
      ghost var before := trace;
      Interfere(me);
      assert trace == before + trace[|before|..];
      Resume(boot, before, trace[|before|..]);
      OthersKeepOwn(After(boot, before), trace[|before|..], me);
      OthersPerformNothing(before, trace[|before|..], me);
      PerformsBoth(since, before, trace, me, own, []);
      assert own + [] == own;
    }

    ghost method DidBuild(j: JobId, since: seq<Label>, own: seq<Label>, before: seq<Label>, b: BuildStep) returns (more: seq<Label>)
      requires Performs(since, before, BuildTaskOf(j), own) && trace == before + [Build(j, b)]
      ensures more == own + [Build(j, b)] && Performs(since, trace, BuildTaskOf(j), more)
    {
      more := Did(BuildTaskOf(j), since, own, before, Build(j, b));
    }

    method YieldDispatcher(ghost since: seq<Label>, ghost own: seq<Label>)
      requires Valid() && Performs(since, trace, Dispatcher, own)
      modifies this, store
      ensures Valid() && boot == old(boot) && Performs(since, trace, Dispatcher, own) && S().pc == old(S().pc)
    {
      Yield(Dispatcher, since, own);
    }

    method YieldBuild(j: JobId, ghost slot: nat, ghost pc: BuildPc, ghost since: seq<Label>, ghost own: seq<Label>)
      requires Valid() && Performs(since, trace, BuildTaskOf(j), own) && BuildAt(j, slot, pc)
      modifies this, store
      ensures Valid() && boot == old(boot) && Performs(since, trace, BuildTaskOf(j), own) && BuildAt(j, slot, pc)
    {
      Yield(BuildTaskOf(j), since, own);
    }

    method YieldRun(j: JobId, ghost board: BoardId, ghost pc: RunPc, ghost since: seq<Label>, ghost own: seq<Label>)
      requires Valid() && Performs(since, trace, RunTaskOf(j), own) && RunAt(j, board, pc)
      modifies this, store
      ensures Valid() && boot == old(boot) && Performs(since, trace, RunTaskOf(j), own) && RunAt(j, board, pc)
      ensures j in store.jobs && j in old(store.jobs) && old(store.jobs)[j].outcome.Some? ==> store.jobs[j] == old(store.jobs)[j]
    {
      ghost var before := trace;
      StoredStays(j);
      Yield(RunTaskOf(j), since, own);
      hide Booted, Performs;
      assert trace == before + trace[|before|..];
      Resume(boot, before, trace[|before|..]);
      OnwardAlways(After(boot, before), trace[|before|..], j);
    }

    /** A row with an outcome is one that nothing changes any more. */
    lemma StoredStays(j: JobId)
      requires Valid() && j in S().runs
      ensures j in S().used && (j in store.jobs && store.jobs[j].outcome.Some? ==> store.jobs[j].state.IsTerminal())
    {
      assert RowOk(S(), j) && RunOwned(S(), j);
    }

    /** One more section of this thread. */
    ghost method Did(me: Actor, since: seq<Label>, own: seq<Label>, before: seq<Label>, l: Label) returns (more: seq<Label>)
      requires Performs(since, before, me, own) && trace == before + [l] && By(l, me)
      ensures more == own + [l] && Performs(since, trace, me, more)
    {
      PerformsOne(before, l, me);
      PerformsBoth(since, before, trace, me, own, [l]);
      more := own + [l];
    }

    // ---- run stage ---------------------------------------------------------------------

    method PickRunSection(now: int) returns (pick: Option<Placement>, ghost l: Label)
      requires Valid() && S().pc == AtPickRun
      modifies this`trace
      ensures Valid() && boot == old(boot)
      ensures S().pc == if pick.Some? then AtClaimRun(pick.value.job, pick.value.board, now) else AtPickBuild
      ensures trace == old(trace) + [l] && PicksAt(l, OfRuns, now) && l.d.placement == pick
    {
      hide Booted, Legal, After, Inv, Sched.BestRun, Sched.Runnable, Sched.Sooner, RunChoice, JobLe;
      KeyedStore();
      var rows := Sched.ListByState(store.Db(), AwaitingBoard, SCAN_LIMIT);
      pick := Sched.PickRunnable(store.Db(), rows, cfg.starvationMs, now);
      l := Dispatch(PickRun(rows, pick, now));
      Record(l);
    }

    lemma KeyedStore()
      requires Valid()
      ensures Sched.Keyed(store.Db())
    {
      forall j | j in store.jobs ensures store.jobs[j].id == j { assert RowOk(S(), j); }
      forall b | b in store.boards ensures store.boards[b].id == b { assert BoardOk(S(), b); }
    }

    /** Claim, and on success stamp the board: one lock scope. */
    method ClaimRunLock(job: JobId, board: BoardId, now: int) returns (ok: bool)
      requires Valid() && S().pc == AtClaimRun(job, board, now)
      modifies this`trace, store
      ensures Valid() && boot == old(boot)
      ensures S().pc == if ok then AtRegisterRun(job, board) else AtPickBuild
      ensures trace == old(trace) + [Dispatch(ClaimRun)]
      ensures if ok then
                && job in store.jobs && store.jobs[job].state == Running && store.jobs[job].boardId == Some(board)
                && board in store.boards && store.boards[board].lastUsedAt == Some(now)
              else store.jobs == old(store.jobs) && store.boards == old(store.boards)
    {
      hide Booted, Legal, After, Inv;
      var r := store.TransitionAwaitingToRunning(job, board);
      if r.Ok? { var _ := store.TouchLastUsed(board, now); }
      Record(Dispatch(ClaimRun));
      return r.Ok?;
    }

    method RegisterRunSection(job: JobId, board: BoardId)
      requires Valid() && S().pc == AtRegisterRun(job, board)
      modifies this
      ensures Valid() && boot == old(boot) && S().pc == AtSpawnRun(job, board)
      ensures trace == old(trace) + [Dispatch(RegisterRun)]
    {
      hide Booted, Legal, After, Inv;
      cancellation := cancellation + {job};
      Record(Dispatch(RegisterRun));
    }

    method SpawnRunSection(job: JobId, board: BoardId)
      requires Valid() && S().pc == AtSpawnRun(job, board)
      modifies this`trace
      ensures Valid() && boot == old(boot) && S().pc == AtPickRun
      ensures trace == old(trace) + [Dispatch(SpawnRun)]
    {
      hide Booted, Legal, After, Inv;
      Record(Dispatch(SpawnRun));
    }

    /** One round of `run_stage`; says whether it spawned a task, so that there is another. */
    method RunRound(now: int) returns (went: bool, ghost own: seq<Label>)
      requires Valid() && S().pc == AtPickRun
      modifies this, store
      ensures Valid() && boot == old(boot) && Performs(old(trace), trace, Dispatcher, own)
      ensures S().pc == if went then AtPickRun else AtPickBuild
      ensures if went then FullRound(OfRuns, now, own) else LastRound(OfRuns, now, own)
    {
      hide Inv, Legal, After, Booted, Performs;
      ghost var since, t := trace, trace;
      own := [];
      StartsWithNothing(since, Dispatcher);
      YieldDispatcher(since, own);
      t := trace;
      var pick;
      ghost var l;
      pick, l := PickRunSection(now);
      own := Did(Dispatcher, since, own, t, l);
      if pick.None? { return false, own; }
      went, own := RunClaim(pick.value.job, pick.value.board, now, since, own);
    }

    /** The rest of the round, from the claim on. */
    method RunClaim(job: JobId, board: BoardId, now: int, ghost since: seq<Label>, ghost own0: seq<Label>)
      returns (went: bool, ghost own: seq<Label>)
      requires Valid() && S().pc == AtClaimRun(job, board, now) && Performs(since, trace, Dispatcher, own0)
      modifies this, store
      ensures Valid() && boot == old(boot) && Performs(since, trace, Dispatcher, own)
      ensures S().pc == if went then AtPickRun else AtPickBuild
      ensures went ==> own == own0 + [Dispatch(ClaimRun), Dispatch(RegisterRun), Dispatch(SpawnRun)]
      ensures !went ==> own == own0 + [Dispatch(ClaimRun)]
    {
      hide *;
      own := own0;
      YieldDispatcher(since, own);
      ghost var t := trace;
      var claimed := ClaimRunLock(job, board, now);
      own := Did(Dispatcher, since, own, t, Dispatch(ClaimRun));
      if !claimed { return false, own; }
      YieldDispatcher(since, own);
      t := trace;
      RegisterRunSection(job, board);
      own := Did(Dispatcher, since, own, t, Dispatch(RegisterRun));
      YieldDispatcher(since, own);
      t := trace;
      SpawnRunSection(job, board);
      own := Did(Dispatcher, since, own, t, Dispatch(SpawnRun));
      went := true;
    }

    /** `run_stage`. New jobs may arrive for ever, so the rounds are limited to the given readings of the clock:
        without coming to an end the stage performs a full round for each of them. */
    method RunStage(clock: seq<int>) returns (done: bool, ghost rounds: seq<seq<Label>>)
      requires Valid() && S().pc == AtPickRun
      modifies this, store
      ensures Valid() && boot == old(boot) && Performs(old(trace), trace, Dispatcher, H.Flat(rounds))
      ensures S().pc == if done then AtPickBuild else AtPickRun
      ensures StageRounds(OfRuns, clock, rounds, done)
    {
      hide Inv, Legal, After, Booted, FullRound, LastRound;
      ghost var since := trace;
      rounds := [];
      StartsWithNothing(since, Dispatcher);
      for n := 0 to |clock|
        invariant Valid() && boot == old(boot) && S().pc == AtPickRun
        invariant Performs(since, trace, Dispatcher, H.Flat(rounds)) && StageRounds(OfRuns, clock[..n], rounds, false)
      {
        ghost var t := trace;
        var went;
        ghost var own;
        went, own := RunRound(clock[n]);
        PerformsBoth(since, t, trace, Dispatcher, H.Flat(rounds), own);
        H.FlatMore(rounds, own);
        assert clock[..n + 1] == clock[..n] + [clock[n]];
        rounds := rounds + [own];
        if !went { return true, rounds; }
      }
      assert clock[..|clock|] == clock;
      done := false;
    }

    // ---- build stage -------------------------------------------------------------------

    method PickBuildSection(now: int) returns (pick: Option<JobRow>, ghost l: Label)
      requires Valid() && S().pc == AtPickBuild
      modifies this`trace
      ensures Valid() && boot == old(boot)
      ensures S().pc == if pick.Some? then AtAcquireSlot(pick.value.id, now) else AtTop
      ensures trace == old(trace) + [l] && PicksAt(l, OfBuilds, now)
      ensures l.d.choice == if pick.Some? then Some(pick.value.id) else None
    {
      hide Booted, Legal, After, Inv, Sched.FirstFree, Sched.TarBuilding, Sched.Sooner, BuildChoice, JobLe, Sched.CameFrom;
      KeyedStore();
      var rows := Sched.ListByState(store.Db(), Submitted, SCAN_LIMIT);
      pick := Sched.PickBuildable(store.Db(), rows, cfg.starvationMs, now);
      l := Dispatch(PickBuild(rows, if pick.Some? then Some(pick.value.id) else None, now));
      Record(l);
    }

    /** `slot_rx.try_recv()`. */
    method AcquireSlotSection(job: JobId, now: int) returns (slot: Option<nat>)
      requires Valid() && S().pc == AtAcquireSlot(job, now)
      modifies this
      ensures Valid() && boot == old(boot)
      ensures S().pc == if slot.Some? then AtClaimBuild(job, slot.value, now) else AtTop
      ensures if slot.Some? then old(free) == [slot.value] + free else old(free) == [] && free == []
      ensures trace == old(trace) + [Dispatch(AcquireSlot)]
    {
      hide Booted, Legal, After, Inv;
      if free == [] {
        slot := None;
      } else {
        slot := Some(free[0]);
        free := free[1..];
      }
      Record(Dispatch(AcquireSlot));
    }

    method ClaimBuildLock(job: JobId, slot: nat, now: int) returns (ok: bool)
      requires Valid() && S().pc == AtClaimBuild(job, slot, now)
      modifies this`trace, store
      ensures Valid() && boot == old(boot)
      ensures S().pc == if ok then AtRegisterBuild(job, slot) else AtReleaseSlot(slot)
      ensures trace == old(trace) + [Dispatch(ClaimBuild)]
      ensures if ok then job in store.jobs && store.jobs[job].state == Building && store.jobs[job].startedAt == Some(now)
              else store.jobs == old(store.jobs)
    {
      hide Booted, Legal, After, Inv;
      var r := store.TransitionSubmittedToBuilding(job, now);
      Record(Dispatch(ClaimBuild));
      return r.Ok?;
    }

    method ReleaseSlotSection(slot: nat)
      requires Valid() && S().pc == AtReleaseSlot(slot)
      modifies this
      ensures Valid() && boot == old(boot) && S().pc == AtTop
      ensures trace == old(trace) + [Dispatch(ReleaseSlot)] && free == old(free) + [slot]
    {
      hide Booted, Legal, After, Inv;
      free := free + [slot];
      Record(Dispatch(ReleaseSlot));
    }

    method RegisterBuildSection(job: JobId, slot: nat)
      requires Valid() && S().pc == AtRegisterBuild(job, slot)
      modifies this
      ensures Valid() && boot == old(boot) && S().pc == AtSpawnBuild(job, slot)
      ensures trace == old(trace) + [Dispatch(RegisterBuild)]
    {
      hide Booted, Legal, After, Inv;
      buildCancel := buildCancel + {job};
      Record(Dispatch(RegisterBuild));
    }

    method SpawnBuildSection(job: JobId, slot: nat)
      requires Valid() && S().pc == AtSpawnBuild(job, slot)
      modifies this`trace
      ensures Valid() && boot == old(boot) && S().pc == AtPickBuild
      ensures trace == old(trace) + [Dispatch(SpawnBuild)]
    {
      hide Booted, Legal, After, Inv;
      Record(Dispatch(SpawnBuild));
    }

    /** One round of `build_stage`; says whether it spawned a task, so that there is another. */
    method BuildRound(now: int) returns (went: bool, ghost own: seq<Label>)
      requires Valid() && S().pc == AtPickBuild
      modifies this, store
      ensures Valid() && boot == old(boot) && Performs(old(trace), trace, Dispatcher, own)
      ensures S().pc == if went then AtPickBuild else AtTop
      ensures if went then FullRound(OfBuilds, now, own) else LastRound(OfBuilds, now, own)
    {
      hide Inv, Legal, After, Booted, Performs;
      ghost var since, t := trace, trace;
      own := [];
      StartsWithNothing(since, Dispatcher);
      YieldDispatcher(since, own);
      t := trace;
      var job;
      ghost var l;
      job, l := PickBuildSection(now);
      own := Did(Dispatcher, since, own, t, l);
      if job.None? { return false, own; }
      went, own := BuildAcquire(job.value.id, now, since, own);
    }

    /** The rest of the round, from the slot on. */
    method BuildAcquire(job: JobId, now: int, ghost since: seq<Label>, ghost own0: seq<Label>)
      returns (went: bool, ghost own: seq<Label>)
      requires Valid() && S().pc == AtAcquireSlot(job, now) && Performs(since, trace, Dispatcher, own0)
      modifies this, store
      ensures Valid() && boot == old(boot) && Performs(since, trace, Dispatcher, own)
      ensures S().pc == if went then AtPickBuild else AtTop
      ensures went ==> own == own0 + [Dispatch(AcquireSlot), Dispatch(ClaimBuild), Dispatch(RegisterBuild), Dispatch(SpawnBuild)]
      ensures !went ==> own == own0 + [Dispatch(AcquireSlot)]
                        || own == own0 + [Dispatch(AcquireSlot), Dispatch(ClaimBuild), Dispatch(ReleaseSlot)]
    {
      hide *;
      own := own0;
      YieldDispatcher(since, own);
      ghost var t := trace;
      var slot := AcquireSlotSection(job, now);
      own := Did(Dispatcher, since, own, t, Dispatch(AcquireSlot));
      if slot.None? { return false, own; }
      went, own := BuildClaimed(job, slot.value, now, since, own);
    }

    /** The rest of the round, from the claim on. */
    method BuildClaimed(job: JobId, slot: nat, now: int, ghost since: seq<Label>, ghost own0: seq<Label>)
      returns (went: bool, ghost own: seq<Label>)
      requires Valid() && S().pc == AtClaimBuild(job, slot, now) && Performs(since, trace, Dispatcher, own0)
      modifies this, store
      ensures Valid() && boot == old(boot) && Performs(since, trace, Dispatcher, own)
      ensures S().pc == if went then AtPickBuild else AtTop
      ensures went ==> own == own0 + [Dispatch(ClaimBuild), Dispatch(RegisterBuild), Dispatch(SpawnBuild)]
      ensures !went ==> own == own0 + [Dispatch(ClaimBuild), Dispatch(ReleaseSlot)]
    {
      hide *;
      ghost var t := trace;
      own := own0;
      YieldDispatcher(since, own);
      t := trace;
      var claimed := ClaimBuildLock(job, slot, now);
      own := Did(Dispatcher, since, own, t, Dispatch(ClaimBuild));
      YieldDispatcher(since, own);
      t := trace;
      if !claimed {
        ReleaseSlotSection(slot);
        own := Did(Dispatcher, since, own, t, Dispatch(ReleaseSlot));
        return false, own;
      }
      RegisterBuildSection(job, slot);
      own := Did(Dispatcher, since, own, t, Dispatch(RegisterBuild));
      YieldDispatcher(since, own);
      t := trace;
      SpawnBuildSection(job, slot);
      own := Did(Dispatcher, since, own, t, Dispatch(SpawnBuild));
      went := true;
    }

    /** `build_stage`, for the given readings of the clock. */
    method BuildStage(clock: seq<int>) returns (done: bool, ghost rounds: seq<seq<Label>>)
      requires Valid() && S().pc == AtPickBuild
      modifies this, store
      ensures Valid() && boot == old(boot) && Performs(old(trace), trace, Dispatcher, H.Flat(rounds))
      ensures S().pc == if done then AtTop else AtPickBuild
      ensures StageRounds(OfBuilds, clock, rounds, done)
    {
      hide Inv, Legal, After, Booted, FullRound, LastRound;
      ghost var since := trace;
      rounds := [];
      StartsWithNothing(since, Dispatcher);
      for n := 0 to |clock|
        invariant Valid() && boot == old(boot) && S().pc == AtPickBuild
        invariant Performs(since, trace, Dispatcher, H.Flat(rounds)) && StageRounds(OfBuilds, clock[..n], rounds, false)
      {
        ghost var t := trace;
        var went;
        ghost var own;
        went, own := BuildRound(clock[n]);
        PerformsBoth(since, t, trace, Dispatcher, H.Flat(rounds), own);
        H.FlatMore(rounds, own);
        assert clock[..n + 1] == clock[..n] + [clock[n]];
        rounds := rounds + [own];
        if !went { return true, rounds; }
      }
      assert clock[..|clock|] == clock;
      done := false;
    }

    // ---- build task ----------------------------------------------------------------------

    /** Task j is alive and stands at pc, holding its slot. */
    ghost predicate BuildAt(j: JobId, slot: nat, pc: BuildPc)
      requires Valid()
      reads this, store
    {
      j in S().builds && S().builds[j] == BuildTask(slot, pc)
    }

    /** The cache lookup, if the job allows it. */
    method LookUpSection(j: JobId, ghost slot: nat, hit: Option<string>, ghost since: seq<Label>) returns (ghost own: seq<Label>)
      requires Valid() && BuildAt(j, slot, LookingUp) && Performs(since, trace, BuildTaskOf(j), [])
      requires j in store.jobs && store.jobs[j].skipCache ==> hit == None
      modifies this`trace
      ensures Valid() && boot == old(boot) && Performs(since, trace, BuildTaskOf(j), own) && own == [Build(j, LookUp(hit))]
      ensures BuildAt(j, slot, if hit.Some? then Hit(hit.value) else Calling)
    {
      hide Performs, Booted, Legal, After, Inv;
      ghost var t := trace;
      Record(Build(j, LookUp(hit)));
      own := Did(BuildTaskOf(j), since, [], t, Build(j, LookUp(hit)));
    }

    /** `transition_building_to_awaiting_board`, at the end of both paths. */
    method AdvanceSection(j: JobId, ghost slot: nat, elf: string, ghost b: BuildStep, ghost since: seq<Label>, ghost own0: seq<Label>)
      returns (ghost own: seq<Label>)
      requires Valid() && (if b.AdvanceHit? then BuildAt(j, slot, Hit(elf)) else b == StoreAndAdvance(elf) && BuildAt(j, slot, Copying))
      requires Performs(since, trace, BuildTaskOf(j), own0)
      modifies this`trace, store
      ensures Valid() && boot == old(boot) && Performs(since, trace, BuildTaskOf(j), own) && own == own0 + [Build(j, b)]
      ensures BuildAt(j, slot, Returning(Advanced))
      ensures j in store.jobs && store.jobs[j].state == AwaitingBoard && store.jobs[j].elfPath == Some(elf)
    {
      hide Performs, Booted, Legal, After;
      assert BuildOwned(S(), j);
      ghost var t := trace;
      var r := store.TransitionBuildingToAwaitingBoard(j, elf);
      Record(Build(j, b));
      own := Did(BuildTaskOf(j), since, own0, t, Build(j, b));
    }

    /** The builder has returned. */
    ghost method BuilderReturnsSection(j: JobId, slot: nat, result: BuilderResult, since: seq<Label>, own0: seq<Label>)
      returns (own: seq<Label>)
      requires Valid() && BuildAt(j, slot, Calling) && Performs(since, trace, BuildTaskOf(j), own0)
      modifies this`trace
      ensures Valid() && boot == old(boot)
      ensures BuildAt(j, slot, match result
                               case Built => Copying
                               case BuildFailed(e) => Returning(Terminal(Fail(BuildErr(e))))
                               case BuildCancelled => Returning(Terminal(Abort(User))))
      ensures Performs(since, trace, BuildTaskOf(j), own) && own == own0 + [Build(j, BuilderReturns(result))]
    {
      hide Performs, Booted, Legal, After, Inv;
      var t := trace;
      Record(Build(j, BuilderReturns(result)));
      own := Did(BuildTaskOf(j), since, own0, t, Build(j, BuilderReturns(result)));
    }

    ghost method CopyFailsSection(j: JobId, slot: nat, message: string, since: seq<Label>, own0: seq<Label>) returns (own: seq<Label>)
      requires Valid() && BuildAt(j, slot, Copying) && Performs(since, trace, BuildTaskOf(j), own0)
      modifies this`trace
      ensures Valid() && boot == old(boot) && BuildAt(j, slot, Returning(Terminal(Fail(InfraErr("artifact_copy", message)))))
      ensures Performs(since, trace, BuildTaskOf(j), own) && own == own0 + [Build(j, CopyFails(message))]
    {
      hide Performs, Booted, Legal, After, Inv;
      var t := trace;
      Record(Build(j, CopyFails(message)));
      own := Did(BuildTaskOf(j), since, own0, t, Build(j, CopyFails(message)));
    }

    /** `catch_unwind`: whatever it was doing inside `build_inner`, it is left with the panic as its result. */
    ghost method PanicSection(j: JobId, slot: nat, pc: BuildPc, world: BuildWorld, since: seq<Label>, own0: seq<Label>)
      returns (own: seq<Label>)
      requires Valid() && BuildAt(j, slot, pc) && (pc.LookingUp? || pc.Hit? || pc.Calling? || pc.Copying?)
      requires Performs(since, trace, BuildTaskOf(j), own0)
      modifies this`trace
      ensures Valid() && boot == old(boot) && BuildAt(j, slot, Returning(world.Panicked()))
      ensures Performs(since, trace, BuildTaskOf(j), own) && own == own0 + [Build(j, world.Panic())]
    {
      hide Performs, Booted, Legal, After, Inv;
      var t := trace;
      Record(Build(j, world.Panic()));
      own := Did(BuildTaskOf(j), since, own0, t, Build(j, world.Panic()));
    }

    /** `build_inner`, or the panic that ended it: exactly the path this world leads it on, with its result. */
    method BuildInner(j: JobId, ghost slot: nat, skipCache: bool, world: BuildWorld) returns (end: BuildEnd, ghost own: seq<Label>)
      requires Valid() && BuildAt(j, slot, LookingUp) && j in store.jobs && store.jobs[j].skipCache == skipCache
      modifies this, store
      ensures Valid() && boot == old(boot) && BuildAt(j, slot, Returning(end))
      ensures Performs(old(trace), trace, BuildTaskOf(j), own)
      ensures own == BuildSections(j, BuildPath(world, skipCache).0) && end == BuildPath(world, skipCache).1
      ensures BuildEnds(world, skipCache, end, if j in store.jobs then store.jobs[j].elfPath else None)
      ensures end.Advanced? ==> j in store.jobs && store.jobs[j].state == AwaitingBoard
    {
      hide Inv, Legal, After, Booted, Performs, HitPath, BuilderPath, BuildEnds;
      ghost var since := trace;
      StartsWithNothing(since, BuildTaskOf(j));
      if world.PanicsAt(InLookup) {
        end := world.Panicked();
        own := PanicSection(j, slot, LookingUp, world, since, []);
        PathEnds(world, skipCache, if j in store.jobs then store.jobs[j].elfPath else None);
        return;
      }
      var hit := if skipCache then None else world.cached;
      own := LookUpSection(j, slot, hit, since);
      BuildSectionsJoin(j, [LookUp(hit)], if hit.Some? then HitPath(world).0 else BuilderPath(world).0);
      YieldBuild(j, slot, if hit.Some? then Hit(hit.value) else Calling, since, own);
      if hit.Some? {
        end, own := FinishHit(j, slot, hit.value, world, since, own);
      } else {
        end, own := CallBuilder(j, slot, world, since, own);
      }
      PathEnds(world, skipCache, if j in store.jobs then store.jobs[j].elfPath else None);
    }

    /** A build that came to its end by advancing has just done so, with this ELF. */
    ghost predicate AdvancedWith(j: JobId, end: BuildEnd, elf: string)
      reads this, store
    {
      end.Advanced? ==> j in store.jobs && store.jobs[j].state == AwaitingBoard && store.jobs[j].elfPath == Some(elf)
    }

    method FinishHit(j: JobId, ghost slot: nat, elf: string, world: BuildWorld, ghost since: seq<Label>, ghost own0: seq<Label>)
      returns (end: BuildEnd, ghost own: seq<Label>)
      requires Valid() && BuildAt(j, slot, Hit(elf)) && Performs(since, trace, BuildTaskOf(j), own0)
      modifies this, store
      ensures Valid() && boot == old(boot) && BuildAt(j, slot, Returning(end))
      ensures Performs(since, trace, BuildTaskOf(j), own)
      ensures own == own0 + BuildSections(j, HitPath(world).0) && end == HitPath(world).1
      ensures AdvancedWith(j, end, elf)
    {
      hide Inv, Legal, After, Booted, Performs, ApplyBuild, BuildEnabled;
      if world.PanicsAt(InAdvance) {
        end := world.Panicked();
        own := PanicSection(j, slot, Hit(elf), world, since, own0);
      } else {
        own := AdvanceSection(j, slot, elf, AdvanceHit, since, own0);
        end := Advanced;
      }
    }

    method CallBuilder(j: JobId, ghost slot: nat, world: BuildWorld, ghost since: seq<Label>, ghost own0: seq<Label>)
      returns (end: BuildEnd, ghost own: seq<Label>)
      requires Valid() && BuildAt(j, slot, Calling) && Performs(since, trace, BuildTaskOf(j), own0)
      modifies this, store
      ensures Valid() && boot == old(boot) && BuildAt(j, slot, Returning(end))
      ensures Performs(since, trace, BuildTaskOf(j), own)
      ensures own == own0 + BuildSections(j, BuilderPath(world).0) && end == BuilderPath(world).1
      ensures AdvancedWith(j, end, if world.copied.Ok? then world.copied.value else "")
    {
      hide Inv, Legal, After, Booted, Performs, ApplyBuild, BuildEnabled;
      if world.PanicsAt(InBuilder) {
        end := world.Panicked();
        own := PanicSection(j, slot, Calling, world, since, own0);
        return;
      }
      own := BuilderReturnsSection(j, slot, world.result, since, own0);
      match world.result
      case BuildFailed(e) => end := Terminal(Fail(BuildErr(e)));
      case BuildCancelled => end := Terminal(Abort(User));
      case Built =>
        BuildSectionsJoin(j, [BuilderReturns(world.result)], CopyPath(world).0);
        YieldBuild(j, slot, Copying, since, own);
        end, own := CopyArtifact(j, slot, world, since, own);
    }

    method CopyArtifact(j: JobId, ghost slot: nat, world: BuildWorld, ghost since: seq<Label>, ghost own0: seq<Label>)
      returns (end: BuildEnd, ghost own: seq<Label>)
      requires Valid() && BuildAt(j, slot, Copying) && Performs(since, trace, BuildTaskOf(j), own0)
      modifies this, store
      ensures Valid() && boot == old(boot) && BuildAt(j, slot, Returning(end))
      ensures Performs(since, trace, BuildTaskOf(j), own)
      ensures own == own0 + BuildSections(j, CopyPath(world).0) && end == CopyPath(world).1
      ensures AdvancedWith(j, end, if world.copied.Ok? then world.copied.value else "")
    {
      hide Inv, Legal, After, Booted, Performs, ApplyBuild, BuildEnabled;
      if world.PanicsAt(InCopy) {
        end := world.Panicked();
        own := PanicSection(j, slot, Copying, world, since, own0);
        return;
      }
      match world.copied
      case Err(m) =>
        end := Terminal(Fail(InfraErr("artifact_copy", m)));
        own := CopyFailsSection(j, slot, m, since, own0);
      case Ok(stable) =>
        own := AdvanceSection(j, slot, stable, StoreAndAdvance(stable), since, own0);
        end := Advanced;
    }

    method ReturnSlotSection(j: JobId, slot: nat, ghost end: BuildEnd)
      requires Valid() && BuildAt(j, slot, Returning(end))
      modifies this
      ensures Valid() && boot == old(boot) && trace == old(trace) + [Build(j, ReturnSlot)] && free == old(free) + [slot]
      ensures BuildAt(j, slot, Unregistering(end))
    {
      hide Booted, Legal, After, Inv;
      free := free + [slot];
      Record(Build(j, ReturnSlot));
    }

    method UnregisterBuildSection(j: JobId, ghost slot: nat, end: BuildEnd)
      requires Valid() && BuildAt(j, slot, Unregistering(end))
      modifies this
      ensures Valid() && boot == old(boot) && trace == old(trace) + [Build(j, UnregisterBuild)]
      ensures if end.Terminal? then BuildAt(j, slot, Finalizing(end.outcome)) else GoneFrom(j)
    {
      hide Booted, Legal, After;
      assert BuildOwned(S(), j);
      buildCancel := buildCancel - {j};
      Record(Build(j, UnregisterBuild));
    }

    method FinalizeTerminalSection(j: JobId, ghost slot: nat, outcome: JobOutcome, now: int)
      requires Valid() && BuildAt(j, slot, Finalizing(outcome))
      modifies this`trace, store
      ensures Valid() && boot == old(boot) && trace == old(trace) + [Build(j, FinalizeBuild(now))]
      ensures GoneFrom(j)
      ensures j in store.jobs && store.jobs[j].state == outcome.State() && store.jobs[j].outcome == Some(outcome)
      ensures store.jobs[j].finishedAt == Some(now)
    {
      hide Booted, Legal, After;
      assert BuildOwned(S(), j);
      var _ := store.Finalize(j, outcome, now);
      Record(Build(j, FinalizeBuild(now)));
    }

    /** Job j has no build task, no kill-registry entry and no Building row. */
    ghost predicate GoneFrom(j: JobId)
      requires Valid()
      reads this, store
    {
      j !in S().builds && j !in buildCancel && !InState(store.Db(), j, Building)
    }

    /** `run_one_build`: whatever the world does, the sections are those of its path, nothing of it stays
        behind, and an outcome it could not avoid is stored. */
    method RunOneBuild(j: JobId, slot: nat, skipCache: bool, world: BuildWorld, now: int)
      returns (end: BuildEnd, ghost own: seq<Label>)
      requires Valid() && BuildAt(j, slot, LookingUp) && j in store.jobs && store.jobs[j].skipCache == skipCache
      modifies this, store
      ensures Valid() && boot == old(boot) && GoneFrom(j)
      ensures Performs(old(trace), trace, BuildTaskOf(j), own) && own == BuildSections(j, BuildTaskPath(world, skipCache, now))
      ensures exists elf :: BuildEnds(world, skipCache, end, elf)
      ensures end.Terminal? ==> j in store.jobs && store.jobs[j].outcome == Some(end.outcome) && store.jobs[j].finishedAt == Some(now)
    {
      ghost var since := trace;
      end, own := BuildInner(j, slot, skipCache, world);
      hide *;
      own := EndBuild(j, slot, end, now, since, own);
      TaskSections(j, world, skipCache, now);
    }

    /** Slot, registry entry, row: after `build_inner`, whatever it returned. */
    method EndBuild(j: JobId, slot: nat, end: BuildEnd, now: int, ghost since: seq<Label>, ghost own0: seq<Label>)
      returns (ghost own: seq<Label>)
      requires Valid() && BuildAt(j, slot, Returning(end)) && Performs(since, trace, BuildTaskOf(j), own0)
      modifies this, store
      ensures Valid() && boot == old(boot) && GoneFrom(j) && Performs(since, trace, BuildTaskOf(j), own)
      ensures end.Advanced? ==> own == own0 + [Build(j, ReturnSlot)] + [Build(j, UnregisterBuild)]
      ensures end.Terminal? ==>
                && own == own0 + [Build(j, ReturnSlot)] + [Build(j, UnregisterBuild)] + [Build(j, FinalizeBuild(now))]
                && j in store.jobs && store.jobs[j].outcome == Some(end.outcome) && store.jobs[j].finishedAt == Some(now)
    {
      hide *;
      own := own0;
      YieldBuild(j, slot, Returning(end), since, own);
      ghost var t := trace;
      ReturnSlotSection(j, slot, end);
      own := DidBuild(j, since, own, t, ReturnSlot);
      YieldBuild(j, slot, Unregistering(end), since, own);
      t := trace;
      UnregisterBuildSection(j, slot, end);
      own := DidBuild(j, since, own, t, UnregisterBuild);
      if end.Terminal? {
        YieldBuild(j, slot, Finalizing(end.outcome), since, own);
        t := trace;
        FinalizeTerminalSection(j, slot, end.outcome, now);
        own := DidBuild(j, since, own, t, FinalizeBuild(now));
      }
    }

    // ---- run task ------------------------------------------------------------------------

    ghost predicate RunAt(j: JobId, board: BoardId, pc: RunPc)
      requires Valid()
      reads this, store
    {
      j in S().runs && S().runs[j] == RunTask(board, pc)
    }

    method RunnerReturnsSection(j: JobId, ghost board: BoardId, outcome: JobOutcome, clean: bool)
      requires Valid() && RunAt(j, board, Active)
      modifies this`trace
      ensures Valid() && boot == old(boot) && trace == old(trace) + [Run(j, RunnerReturns(outcome, clean))]
      ensures RunAt(j, board, Ending(outcome, clean))
    {
      hide Booted, Legal, After, Inv;
      Record(Run(j, RunnerReturns(outcome, clean)));
    }

    /** The locked part of `finalize_run`: the row, then the board. */
    method FinalizeRunSection(j: JobId, board: BoardId, outcome: JobOutcome, clean: bool, now: int)
      requires Valid() && RunAt(j, board, Ending(outcome, clean))
      modifies this`trace, store
      ensures Valid() && boot == old(boot) && trace == old(trace) + [Run(j, FinalizeRun(now))]
      ensures RunAt(j, board, Leaving)
      ensures j in store.jobs && store.jobs[j].state == outcome.State() && store.jobs[j].outcome == Some(outcome)
      ensures store.jobs[j].finishedAt == Some(now)
      ensures board in old(store.boards)
      ensures store.boards == old(store.boards)[board := Charge(old(store.boards)[board], outcome, clean, cfg.infraThreshold)]
    {
      EndingOwned(j, board);
      hide Booted, Legal, After, Inv, Charge, Tables.Finalize;
      var r := store.Finalize(j, outcome, now);
      var _ := store.ApplyOutcomeToBoard(board, outcome, clean, cfg.infraThreshold);
      Record(Run(j, FinalizeRun(now)));
    }

    /** A run about to be recorded still has its row and its board. */
    lemma EndingOwned(j: JobId, board: BoardId)
      requires Valid() && j in S().runs && S().runs[j].pc.Ending? && S().runs[j].board == board
      ensures j in store.jobs && store.jobs[j].state == Running && board in store.boards
    {
      assert RunOwned(S(), j) && RowOk(S(), j);
    }

    method UnregisterRunSection(j: JobId, ghost board: BoardId)
      requires Valid() && RunAt(j, board, Leaving)
      modifies this
      ensures Valid() && boot == old(boot) && trace == old(trace) + [Run(j, UnregisterRun)]
      ensures j !in S().runs && j !in cancellation && !InState(store.Db(), j, Running)
    {
      hide Booted, Legal, After;
      assert RunOwned(S(), j);
      cancellation := cancellation - {j};
      Record(Run(j, UnregisterRun));
    }

    /** `run_one_run` and `finalize_run`: the runner's result, or its panic as an unclean InfraErr, is stored, then
        the registry entry goes. */
    method RunOneRun(j: JobId, board: BoardId, world: RunWorld, now: int) returns (ghost own: seq<Label>)
      requires Valid() && RunAt(j, board, Active)
      modifies this, store
      ensures Valid() && boot == old(boot)
      ensures j !in S().runs && j !in cancellation && !InState(store.Db(), j, Running)
      ensures Performs(old(trace), trace, RunTaskOf(j), own)
      ensures own == [Run(j, RunnerReturns(world.Outcome(), world.Clean())), Run(j, FinalizeRun(now)), Run(j, UnregisterRun)]
      ensures match world
              case Returns(outcome, clean) =>
                own[0] == Run(j, RunnerReturns(outcome, clean)) && (j in store.jobs ==> store.jobs[j].outcome == Some(outcome))
              case Panics(message) =>
                var outcome := Fail(InfraErr("dispatch", message));
                own[0] == Run(j, RunnerReturns(outcome, false)) && (j in store.jobs ==> store.jobs[j].outcome == Some(outcome))
    {
      WhatTheRunnerSays(world);
      hide *;
      ghost var me, since, t := RunTaskOf(j), trace, trace;
      own := [];
      StartsWithNothing(since, me);
      RunnerReturnsSection(j, board, world.Outcome(), world.Clean());
      own := Did(me, since, own, t, Run(j, RunnerReturns(world.Outcome(), world.Clean())));
      YieldRun(j, board, Ending(world.Outcome(), world.Clean()), since, own);
      t := trace;
      FinalizeRunSection(j, board, world.Outcome(), world.Clean(), now);
      own := Did(me, since, own, t, Run(j, FinalizeRun(now)));
      YieldRun(j, board, Leaving, since, own);
      t := trace;
      UnregisterRunSection(j, board);
      own := Did(me, since, own, t, Run(j, UnregisterRun));
    }

    // ---- HTTP handlers -------------------------------------------------------------------------

    /** `post_jobs`: the new row. Ids are ULIDs, so never seen before. */
    method Submit(row: JobRow, now: int)
      requires Valid() && row.id !in S().used && row.submittedAt == now
      modifies this`trace, store
      ensures Valid() && boot == old(boot) && trace == old(trace) + [Outside(OutsideStep.Submit(row, now))]
      ensures row.id !in old(store.jobs) && InState(store.Db(), row.id, Submitted)
    {
      hide Booted, Legal, After;
      assert RowOk(S(), row.id);
      var _ := store.InsertJob(row);
      Record(Outside(OutsideStep.Submit(row, now)));
    }

    method AddBoard(b: BoardRow) returns (r: Result<(), DbError>)
      requires Valid()
      modifies this`trace, store
      ensures Valid() && boot == old(boot) && trace == old(trace) + [Outside(OutsideStep.AddBoard(b))]
      ensures r.Ok? <==> b.id !in old(store.boards)
    {
      hide Booted, Legal, After, Inv;
      r := store.InsertBoard(b);
      Record(Outside(OutsideStep.AddBoard(b)));
    }

    method QuarantineBoard(id: BoardId, reason: string) returns (r: Result<(), DbError>)
      requires Valid()
      modifies this`trace, store
      ensures Valid() && boot == old(boot) && trace == old(trace) + [Outside(OutsideStep.QuarantineBoard(id, reason))]
      ensures r.Ok? <==> id in old(store.boards)
    {
      hide Booted, Legal, After, Inv;
      r := store.Quarantine(id, reason);
      Record(Outside(OutsideStep.QuarantineBoard(id, reason)));
    }

    method UnquarantineBoard(id: BoardId) returns (r: Result<(), DbError>)
      requires Valid()
      modifies this`trace, store
      ensures Valid() && boot == old(boot) && trace == old(trace) + [Outside(OutsideStep.UnquarantineBoard(id))]
      ensures r.Ok? <==> id in old(store.boards)
    {
      hide Booted, Legal, After, Inv;
      r := store.Unquarantine(id);
      Record(Outside(OutsideStep.UnquarantineBoard(id)));
    }

    /** A board goes only while nothing runs on it and nothing ever ran on it that is still on record. */
    method RemoveBoard(id: BoardId) returns (r: Result<(), DbError>)
      requires Valid()
      modifies this`trace, store
      ensures Valid() && boot == old(boot) && trace == old(trace) + [Outside(OutsideStep.RemoveBoard(id))]
      ensures r.Ok? ==> id in old(store.boards) && old(store.boards)[id].health == Quarantined && !store.Db().References(id)
    {
      hide Booted, Legal, After, Inv;
      r := store.Delete(id);
      Record(Outside(OutsideStep.RemoveBoard(id)));
    }

    /** `purge`, as far as the tables go: no task can lose its row to it. */
    method PurgeTables(andBoards: bool) returns (r: Result<(), DbError>)
      requires Valid()
      modifies this`trace, store
      ensures Valid() && boot == old(boot) && trace == old(trace) + [Outside(OutsideStep.PurgeTables(andBoards))]
      ensures r.Ok? ==> store.jobs == map[] && forall j | j in S().builds :: !S().builds[j].OwnsRow()
      ensures r.Ok? ==> forall j | j in S().runs :: S().runs[j].pc.Leaving?
    {
      hide Booted, Legal, After;
      r := store.Purge(andBoards);
      Record(Outside(OutsideStep.PurgeTables(andBoards)));
      forall j | j in S().builds && r.Ok? ensures !S().builds[j].OwnsRow() { assert BuildOwned(S(), j); }
      forall j | j in S().runs && r.Ok? ensures S().runs[j].pc.Leaving? { assert RunOwned(S(), j); }
    }

    /** A sink's flush. */
    method FlushLog(j: JobId, batch: seq<LogFrame>) returns (r: Result<(), DbError>)
      requires Valid()
      modifies this`trace, store
      ensures Valid() && boot == old(boot) && trace == old(trace) + [Outside(OutsideStep.FlushLog(j, batch))]
    {
      hide Booted, Legal, After, Inv;
      r := store.AppendBatch(j, batch);
      Record(Outside(OutsideStep.FlushLog(j, batch)));
    }

    /** The first statement of `drain_with_grace`. */
    method StartDraining()
      requires Valid()
      modifies this
      ensures Valid() && boot == old(boot) && trace == old(trace) + [Outside(StartDrain)] && draining
    {
      hide Booted, Legal, After, Inv;
      draining := true;
      Record(Outside(StartDrain));
    }

    /** `cancel_job`: a waiting job is aborted on the spot; otherwise, in a later section, its worker is signalled.
        For a job that was not waiting the answer is a 204 exactly if its channel is registered by then and the
        receiver lives. A build's receiver lives exactly while the build listens. */
    method CancelJob(j: JobId, now: int, receiverLives: bool) returns (answer: CancelAnswer)
      requires Valid()
      modifies this, store
      ensures Valid() && boot == old(boot)
      ensures j !in old(store.jobs) ==> answer == NoSuchJob
      ensures j in old(store.jobs) && old(store.jobs)[j].state in {Submitted, AwaitingBoard} ==>
                answer == Cancelled && j in store.jobs && store.jobs[j].outcome == Some(Abort(User))
      ensures j in old(store.jobs) && old(store.jobs)[j].state !in {Submitted, AwaitingBoard} ==>
                var state := old(store.jobs)[j].state;
                var registered := if state == Building then j in buildCancel else j in cancellation;
                answer == if registered && receiverLives then Signalled(state) else NotCancellable(state)
      ensures j in old(store.jobs) && old(store.jobs)[j].state == Building && (receiverLives <==> BuildListens(S(), j)) ==>
                answer == if BuildListens(S(), j) then Signalled(Building) else NotCancellable(Building)
    {
      hide Booted, Legal, After, Inv;
      var r := CancelSection(j, now);
      if r.Ok? { return Cancelled; }
      if r.error == NotFound { return NoSuchJob; }
      var state := store.jobs[j].state;
      StartsWithNothing(trace, Handler);
      Yield(Handler, trace, []);
      var registered := if state == Building then j in buildCancel else j in cancellation;
      ListenersRegistered(j);
      return if registered && receiverLives then Signalled(state) else NotCancellable(state);
    }

    lemma ListenersRegistered(j: JobId)
      requires Valid()
      ensures BuildListens(S(), j) ==> j in buildCancel
    {
      assert BuildOwned(S(), j);
    }

    method CancelSection(j: JobId, now: int) returns (r: Result<(), DbError>)
      requires Valid()
      modifies this`trace, store
      ensures Valid() && boot == old(boot) && trace == old(trace) + [Outside(Cancel(j, now))]
      ensures r.Ok? <==> j in old(store.jobs) && old(store.jobs)[j].state in {Submitted, AwaitingBoard}
      ensures r.Err? ==> store.jobs == old(store.jobs) && (r.error == NotFound <==> j !in store.jobs)
      ensures r.Ok? ==> j in store.jobs && store.jobs[j].outcome == Some(Abort(User))
    {
      hide Booted, Legal, After, Inv;
      r := store.CancelIfPending(j, now);
      Record(Outside(Cancel(j, now)));
    }

    // ---- the loop ----------------------------------------------------------------------

    /** Reading the drain flag, and under drain the build registry, opens each pass. */
    method ReadDrainSection() returns (drain: bool, idle: bool)
      requires Valid() && S().pc == AtTop
      modifies this`trace
      ensures Valid() && boot == old(boot)
      ensures S().pc == (if !drain then AtPickRun else if idle then AtDrainRuns else AtTop)
      ensures drain == draining && (idle <==> buildCancel == {})
      ensures trace == old(trace) + [Dispatch(ReadDrain)]
    {
      hide Booted, Legal, After, Inv;
      drain, idle := draining, buildCancel == {};
      Record(Dispatch(ReadDrain));
    }

    method ReadRunRegistrySection() returns (idle: bool)
      requires Valid() && S().pc == AtDrainRuns
      modifies this`trace
      ensures Valid() && boot == old(boot)
      ensures S().pc == (if idle then Exited else AtTop) && (idle <==> cancellation == {})
      ensures trace == old(trace) + [Dispatch(ReadRunRegistry)]
    {
      hide Booted, Legal, After, Inv;
      idle := cancellation == {};
      Record(Dispatch(ReadRunRegistry));
    }

    /** One pass of the loop in `spawn`, for the given readings of the clock; says whether the loop returns. When
        it does, the daemon is draining, nothing is running, and a row that is still Building has its outcome in its
        task's hands. */
    method Tick(runClock: seq<int>, buildClock: seq<int>) returns (exit: bool, ghost pass: Pass)
      requires Valid() && S().pc == AtTop
      modifies this, store
      ensures Valid() && boot == old(boot) && (exit <==> S().pc == Exited)
      ensures Performs(old(trace), trace, Dispatcher, PassSections(pass)) && PassRounds(pass, runClock, buildClock)
      ensures pass.Draining? <==> old(draining)
      ensures pass.Working? ==> (S().pc == AtTop <==> pass.buildsDone)
      ensures exit ==> pass == Draining(true) && draining && forall j :: !InState(store.Db(), j, Running)
      ensures exit ==> forall j | InState(store.Db(), j, Building) :: j in S().builds && S().builds[j].pc.Finalizing?
    {
      hide Inv, Booted, Legal, After, Performs, StageRounds, H.Flat;
      ghost var since, t := trace, trace;
      StartsWithNothing(since, Dispatcher);
      var drain, idle := ReadDrainSection();
      ghost var own := Did(Dispatcher, since, [], t, Dispatch(ReadDrain));
      if drain {
        exit := false;
        pass := Draining(idle);
        if idle {
          YieldDispatcher(since, own);
          t := trace;
          exit := ReadRunRegistrySection();
          own := Did(Dispatcher, since, own, t, Dispatch(ReadRunRegistry));
          if exit { DrainSafety(boot, trace, S()); }
        }
        assert own == PassSections(pass);
        return;
      }
      exit := false;
      pass := Work(runClock, buildClock, since, own);
      assert own + (H.Flat(pass.runs) + H.Flat(pass.builds)) == PassSections(pass);
    }

    /** The two stages of a pass. */
    method Work(runClock: seq<int>, buildClock: seq<int>, ghost since: seq<Label>, ghost own: seq<Label>) returns (ghost pass: Pass)
      requires Valid() && S().pc == AtPickRun && Performs(since, trace, Dispatcher, own)
      modifies this, store
      ensures Valid() && boot == old(boot)
      ensures pass.Working? && PassRounds(pass, runClock, buildClock)
      ensures Performs(since, trace, Dispatcher, own + (H.Flat(pass.runs) + H.Flat(pass.builds)))
      ensures S().pc == if pass.buildsDone then AtTop else if pass.runsDone then AtPickBuild else AtPickRun
    {
      hide Inv, Legal, After, Booted, Performs, StageRounds;
      ghost var t := trace;
      var done;
      ghost var runs, builds;
      done, runs := RunStage(runClock);
      PerformsBoth(since, t, trace, Dispatcher, own, H.Flat(runs));
      if !done {
        pass := Working(runs, false, [], false);
        assert own + (H.Flat(runs) + H.Flat([])) == own + H.Flat(runs);
        return;
      }
      t := trace;
      done, builds := BuildStage(buildClock);
      PerformsBoth(since, t, trace, Dispatcher, own + H.Flat(runs), H.Flat(builds));
      assert own + (H.Flat(runs) + H.Flat(builds)) == own + H.Flat(runs) + H.Flat(builds);
      pass := Working(runs, true, builds, done);
    }
  }
}

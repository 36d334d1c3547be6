/** What the dispatch protocol guarantees over every run: any interleaving of the dispatcher, the
    build and run tasks, HTTP handlers and crashes, of any length. */
module Theorems {
  import opened Options
  import opened Proto
  import opened Tables
  import opened SchedulerSpec
  import opened Protocol
  import opened Invariant

  /** A daemon that has just booted on some well-formed database: swept, then started. */
  ghost predicate Booted(s: Sys) {
    exists db, now ::
      && s == Fresh(s.cfg, AbortInterrupted(db, now), s.used)
      && WellFormed(Fresh(s.cfg, db, s.used))
  }

  ghost predicate WellFormed(s: Sys) {
    && (forall j :: RowOk(s, j))
    && (forall j :: LogOk(s, j))
    && (forall b :: BoardOk(s, b))
  }

  ghost predicate Reached(s0: Sys, ls: seq<Label>, s: Sys) {
    Booted(s0) && Legal(s0, ls) && s == After(s0, ls)
  }

  lemma ReachedInv(s0: Sys, ls: seq<Label>, s: Sys)
    requires Reached(s0, ls, s)
    ensures Inv(s)
  {
    var db, now :| s0 == Fresh(s0.cfg, AbortInterrupted(db, now), s0.used) && WellFormed(Fresh(s0.cfg, db, s0.used));
    RestartEstablishesInv(Fresh(s0.cfg, db, s0.used), now);
    RunKeepsInvariant(s0, ls);
  }

  /** A run is its first part and then the rest. */
  lemma {:induction false} Resume(s: Sys, ls: seq<Label>, more: seq<Label>)
    requires Legal(s, ls)
    ensures Legal(s, ls + more) <==> Legal(After(s, ls), more)
    ensures Legal(s, ls + more) ==> After(s, ls + more) == After(After(s, ls), more)
    decreases |ls|
  {
    if ls == [] {
      assert ls + more == more;
    } else {
      assert (ls + more)[0] == ls[0] && (ls + more)[1..] == ls[1..] + more;
      Resume(Apply(s, ls[0]), ls[1..], more);
    }
  }

  // ---- exclusivity and single-flight ---------------------------------------------

  /** Two running jobs never share a probe, and a running job always has a board row and an ELF,
      whatever lands between the pick and the claim. */
  lemma BoardExclusivity(s0: Sys, ls: seq<Label>, s: Sys)
    requires Reached(s0, ls, s)
    ensures forall j | InState(s.db, j, Running) ::
              s.db.jobs[j].boardId.Some? && s.db.jobs[j].boardId.value in s.db.boards && s.db.jobs[j].elfPath.Some?
    ensures forall i, j | InState(s.db, i, Running) && InState(s.db, j, Running) && s.db.jobs[i].boardId == s.db.jobs[j].boardId ::
              i == j
  {
    ReachedInv(s0, ls, s);
    forall j | InState(s.db, j, Running)
      ensures s.db.jobs[j].boardId.Some? && s.db.jobs[j].boardId.value in s.db.boards && s.db.jobs[j].elfPath.Some?
    {
      assert RowOk(s, j);
    }
    forall i, j | InState(s.db, i, Running) && InState(s.db, j, Running) && s.db.jobs[i].boardId == s.db.jobs[j].boardId
      ensures i == j
    {
      assert Exclusive(s.db, i, j);
    }
  }

  /** A tar is compiled at most once at a time; in particular two tasks never copy to the same
      content-addressed artifact at once. */
  lemma SingleFlightBuilds(s0: Sys, ls: seq<Label>, s: Sys)
    requires Reached(s0, ls, s)
    ensures forall i, j | InState(s.db, i, Building) && InState(s.db, j, Building) && s.db.jobs[i].tar == s.db.jobs[j].tar ::
              i == j
    ensures forall i, j | i in s.builds && j in s.builds && s.builds[i].OwnsRow() && s.builds[j].OwnsRow() ::
              i in s.db.jobs && j in s.db.jobs && (s.db.jobs[i].tar == s.db.jobs[j].tar ==> i == j)
  {
    ReachedInv(s0, ls, s);
    forall i, j | InState(s.db, i, Building) && InState(s.db, j, Building) && s.db.jobs[i].tar == s.db.jobs[j].tar
      ensures i == j
    {
      assert SingleFlight(s.db, i, j);
    }
    forall i, j | i in s.builds && j in s.builds && s.builds[i].OwnsRow() && s.builds[j].OwnsRow()
      ensures InState(s.db, i, Building) && InState(s.db, j, Building)
    {
      assert BuildOwned(s, i) && BuildOwned(s, j);
    }
  }

  // ---- slots ------------------------------------------------------------------------

  function InHandBag(pc: Pc): multiset<nat> {
    if SlotInHand(pc).Some? then multiset{SlotInHand(pc).value} else multiset{}
  }

  /** How many of the live tasks hold slot k. */
  ghost function HolderIds(s: Sys, k: nat): set<JobId> { set j | j in s.builds && Holds(s, j, k) }

  /** Slot k is once in the channel, in the hand or with a task; no other slot exists. Hence two live
      build tasks never share a target directory. */
  lemma SlotConservation(s0: Sys, ls: seq<Label>, s: Sys, k: nat)
    requires Reached(s0, ls, s)
    ensures multiset(s.free)[k] + InHandBag(s.pc)[k] + |HolderIds(s, k)| == (if k < s.cfg.slots then 1 else 0)
  {
    ReachedInv(s0, ls, s);
    DistinctMultiplicity(s.free, k);
    assert SlotSomewhere(s, k);
    var hs := HolderIds(s, k);
    if h: JobId :| Holds(s, h, k) {
      assert SlotUnique(s, k, h, h);
      forall j | j in hs ensures j == h { assert SlotUnique(s, k, h, j); }
      assert hs == {h};
    } else {
      assert hs == {};
      assert SlotUnique(s, k, 0, 0);
    }
  }

  lemma {:induction false} DistinctMultiplicity(xs: seq<nat>, k: nat)
    requires Distinct(xs)
    ensures multiset(xs)[k] == if k in xs then 1 else 0
  {
    if xs != [] {
      var init, last := xs[..|xs| - 1], xs[|xs| - 1];
      assert xs == init + [last];
      DistinctMultiplicity(init, k);
    }
  }

  /** The jobs whose task is inside `builder.build`. */
  function Builders(s: Sys): set<JobId> { set j | j in s.builds && s.builds[j].pc.Calling? }

  /** The number of tasks inside `builder.build` never exceeds the slot count. */
  lemma BoundedBuilders(s0: Sys, ls: seq<Label>, s: Sys)
    requires Reached(s0, ls, s)
    ensures |Builders(s)| <= s.cfg.slots
  {
    ReachedInv(s0, ls, s);
    var js := Builders(s);
    forall i | i in js ensures s.builds[i].slot < s.cfg.slots {
      assert Holds(s, i, s.builds[i].slot);
      assert SlotUnique(s, s.builds[i].slot, i, i);
    }
    forall i, j | i in js && j in js && s.builds[i].slot == s.builds[j].slot ensures i == j {
      assert Holds(s, i, s.builds[i].slot) && Holds(s, j, s.builds[i].slot);
      assert SlotUnique(s, s.builds[i].slot, i, j);
    }
    Pigeonhole(js, map j | j in js :: s.builds[j].slot, s.cfg.slots);
  }

  lemma {:induction false} Pigeonhole(js: set<JobId>, f: map<JobId, nat>, n: nat)
    requires js <= f.Keys
    requires forall j | j in js :: f[j] < n
    requires forall i, j | i in js && j in js && f[i] == f[j] :: i == j
    ensures |js| <= n
    decreases n
  {
    if j :| j in js && f[j] == n - 1 {
      Pigeonhole(js - {j}, f, n - 1);
    } else if n > 0 {
      Pigeonhole(js, f, n - 1);
    } else {
      assert js == {};
    }
  }

  /** Sending a slot back never meets a full channel, neither from a task nor after a lost claim. */
  lemma ReturningNeverBlocks(s0: Sys, ls: seq<Label>, s: Sys)
    requires Reached(s0, ls, s)
    ensures forall j | j in s.builds && s.builds[j].pc.Returning? :: |s.free| < s.cfg.slots
    ensures s.pc.AtReleaseSlot? ==> |s.free| < s.cfg.slots
  {
    ReachedInv(s0, ls, s);
    forall j | j in s.builds && s.builds[j].pc.Returning? ensures |s.free| < s.cfg.slots {
      assert SlotUnique(s, s.builds[j].slot, j, j);
      assert Holds(s, j, s.builds[j].slot);
      RoomFor(s, s.builds[j].slot);
    }
    if s.pc.AtReleaseSlot? {
      assert SlotUnique(s, s.pc.slot, 0, 0);
      RoomFor(s, s.pc.slot);
    }
  }

  lemma RoomFor(s: Sys, k: nat)
    requires Inv(s) && k < s.cfg.slots && k !in s.free
    ensures |s.free| < s.cfg.slots
  {
    var xs := Elements(s.free) + {k};
    forall x | x in xs ensures x < s.cfg.slots { assert SlotUnique(s, x, 0, 0); }
    DistinctSize(s.free);
    Pigeonhole(xs, map x | x in xs :: x, s.cfg.slots);
  }

  function Elements(xs: seq<nat>): set<nat> { set x | x in xs }

  lemma {:induction false} DistinctSize(xs: seq<nat>)
    requires Distinct(xs)
    ensures |Elements(xs)| == |xs|
  {
    if xs != [] {
      var init, last := xs[..|xs| - 1], xs[|xs| - 1];
      DistinctSize(init);
      assert xs == init + [last];
      assert Elements(xs) == Elements(init) + {last};
      assert last !in Elements(init);
    }
  }

  // ---- ownership ---------------------------------------------------------------------

  /** No worker's write misses its row: the advance, the two finalize updates and the board update of a
      live task all succeed, and handing a claimed row to a task never overwrites a live task or a live
      registry entry. */
  lemma WritesNeverMiss(s0: Sys, ls: seq<Label>, s: Sys, j: JobId, elf: string, now: int)
    requires Reached(s0, ls, s)
    ensures j in s.builds && s.builds[j].OwnsRow() ==>
              BuildingToAwaitingBoard(s.db, j, elf).Ok?
    ensures j in s.builds && s.builds[j].pc.Finalizing? ==>
              Finalize(s.db, j, s.builds[j].pc.outcome, now).Ok?
    ensures j in s.runs && s.runs[j].pc.Ending? ==>
              var t := s.runs[j];
              var r := Finalize(s.db, j, t.pc.outcome, now);
              r.Ok? && ApplyOutcomeToBoard(r.value, t.board, t.pc.outcome, t.pc.clean, s.cfg.infraThreshold).Ok?
    ensures ClaimedBuild(s.pc, j) ==> j !in s.builds && (s.pc.AtRegisterBuild? ==> j !in s.buildCancel)
    ensures ClaimedRun(s.pc, j) ==> j !in s.runs && (s.pc.AtRegisterRun? ==> j !in s.cancellation)
  {
    ReachedInv(s0, ls, s);
    assert RowOk(s, j) && BuildOwned(s, j) && RunOwned(s, j);
  }

  /** When the loop has returned, nothing runs, and a row can still be Building only because its task,
      already unregistered, has its outcome in hand. */
  lemma DrainSafety(s0: Sys, ls: seq<Label>, s: Sys)
    requires Reached(s0, ls, s) && s.pc == Exited
    ensures s.draining && s.buildCancel == {} && s.cancellation == {}
    ensures forall j :: !InState(s.db, j, Running)
    ensures forall j | InState(s.db, j, Building) :: j in s.builds && s.builds[j].pc.Finalizing?
  {
    ReachedInv(s0, ls, s);
    forall j: JobId
      ensures j !in s.buildCancel && j !in s.cancellation && s.draining && !InState(s.db, j, Running)
      ensures InState(s.db, j, Building) ==> j in s.builds && s.builds[j].pc.Finalizing?
    {
      assert HandOk(s, j) && BuildOwned(s, j) && RunOwned(s, j);
    }
    assert HandOk(s, 0);
  }

  /** In every reachable state every row is coherent: finished exactly if terminal exactly if it has an outcome,
      and the outcome is the one its state says. */
  lemma RowsCoherent(s0: Sys, ls: seq<Label>, s: Sys)
    requires Reached(s0, ls, s)
    ensures forall j | j in s.db.jobs :: s.db.jobs[j].Coherent() && s.db.jobs[j].id == j
  {
    ReachedInv(s0, ls, s);
    forall j | j in s.db.jobs ensures s.db.jobs[j].Coherent() && s.db.jobs[j].id == j { assert RowOk(s, j); }
  }

  /** When a cancel finds no one to signal: a Building row lacks its kill channel exactly between the claim and
      the registration, and once its task is past the unregister section; a Running row only between the claim
      and the registration. */
  lemma CancelWindows(s0: Sys, ls: seq<Label>, s: Sys, j: JobId)
    requires Reached(s0, ls, s)
    ensures InState(s.db, j, Building) ==>
              (j !in s.buildCancel <==>
                 (s.pc.AtRegisterBuild? && s.pc.job == j) || (j in s.builds && s.builds[j].pc.Finalizing?))
    ensures InState(s.db, j, Running) ==> (j !in s.cancellation <==> s.pc.AtRegisterRun? && s.pc.job == j)
  {
    ReachedInv(s0, ls, s);
    assert BuildOwned(s, j) && RunOwned(s, j);
  }

  /** The receiver of the build's kill channel is still held: by the dispatcher until it spawns the build, then by
      the build until the cached ELF is taken or the builder has returned. */
  predicate BuildListens(s: Sys, j: JobId) {
    || (s.pc.AtSpawnBuild? && s.pc.job == j)
    || (j in s.builds && (s.builds[j].pc.LookingUp? || s.builds[j].pc.Hit? || s.builds[j].pc.Calling?))
  }

  /** Who listens is registered and still building. A Building row nobody listens for is one between claim and
      registration, or one whose builder has already returned or panicked. */
  lemma ListeningWindow(s0: Sys, ls: seq<Label>, s: Sys, j: JobId)
    requires Reached(s0, ls, s)
    ensures BuildListens(s, j) ==> j in s.buildCancel && InState(s.db, j, Building)
    ensures InState(s.db, j, Building) ==>
              (!BuildListens(s, j) <==>
                 (s.pc.AtRegisterBuild? && s.pc.job == j)
                 || (j in s.builds && (s.builds[j].pc.Copying? || s.builds[j].pc.Returning?
                                       || s.builds[j].pc.Unregistering? || s.builds[j].pc.Finalizing?)))
  {
    ReachedInv(s0, ls, s);
    assert BuildOwned(s, j);
  }

  /** What an empty run registry says: the only row that can still be Running is the one the dispatcher has claimed
      and not yet registered. */
  lemma EmptyRunRegistry(s0: Sys, ls: seq<Label>, s: Sys)
    requires Reached(s0, ls, s) && s.cancellation == {}
    ensures forall j :: InState(s.db, j, Running) <==> s.pc.AtRegisterRun? && s.pc.job == j
  {
    ReachedInv(s0, ls, s);
    forall j ensures InState(s.db, j, Running) <==> s.pc.AtRegisterRun? && s.pc.job == j { assert RunOwned(s, j); }
  }

  // ---- progress of one row -----------------------------------------------------------

  /** The two-stage pipeline, state by state; the terminal states are ends. */
  predicate NoWayBack(from: JobState, to: JobState) {
    match to
    case Submitted => from == Submitted
    case Building => from in {Submitted, Building}
    case AwaitingBoard => from in {Submitted, Building, AwaitingBoard}
    case Running => from in {Submitted, Building, AwaitingBoard, Running}
    case _ => from in {Submitted, Building, AwaitingBoard, Running, to}
  }

  /** What one section may do to a row: move it forward or remove it. A terminal row does not change at all. */
  predicate Onward(s: Sys, t: Sys, j: JobId) {
    j in s.used ==>
      && j in t.used
      && (j in t.db.jobs ==>
            && j in s.db.jobs
            && s.db.jobs[j].state.Rank() <= t.db.jobs[j].state.Rank()
            && NoWayBack(s.db.jobs[j].state, t.db.jobs[j].state)
            && (s.db.jobs[j].state.IsTerminal() ==> t.db.jobs[j] == s.db.jobs[j])
            && t.db.jobs[j].submittedAt == s.db.jobs[j].submittedAt
            && t.db.jobs[j].tar == s.db.jobs[j].tar)
  }

  lemma StepOnward(s: Sys, l: Label, j: JobId)
    requires Inv(s) && Enabled(s, l)
    ensures Onward(s, Apply(s, l), j)
  {
    assert RowOk(s, j);
    match l
    case Dispatch(d) => DispatchOnward(s, d, j);
    case Build(i, b) => BuildOnward(s, i, b, j);
    case Run(i, r) => RunOnward(s, i, r, j);
    case Outside(o) => OutsideOnward(s, o, j);
    case Restart(now) =>
  }

  lemma DispatchOnward(s: Sys, d: DispatchStep, j: JobId)
    requires DispatchEnabled(s, d)
    ensures Onward(s, ApplyDispatch(s, d), j)
  {
    hide Onward;
    if d.ClaimRun? { ClaimRunOnward(s, j); }
    else if d.ClaimBuild? { ClaimBuildOnward(s, j); }
    else { OtherDispatchOnward(s, d, j); }
  }

  lemma ClaimRunOnward(s: Sys, j: JobId)
    requires s.pc.AtClaimRun?
    ensures Onward(s, ClaimRunSection(s), j)
  {}

  lemma ClaimBuildOnward(s: Sys, j: JobId)
    requires s.pc.AtClaimBuild?
    ensures Onward(s, ClaimBuildSection(s), j)
  {}

  lemma OtherDispatchOnward(s: Sys, d: DispatchStep, j: JobId)
    requires DispatchEnabled(s, d) && !d.ClaimRun? && !d.ClaimBuild?
    ensures Onward(s, ApplyDispatch(s, d), j)
  {
    assert ApplyDispatch(s, d).db == s.db && ApplyDispatch(s, d).used == s.used;
    hide ApplyDispatch;
  }

  lemma BuildOnward(s: Sys, i: JobId, b: BuildStep, j: JobId)
    requires BuildEnabled(s, i, b)
    ensures Onward(s, ApplyBuild(s, i, b), j)
  {}

  lemma RunOnward(s: Sys, i: JobId, r: RunStep, j: JobId)
    requires RunEnabled(s, i, r)
    ensures Onward(s, ApplyRun(s, i, r), j)
  {}

  lemma OutsideOnward(s: Sys, o: OutsideStep, j: JobId)
    requires OutsideEnabled(s, o) && RowOk(s, j)
    ensures Onward(s, ApplyOutside(s, o), j)
  {}

  /** Over any run a job only moves forward, so each stage claims it at most once; a terminal row is
      frozen until it is purged, and a purged id never comes back. */
  lemma {:induction false} OnwardAlways(s: Sys, ls: seq<Label>, j: JobId)
    requires Inv(s) && Legal(s, ls)
    ensures Onward(s, After(s, ls), j)
    decreases |ls|
  {
    if ls != [] {
      StepOnward(s, ls[0], j);
      StepKeepsInv(s, ls[0]);
      OnwardAlways(Apply(s, ls[0]), ls[1..], j);
    }
  }

  /** A job cancelled while the dispatcher already has it in hand is never claimed: the stale claim
      changes no row and gives up the stage. */
  lemma CancelledInHand(s: Sys, ls: seq<Label>, j: JobId, now: int)
    requires Inv(s) && (InState(s.db, j, Submitted) || InState(s.db, j, AwaitingBoard))
    requires Legal(s, [Outside(Cancel(j, now))] + ls)
    ensures var t := After(s, [Outside(Cancel(j, now))] + ls);
            && (j in t.db.jobs ==> t.db.jobs[j].outcome == Some(Abort(User)) && t.db.jobs[j].state == Aborted)
            && (t.pc.AtClaimRun? && t.pc.job == j ==> Apply(t, Dispatch(ClaimRun)) == t.(pc := AtPickBuild))
            && (t.pc.AtClaimBuild? && t.pc.job == j ==> Apply(t, Dispatch(ClaimBuild)) == t.(pc := AtReleaseSlot(t.pc.slot)))
  {
    var l := Outside(Cancel(j, now));
    assert ([l] + ls)[1..] == ls;
    assert RowOk(s, j);
    StepKeepsInv(s, l);
    OnwardAlways(Apply(s, l), ls, j);
  }
}

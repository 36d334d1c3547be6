/** The slots bound the builder calls, not the Building rows: a row stays Building after its task has returned
    the slot. How many rows are Building is an exact balance of slots and such late tasks. */
module RowsBeyondSlots {
  import opened Options
  import opened Proto
  import opened Tables
  import opened SchedulerSpec
  import opened Protocol
  import opened Invariant
  import opened Theorems
  import Scheduler

  // ---- the balance ------------------------------------------------------------------------------

  function BuildingRows(s: Sys): set<JobId> { set j | j in s.db.jobs && s.db.jobs[j].state == Building }

  /** Build tasks that have sent their slot back and not yet finalized their row. */
  function Late(s: Sys): set<JobId> { set j | j in s.builds && !s.builds[j].HoldsSlot() && s.builds[j].OwnsRow() }

  function Working(s: Sys): set<JobId> { set j | j in s.builds && s.builds[j].HoldsSlot() && s.builds[j].OwnsRow() }

  /** Build tasks that have advanced their row and not yet sent their slot back. */
  function Advancing(s: Sys): set<JobId> { set j | j in s.builds && s.builds[j].HoldsSlot() && !s.builds[j].OwnsRow() }

  /** The row the dispatcher has just claimed, if any; and whether it holds a slot without a claimed row. */
  function JustClaimed(pc: Pc): set<JobId> { if pc.AtRegisterBuild? || pc.AtSpawnBuild? then {pc.job} else {} }

  function IdleSlot(pc: Pc): nat { if pc.AtClaimBuild? || pc.AtReleaseSlot? then 1 else 0 }

  lemma RowsByOwner(s: Sys)
    requires Inv(s)
    ensures |BuildingRows(s)| == |Working(s)| + |Late(s)| + |JustClaimed(s.pc)|
  {
    forall j: JobId
      ensures j in BuildingRows(s) <==> j in Working(s) || j in Late(s) || j in JustClaimed(s.pc)
      ensures j in JustClaimed(s.pc) ==> j !in Working(s) && j !in Late(s)
    {
      assert BuildOwned(s, j);
    }
    hide Inv;
    assert BuildingRows(s) == Working(s) + Late(s) + JustClaimed(s.pc);
    assert Working(s) !! Late(s) && (Working(s) + Late(s)) !! JustClaimed(s.pc);
  }

  function SlotsOf(builds: map<JobId, BuildTask>, js: set<JobId>): set<nat> {
    set j | j in js && j in builds :: builds[j].slot
  }

  lemma {:induction false} SlotsOfSize(builds: map<JobId, BuildTask>, js: set<JobId>)
    requires js <= builds.Keys
    requires forall i, j | i in js && j in js && builds[i].slot == builds[j].slot :: i == j
    ensures |SlotsOf(builds, js)| == |js|
    decreases |js|
  {
    if j :| j in js {
      var rest := js - {j};
      SlotsOfSize(builds, rest);
      assert SlotsOf(builds, js) == SlotsOf(builds, rest) + {builds[j].slot};
      assert builds[j].slot !in SlotsOf(builds, rest);
    }
  }

  function HandSlots(pc: Pc): set<nat> { if SlotInHand(pc).Some? then {SlotInHand(pc).value} else {} }

  function Holders(s: Sys): set<JobId> { set j | j in s.builds && s.builds[j].HoldsSlot() }

  /** Every slot is somewhere, and no two of the three places share one. */
  lemma SlotsByPlace(s: Sys)
    requires Inv(s)
    ensures Scheduler.FirstIds(s.cfg.slots) == Elements(s.free) + HandSlots(s.pc) + SlotsOf(s.builds, Holders(s))
    ensures Elements(s.free) !! HandSlots(s.pc)
    ensures (Elements(s.free) + HandSlots(s.pc)) !! SlotsOf(s.builds, Holders(s))
  {
    Scheduler.FirstIdsMeaning(s.cfg.slots);
    forall k: nat
      ensures k < s.cfg.slots <==> k in Elements(s.free) || k in HandSlots(s.pc) || k in SlotsOf(s.builds, Holders(s))
      ensures k in HandSlots(s.pc) ==> k !in Elements(s.free)
      ensures k in SlotsOf(s.builds, Holders(s)) ==> k !in Elements(s.free) && k !in HandSlots(s.pc)
    {
      SlotPlaced(s, k);
    }
  }

  lemma SlotPlaced(s: Sys, k: nat)
    requires Inv(s)
    ensures k < s.cfg.slots <==> k in s.free || SlotInHand(s.pc) == Some(k) || k in SlotsOf(s.builds, Holders(s))
    ensures SlotInHand(s.pc) == Some(k) ==> k !in s.free
    ensures k in SlotsOf(s.builds, Holders(s)) ==> k !in s.free && SlotInHand(s.pc) != Some(k)
  {
    assert SlotSomewhere(s, k) && SlotUnique(s, k, 0, 0);
    if j: JobId :| Holds(s, j, k) {
      assert SlotUnique(s, k, j, j);
      assert j in Holders(s);
    }
    if k in SlotsOf(s.builds, Holders(s)) {
      var j :| j in Holders(s) && j in s.builds && s.builds[j].slot == k;
      assert Holds(s, j, k);
    }
  }

  lemma SlotsByHolder(s: Sys)
    requires Inv(s)
    ensures s.cfg.slots == |s.free| + |HandSlots(s.pc)| + |Holders(s)|
  {
    SlotsByPlace(s);
    forall i, j | i in Holders(s) && j in Holders(s) && s.builds[i].slot == s.builds[j].slot ensures i == j {
      assert Holds(s, i, s.builds[i].slot) && Holds(s, j, s.builds[i].slot);
      assert SlotUnique(s, s.builds[i].slot, i, j);
    }
    assert Distinct(s.free);
    hide Inv;
    SlotsOfSize(s.builds, Holders(s));
    DistinctSize(s.free);
    Scheduler.FirstIdsMeaning(s.cfg.slots);
  }

  /** In every reachable state: Building rows, free slots, a slot held for no row and tasks about to return
      their slot after advancing balance the slots and the late tasks. */
  lemma RowsBalance(s0: Sys, ls: seq<Label>, s: Sys)
    requires Reached(s0, ls, s)
    ensures |BuildingRows(s)| + |s.free| + IdleSlot(s.pc) + |Advancing(s)| == s.cfg.slots + |Late(s)|
  {
    ReachedInv(s0, ls, s);
    RowsByOwner(s);
    SlotsByHolder(s);
    hide Inv, Reached;
    assert Holders(s) == Working(s) + Advancing(s) && Working(s) !! Advancing(s);
  }

  /** Hence at most one Building row more than slots for each late task, and the slots bound the rows exactly
      as long as the late tasks are no more than the slots nobody builds with. */
  lemma BuildingRowsBound(s0: Sys, ls: seq<Label>, s: Sys)
    requires Reached(s0, ls, s)
    ensures |BuildingRows(s)| <= s.cfg.slots + |Late(s)|
    ensures |BuildingRows(s)| <= s.cfg.slots <==> |Late(s)| <= |s.free| + IdleSlot(s.pc) + |Advancing(s)|
  {
    RowsBalance(s0, ls, s);
  }

  // ---- the bound is reached: one slot, two jobs ---------------------------------------------------

  function Waiter(j: JobId, tar: string): JobRow {
    JobRow(j, Interactive, BoardSelector("k", None, None), Submitted, None, None, 0, None, None, tar, None, false)
  }

  function TwoJobs(): Db { Db(map[0 := Waiter(0, "a"), 1 := Waiter(1, "b")], map[], map[]) }

  function Begun(): Db {
    Db(map[0 := Waiter(0, "a").(state := Building, startedAt := Some(0)), 1 := Waiter(1, "b")], map[], map[])
  }

  function OneSlot(db: Db, free: seq<nat>, kill: set<JobId>, pc: Pc, builds: map<JobId, BuildTask>): Sys {
    Sys(Config(1, 0, 1), db, {0, 1}, free, kill, {}, false, pc, builds, map[])
  }

  const FAILED := Terminal(Fail(BuildErr("")))

  /** The sections of the run, and the states it goes through. */
  function Does(i: nat): Label {
    match i
    case 0 => Dispatch(ReadDrain)
    case 1 => Dispatch(PickRun([], None, 0))
    case 2 => Dispatch(PickBuild([Waiter(0, "a"), Waiter(1, "b")], Some(0), 0))
    case 3 => Dispatch(AcquireSlot)
    case 4 => Dispatch(ClaimBuild)
    case 5 => Dispatch(RegisterBuild)
    case 6 => Dispatch(SpawnBuild)
    case 7 => Build(0, LookUp(None))
    case 8 => Build(0, BuilderReturns(BuildFailed("")))
    case 9 => Build(0, ReturnSlot)
    case 10 => Dispatch(PickBuild([Waiter(1, "b")], Some(1), 0))
    case 11 => Dispatch(AcquireSlot)
    case _ => Dispatch(ClaimBuild)
  }

  function Stands(i: nat): Sys {
    match i
    case 0 => OneSlot(TwoJobs(), [0], {}, AtTop, map[])
    case 1 => OneSlot(TwoJobs(), [0], {}, AtPickRun, map[])
    case 2 => OneSlot(TwoJobs(), [0], {}, AtPickBuild, map[])
    case 3 => OneSlot(TwoJobs(), [0], {}, AtAcquireSlot(0, 0), map[])
    case 4 => OneSlot(TwoJobs(), [], {}, AtClaimBuild(0, 0, 0), map[])
    case 5 => OneSlot(Begun(), [], {}, AtRegisterBuild(0, 0), map[])
    case 6 => OneSlot(Begun(), [], {0}, AtSpawnBuild(0, 0), map[])
    case 7 => OneSlot(Begun(), [], {0}, AtPickBuild, map[0 := BuildTask(0, LookingUp)])
    case 8 => OneSlot(Begun(), [], {0}, AtPickBuild, map[0 := BuildTask(0, Calling)])
    case 9 => OneSlot(Begun(), [], {0}, AtPickBuild, map[0 := BuildTask(0, Returning(FAILED))])
    case 10 => OneSlot(Begun(), [0], {0}, AtPickBuild, map[0 := BuildTask(0, Unregistering(FAILED))])
    case 11 => OneSlot(Begun(), [0], {0}, AtAcquireSlot(1, 0), map[0 := BuildTask(0, Unregistering(FAILED))])
    case 12 => OneSlot(Begun(), [], {0}, AtClaimBuild(1, 0, 0), map[0 := BuildTask(0, Unregistering(FAILED))])
    case _ => OneSlot(BothBuilding(), [], {0}, AtRegisterBuild(1, 0), map[0 := BuildTask(0, Unregistering(FAILED))])
  }

  function BothBuilding(): Db {
    Db(map[0 := Waiter(0, "a").(state := Building, startedAt := Some(0)),
           1 := Waiter(1, "b").(state := Building, startedAt := Some(0))], map[], map[])
  }

  lemma FirstPick()
    ensures Enabled(Stands(2), Does(2)) && Apply(Stands(2), Does(2)) == Stands(3)
  {
    FirstListing();
    hide Listing;
    var rows := [Waiter(0, "a"), Waiter(1, "b")];
    assert rows[0].id == 0 && BuildChoice(TwoJobs(), 0, 0, rows, 0);
  }

  lemma FirstListing()
    ensures Listing(TwoJobs(), Submitted, SCAN_LIMIT, [Waiter(0, "a"), Waiter(1, "b")])
  {
    var rows := [Waiter(0, "a"), Waiter(1, "b")];
    assert rows[0].id == 0 && rows[1].id == 1;
  }

  lemma SecondPick()
    ensures Enabled(Stands(10), Does(10)) && Apply(Stands(10), Does(10)) == Stands(11)
  {
    SecondListing();
    hide Listing;
    var rows := [Waiter(1, "b")];
    assert rows[0].id == 1 && BuildChoice(Begun(), 0, 0, rows, 0);
  }

  lemma SecondListing()
    ensures Listing(Begun(), Submitted, SCAN_LIMIT, [Waiter(1, "b")])
  {
    var rows := [Waiter(1, "b")];
    assert rows[0].id == 1;
  }

  lemma DispatcherBegins(i: nat)
    requires i == 0 || i == 1 || i == 3
    ensures Enabled(Stands(i), Does(i)) && Apply(Stands(i), Does(i)) == Stands(i + 1)
  {}

  lemma DispatcherSpawns(i: nat)
    requires 4 <= i < 7
    ensures Enabled(Stands(i), Does(i)) && Apply(Stands(i), Does(i)) == Stands(i + 1)
  {
    hide Listing, BuildPick, RunPick;
    if i == 4 {
      var r := SubmittedToBuilding(TwoJobs(), 0, 0);
      assert r.Ok? && r.value.jobs == Begun().jobs;
    }
  }

  lemma TaskReturnsSlot(i: nat)
    requires 7 <= i < 10
    ensures Enabled(Stands(i), Does(i)) && Apply(Stands(i), Does(i)) == Stands(i + 1)
  {}

  lemma DispatcherGoesOn(i: nat)
    requires 11 <= i < 13
    ensures Enabled(Stands(i), Does(i)) && Apply(Stands(i), Does(i)) == Stands(i + 1)
  {
    hide Listing, BuildPick, RunPick;
    if i == 12 {
      var r := SubmittedToBuilding(Begun(), 1, 0);
      assert r.Ok? && r.value.jobs == BothBuilding().jobs;
    }
  }

  lemma Goes(i: nat)
    requires i < 13
    ensures Enabled(Stands(i), Does(i)) && Apply(Stands(i), Does(i)) == Stands(i + 1)
  {
    hide *;
    if i == 2 { FirstPick(); }
    else if i < 4 { DispatcherBegins(i); }
    else if i < 7 { DispatcherSpawns(i); }
    else if i < 10 { TaskReturnsSlot(i); }
    else if i == 10 { SecondPick(); }
    else { DispatcherGoesOn(i); }
  }

  function Path(n: nat): seq<Label> { if n == 0 then [] else Path(n - 1) + [Does(n - 1)] }

  lemma {:induction false} PathIsLegal(n: nat)
    requires n <= 13
    ensures Legal(Stands(0), Path(n)) && After(Stands(0), Path(n)) == Stands(n)
  {
    hide Stands, Does, Enabled, Apply;
    if n > 0 {
      PathIsLegal(n - 1);
      Goes(n - 1);
      Resume(Stands(0), Path(n - 1), [Does(n - 1)]);
      assert [Does(n - 1)][1..] == [];
    }
  }

  lemma TwoJobsBoot()
    ensures Booted(Stands(0))
  {
    assert Orphans(TwoJobs()) == {};
    var swept := AbortInterrupted(TwoJobs(), 0);
    assert swept.jobs == TwoJobs().jobs && swept.frames == TwoJobs().frames;
    var s := Fresh(Config(1, 0, 1), TwoJobs(), {0, 1});
    assert Stands(0) == s by { assert seq(1, (i: nat) => i) == [0]; }
    assert WellFormed(s) by { assert forall j :: LogOk(s, j); }
  }

  lemma PathReaches()
    ensures Reached(Stands(0), Path(13), Stands(13))
  {
    TwoJobsBoot();
    PathIsLegal(13);
    hide Booted, Legal, After, Path, Stands;
  }

  lemma Overfull()
    ensures var s := Stands(13);
            s.cfg.slots == 1 && InState(s.db, 0, Building) && InState(s.db, 1, Building) && Late(s) == {0}
  {
    assert Late(Stands(13)) == {0};
  }

  /** With a single slot two rows can be Building at once, one of them late. */
  lemma BuildingRowsCanExceedSlots()
    ensures exists s0, ls, s ::
              Reached(s0, ls, s) && s.cfg.slots == 1 && InState(s.db, 0, Building) && InState(s.db, 1, Building)
              && Late(s) == {0}
  {
    hide *;
    PathReaches();
    Overfull();
  }
}

/** The global invariant of the dispatch protocol, and the proof that every atomic section keeps it.
    Most clauses speak about one job, one board, one pair or one slot, so that a section is checked
    pointwise: `forall` appears only in the conjunctions at the end. */
module Invariant {
  import opened Options
  import opened Proto
  import opened Tables
  import opened SchedulerSpec
  import opened Protocol

  predicate InState(db: Db, j: JobId, st: JobState) { j in db.jobs && db.jobs[j].state == st }

  // ---- clauses ----------------------------------------------------------------

  /** Rows are keyed, coherent, never dangling, and carry what their state needs. */
  predicate RowOk(s: Sys, j: JobId) {
    j in s.db.jobs ==>
      var r := s.db.jobs[j];
      && r.id == j && j in s.used && r.Coherent()
      && (r.boardId.Some? ==> r.boardId.value in s.db.boards)
      && (r.state == AwaitingBoard || r.state == Running ==> r.elfPath.Some?)
      && (r.state == Running ==> r.boardId.Some?)
  }

  predicate LogOk(s: Sys, j: JobId) { SeqOrdered(s.db.Log(j)) }

  predicate BoardOk(s: Sys, b: BoardId) { b in s.db.boards ==> s.db.boards[b].id == b }

  /** Two Running rows do not share a board. */
  predicate Exclusive(db: Db, i: JobId, j: JobId) {
    InState(db, i, Running) && InState(db, j, Running) && i != j ==> db.jobs[i].boardId != db.jobs[j].boardId
  }

  /** Two Building rows do not share a tar. */
  predicate SingleFlight(db: Db, i: JobId, j: JobId) {
    InState(db, i, Building) && InState(db, j, Building) && i != j ==> db.jobs[i].tar != db.jobs[j].tar
  }

  /** The dispatcher has claimed the row and not yet handed it to a task. */
  predicate ClaimedBuild(pc: Pc, j: JobId) {
    (pc.AtRegisterBuild? && pc.job == j) || (pc.AtSpawnBuild? && pc.job == j)
  }

  predicate ClaimedRun(pc: Pc, j: JobId) {
    (pc.AtRegisterRun? && pc.job == j) || (pc.AtSpawnRun? && pc.job == j)
  }

  /** A Building row has exactly one owner, its build task or the dispatcher just after the claim;
      a task that has not advanced its row finds it Building; the kill registry lists exactly the
      tasks before their unregister section. */
  predicate BuildOwned(s: Sys, j: JobId) {
    && (InState(s.db, j, Building) ==> ((j in s.builds && s.builds[j].OwnsRow()) <==> !ClaimedBuild(s.pc, j)))
    && (ClaimedBuild(s.pc, j) ==> InState(s.db, j, Building) && j !in s.builds)
    && (j in s.builds ==>
          && j in s.used
          && (s.builds[j].OwnsRow() ==> InState(s.db, j, Building))
          && (!s.builds[j].OwnsRow() && j in s.db.jobs ==> s.db.jobs[j].state.Rank() >= 2))
    && (j in s.buildCancel <==>
          (j in s.builds && s.builds[j].Registered()) || (s.pc.AtSpawnBuild? && s.pc.job == j))
  }

  /** The same for Running rows, run tasks and the run registry. */
  predicate RunOwned(s: Sys, j: JobId) {
    && (InState(s.db, j, Running) ==> ((j in s.runs && !s.runs[j].pc.Leaving?) <==> !ClaimedRun(s.pc, j)))
    && (ClaimedRun(s.pc, j) ==>
          InState(s.db, j, Running) && s.db.jobs[j].boardId == Some(s.pc.board) && j !in s.runs)
    && (j in s.runs ==>
          && j in s.used
          && (!s.runs[j].pc.Leaving? ==> InState(s.db, j, Running) && s.db.jobs[j].boardId == Some(s.runs[j].board))
          && (s.runs[j].pc.Leaving? && j in s.db.jobs ==> s.db.jobs[j].state.IsTerminal()))
    && (j in s.cancellation <==> j in s.runs || (s.pc.AtSpawnRun? && s.pc.job == j))
  }

  /** What the dispatcher still knows, about any job k, from a pick it made in an earlier section. */
  predicate HandOk(s: Sys, k: JobId) {
    match s.pc
    case AtClaimRun(j, b, _) => j in s.used && !(InState(s.db, k, Running) && s.db.jobs[k].boardId == Some(b))
    case AtAcquireSlot(j, _) => PickStillFresh(s, j, k)
    case AtClaimBuild(j, _, _) => PickStillFresh(s, j, k)
    case AtDrainRuns => s.draining && k !in s.buildCancel
    case Exited => s.draining && k !in s.buildCancel && k !in s.cancellation
    case _ => true
  }

  predicate PickStillFresh(s: Sys, j: JobId, k: JobId) {
    && j in s.used
    && (InState(s.db, j, Submitted) && InState(s.db, k, Building) ==> s.db.jobs[j].tar != s.db.jobs[k].tar)
  }

  function SlotInHand(pc: Pc): Option<nat> {
    match pc
    case AtClaimBuild(_, slot, _) => Some(slot)
    case AtReleaseSlot(slot) => Some(slot)
    case AtRegisterBuild(_, slot) => Some(slot)
    case AtSpawnBuild(_, slot) => Some(slot)
    case _ => None
  }

  predicate Holds(s: Sys, j: JobId, slot: nat) { j in s.builds && s.builds[j].HoldsSlot() && s.builds[j].slot == slot }

  /** A slot in the hand or with a task is a real slot, and is nowhere else. */
  predicate SlotUnique(s: Sys, k: nat, i: JobId, j: JobId) {
    && (k in s.free || SlotInHand(s.pc) == Some(k) || Holds(s, j, k) ==> k < s.cfg.slots)
    && (SlotInHand(s.pc) == Some(k) ==> k !in s.free)
    && (Holds(s, j, k) ==> k !in s.free && SlotInHand(s.pc) != Some(k))
    && (Holds(s, i, k) && Holds(s, j, k) ==> i == j)
  }

  predicate Distinct(free: seq<nat>) { forall i, k | 0 <= i < k < |free| :: free[i] != free[k] }

  ghost predicate SlotSomewhere(s: Sys, k: nat) {
    k < s.cfg.slots ==> k in s.free || SlotInHand(s.pc) == Some(k) || exists j :: Holds(s, j, k)
  }

  /** Each slot 0..n-1 is in exactly one place: once in the channel, in the dispatcher's hand, or with one task. */
  ghost predicate SlotsConserved(s: Sys) {
    && Distinct(s.free)
    && (forall k, i, j :: SlotUnique(s, k, i, j))
    && (forall k :: SlotSomewhere(s, k))
  }

  ghost predicate Inv(s: Sys) {
    && (forall j :: RowOk(s, j))
    && (forall j :: LogOk(s, j))
    && (forall b :: BoardOk(s, b))
    && (forall i, j :: Exclusive(s.db, i, j))
    && (forall i, j :: SingleFlight(s.db, i, j))
    && (forall j :: BuildOwned(s, j))
    && (forall j :: RunOwned(s, j))
    && (forall k :: HandOk(s, k))
    && SlotsConserved(s)
  }

  lemma ClaimRunKeepsJob(s: Sys, k: JobId)
    requires s.pc.AtClaimRun? && RowOk(s, k) && BuildOwned(s, k) && RunOwned(s, k) && HandOk(s, k)
    ensures RowOk(ClaimRunSection(s), k) && BuildOwned(ClaimRunSection(s), k) && RunOwned(ClaimRunSection(s), k)
  {
    ClaimRunKeepsRow(s, k);
    ClaimRunKeepsBuildOwner(s, k);
    ClaimRunKeepsRunOwner(s, k);
  }

  lemma ClaimRunKeepsRow(s: Sys, k: JobId)
    requires s.pc.AtClaimRun? && RowOk(s, k)
    ensures RowOk(ClaimRunSection(s), k)
  {}

  lemma ClaimRunKeepsBuildOwner(s: Sys, k: JobId)
    requires s.pc.AtClaimRun? && BuildOwned(s, k)
    ensures BuildOwned(ClaimRunSection(s), k)
  {}

  lemma ClaimRunKeepsRunOwner(s: Sys, k: JobId)
    requires s.pc.AtClaimRun? && RunOwned(s, k)
    ensures RunOwned(ClaimRunSection(s), k)
  {}

  lemma ClaimBuildKeepsJob(s: Sys, k: JobId)
    requires s.pc.AtClaimBuild? && RowOk(s, k) && BuildOwned(s, k) && RunOwned(s, k) && HandOk(s, k)
    ensures RowOk(ClaimBuildSection(s), k) && BuildOwned(ClaimBuildSection(s), k) && RunOwned(ClaimBuildSection(s), k)
  {
    var t := ClaimBuildSection(s);
    if k == s.pc.job {
    } else {
      assert k in s.db.jobs <==> k in t.db.jobs;
      assert k in s.db.jobs ==> t.db.jobs[k] == s.db.jobs[k];
    }
  }

  lemma DispatchKeepsRowOk(s: Sys, d: DispatchStep, k: JobId)
    requires RowOk(s, k) && BuildOwned(s, k) && RunOwned(s, k) && HandOk(s, k) && DispatchEnabled(s, d)
    ensures RowOk(ApplyDispatch(s, d), k)
  {
    match d
    case ClaimRun => ClaimRunKeepsJob(s, k);
    case ClaimBuild => ClaimBuildKeepsJob(s, k);
    case _ => assert ApplyDispatch(s, d).db == s.db;
  }

  lemma DispatchKeepsBoardOk(s: Sys, d: DispatchStep, k: BoardId)
    requires BoardOk(s, k) && DispatchEnabled(s, d)
    ensures BoardOk(ApplyDispatch(s, d), k)
  {}

  lemma DispatchKeepsExclusive(s: Sys, d: DispatchStep, i: JobId, k: JobId)
    requires Exclusive(s.db, i, k) && HandOk(s, i) && HandOk(s, k) && DispatchEnabled(s, d)
    ensures Exclusive(ApplyDispatch(s, d).db, i, k)
  {}

  lemma DispatchKeepsSingleFlight(s: Sys, d: DispatchStep, i: JobId, k: JobId)
    requires SingleFlight(s.db, i, k) && HandOk(s, i) && HandOk(s, k) && DispatchEnabled(s, d)
    ensures SingleFlight(ApplyDispatch(s, d).db, i, k)
  {}

  lemma DispatchKeepsBuildOwned(s: Sys, d: DispatchStep, k: JobId)
    requires RowOk(s, k) && BuildOwned(s, k) && RunOwned(s, k) && HandOk(s, k) && DispatchEnabled(s, d)
    ensures BuildOwned(ApplyDispatch(s, d), k)
  {
    match d
    case ClaimRun => ClaimRunKeepsJob(s, k);
    case ClaimBuild => ClaimBuildKeepsJob(s, k);
    case _ => assert ApplyDispatch(s, d).db == s.db;
  }

  lemma DispatchKeepsRunOwned(s: Sys, d: DispatchStep, k: JobId)
    requires RowOk(s, k) && BuildOwned(s, k) && RunOwned(s, k) && HandOk(s, k) && DispatchEnabled(s, d)
    ensures RunOwned(ApplyDispatch(s, d), k)
  {
    match d
    case ClaimRun => ClaimRunKeepsJob(s, k);
    case ClaimBuild => ClaimBuildKeepsJob(s, k);
    case _ => assert ApplyDispatch(s, d).db == s.db;
  }

  lemma DispatchKeepsHandOk(s: Sys, d: DispatchStep, k: JobId)
    requires (forall j :: RowOk(s, j)) && HandOk(s, k) && DispatchEnabled(s, d)
    ensures HandOk(ApplyDispatch(s, d), k)
  {
    match d
    case PickRun(rows, Some(p), _) =>
      assert RowOk(s, p.job);
      assert InState(s.db, k, Running) && s.db.jobs[k].boardId == Some(p.board) ==> s.db.RunningOn(p.board);
    case PickBuild(rows, Some(j), _) =>
      assert RowOk(s, j);
      assert InState(s.db, k, Building) ==> s.db.BuildingTar(s.db.jobs[k].tar);
    case _ =>
  }

  lemma BuildKeepsRowOk(s: Sys, j: JobId, b: BuildStep, k: JobId)
    requires RowOk(s, k) && BuildEnabled(s, j, b)
    ensures RowOk(ApplyBuild(s, j, b), k)
  {}

  lemma BuildKeepsBoardOk(s: Sys, j: JobId, b: BuildStep, k: BoardId)
    requires BoardOk(s, k) && BuildEnabled(s, j, b)
    ensures BoardOk(ApplyBuild(s, j, b), k)
  {}

  lemma BuildKeepsExclusive(s: Sys, j: JobId, b: BuildStep, i: JobId, k: JobId)
    requires Exclusive(s.db, i, k) && HandOk(s, i) && HandOk(s, k) && BuildEnabled(s, j, b)
    ensures Exclusive(ApplyBuild(s, j, b).db, i, k)
  {}

  lemma BuildKeepsSingleFlight(s: Sys, j: JobId, b: BuildStep, i: JobId, k: JobId)
    requires SingleFlight(s.db, i, k) && HandOk(s, i) && HandOk(s, k) && BuildEnabled(s, j, b)
    ensures SingleFlight(ApplyBuild(s, j, b).db, i, k)
  {}

  lemma BuildKeepsBuildOwned(s: Sys, j: JobId, b: BuildStep, k: JobId)
    requires BuildOwned(s, k) && BuildEnabled(s, j, b)
    ensures BuildOwned(ApplyBuild(s, j, b), k)
  {
    if k == j { BuildKeepsOwnRow(s, j, b); } else { BuildKeepsOtherRow(s, j, b, k); }
  }

  lemma BuildKeepsOwnRow(s: Sys, j: JobId, b: BuildStep)
    requires BuildOwned(s, j) && BuildEnabled(s, j, b)
    ensures BuildOwned(ApplyBuild(s, j, b), j)
  {}

  lemma BuildKeepsOtherRow(s: Sys, j: JobId, b: BuildStep, k: JobId)
    requires BuildOwned(s, k) && BuildEnabled(s, j, b) && k != j
    ensures BuildOwned(ApplyBuild(s, j, b), k)
  {
    hide JobState.Rank;
    var t := ApplyBuild(s, j, b);
    assert k in s.db.jobs <==> k in t.db.jobs;
    assert k in s.db.jobs ==> t.db.jobs[k] == s.db.jobs[k];
    assert k in s.builds <==> k in t.builds;
    assert k in s.builds ==> t.builds[k] == s.builds[k];
  }

  lemma BuildKeepsRunOwned(s: Sys, j: JobId, b: BuildStep, k: JobId)
    requires RowOk(s, k) && BuildOwned(s, k) && RunOwned(s, k) && HandOk(s, k) && BuildEnabled(s, j, b)
    ensures RunOwned(ApplyBuild(s, j, b), k)
  {
    if b.AdvanceHit? || b.StoreAndAdvance? || b.FinalizeBuild? {
      RowWriteKeepsRunOwned(s, j, b, k);
    } else {
      OtherBuildKeepsRunOwned(s, j, b, k);
    }
  }

  lemma RowWriteKeepsRunOwned(s: Sys, j: JobId, b: BuildStep, k: JobId)
    requires RowOk(s, k) && BuildOwned(s, k) && RunOwned(s, k) && BuildEnabled(s, j, b)
    requires b.AdvanceHit? || b.StoreAndAdvance? || b.FinalizeBuild?
    ensures RunOwned(ApplyBuild(s, j, b), k)
  {}

  lemma OtherBuildKeepsRunOwned(s: Sys, j: JobId, b: BuildStep, k: JobId)
    requires RunOwned(s, k) && BuildEnabled(s, j, b)
    requires !b.AdvanceHit? && !b.StoreAndAdvance? && !b.FinalizeBuild?
    ensures RunOwned(ApplyBuild(s, j, b), k)
  {}

  lemma BuildKeepsHandOk(s: Sys, j: JobId, b: BuildStep, k: JobId)
    requires HandOk(s, k) && BuildEnabled(s, j, b)
    ensures HandOk(ApplyBuild(s, j, b), k)
  {}

  lemma RunKeepsRowOk(s: Sys, j: JobId, r: RunStep, k: JobId)
    requires RowOk(s, k) && RunEnabled(s, j, r)
    ensures RowOk(ApplyRun(s, j, r), k)
  {}

  lemma RunKeepsBoardOk(s: Sys, j: JobId, r: RunStep, k: BoardId)
    requires BoardOk(s, k) && RunEnabled(s, j, r)
    ensures BoardOk(ApplyRun(s, j, r), k)
  {}

  lemma RunKeepsExclusive(s: Sys, j: JobId, r: RunStep, i: JobId, k: JobId)
    requires Exclusive(s.db, i, k) && HandOk(s, i) && HandOk(s, k) && RunEnabled(s, j, r)
    ensures Exclusive(ApplyRun(s, j, r).db, i, k)
  {}

  lemma RunKeepsSingleFlight(s: Sys, j: JobId, r: RunStep, i: JobId, k: JobId)
    requires SingleFlight(s.db, i, k) && HandOk(s, i) && HandOk(s, k) && RunEnabled(s, j, r)
    ensures SingleFlight(ApplyRun(s, j, r).db, i, k)
  {}

  lemma RunKeepsBuildOwned(s: Sys, j: JobId, r: RunStep, k: JobId)
    requires RowOk(s, k) && BuildOwned(s, k) && RunOwned(s, k) && HandOk(s, k) && RunEnabled(s, j, r)
    ensures BuildOwned(ApplyRun(s, j, r), k)
  {}

  lemma RunKeepsRunOwned(s: Sys, j: JobId, r: RunStep, k: JobId)
    requires RowOk(s, k) && BuildOwned(s, k) && RunOwned(s, k) && HandOk(s, k) && RunEnabled(s, j, r)
    ensures RunOwned(ApplyRun(s, j, r), k)
  {}

  lemma RunKeepsHandOk(s: Sys, j: JobId, r: RunStep, k: JobId)
    requires HandOk(s, k) && RunEnabled(s, j, r)
    ensures HandOk(ApplyRun(s, j, r), k)
  {}

  lemma OutsideKeepsRowOk(s: Sys, o: OutsideStep, k: JobId)
    requires RowOk(s, k) && OutsideEnabled(s, o)
    ensures RowOk(ApplyOutside(s, o), k)
  {}

  lemma OutsideKeepsBoardOk(s: Sys, o: OutsideStep, k: BoardId)
    requires BoardOk(s, k) && OutsideEnabled(s, o)
    ensures BoardOk(ApplyOutside(s, o), k)
  {}

  lemma OutsideKeepsExclusive(s: Sys, o: OutsideStep, i: JobId, k: JobId)
    requires Exclusive(s.db, i, k) && HandOk(s, i) && HandOk(s, k) && OutsideEnabled(s, o)
    ensures Exclusive(ApplyOutside(s, o).db, i, k)
  {}

  lemma OutsideKeepsSingleFlight(s: Sys, o: OutsideStep, i: JobId, k: JobId)
    requires SingleFlight(s.db, i, k) && HandOk(s, i) && HandOk(s, k) && OutsideEnabled(s, o)
    ensures SingleFlight(ApplyOutside(s, o).db, i, k)
  {}

  lemma OutsideKeepsBuildOwned(s: Sys, o: OutsideStep, k: JobId)
    requires RowOk(s, k) && BuildOwned(s, k) && RunOwned(s, k) && HandOk(s, k) && OutsideEnabled(s, o)
    ensures BuildOwned(ApplyOutside(s, o), k)
  {}

  lemma OutsideKeepsRunOwned(s: Sys, o: OutsideStep, k: JobId)
    requires RowOk(s, k) && BuildOwned(s, k) && RunOwned(s, k) && HandOk(s, k) && OutsideEnabled(s, o)
    ensures RunOwned(ApplyOutside(s, o), k)
  {}

  lemma OutsideKeepsHandOk(s: Sys, o: OutsideStep, k: JobId)
    requires HandOk(s, k) && OutsideEnabled(s, o)
    ensures HandOk(ApplyOutside(s, o), k)
  {}

  // ---- slots ------------------------------------------------------------------

  lemma DispatchKeepsSlotUnique(s: Sys, d: DispatchStep, k: nat, i: JobId, j: JobId)
    requires Distinct(s.free) && SlotUnique(s, k, i, j) && SlotUnique(s, k, j, i) && DispatchEnabled(s, d)
    requires s.pc.AtSpawnBuild? ==> s.pc.job !in s.builds
    ensures SlotUnique(ApplyDispatch(s, d), k, i, j)
  {}

  lemma DispatchKeepsDistinct(s: Sys, d: DispatchStep)
    requires SlotsConserved(s) && DispatchEnabled(s, d)
    ensures Distinct(ApplyDispatch(s, d).free)
  {
    if d.ReleaseSlot? {
      assert SlotUnique(s, s.pc.slot, 0, 0);
    }
  }

  lemma DispatchKeepsSlotSomewhere(s: Sys, d: DispatchStep, k: nat)
    requires SlotSomewhere(s, k) && DispatchEnabled(s, d)
    requires s.pc.AtSpawnBuild? ==> s.pc.job !in s.builds
    ensures SlotSomewhere(ApplyDispatch(s, d), k)
  {
    var t := ApplyDispatch(s, d);
    if d.SpawnBuild? && s.pc.slot == k {
      assert Holds(t, s.pc.job, k);
    } else if j :| Holds(s, j, k) {
      assert Holds(t, j, k);
    }
  }

  lemma BuildKeepsSlotUnique(s: Sys, j: JobId, b: BuildStep, k: nat, i: JobId, m: JobId)
    requires SlotUnique(s, k, i, m) && SlotUnique(s, k, j, m) && SlotUnique(s, k, i, j) && BuildEnabled(s, j, b)
    ensures SlotUnique(ApplyBuild(s, j, b), k, i, m)
  {}

  lemma BuildKeepsDistinct(s: Sys, j: JobId, b: BuildStep)
    requires SlotsConserved(s) && BuildEnabled(s, j, b)
    ensures Distinct(ApplyBuild(s, j, b).free)
  {
    assert SlotUnique(s, s.builds[j].slot, j, j);
  }

  lemma BuildKeepsSlotSomewhere(s: Sys, j: JobId, b: BuildStep, k: nat)
    requires SlotSomewhere(s, k) && BuildEnabled(s, j, b)
    ensures SlotSomewhere(ApplyBuild(s, j, b), k)
  {
    var t := ApplyBuild(s, j, b);
    if i :| Holds(s, i, k) {
      assert Holds(t, i, k) || k in t.free;
    }
  }
  // ---- logs, restart, and the whole step --------------------------------------

  lemma OutsideKeepsLogOk(s: Sys, o: OutsideStep, k: JobId)
    requires LogOk(s, k) && OutsideEnabled(s, o)
    ensures LogOk(ApplyOutside(s, o), k)
  {
    if o.FlushLog? && o.job == k {
      AppendBatchMeaning(s.db.Log(k), o.batch);
    }
  }

  /** The startup sweep needs only that the tables are well formed: from any crash point it gives back the invariant. */
  lemma RestartEstablishesInv(s: Sys, now: int)
    requires forall j :: RowOk(s, j)
    requires forall j :: LogOk(s, j)
    requires forall b :: BoardOk(s, b)
    ensures Inv(Fresh(s.cfg, AbortInterrupted(s.db, now), s.used))
  {
    var t := Fresh(s.cfg, AbortInterrupted(s.db, now), s.used);
    forall j ensures RowOk(t, j) && LogOk(t, j) && BuildOwned(t, j) && RunOwned(t, j) {
      assert RowOk(s, j) && LogOk(s, j);
    }
    forall b ensures BoardOk(t, b) {
      assert BoardOk(s, b);
    }
    forall k: nat ensures SlotSomewhere(t, k) {
      if k < s.cfg.slots { assert t.free[k] == k; }
    }
  }

  lemma DispatchKeepsLogOk(s: Sys, d: DispatchStep, k: JobId)
    requires LogOk(s, k) && DispatchEnabled(s, d)
    ensures LogOk(ApplyDispatch(s, d), k)
  {
    assert ApplyDispatch(s, d).db.frames == s.db.frames;
  }

  lemma BuildKeepsLogOk(s: Sys, j: JobId, b: BuildStep, k: JobId)
    requires LogOk(s, k) && BuildEnabled(s, j, b)
    ensures LogOk(ApplyBuild(s, j, b), k)
  {
    assert ApplyBuild(s, j, b).db.frames == s.db.frames;
  }

  lemma DispatchKeepsInv(s: Sys, d: DispatchStep)
    requires Inv(s) && DispatchEnabled(s, d)
    ensures Inv(ApplyDispatch(s, d))
  {
    var t := ApplyDispatch(s, d);
    hide ApplyDispatch, DispatchEnabled;
    hide RowOk, LogOk, BoardOk, Exclusive, SingleFlight, BuildOwned, RunOwned, HandOk, Distinct, SlotUnique, SlotSomewhere;
    forall j ensures RowOk(t, j) { DispatchKeepsRowOk(s, d, j); }
    forall j ensures LogOk(t, j) { DispatchKeepsLogOk(s, d, j); }
    forall b ensures BoardOk(t, b) { DispatchKeepsBoardOk(s, d, b); }
    forall i, j ensures Exclusive(t.db, i, j) { DispatchKeepsExclusive(s, d, i, j); }
    forall i, j ensures SingleFlight(t.db, i, j) { DispatchKeepsSingleFlight(s, d, i, j); }
    forall j ensures BuildOwned(t, j) { DispatchKeepsBuildOwned(s, d, j); }
    forall j ensures RunOwned(t, j) { DispatchKeepsRunOwned(s, d, j); }
    forall j ensures HandOk(t, j) { DispatchKeepsHandOk(s, d, j); }
    assert s.pc.AtSpawnBuild? ==> BuildOwned(s, s.pc.job);
    DispatchKeepsDistinct(s, d);
    forall k, i, j ensures SlotUnique(t, k, i, j) { DispatchKeepsSlotUnique(s, d, k, i, j); }
    forall k ensures SlotSomewhere(t, k) { DispatchKeepsSlotSomewhere(s, d, k); }
  }

  lemma BuildKeepsInv(s: Sys, j: JobId, b: BuildStep)
    requires Inv(s) && BuildEnabled(s, j, b)
    ensures Inv(ApplyBuild(s, j, b))
  {
    var t := ApplyBuild(s, j, b);
    hide ApplyBuild, BuildEnabled;
    hide RowOk, LogOk, BoardOk, Exclusive, SingleFlight, BuildOwned, RunOwned, HandOk, Distinct, SlotUnique, SlotSomewhere;
    forall k ensures RowOk(t, k) { BuildKeepsRowOk(s, j, b, k); }
    forall k ensures LogOk(t, k) { BuildKeepsLogOk(s, j, b, k); }
    forall k ensures BoardOk(t, k) { BuildKeepsBoardOk(s, j, b, k); }
    forall i, k ensures Exclusive(t.db, i, k) { BuildKeepsExclusive(s, j, b, i, k); }
    forall i, k ensures SingleFlight(t.db, i, k) { BuildKeepsSingleFlight(s, j, b, i, k); }
    forall k ensures BuildOwned(t, k) { BuildKeepsBuildOwned(s, j, b, k); }
    forall k ensures RunOwned(t, k) { BuildKeepsRunOwned(s, j, b, k); }
    forall k ensures HandOk(t, k) { BuildKeepsHandOk(s, j, b, k); }
    BuildKeepsDistinct(s, j, b);
    forall k, i, m ensures SlotUnique(t, k, i, m) { BuildKeepsSlotUnique(s, j, b, k, i, m); }
    forall k ensures SlotSomewhere(t, k) { BuildKeepsSlotSomewhere(s, j, b, k); }
  }

  lemma RunKeepsInv(s: Sys, j: JobId, r: RunStep)
    requires Inv(s) && RunEnabled(s, j, r)
    ensures Inv(ApplyRun(s, j, r))
  {
    var t := ApplyRun(s, j, r);
    forall k ensures RowOk(t, k) { RunKeepsRowOk(s, j, r, k); }
    forall k ensures LogOk(t, k) { assert LogOk(s, k) && t.db.frames == s.db.frames; }
    forall k ensures BoardOk(t, k) { RunKeepsBoardOk(s, j, r, k); }
    forall i, k ensures Exclusive(t.db, i, k) { RunKeepsExclusive(s, j, r, i, k); }
    forall i, k ensures SingleFlight(t.db, i, k) { RunKeepsSingleFlight(s, j, r, i, k); }
    forall k ensures BuildOwned(t, k) { RunKeepsBuildOwned(s, j, r, k); }
    forall k ensures RunOwned(t, k) { RunKeepsRunOwned(s, j, r, k); }
    forall k ensures HandOk(t, k) { RunKeepsHandOk(s, j, r, k); }
    SlotsUntouched(s, t);
  }

  lemma OutsideKeepsInv(s: Sys, o: OutsideStep)
    requires Inv(s) && OutsideEnabled(s, o)
    ensures Inv(ApplyOutside(s, o))
  {
    var t := ApplyOutside(s, o);
    forall k ensures RowOk(t, k) { OutsideKeepsRowOk(s, o, k); }
    forall k ensures LogOk(t, k) { OutsideKeepsLogOk(s, o, k); }
    forall k ensures BoardOk(t, k) { OutsideKeepsBoardOk(s, o, k); }
    forall i, k ensures Exclusive(t.db, i, k) { OutsideKeepsExclusive(s, o, i, k); }
    forall i, k ensures SingleFlight(t.db, i, k) { OutsideKeepsSingleFlight(s, o, i, k); }
    forall k ensures BuildOwned(t, k) { OutsideKeepsBuildOwned(s, o, k); }
    forall k ensures RunOwned(t, k) { OutsideKeepsRunOwned(s, o, k); }
    forall k ensures HandOk(t, k) { OutsideKeepsHandOk(s, o, k); }
    SlotsUntouched(s, t);
  }

  lemma SlotsUntouched(s: Sys, t: Sys)
    requires SlotsConserved(s)
    requires t.cfg == s.cfg && t.free == s.free && t.pc == s.pc && t.builds == s.builds
    ensures SlotsConserved(t)
  {
    forall k, i, j ensures SlotUnique(t, k, i, j) { assert SlotUnique(s, k, i, j); }
    forall k ensures SlotSomewhere(t, k) {
      assert SlotSomewhere(s, k);
      if j :| Holds(s, j, k) { assert Holds(t, j, k); }
    }
  }

  /** Every atomic section, by anyone, keeps the invariant. */
  lemma StepKeepsInv(s: Sys, l: Label)
    requires Inv(s) && Enabled(s, l)
    ensures Inv(Apply(s, l))
  {
    match l
    case Dispatch(d) => DispatchKeepsInv(s, d);
    case Build(j, b) => BuildKeepsInv(s, j, b);
    case Run(j, r) => RunKeepsInv(s, j, r);
    case Outside(o) => OutsideKeepsInv(s, o);
    case Restart(now) => RestartEstablishesInv(s, now);
  }

  /** Hence it holds at every point of every run that starts from well-formed tables. */
  lemma {:induction false} RunKeepsInvariant(s: Sys, ls: seq<Label>)
    requires Inv(s) && Legal(s, ls)
    ensures Inv(After(s, ls))
    decreases |ls|
  {
    if ls != [] {
      StepKeepsInv(s, ls[0]);
      RunKeepsInvariant(Apply(s, ls[0]), ls[1..]);
    }
  }
}

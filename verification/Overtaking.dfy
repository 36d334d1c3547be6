/** Bounded overtaking: a starved job is passed only by jobs that were already ahead of it. */
module Overtaking {
  import opened Options
  import opened Proto
  import opened Tables
  import opened SchedulerSpec
  import opened Scheduler
  import opened Protocol
  import opened Invariant
  import opened Theorems

  /** The two stages are told apart by the state their waiting rows are in. */
  type Stage = st: JobState | st == Submitted || st == AwaitingBoard witness Submitted

  /** The jobs that can still pass job j at this stage: not past the stage, and not submitted after tau. */
  function Ahead(db: Db, st: Stage, j: JobId, tau: int): set<JobId> {
    set k | k in db.jobs && k != j && db.jobs[k].state.Rank() <= st.Rank() && db.jobs[k].submittedAt <= tau
  }

  /** The job the dispatcher has picked for this stage and not yet tried to claim. */
  function InHand(pc: Pc, st: Stage): Option<JobId> {
    match pc
    case AtClaimRun(k, _, _) => if st == AwaitingBoard then Some(k) else None
    case AtAcquireSlot(k, _) => if st == Submitted then Some(k) else None
    case AtClaimBuild(k, _, _) => if st == Submitted then Some(k) else None
    case _ => None
  }

  /** Job j, submitted at tau, is starved, waits at the stage, and nothing but its rank keeps the scheduler from
      taking it. */
  ghost predicate Ripe(s: Sys, st: Stage, j: JobId, tau: int, now: int) {
    && InState(s.db, j, st) && s.db.jobs[j].submittedAt == tau
    && Starved(s.db.jobs[j], s.cfg.starvationMs, now)
    && |WaitingIds(s.db, st)| <= SCAN_LIMIT
    && (st == Submitted ==> !s.db.BuildingTar(s.db.jobs[j].tar))
    && (st == AwaitingBoard ==> Placeable(s.db, s.db.jobs[j].selector))
  }

  predicate Picks(l: Label, st: Stage) {
    l.Dispatch? && (if st == Submitted then l.d.PickBuild? else l.d.PickRun?)
  }

  /** Whether j was ripe at the stage's last pick: each pick of the stage looks again. */
  ghost predicate RipeAfter(s: Sys, l: Label, st: Stage, j: JobId, tau: int, ripe: bool) {
    if Picks(l, st) then Ripe(s, st, j, tau, l.d.now) else ripe
  }

  /** The section claims, for this stage, a job other than j. */
  predicate Overtakes(s: Sys, l: Label, st: Stage, j: JobId) {
    && l.Dispatch?
    && (st == Submitted ==>
          l.d.ClaimBuild? && s.pc.AtClaimBuild? && s.pc.job != j && SubmittedToBuilding(s.db, s.pc.job, s.pc.now).Ok?)
    && (st == AwaitingBoard ==>
          l.d.ClaimRun? && s.pc.AtClaimRun? && s.pc.job != j && AwaitingToRunning(s.db, s.pc.job, s.pc.board).Ok?)
  }

  /** How often another job is claimed on a pick at which j was ripe. */
  ghost function Overtakings(s: Sys, ls: seq<Label>, st: Stage, j: JobId, tau: int, ripe: bool): nat
    requires Legal(s, ls)
    decreases |ls|
  {
    if ls == [] then 0
    else (if ripe && Overtakes(s, ls[0], st, j) then 1 else 0)
         + Overtakings(Apply(s, ls[0]), ls[1..], st, j, tau, RipeAfter(s, ls[0], st, j, tau, ripe))
  }

  /** Whoever is claimed on such a pick was not submitted after j. */
  ghost predicate NeverByLater(s: Sys, ls: seq<Label>, st: Stage, j: JobId, tau: int, ripe: bool)
    requires Legal(s, ls)
    decreases |ls|
  {
    ls == []
    || ((ripe && Overtakes(s, ls[0], st, j) ==> NotLater(s, st, tau))
        && NeverByLater(Apply(s, ls[0]), ls[1..], st, j, tau, RipeAfter(s, ls[0], st, j, tau, ripe)))
  }

  /** The pick in hand, if its row still exists, was not submitted after tau. */
  predicate NotLater(s: Sys, st: Stage, tau: int) {
    var h := InHand(s.pc, st);
    h.Some? && h.value in s.db.jobs ==> s.db.jobs[h.value].submittedAt <= tau
  }

  /** What a pick at which j was ripe left in the dispatcher's hand. */
  predicate HandNotLater(s: Sys, st: Stage, j: JobId, tau: int) { InHand(s.pc, st) != Some(j) ==> NotLater(s, st, tau) }

  /** New jobs are submitted after tau: time does not run backwards past j's submission. */
  predicate LaterSubmit(l: Label, tau: int) { l.Outside? && l.o.Submit? ==> l.o.now > tau }

  predicate LaterSubmits(ls: seq<Label>, tau: int) { forall i | 0 <= i < |ls| :: LaterSubmit(ls[i], tau) }

  // ---- one section --------------------------------------------------------------

  /** A build pick made while j is ripe takes j or a job ahead of it. */
  lemma BuildPickAhead(s: Sys, rows: seq<JobRow>, k: JobId, now: int, j: JobId, tau: int)
    requires Listing(s.db, Submitted, SCAN_LIMIT, rows)
    requires BuildPick(s.db, s.cfg.starvationMs, now, rows, Some(k))
    requires Ripe(s, Submitted, j, tau, now)
    ensures k == j || k in Ahead(s.db, Submitted, j, tau)
  {
    ListingComplete(s.db, Submitted, rows, j);
    var m :| 0 <= m < |rows| && rows[m].id == j;
    var i :| 0 <= i < |rows| && rows[i].id == k && BuildChoice(s.db, s.cfg.starvationMs, now, rows, i);
    assert Precedes(rows[i], rows[m], s.cfg.starvationMs, now);
  }

  /** A run pick made while j is ripe takes j or a job ahead of it. */
  lemma RunPickAhead(s: Sys, rows: seq<JobRow>, p: Placement, now: int, j: JobId, tau: int)
    requires Listing(s.db, AwaitingBoard, SCAN_LIMIT, rows)
    requires RunPick(s.db, s.cfg.starvationMs, now, rows, Some(p))
    requires Ripe(s, AwaitingBoard, j, tau, now)
    ensures p.job == j || p.job in Ahead(s.db, AwaitingBoard, j, tau)
  {
    ListingComplete(s.db, AwaitingBoard, rows, j);
    var m :| 0 <= m < |rows| && rows[m].id == j;
    var i :| 0 <= i < |rows| && rows[i].id == p.job && RunChoice(s.db, s.cfg.starvationMs, now, rows, i, p.board);
    assert Precedes(rows[i], rows[m], s.cfg.starvationMs, now);
  }

  /** The set ahead of j only ever shrinks, whatever the section, as long as new jobs are submitted later. */
  lemma AheadShrinks(s: Sys, l: Label, st: Stage, j: JobId, tau: int)
    requires Inv(s) && Enabled(s, l) && LaterSubmit(l, tau)
    ensures Ahead(Apply(s, l).db, st, j, tau) <= Ahead(s.db, st, j, tau)
  {
    forall k | k in Ahead(Apply(s, l).db, st, j, tau) ensures k in Ahead(s.db, st, j, tau) {
      StaysAhead(s, l, st, j, tau, k);
    }
  }

  lemma StaysAhead(s: Sys, l: Label, st: Stage, j: JobId, tau: int, k: JobId)
    requires Inv(s) && Enabled(s, l) && LaterSubmit(l, tau) && k in Ahead(Apply(s, l).db, st, j, tau)
    ensures k in Ahead(s.db, st, j, tau)
  {
    StepKeepsInv(s, l);
    assert RowOk(s, k) && RowOk(Apply(s, l), k);
    StepOnward(s, l, k);
    if k !in s.used { OnlySubmitAdds(s, l, k); }
  }

  /** A job id is new only by its own submission. */
  lemma OnlySubmitAdds(s: Sys, l: Label, k: JobId)
    requires Enabled(s, l) && k !in s.used && k in Apply(s, l).used
    ensures l.Outside? && l.o.Submit? && l.o.row.id == k && l.o.row.submittedAt == l.o.now
    ensures k !in s.db.jobs && k in Apply(s, l).db.jobs ==> Apply(s, l).db.jobs[k].submittedAt == l.o.now
  {}

  /** After a pick of the stage at which j is ripe, the hand holds nothing later than j. */
  lemma PickHandNotLater(s: Sys, l: Label, st: Stage, j: JobId, tau: int)
    requires Enabled(s, l) && Picks(l, st) && Ripe(s, st, j, tau, l.d.now)
    ensures HandNotLater(Apply(s, l), st, j, tau)
  {
    match l.d
    case PickBuild(rows, Some(k), now) => BuildPickAhead(s, rows, k, now, j, tau);
    case PickRun(rows, Some(p), now) => RunPickAhead(s, rows, p, now, j, tau);
    case _ =>
  }

  lemma DispatchKeepsPick(s: Sys, d: DispatchStep, st: Stage)
    requires DispatchEnabled(s, d) && !Picks(Dispatch(d), st)
    ensures var h := InHand(ApplyDispatch(s, d).pc, st); h.Some? ==> h == InHand(s.pc, st)
  {}

  lemma BuildLeavesPc(s: Sys, j: JobId, b: BuildStep)
    requires BuildEnabled(s, j, b)
    ensures ApplyBuild(s, j, b).pc == s.pc
  {}

  lemma RunLeavesPc(s: Sys, j: JobId, r: RunStep)
    requires RunEnabled(s, j, r)
    ensures ApplyRun(s, j, r).pc == s.pc
  {}

  lemma PickStays(s: Sys, l: Label, st: Stage)
    requires Enabled(s, l) && !Picks(l, st)
    ensures var h := InHand(Apply(s, l).pc, st); h.Some? ==> h == InHand(s.pc, st)
  {
    hide ApplyDispatch, ApplyBuild, ApplyRun, DispatchEnabled, BuildEnabled, RunEnabled, OutsideDb, AbortInterrupted;
    match l
    case Dispatch(d) => DispatchKeepsPick(s, d, st);
    case Build(i, b) => BuildLeavesPc(s, i, b);
    case Run(i, r) => RunLeavesPc(s, i, r);
    case Outside(o) =>
    case Restart(now) =>
  }

  lemma HandIsUsed(s: Sys, st: Stage)
    requires Inv(s) && InHand(s.pc, st).Some?
    ensures InHand(s.pc, st).value in s.used
  {
    assert HandOk(s, InHand(s.pc, st).value);
  }

  /** Any other section leaves the pick in hand as it is, or loses it; its row does not reappear or change its date. */
  lemma HandStays(s: Sys, l: Label, st: Stage)
    requires Inv(s) && Enabled(s, l) && !Picks(l, st)
    ensures var t := Apply(s, l);
            var h := InHand(t.pc, st);
            h.Some? ==> h == InHand(s.pc, st)
                        && (h.value in t.db.jobs ==>
                              h.value in s.db.jobs && t.db.jobs[h.value].submittedAt == s.db.jobs[h.value].submittedAt)
  {
    var h := InHand(s.pc, st);
    PickStays(s, l, st);
    if h.Some? {
      HandIsUsed(s, st);
      StepOnward(s, l, h.value);
    }
    hide Inv, Enabled, Apply, InHand;
  }

  lemma StepKeepsHand(s: Sys, l: Label, st: Stage, j: JobId, tau: int, ripe: bool)
    requires Inv(s) && Enabled(s, l) && (ripe ==> HandNotLater(s, st, j, tau))
    ensures RipeAfter(s, l, st, j, tau, ripe) ==> HandNotLater(Apply(s, l), st, j, tau)
  {
    hide Inv, Enabled, Apply, Ripe;
    if Picks(l, st) {
      if Ripe(s, st, j, tau, l.d.now) { PickHandNotLater(s, l, st, j, tau); }
    } else {
      HandStays(s, l, st);
    }
  }

  /** A claimed job is past its stage. */
  lemma ClaimedLeaves(s: Sys, l: Label, st: Stage, j: JobId, tau: int)
    requires Enabled(s, l) && Overtakes(s, l, st, j) && HandNotLater(s, st, j, tau)
    ensures NotLater(s, st, tau) && s.pc.job in Ahead(s.db, st, j, tau) && s.pc.job !in Ahead(Apply(s, l).db, st, j, tau)
  {}

  /** Each section pays for the overtaking it does out of the jobs ahead. */
  lemma OvertakingPaid(s: Sys, l: Label, st: Stage, j: JobId, tau: int, ripe: bool)
    requires Inv(s) && Enabled(s, l) && LaterSubmit(l, tau) && (ripe ==> HandNotLater(s, st, j, tau))
    ensures |Ahead(Apply(s, l).db, st, j, tau)| + (if ripe && Overtakes(s, l, st, j) then 1 else 0) <= |Ahead(s.db, st, j, tau)|
    ensures ripe && Overtakes(s, l, st, j) ==> NotLater(s, st, tau)
  {
    hide Inv, Enabled, Apply, Ahead, HandNotLater, NotLater;
    AheadShrinks(s, l, st, j, tau);
    SubsetSize(Ahead(Apply(s, l).db, st, j, tau), Ahead(s.db, st, j, tau));
    if ripe && Overtakes(s, l, st, j) { ClaimedLeaves(s, l, st, j, tau); }
  }

  /** Main result, for every run in which new jobs are submitted later: on picks made while j is starved and
      could be taken, with at most 200 rows waiting, other jobs are claimed at most as often as there are jobs
      ahead of j, and never one that was submitted after it. */
  lemma {:induction false} BoundedOvertaking(s: Sys, ls: seq<Label>, st: Stage, j: JobId, tau: int, ripe: bool)
    requires Inv(s) && Legal(s, ls) && LaterSubmits(ls, tau) && (ripe ==> HandNotLater(s, st, j, tau))
    ensures Overtakings(s, ls, st, j, tau, ripe) <= |Ahead(s.db, st, j, tau)|
    ensures NeverByLater(s, ls, st, j, tau, ripe)
    decreases |ls|
  {
    if ls != [] {
      hide Inv, Enabled, Apply, Ahead, HandNotLater;
      assert LaterSubmit(ls[0], tau);
      OvertakingPaid(s, ls[0], st, j, tau, ripe);
      StepKeepsHand(s, ls[0], st, j, tau, ripe);
      StepKeepsInv(s, ls[0]);
      BoundedOvertaking(Apply(s, ls[0]), ls[1..], st, j, tau, RipeAfter(s, ls[0], st, j, tau, ripe));
    }
  }
}

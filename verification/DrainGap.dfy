/** A run that shutting down overlooks: the drain flag is up and the run registry is empty, but a row is Running. */
module DrainGap {
  import opened Options
  import opened Proto
  import opened Tables
  import opened SchedulerSpec
  import opened Protocol
  import opened Invariant
  import opened Theorems

  const BUILT := JobRow(0, Interactive, BoardSelector("k", None, None), AwaitingBoard, None, None, 0, Some(0), None, "", Some(""), false)
  const SPARE := BoardRow("b", "k", None, Healthy, None, 0, None)

  function Before(): Db { Db(map[0 := BUILT], map["b" := SPARE], map[]) }

  function Claimed(): Db {
    Db(map[0 := BUILT.(state := Running, boardId := Some("b"))], map["b" := SPARE.(lastUsedAt := Some(0))], map[])
  }

  function Stand(db: Db, draining: bool, pc: Pc): Sys {
    Sys(Config(0, 0, 1), db, {0}, [], {}, {}, draining, pc, map[], map[])
  }

  const PICK := Dispatch(PickRun([BUILT], Some(Placement(0, "b")), 0))

  lemma Boots()
    ensures Booted(Stand(Before(), false, AtTop))
  {
    assert Orphans(Before()) == {};
    var swept := AbortInterrupted(Before(), 0);
    assert swept.jobs == Before().jobs && swept.frames == Before().frames;
    var s := Fresh(Config(0, 0, 1), Before(), {0});
    assert s == Stand(Before(), false, AtTop);
    assert WellFormed(s) by { assert forall j :: LogOk(s, j); }
  }

  lemma Picks()
    ensures var s := Stand(Before(), false, AtPickRun);
            Enabled(s, PICK) && Apply(s, PICK) == Stand(Before(), false, AtClaimRun(0, "b", 0))
  {
    var rows := [BUILT];
    assert rows[0].id == 0;
    assert Eligible(Before(), BUILT.selector, "b");
    assert LruLe(SPARE, SPARE) by { assert IdLe("b", "b"); }
    assert RunChoice(Before(), 0, 0, rows, 0, "b");
  }

  lemma Claims()
    ensures var s := Stand(Before(), false, AtClaimRun(0, "b", 0));
            Enabled(s, Dispatch(ClaimRun)) && Apply(s, Dispatch(ClaimRun)) == Stand(Claimed(), false, AtRegisterRun(0, "b"))
  {
    var r := AwaitingToRunning(Before(), 0, "b");
    assert r.Ok? && r.value.jobs == Claimed().jobs;
    assert TouchLastUsed(r.value, "b", 0).value.boards == Claimed().boards;
  }

  function Run(): seq<Label> { [Dispatch(ReadDrain)] + ([PICK] + ([Dispatch(ClaimRun)] + ([Outside(StartDrain)] + []))) }

  lemma First(s: Sys, l: Label, ls: seq<Label>)
    requires Enabled(s, l) && Legal(Apply(s, l), ls)
    ensures Legal(s, [l] + ls) && After(s, [l] + ls) == After(Apply(s, l), ls)
  {
    assert ([l] + ls)[1..] == ls;
  }

  lemma Goes()
    ensures var s := Stand(Before(), false, AtTop);
            Legal(s, Run()) && After(s, Run()) == Stand(Claimed(), true, AtRegisterRun(0, "b"))
  {
    Picks();
    Claims();
    var s0, s1 := Stand(Before(), false, AtTop), Stand(Before(), false, AtPickRun);
    var s2, s3 := Stand(Before(), false, AtClaimRun(0, "b", 0)), Stand(Claimed(), false, AtRegisterRun(0, "b"));
    assert Apply(s0, Dispatch(ReadDrain)) == s1;
    assert Apply(s3, Outside(StartDrain)) == Stand(Claimed(), true, AtRegisterRun(0, "b"));
    hide Apply, Stand, Before, Claimed, DispatchEnabled;
    First(s3, Outside(StartDrain), []);
    First(s2, Dispatch(ClaimRun), [Outside(StartDrain)] + []);
    First(s1, PICK, [Dispatch(ClaimRun)] + ([Outside(StartDrain)] + []));
    First(s0, Dispatch(ReadDrain), [PICK] + ([Dispatch(ClaimRun)] + ([Outside(StartDrain)] + [])));
  }

  /** So a drain that finds the run registry empty does not mean that nothing runs, nor that everyone was told. */
  lemma DrainCanOverlookRun()
    ensures exists s0, ls, s :: Reached(s0, ls, s) && s.draining && s.cancellation == {} && InState(s.db, 0, Running)
  {
    Boots();
    Goes();
    var s := Stand(Claimed(), true, AtRegisterRun(0, "b"));
    assert s.draining && s.cancellation == {} && InState(s.db, 0, Running);
    hide Booted, Legal, After, Stand, Claimed, Before, Run;
    assert Reached(Stand(Before(), false, AtTop), Run(), s);
  }
}

/** A board's failure counter and health as a function of its whole history. */
module BoardHistory {
  import opened Options
  import opened Proto
  import opened Tables

  /** What can happen to a board after its insertion. */
  datatype BoardEvent =
    | RunEnded(outcome: JobOutcome, releasedCleanly: bool)
    | OperatorQuarantines(reason: string)
    | OperatorUnquarantines

  function Happen(db: Db, id: BoardId, e: BoardEvent, threshold: nat): Db
    requires id in db.boards
    ensures id in Happen(db, id, e, threshold).boards
  {
    match e
    case RunEnded(o, clean) => ApplyOutcomeToBoard(db, id, o, clean, threshold).value
    case OperatorQuarantines(reason) => Quarantine(db, id, reason).value
    case OperatorUnquarantines => Unquarantine(db, id).value
  }

  /** The tables after these events on a freshly inserted, healthy board. */
  function AfterHistory(db: Db, b: BoardRow, es: seq<BoardEvent>, threshold: nat): Db
    requires b.id !in db.boards
    ensures b.id in AfterHistory(db, b, es, threshold).boards
  {
    if es == [] then InsertBoard(db, b).value
    else Happen(AfterHistory(db, b, es[..|es| - 1], threshold), b.id, es[|es| - 1], threshold)
  }

  /** The outcomes that speak against the board: an infra error, and silence after which the probe was not released. */
  predicate Counts(e: BoardEvent) {
    match e
    case RunEnded(Fail(InfraErr(_, _)), _) => true
    case RunEnded(Timeout(Inactivity, _), releasedCleanly) => !releasedCleanly
    case _ => false
  }

  predicate Resets(e: BoardEvent) { e.OperatorUnquarantines? || (e.RunEnded? && !Counts(e)) }

  /** The position after the last event that resets the counter. */
  function LastReset(es: seq<BoardEvent>): (n: nat)
    ensures n <= |es| && (n > 0 ==> Resets(es[n - 1])) && forall i | n <= i < |es| :: !Resets(es[i])
  {
    if es == [] then 0 else if Resets(es[|es| - 1]) then |es| else LastReset(es[..|es| - 1])
  }

  function CountFrom(es: seq<BoardEvent>, from: nat): nat
    decreases |es|
  {
    if |es| <= from then 0 else CountFrom(es[..|es| - 1], from) + if Counts(es[|es| - 1]) then 1 else 0
  }

  /** The counter is the number of infra failures since the last outcome that was none, unquarantine or
      insertion: a quarantine by the operator does not touch it. Being quarantined and having a reason are the same. */
  lemma {:induction false} CounterIsHistory(db: Db, b: BoardRow, es: seq<BoardEvent>, threshold: nat)
    requires b.id !in db.boards && b.health == Healthy
    ensures var row := AfterHistory(db, b, es, threshold).boards[b.id];
            && row.infraFailures == CountFrom(es, LastReset(es))
            && (row.health == Quarantined <==> row.quarantineReason.Some?)
  {
    if es != [] {
      var init := es[..|es| - 1];
      CounterIsHistory(db, b, init, threshold);
    }
  }

  predicate BelowWhileHealthy(db: Db, b: BoardRow, es: seq<BoardEvent>, threshold: nat)
    requires b.id !in db.boards
  {
    var row := AfterHistory(db, b, es, threshold).boards[b.id];
    row.health == Healthy ==> row.infraFailures < threshold
  }

  /** A healthy board is always below the threshold, whatever its history, exactly if the configured threshold is not zero. */
  lemma HealthyBelowThresholdIff(threshold: nat)
    ensures (forall db: Db, b: BoardRow, es: seq<BoardEvent> | b.id !in db.boards && b.health == Healthy :: BelowWhileHealthy(db, b, es, threshold))
            <==> threshold >= 1
  {
    if threshold >= 1 {
      forall db: Db, b: BoardRow, es: seq<BoardEvent> | b.id !in db.boards && b.health == Healthy ensures BelowWhileHealthy(db, b, es, threshold) {}
    } else {
      var b := BoardRow("b", "k", None, Healthy, None, 0, None);
      assert !BelowWhileHealthy(Db(map[], map[], map[]), b, [], threshold);
    }
  }
}

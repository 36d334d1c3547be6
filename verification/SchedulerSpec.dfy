/** What the scheduler's two picks promise, independent of how they scan and sort. */
module SchedulerSpec {
  import opened Options
  import opened Proto
  import opened Tables

  /** `MAX_SUBMITTED_SCAN`. */
  const SCAN_LIMIT: nat := 200

  // ---- order on jobs --------------------------------------------------------

  predicate Starved(row: JobRow, threshold: int, now: int) {
    row.priority == Scheduled && now - row.submittedAt >= threshold
  }

  function Promote(row: JobRow, threshold: int, now: int): JobRow {
    if Starved(row, threshold, now) then row.(priority := Interactive) else row
  }

  /** `(priority weight, submitted_at)`, lexicographically. */
  predicate JobLe(a: JobRow, b: JobRow) {
    a.priority.Weight() < b.priority.Weight()
    || (a.priority == b.priority && a.submittedAt <= b.submittedAt)
  }

  predicate Precedes(a: JobRow, b: JobRow, threshold: int, now: int) {
    JobLe(Promote(a, threshold, now), Promote(b, threshold, now))
  }

  // ---- order on boards ------------------------------------------------------

  predicate IdLe(a: string, b: string) {
    a == [] || (b != [] && (a[0] < b[0] || (a[0] == b[0] && IdLe(a[1..], b[1..]))))
  }

  /** Never-used boards first, then the least recently used, then by id. */
  predicate LruLe(a: BoardRow, b: BoardRow) {
    match (a.lastUsedAt, b.lastUsedAt)
    case (None, None) => IdLe(a.id, b.id)
    case (None, Some(_)) => true
    case (Some(_), None) => false
    case (Some(x), Some(y)) => x < y || (x == y && IdLe(a.id, b.id))
  }

  // ---- the rows the SQL hands over ------------------------------------------

  predicate Waiting(db: Db, st: JobState, id: JobId) { id in db.jobs && db.jobs[id].state == st }

  function WaitingIds(db: Db, st: JobState): set<JobId> { set id | id in db.jobs && db.jobs[id].state == st }

  ghost predicate Listed(rows: seq<JobRow>, id: JobId) { exists i :: 0 <= i < |rows| && rows[i].id == id }

  /** `SELECT * FROM job WHERE state = st ORDER BY priority, submitted_at LIMIT limit`;
      rows with equal keys come in any order. */
  ghost predicate Listing(db: Db, st: JobState, limit: nat, rows: seq<JobRow>) {
    && |rows| <= limit
    && (forall i | 0 <= i < |rows| :: Waiting(db, st, rows[i].id) && db.jobs[rows[i].id] == rows[i])
    && (forall i, j | 0 <= i < j < |rows| :: rows[i].id != rows[j].id)
    && (forall i, j | 0 <= i < j < |rows| :: JobLe(rows[i], rows[j]))
    && (forall id | Waiting(db, st, id) && !Listed(rows, id) ::
          |rows| == limit && forall i | 0 <= i < |rows| :: JobLe(rows[i], db.jobs[id]))
  }

  /** `find_healthy_for_selector`, clause by clause. */
  predicate Eligible(db: Db, sel: BoardSelector, b: BoardId) {
    && b in db.boards
    && db.boards[b].kind == sel.kind
    && db.boards[b].health == Healthy
    && !db.RunningOn(b)
    && (sel.instance.Some? ==> b == sel.instance.value)
    && (sel.wiringProfile.Some? ==> db.boards[b].wiringProfile == Some(sel.wiringProfile.value))
  }

  ghost predicate Placeable(db: Db, sel: BoardSelector) { exists b :: Eligible(db, sel, b) }

  // ---- the picks --------------------------------------------------------------

  /** The buildable pick over the scanned rows: a first row, in promoted order, whose tar nobody builds. */
  predicate BuildPick(db: Db, threshold: int, now: int, rows: seq<JobRow>, pick: Option<JobId>) {
    match pick
    case None => forall i | 0 <= i < |rows| :: db.BuildingTar(rows[i].tar)
    case Some(id) => exists i :: 0 <= i < |rows| && rows[i].id == id && BuildChoice(db, threshold, now, rows, i)
  }

  predicate BuildChoice(db: Db, threshold: int, now: int, rows: seq<JobRow>, i: int)
    requires 0 <= i < |rows|
  {
    && !db.BuildingTar(rows[i].tar)
    && forall k | 0 <= k < |rows| && !db.BuildingTar(rows[k].tar) :: Precedes(rows[i], rows[k], threshold, now)
  }

  datatype Placement = Placement(job: JobId, board: BoardId)

  /** The runnable pick over the scanned rows: a first row, in promoted order, that some board can take,
      with the least recently used such board. */
  ghost predicate RunPick(db: Db, threshold: int, now: int, rows: seq<JobRow>, pick: Option<Placement>) {
    match pick
    case None => forall i | 0 <= i < |rows| :: !Placeable(db, rows[i].selector)
    case Some(p) => exists i :: 0 <= i < |rows| && rows[i].id == p.job && RunChoice(db, threshold, now, rows, i, p.board)
  }

  ghost predicate RunChoice(db: Db, threshold: int, now: int, rows: seq<JobRow>, i: int, b: BoardId)
    requires 0 <= i < |rows|
  {
    && Eligible(db, rows[i].selector, b)
    && (forall c | Eligible(db, rows[i].selector, c) :: LruLe(db.boards[b], db.boards[c]))
    && (forall k | 0 <= k < |rows| && Placeable(db, rows[k].selector) :: Precedes(rows[i], rows[k], threshold, now))
  }
}

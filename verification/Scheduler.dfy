/** The scheduler's scans and sorts, proved to make the picks of SchedulerSpec, and what those picks are
    worth: the best choice among everything waiting, exactly as long as the 200-row scan sees it all. */
module Scheduler {
  import opened Options
  import opened Proto
  import opened Tables
  import opened SchedulerSpec

  /** Rows and boards are filed under their primary keys. */
  ghost predicate Keyed(db: Db) {
    && (forall id | id in db.jobs :: db.jobs[id].id == id)
    && (forall b | b in db.boards :: db.boards[b].id == b)
  }

  // ---- library sort ------------------------------------------------------------

  predicate Sorted<T>(le: (T, T) -> bool, xs: seq<T>) {
    forall i, j | 0 <= i < j < |xs| :: le(xs[i], xs[j])
  }

  ghost predicate TotalPreorder<T(!new)>(le: (T, T) -> bool) {
    && (forall x, y :: le(x, y) || le(y, x))
    && (forall x, y, z :: le(x, y) && le(y, z) ==> le(x, z))
  }

  function Insert<T>(le: (T, T) -> bool, x: T, xs: seq<T>): seq<T> {
    if xs == [] || le(x, xs[0]) then [x] + xs else [xs[0]] + Insert(le, x, xs[1..])
  }

  function SortBy<T>(le: (T, T) -> bool, xs: seq<T>): seq<T> {
    if xs == [] then [] else Insert(le, xs[0], SortBy(le, xs[1..]))
  }

  lemma {:induction false} InsertSorted<T(!new)>(le: (T, T) -> bool, x: T, xs: seq<T>)
    requires TotalPreorder(le) && Sorted(le, xs)
    ensures Sorted(le, Insert(le, x, xs)) && multiset(Insert(le, x, xs)) == multiset{x} + multiset(xs)
    ensures |Insert(le, x, xs)| == |xs| + 1
  {
    if xs != [] {
      assert xs == [xs[0]] + xs[1..];
      if !le(x, xs[0]) {
        InsertSorted(le, x, xs[1..]);
        var r := Insert(le, x, xs[1..]);
        forall i | 0 <= i < |r| ensures le(xs[0], r[i]) {
          assert r[i] in multiset(r);
          assert r[i] == x || r[i] in xs[1..];
        }
      }
    }
  }

  lemma {:induction false} SortBySorted<T(!new)>(le: (T, T) -> bool, xs: seq<T>)
    requires TotalPreorder(le)
    ensures Sorted(le, SortBy(le, xs)) && multiset(SortBy(le, xs)) == multiset(xs) && |SortBy(le, xs)| == |xs|
  {
    if xs != [] {
      assert xs == [xs[0]] + xs[1..];
      SortBySorted(le, xs[1..]);
      InsertSorted(le, xs[0], SortBy(le, xs[1..]));
    }
  }

  lemma SameElements<T>(a: seq<T>, b: seq<T>)
    requires multiset(a) == multiset(b)
    ensures forall x :: x in a <==> x in b
  {
    forall x ensures x in a <==> x in b {
      assert x in a <==> x in multiset(a);
      assert x in b <==> x in multiset(b);
    }
  }

  // ---- the two orders ------------------------------------------------------------

  lemma {:induction false} IdLeTotal(a: string, b: string)
    ensures IdLe(a, b) || IdLe(b, a)
    ensures IdLe(a, b) && IdLe(b, a) ==> a == b
  {
    if a != [] && b != [] && a[0] == b[0] {
      IdLeTotal(a[1..], b[1..]);
      assert a == [a[0]] + a[1..] && b == [b[0]] + b[1..];
    }
  }

  lemma {:induction false} IdLeTransitive(a: string, b: string, c: string)
    requires IdLe(a, b) && IdLe(b, c)
    ensures IdLe(a, c)
  {
    if a != [] && a[0] == b[0] && b[0] == c[0] {
      IdLeTransitive(a[1..], b[1..], c[1..]);
    }
  }

  lemma LruLeTotal()
    ensures TotalPreorder(LruLe)
  {
    forall x, y ensures LruLe(x, y) || LruLe(y, x) { IdLeTotal(x.id, y.id); }
    forall x, y, z | LruLe(x, y) && LruLe(y, z) ensures LruLe(x, z) {
      if IdLe(x.id, y.id) && IdLe(y.id, z.id) { IdLeTransitive(x.id, y.id, z.id); }
    }
  }

  /** Among boards, never-used first, then oldest use, then id: no ties are left. */
  lemma LruLeAntisymmetric(x: BoardRow, y: BoardRow)
    requires LruLe(x, y) && LruLe(y, x)
    ensures x.id == y.id
  {
    IdLeTotal(x.id, y.id);
  }

  // ---- what the orders mean, on the fields -----------------------------------------------

  /** A prefix comes before its extensions, and otherwise the smaller character at the first difference decides. */
  ghost predicate Alphabetical(a: string, b: string) {
    a <= b || exists k :: 0 <= k < |a| && k < |b| && a[..k] == b[..k] && a[k] < b[k]
  }

  lemma {:induction false} IdLeMeaning(a: string, b: string)
    ensures IdLe(a, b) <==> Alphabetical(a, b)
  {
    if a != [] && b != [] {
      hide Alphabetical;
      AlphabeticalStep(a, b);
      AlphabeticalRest(a, b);
      if a[0] == b[0] { IdLeMeaning(a[1..], b[1..]); }
    }
  }

  /** The first characters decide, or else the rest does. */
  lemma AlphabeticalStep(a: string, b: string)
    requires a != [] && b != []
    ensures Alphabetical(a, b) ==> a[0] < b[0] || (a[0] == b[0] && Alphabetical(a[1..], b[1..]))
  {
    if k :| 0 <= k < |a| && k < |b| && a[..k] == b[..k] && a[k] < b[k] {
      if k > 0 {
        assert a[0] == a[..k][0] == b[..k][0] == b[0];
        assert a[1..][..k - 1] == a[..k][1..] && b[1..][..k - 1] == b[..k][1..];
        assert a[1..][k - 1] < b[1..][k - 1];
      }
    } else if a <= b {
      assert a[0] == b[0] && a[1..] <= b[1..];
    }
  }

  lemma AlphabeticalRest(a: string, b: string)
    requires a != [] && b != []
    ensures a[0] < b[0] || (a[0] == b[0] && Alphabetical(a[1..], b[1..])) ==> Alphabetical(a, b)
  {
    if a[0] < b[0] {
      assert a[..0] == b[..0];
    } else if a[0] == b[0] && Alphabetical(a[1..], b[1..]) {
      if k :| 0 <= k < |a[1..]| && k < |b[1..]| && a[1..][..k] == b[1..][..k] && a[1..][k] < b[1..][k] {
        assert a[..k + 1] == [a[0]] + a[1..][..k] && b[..k + 1] == [b[0]] + b[1..][..k];
        assert a[k + 1] < b[k + 1];
      } else {
        assert a == [a[0]] + a[1..] && b == [b[0]] + b[1..];
        assert a <= b;
      }
    }
  }

  /** Not used after the other: a board never used goes before every board that was, an older use before a later
      one, and the id decides between boards whose last use is the same. */
  ghost predicate UsedFirst(a: BoardRow, b: BoardRow) {
    && (b.lastUsedAt.None? ==> a.lastUsedAt.None?)
    && (a.lastUsedAt.Some? && b.lastUsedAt.Some? ==> a.lastUsedAt.value <= b.lastUsedAt.value)
    && (a.lastUsedAt == b.lastUsedAt ==> Alphabetical(a.id, b.id))
  }

  lemma LruLeMeaning(a: BoardRow, b: BoardRow)
    ensures LruLe(a, b) <==> UsedFirst(a, b)
  {
    IdLeMeaning(a.id, b.id);
    hide IdLe, Alphabetical;
  }

  /** The order of the persisted columns: interactive jobs first, then the earlier submission. */
  predicate Sooner(a: JobRow, b: JobRow) {
    (a.priority.Interactive? && b.priority.Scheduled?) || (a.priority == b.priority && a.submittedAt <= b.submittedAt)
  }

  lemma JobLeMeaning(a: JobRow, b: JobRow)
    ensures JobLe(a, b) <==> Sooner(a, b)
  {}

  /** Interactive, or waiting at least as long as the threshold. */
  predicate Urgent(row: JobRow, threshold: int, now: int) {
    row.priority.Interactive? || row.submittedAt + threshold <= now
  }

  /** Urgent jobs first, then the earlier submission. */
  predicate GoesFirst(a: JobRow, b: JobRow, threshold: int, now: int) {
    if Urgent(a, threshold, now) != Urgent(b, threshold, now) then Urgent(a, threshold, now)
    else a.submittedAt <= b.submittedAt
  }

  lemma PrecedesMeaning(a: JobRow, b: JobRow, threshold: int, now: int)
    ensures Precedes(a, b, threshold, now) <==> GoesFirst(a, b, threshold, now)
  {}

  // ---- the queries -------------------------------------------------------------

  /** `list_submitted` / `list_awaiting_board`. */
  method ListByState(db: Db, st: JobState, limit: nat) returns (rows: seq<JobRow>)
    requires Keyed(db)
    ensures Listing(db, st, limit, rows)
    ensures forall i, j | 0 <= i < j < |rows| :: Sooner(rows[i], rows[j])
    ensures forall i, id | 0 <= i < |rows| && Waiting(db, st, id) && !Listed(rows, id) :: Sooner(rows[i], db.jobs[id])
  {
    rows := FirstRows(db, st, limit);
    forall i, j | 0 <= i < j < |rows| ensures Sooner(rows[i], rows[j]) { JobLeMeaning(rows[i], rows[j]); }
    forall i, id | 0 <= i < |rows| && Waiting(db, st, id) && !Listed(rows, id) ensures Sooner(rows[i], db.jobs[id]) {
      JobLeMeaning(rows[i], db.jobs[id]);
    }
  }

  /** The rows of the state, one after the other in the order of their columns. */
  method FirstRows(db: Db, st: JobState, limit: nat) returns (rows: seq<JobRow>)
    requires Keyed(db)
    ensures Listing(db, st, limit, rows)
  {
    hide JobLe, Listed;
    rows := [];
    var todo := WaitingIds(db, st);
    while todo != {} && |rows| < limit
      invariant todo <= WaitingIds(db, st) && |rows| <= limit
      invariant forall i | 0 <= i < |rows| :: Waiting(db, st, rows[i].id) && db.jobs[rows[i].id] == rows[i] && rows[i].id !in todo
      invariant forall i, j | 0 <= i < j < |rows| :: rows[i].id != rows[j].id && JobLe(rows[i], rows[j])
      invariant forall i, id | 0 <= i < |rows| && id in todo :: JobLe(rows[i], db.jobs[id])
      invariant forall id | Waiting(db, st, id) :: id in todo || Listed(rows, id)
      decreases |todo|
    {
      var next := FirstJob(db, todo);
      ListedStays(rows, db.jobs[next]);
      rows := rows + [db.jobs[next]];
      todo := todo - {next};
    }
  }

  lemma ListedStays(rows: seq<JobRow>, r: JobRow)
    ensures forall id :: Listed(rows + [r], id) <==> Listed(rows, id) || id == r.id
  {
    var more := rows + [r];
    assert more[|rows|] == r;
    forall id | Listed(rows, id) ensures Listed(more, id) {
      var i :| 0 <= i < |rows| && rows[i].id == id;
      assert more[i].id == id;
    }
  }

  method FirstJob(db: Db, ids: set<JobId>) returns (first: JobId)
    requires ids != {} && ids <= db.jobs.Keys
    ensures first in ids && forall id | id in ids :: JobLe(db.jobs[first], db.jobs[id])
  {
    first :| first in ids;
    var todo := ids - {first};
    while todo != {}
      invariant todo <= ids && first in ids
      invariant forall id | id in ids - todo :: JobLe(db.jobs[first], db.jobs[id])
      decreases todo
    {
      var id :| id in todo;
      if !JobLe(db.jobs[first], db.jobs[id]) { first := id; }
      todo := todo - {id};
    }
  }

  /** `find_healthy_for_selector`: the eligible rows, in no particular order. */
  method FindHealthyForSelector(db: Db, sel: BoardSelector) returns (rows: seq<BoardRow>)
    requires Keyed(db)
    ensures forall b :: Eligible(db, sel, b) <==> exists i :: 0 <= i < |rows| && rows[i].id == b
    ensures forall i | 0 <= i < |rows| :: rows[i].id in db.boards && db.boards[rows[i].id] == rows[i]
    ensures forall b | b in db.boards :: CanTake(db, sel, db.boards[b]) <==> exists i :: 0 <= i < |rows| && rows[i].id == b
  {
    rows := [];
    var todo := db.boards.Keys;
    while todo != {}
      invariant todo <= db.boards.Keys
      invariant forall i | 0 <= i < |rows| :: Eligible(db, sel, rows[i].id) && db.boards[rows[i].id] == rows[i]
      invariant forall b | Eligible(db, sel, b) :: b in todo || exists i :: 0 <= i < |rows| && rows[i].id == b
      decreases todo
    {
      var b :| b in todo;
      todo := todo - {b};
      if Eligible(db, sel, b) {
        ghost var before := rows;
        rows := rows + [db.boards[b]];
        assert rows[|before|].id == b;
        forall c | Eligible(db, sel, c) && c !in todo ensures exists i :: 0 <= i < |rows| && rows[i].id == c {
          if c != b {
            var i :| 0 <= i < |before| && before[i].id == c;
            assert rows[i].id == c;
          }
        }
      }
    }
    forall b | b in db.boards ensures Eligible(db, sel, b) <==> CanTake(db, sel, db.boards[b]) { EligibleMeaning(db, sel, b); }
    hide Eligible, CanTake;
  }

  /** A board the selector asks for, healthy and with no job running on it. */
  predicate CanTake(db: Db, sel: BoardSelector, row: BoardRow) {
    && row.health == Healthy && row.kind == sel.kind
    && (sel.instance.None? || sel.instance == Some(row.id)) && (sel.wiringProfile.None? || sel.wiringProfile == row.wiringProfile)
    && forall j | j in db.jobs && db.jobs[j].state == Running :: db.jobs[j].boardId != Some(row.id)
  }

  lemma EligibleMeaning(db: Db, sel: BoardSelector, b: BoardId)
    requires Keyed(db) && b in db.boards
    ensures Eligible(db, sel, b) <==> CanTake(db, sel, db.boards[b])
  {}

  /** What the SQL asks of a board is the selector's own `matches`, plus healthy, plus no running job on it. */
  lemma EligibleIsMatches(db: Db, sel: BoardSelector, b: BoardId)
    requires Keyed(db)
    ensures Eligible(db, sel, b) <==>
              b in db.boards && sel.Matches(db.boards[b]) && db.boards[b].health == Healthy && !db.RunningOn(b)
  {}

  /** `lru_pick`. */
  method LruPick(boards: seq<BoardRow>) returns (pick: Option<BoardRow>)
    ensures pick.None? <==> boards == []
    ensures pick.Some? ==> pick.value in boards && forall b | b in boards :: LruLe(pick.value, b) && UsedFirst(pick.value, b)
  {
    var sorted := SortBy(LruLe, boards);
    LruLeTotal();
    SortBySorted(LruLe, boards);
    SameElements(sorted, boards);
    if sorted == [] {
      pick := None;
    } else {
      pick := Some(sorted[0]);
      assert sorted[0] in boards;
      forall b | b in boards ensures LruLe(sorted[0], b) && UsedFirst(sorted[0], b) {
        assert b in sorted && LruLe(sorted[0], sorted[0]);
        LruLeMeaning(sorted[0], b);
      }
    }
  }

  // ---- the picks ----------------------------------------------------------------

  function PromoteAll(rows: seq<JobRow>, threshold: int, now: int): seq<JobRow> {
    seq(|rows|, i requires 0 <= i < |rows| => Promote(rows[i], threshold, now))
  }

  /** The scan order: promoted, then sorted. */
  function ScanOrder(rows: seq<JobRow>, threshold: int, now: int): seq<JobRow> {
    SortBy(JobLe, PromoteAll(rows, threshold, now))
  }

  ghost predicate CameFrom(rows: seq<JobRow>, threshold: int, now: int, r: JobRow) {
    exists i :: 0 <= i < |rows| && r == Promote(rows[i], threshold, now)
  }

  /** The rows, promoted, in job order; nothing added and nothing lost. */
  ghost predicate Scanned(rows: seq<JobRow>, threshold: int, now: int, out: seq<JobRow>) {
    && Sorted(JobLe, out)
    && (forall x | 0 <= x < |out| :: CameFrom(rows, threshold, now, out[x]))
    && (forall i | 0 <= i < |rows| :: Promote(rows[i], threshold, now) in out)
  }

  /** Where a row stands in the scan. */
  lemma ScannedAt(rows: seq<JobRow>, threshold: int, now: int, out: seq<JobRow>, i: nat) returns (x: nat)
    requires Scanned(rows, threshold, now, out) && i < |rows|
    ensures x < |out| && out[x] == Promote(rows[i], threshold, now)
  {
    hide Promote, Sorted, CameFrom;
    var row := Promote(rows[i], threshold, now);
    assert row in out;
    x :| 0 <= x < |out| && out[x] == row;
  }

  lemma ScanOrderScanned(rows: seq<JobRow>, threshold: int, now: int)
    ensures Scanned(rows, threshold, now, ScanOrder(rows, threshold, now))
  {
    var promoted := PromoteAll(rows, threshold, now);
    var out := SortBy(JobLe, promoted);
    SortBySorted(JobLe, promoted);
    SameElements(out, promoted);
    forall x | 0 <= x < |out| ensures CameFrom(rows, threshold, now, out[x]) {
      assert out[x] in promoted;
      var i :| 0 <= i < |promoted| && promoted[i] == out[x];
      assert out[x] == Promote(rows[i], threshold, now);
    }
    forall i | 0 <= i < |rows| ensures Promote(rows[i], threshold, now) in out {
      assert promoted[i] in promoted;
    }
  }

  /** The first row in scan order whose tar nobody builds is the pick. */
  lemma FirstBuildable(db: Db, rows: seq<JobRow>, threshold: int, now: int, out: seq<JobRow>, x: nat)
    requires Scanned(rows, threshold, now, out)
    requires x < |out| && !db.BuildingTar(out[x].tar) && forall y | 0 <= y < x :: db.BuildingTar(out[y].tar)
    ensures BuildPick(db, threshold, now, rows, Some(out[x].id))
  {
    assert CameFrom(rows, threshold, now, out[x]);
    var i :| 0 <= i < |rows| && out[x] == Promote(rows[i], threshold, now);
    forall k | 0 <= k < |rows| && !db.BuildingTar(rows[k].tar) ensures Precedes(rows[i], rows[k], threshold, now) {
      var y := ScannedAt(rows, threshold, now, out, k);
      assert x <= y;
    }
    assert BuildChoice(db, threshold, now, rows, i);
  }

  lemma NothingBuildable(db: Db, rows: seq<JobRow>, threshold: int, now: int, out: seq<JobRow>)
    requires Scanned(rows, threshold, now, out) && forall y | 0 <= y < |out| :: db.BuildingTar(out[y].tar)
    ensures BuildPick(db, threshold, now, rows, None)
  {
    forall i | 0 <= i < |rows| ensures db.BuildingTar(rows[i].tar) {
      var x := ScannedAt(rows, threshold, now, out, i);
    }
  }

  /** Some Building row has this tar. */
  predicate TarBuilding(db: Db, tar: string) {
    exists id :: id in db.jobs && db.jobs[id].state == Building && db.jobs[id].tar == tar
  }

  /** Among the scanned rows whose tar nobody builds, row i goes first. */
  predicate FirstFree(db: Db, threshold: int, now: int, rows: seq<JobRow>, i: int)
    requires 0 <= i < |rows|
  {
    !TarBuilding(db, rows[i].tar)
    && forall k | 0 <= k < |rows| && !TarBuilding(db, rows[k].tar) :: GoesFirst(rows[i], rows[k], threshold, now)
  }

  lemma BuildPickMeaning(db: Db, rows: seq<JobRow>, threshold: int, now: int, id: JobId)
    requires BuildPick(db, threshold, now, rows, Some(id))
    ensures exists i :: 0 <= i < |rows| && rows[i].id == id && FirstFree(db, threshold, now, rows, i)
  {
    var i :| 0 <= i < |rows| && rows[i].id == id && BuildChoice(db, threshold, now, rows, i);
    forall k | 0 <= k < |rows| && !TarBuilding(db, rows[k].tar) ensures GoesFirst(rows[i], rows[k], threshold, now) {
      PrecedesMeaning(rows[i], rows[k], threshold, now);
    }
    assert FirstFree(db, threshold, now, rows, i);
  }

  /** `pick_buildable` over the rows the query returned. The job handed back carries its promoted priority. */
  method PickBuildable(db: Db, rows: seq<JobRow>, threshold: int, now: int) returns (pick: Option<JobRow>)
    ensures BuildPick(db, threshold, now, rows, if pick.Some? then Some(pick.value.id) else None)
    ensures pick.None? <==> forall i | 0 <= i < |rows| :: TarBuilding(db, rows[i].tar)
    ensures pick.Some? ==> exists i :: 0 <= i < |rows| && rows[i].id == pick.value.id && FirstFree(db, threshold, now, rows, i)
    ensures pick.Some? ==> CameFrom(rows, threshold, now, pick.value)
  {
    var building := set id | id in db.jobs && db.jobs[id].state == Building :: db.jobs[id].tar;
    assert forall tar :: tar in building <==> db.BuildingTar(tar);
    var promoted := ScanOrder(rows, threshold, now);
    ScanOrderScanned(rows, threshold, now);
    for x := 0 to |promoted|
      invariant forall y | 0 <= y < x :: promoted[y].tar in building
    {
      if promoted[x].tar !in building {
        FirstBuildable(db, rows, threshold, now, promoted, x);
        BuildPickMeaning(db, rows, threshold, now, promoted[x].id);
        return Some(promoted[x]);
      }
    }
    NothingBuildable(db, rows, threshold, now, promoted);
    return None;
  }

  /** The first row in scan order with an eligible board, and the least recently used such board, are the pick. */
  lemma FirstPlaceable(db: Db, rows: seq<JobRow>, threshold: int, now: int, out: seq<JobRow>, x: nat, b: BoardId)
    requires Scanned(rows, threshold, now, out)
    requires x < |out| && Eligible(db, out[x].selector, b)
    requires forall c | Eligible(db, out[x].selector, c) :: LruLe(db.boards[b], db.boards[c])
    requires forall y | 0 <= y < x :: !Placeable(db, out[y].selector)
    ensures RunPick(db, threshold, now, rows, Some(Placement(out[x].id, b)))
  {
    assert CameFrom(rows, threshold, now, out[x]);
    var i :| 0 <= i < |rows| && out[x] == Promote(rows[i], threshold, now);
    forall k | 0 <= k < |rows| && Placeable(db, rows[k].selector) ensures Precedes(rows[i], rows[k], threshold, now) {
      var y := ScannedAt(rows, threshold, now, out, k);
      assert x <= y;
    }
    assert RunChoice(db, threshold, now, rows, i, b);
  }

  lemma NothingPlaceable(db: Db, rows: seq<JobRow>, threshold: int, now: int, out: seq<JobRow>)
    requires Scanned(rows, threshold, now, out) && forall y | 0 <= y < |out| :: !Placeable(db, out[y].selector)
    ensures RunPick(db, threshold, now, rows, None)
  {
    forall i | 0 <= i < |rows| ensures !Placeable(db, rows[i].selector) {
      var x := ScannedAt(rows, threshold, now, out, i);
    }
  }

  /** Some board can take the job. */
  ghost predicate Runnable(db: Db, row: JobRow) { exists b :: b in db.boards && CanTake(db, row.selector, db.boards[b]) }

  /** Among the scanned rows that some board can take, row i goes first, and b is the board used first that can take it. */
  ghost predicate BestRun(db: Db, threshold: int, now: int, rows: seq<JobRow>, i: int, b: BoardId)
    requires 0 <= i < |rows|
  {
    && b in db.boards && CanTake(db, rows[i].selector, db.boards[b])
    && (forall c | c in db.boards && CanTake(db, rows[i].selector, db.boards[c]) :: UsedFirst(db.boards[b], db.boards[c]))
    && forall k | 0 <= k < |rows| && Runnable(db, rows[k]) :: GoesFirst(rows[i], rows[k], threshold, now)
  }

  lemma PlaceableMeaning(db: Db, row: JobRow)
    requires Keyed(db)
    ensures Placeable(db, row.selector) <==> Runnable(db, row)
  {
    forall b | b in db.boards ensures Eligible(db, row.selector, b) <==> CanTake(db, row.selector, db.boards[b]) {
      EligibleMeaning(db, row.selector, b);
    }
    assert forall b | Eligible(db, row.selector, b) :: b in db.boards;
    hide Eligible, CanTake;
  }

  lemma RunPickMeaning(db: Db, rows: seq<JobRow>, threshold: int, now: int, pick: Option<Placement>)
    requires Keyed(db) && RunPick(db, threshold, now, rows, pick)
    ensures pick.None? <==> forall i | 0 <= i < |rows| :: !Runnable(db, rows[i])
    ensures pick.Some? ==> exists i :: 0 <= i < |rows| && rows[i].id == pick.value.job && BestRun(db, threshold, now, rows, i, pick.value.board)
  {
    hide CanTake, Placeable, Runnable, Precedes, GoesFirst, UsedFirst, LruLe;
    forall i | 0 <= i < |rows| ensures Placeable(db, rows[i].selector) <==> Runnable(db, rows[i]) { PlaceableMeaning(db, rows[i]); }
    if pick.Some? {
      var b := pick.value.board;
      var i :| 0 <= i < |rows| && rows[i].id == pick.value.job && RunChoice(db, threshold, now, rows, i, b);
      ChoiceIsBest(db, rows, threshold, now, i, b);
    }
  }

  lemma ChoiceIsBest(db: Db, rows: seq<JobRow>, threshold: int, now: int, i: int, b: BoardId)
    requires Keyed(db) && 0 <= i < |rows| && RunChoice(db, threshold, now, rows, i, b)
    ensures BestRun(db, threshold, now, rows, i, b) && Runnable(db, rows[i])
  {
    assert b in db.boards && Eligible(db, rows[i].selector, b);
    hide Eligible, CanTake, Placeable, Precedes, GoesFirst, UsedFirst, LruLe;
    EligibleMeaning(db, rows[i].selector, b);
    forall c | c in db.boards && CanTake(db, rows[i].selector, db.boards[c]) ensures UsedFirst(db.boards[b], db.boards[c]) {
      EligibleMeaning(db, rows[i].selector, c);
      LruLeMeaning(db.boards[b], db.boards[c]);
    }
    forall k | 0 <= k < |rows| && Runnable(db, rows[k]) ensures GoesFirst(rows[i], rows[k], threshold, now) {
      PlaceableMeaning(db, rows[k]);
      PrecedesMeaning(rows[i], rows[k], threshold, now);
    }
  }

  /** `pick_runnable` over the rows the query returned. */
  method PickRunnable(db: Db, rows: seq<JobRow>, threshold: int, now: int) returns (pick: Option<Placement>)
    requires Keyed(db)
    ensures RunPick(db, threshold, now, rows, pick)
    ensures pick.None? <==> forall i | 0 <= i < |rows| :: !Runnable(db, rows[i])
    ensures pick.Some? ==> exists i :: 0 <= i < |rows| && rows[i].id == pick.value.job && BestRun(db, threshold, now, rows, i, pick.value.board)
  {
    var promoted := ScanOrder(rows, threshold, now);
    ScanOrderScanned(rows, threshold, now);
    for x := 0 to |promoted|
      invariant forall y | 0 <= y < x :: !Placeable(db, promoted[y].selector)
    {
      var board := EligibleLru(db, promoted[x].selector);
      if board.Some? {
        FirstPlaceable(db, rows, threshold, now, promoted, x, board.value.id);
        RunPickMeaning(db, rows, threshold, now, Some(Placement(promoted[x].id, board.value.id)));
        return Some(Placement(promoted[x].id, board.value.id));
      }
    }
    NothingPlaceable(db, rows, threshold, now, promoted);
    RunPickMeaning(db, rows, threshold, now, None);
    return None;
  }

  /** The query and the LRU head together: the least recently used eligible board, if there is one. */
  method EligibleLru(db: Db, sel: BoardSelector) returns (pick: Option<BoardRow>)
    requires Keyed(db)
    ensures pick.None? ==> !Placeable(db, sel)
    ensures pick.Some? ==>
              && Eligible(db, sel, pick.value.id) && db.boards[pick.value.id] == pick.value
              && forall c | Eligible(db, sel, c) :: LruLe(pick.value, db.boards[c])
  {
    var boards := FindHealthyForSelector(db, sel);
    pick := LruPick(boards);
    forall c | Eligible(db, sel, c) ensures pick.Some? && LruLe(pick.value, db.boards[c]) {
      var y :| 0 <= y < |boards| && boards[y].id == c;
      assert boards[y] in boards;
    }
    if pick.Some? {
      ghost var at :| 0 <= at < |boards| && boards[at] == pick.value;
    }
  }

  // ---- what a pick is worth -------------------------------------------------------

  function RowIds(rows: seq<JobRow>): set<JobId> { set i | 0 <= i < |rows| :: rows[i].id }

  lemma {:induction false} RowIdsSize(rows: seq<JobRow>)
    requires forall i, k | 0 <= i < k < |rows| :: rows[i].id != rows[k].id
    ensures |RowIds(rows)| == |rows|
  {
    if rows != [] {
      var init, last := rows[..|rows| - 1], rows[|rows| - 1];
      RowIdsSize(init);
      assert forall i | 0 <= i < |init| :: init[i] == rows[i];
      assert RowIds(rows) == RowIds(init) + {last.id};
      assert last.id !in RowIds(init);
    }
  }

  lemma SubsetSize<T>(a: set<T>, b: set<T>)
    requires a <= b
    ensures |a| <= |b|
    ensures a != b ==> |a| < |b|
  {
    assert b == a + (b - a);
    if a != b { assert b - a != {}; }
  }

  /** Within the scan limit, the listing leaves no waiting row out. */
  lemma ListingComplete(db: Db, st: JobState, rows: seq<JobRow>, j: JobId)
    requires Listing(db, st, SCAN_LIMIT, rows) && |WaitingIds(db, st)| <= SCAN_LIMIT && Waiting(db, st, j)
    ensures Listed(rows, j)
  {
    if !Listed(rows, j) {
      RowIdsSize(rows);
      assert RowIds(rows) + {j} <= WaitingIds(db, st);
      SubsetSize(RowIds(rows) + {j}, WaitingIds(db, st));
      assert false;
    }
  }

  /** Job k is a best choice among everything that waits for a build, scanned or not. */
  ghost predicate BestBuild(db: Db, threshold: int, now: int, k: JobId) {
    && Waiting(db, Submitted, k) && !db.BuildingTar(db.jobs[k].tar)
    && forall q | Waiting(db, Submitted, q) && !db.BuildingTar(db.jobs[q].tar) ::
         Precedes(db.jobs[k], db.jobs[q], threshold, now)
  }

  /** Whatever the tables, the clock and the tie-breaks, with n jobs waiting the pick is a best choice. */
  ghost predicate AlwaysBest(n: nat) {
    forall db, threshold, now, rows, k |
      Keyed(db) && |WaitingIds(db, Submitted)| == n && Listing(db, Submitted, SCAN_LIMIT, rows)
      && BuildPick(db, threshold, now, rows, Some(k)) :: BestBuild(db, threshold, now, k)
  }

  /** The scan limit is exactly the queue length up to which starvation promotion is honoured: the limit
      cuts off before promotion, so with 201 waiting jobs a starved one can be invisible. */
  lemma ScanLimitIsTight(n: nat)
    ensures AlwaysBest(n) <==> n <= 200
  {
    if n <= SCAN_LIMIT {
      forall db, threshold, now, rows, k |
        Keyed(db) && |WaitingIds(db, Submitted)| == n && Listing(db, Submitted, SCAN_LIMIT, rows)
        && BuildPick(db, threshold, now, rows, Some(k))
        ensures BestBuild(db, threshold, now, k)
      {
        ShortQueueBest(db, threshold, now, rows, k);
      }
    } else {
      CrowdedOut(n);
    }
  }

  lemma ShortQueueBest(db: Db, threshold: int, now: int, rows: seq<JobRow>, k: JobId)
    requires |WaitingIds(db, Submitted)| <= SCAN_LIMIT && Listing(db, Submitted, SCAN_LIMIT, rows)
    requires BuildPick(db, threshold, now, rows, Some(k))
    ensures BestBuild(db, threshold, now, k)
  {
    var i :| 0 <= i < |rows| && rows[i].id == k && BuildChoice(db, threshold, now, rows, i);
    forall q | Waiting(db, Submitted, q) && !db.BuildingTar(db.jobs[q].tar)
      ensures Precedes(db.jobs[k], db.jobs[q], threshold, now)
    {
      ListingComplete(db, Submitted, rows, q);
      var m :| 0 <= m < |rows| && rows[m].id == q;
      assert Precedes(rows[i], rows[m], threshold, now);
    }
  }

  /** n - 1 fresh interactive jobs and one starved scheduled job submitted before all of them. */
  function CrowdJob(n: nat, id: JobId): JobRow {
    JobRow(id, if id == n - 1 then Scheduled else Interactive, BoardSelector("k", None, None), Submitted, None, None,
           if id == n - 1 then 0 else 1, None, None, "t", None, false)
  }

  function FirstIds(n: nat): set<JobId> { if n == 0 then {} else FirstIds(n - 1) + {n - 1} }

  lemma {:induction false} FirstIdsMeaning(n: nat)
    ensures |FirstIds(n)| == n && forall id: JobId :: id in FirstIds(n) <==> id < n
  {
    if n > 0 { FirstIdsMeaning(n - 1); }
  }

  function Crowd(n: nat): Db {
    Db(map id | id in FirstIds(n) :: CrowdJob(n, id), map[], map[])
  }

  lemma CrowdedOut(n: nat)
    requires n > SCAN_LIMIT
    ensures !AlwaysBest(n)
  {
    var db := Crowd(n);
    FirstIdsMeaning(n);
    assert WaitingIds(db, Submitted) == FirstIds(n);
    var rows := seq(SCAN_LIMIT, i requires 0 <= i < SCAN_LIMIT => CrowdJob(n, i));
    CrowdListing(n, rows);
    CrowdPick(n, rows);
  }

  lemma CrowdPick(n: nat, rows: seq<JobRow>)
    requires n > SCAN_LIMIT && |rows| == SCAN_LIMIT && forall i | 0 <= i < SCAN_LIMIT :: rows[i] == CrowdJob(n, i)
    ensures BuildPick(Crowd(n), 1, 1, rows, Some(0)) && !BestBuild(Crowd(n), 1, 1, 0)
  {
    var db := Crowd(n);
    FirstIdsMeaning(n);
    assert rows[0].id == 0 && BuildChoice(db, 1, 1, rows, 0);
    assert Waiting(db, Submitted, n - 1) && !db.BuildingTar("t") && !Precedes(db.jobs[0], db.jobs[n - 1], 1, 1);
  }

  lemma CrowdListing(n: nat, rows: seq<JobRow>)
    requires n > SCAN_LIMIT && |rows| == SCAN_LIMIT && forall i | 0 <= i < SCAN_LIMIT :: rows[i] == CrowdJob(n, i)
    ensures Listing(Crowd(n), Submitted, SCAN_LIMIT, rows) && Keyed(Crowd(n))
  {
    FirstIdsMeaning(n);
    forall id | Waiting(Crowd(n), Submitted, id) && !Listed(rows, id)
      ensures forall i | 0 <= i < |rows| :: JobLe(rows[i], Crowd(n).jobs[id])
    {}
  }

  /** With at most 200 jobs awaiting a board, the run pick is a best job that any eligible board can take,
      with its least recently used eligible board; and there is no pick exactly when there is no such pair. */
  lemma RunPickBest(db: Db, threshold: int, now: int, rows: seq<JobRow>, pick: Option<Placement>)
    requires |WaitingIds(db, AwaitingBoard)| <= 200 && Listing(db, AwaitingBoard, SCAN_LIMIT, rows)
    requires RunPick(db, threshold, now, rows, pick)
    ensures pick.None? <==> forall q | Waiting(db, AwaitingBoard, q) :: !Placeable(db, db.jobs[q].selector)
    ensures pick.Some? ==>
              && Waiting(db, AwaitingBoard, pick.value.job)
              && Eligible(db, db.jobs[pick.value.job].selector, pick.value.board)
              && (forall q | Waiting(db, AwaitingBoard, q) && Placeable(db, db.jobs[q].selector) ::
                    GoesFirst(db.jobs[pick.value.job], db.jobs[q], threshold, now))
              && (forall c | Eligible(db, db.jobs[pick.value.job].selector, c) ::
                    UsedFirst(db.boards[pick.value.board], db.boards[c]))
  {
    forall a, b ensures Precedes(a, b, threshold, now) <==> GoesFirst(a, b, threshold, now) { PrecedesMeaning(a, b, threshold, now); }
    forall a, b ensures LruLe(a, b) <==> UsedFirst(a, b) { LruLeMeaning(a, b); }
    hide Precedes, GoesFirst, LruLe, UsedFirst;
    forall q | Waiting(db, AwaitingBoard, q) ensures exists m :: 0 <= m < |rows| && rows[m].id == q && rows[m] == db.jobs[q] {
      ListingComplete(db, AwaitingBoard, rows, q);
    }
    if pick.Some? {
      var i :| 0 <= i < |rows| && rows[i].id == pick.value.job && RunChoice(db, threshold, now, rows, i, pick.value.board);
      assert Placeable(db, db.jobs[pick.value.job].selector);
    }
  }
}

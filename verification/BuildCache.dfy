/** The content-addressed build cache: its table, the ELF files it points to, and LRU eviction. */
module BuildCache {
  import opened Options

  datatype Entry = Entry(tar: string, elfPath: string, builtAt: int, lastUsedAt: int, size: nat)

  datatype FileKind = Regular(size: nat) | NotAFile

  type Rows = map<string, Entry>

  /** Rows are filed under their key. */
  ghost predicate Keyed(rows: Rows) { forall k | k in rows :: rows[k].tar == k }

  // ---- sizes --------------------------------------------------------------------------------------

  ghost function Total(rows: Rows): nat
    decreases |rows|
  {
    if rows == map[] then 0
    else
      var k :| k in rows;
      rows[k].size + Total(rows - {k})
  }

  lemma NothingWeighsNothing(rows: Rows)
    ensures rows == map[] ==> Total(rows) == 0
  {}

  /** The sum does not depend on the order it is taken in. */
  lemma {:induction false} TotalWithout(rows: Rows, k: string)
    requires k in rows
    ensures Total(rows) == rows[k].size + Total(rows - {k})
    decreases |rows|
  {
    var j :| j in rows && Total(rows) == rows[j].size + Total(rows - {j});
    if j != k {
      TotalWithout(rows - {j}, k);
      TotalWithout(rows - {k}, j);
      assert rows - {j} - {k} == rows - {k} - {j};
    }
  }

  function Tars(es: seq<Entry>): set<string> { set i | 0 <= i < |es| :: es[i].tar }

  /** Whole rows have gone, oldest first, and each only because what was left still exceeded the limit. */
  ghost predicate Evicting(rows: Rows, max: nat, evicted: seq<Entry>) {
    && (forall i | 0 <= i < |evicted| :: evicted[i].tar in rows && rows[evicted[i].tar] == evicted[i])
    && (forall i, j | 0 <= i < j < |evicted| :: evicted[i].tar != evicted[j].tar && evicted[i].lastUsedAt <= evicted[j].lastUsedAt)
    && (forall i, k | 0 <= i < |evicted| && k in rows && k !in Tars(evicted) :: evicted[i].lastUsedAt <= rows[k].lastUsedAt)
    && (forall n | 0 <= n < |evicted| :: Total(rows - Tars(evicted[..n])) > max)
  }

  /** What eviction down to a limit must do: as above, until the rest fits. */
  ghost predicate Evicts(rows: Rows, max: nat, evicted: seq<Entry>) {
    Evicting(rows, max, evicted) && Total(rows - Tars(evicted)) <= max
  }

  lemma TarsMore(es: seq<Entry>, e: Entry)
    ensures Tars(es + [e]) == Tars(es) + {e.tar}
  {
    var more := es + [e];
    assert more[|es|] == e;
    forall t ensures t in Tars(more) <==> t in Tars(es) + {e.tar} {
      if t in Tars(es) {
        var i :| 0 <= i < |es| && es[i].tar == t;
        assert more[i] == es[i];
      }
    }
  }

  lemma EvictNone(rows: Rows, max: nat)
    ensures Evicting(rows, max, []) && rows - Tars([]) == rows
  {}

  /** One turn of the eviction loop. */
  lemma EvictOneMore(rows: Rows, max: nat, evicted: seq<Entry>, victim: Entry)
    requires Evicting(rows, max, evicted) && Total(rows - Tars(evicted)) > max
    requires victim.tar in rows && victim.tar !in Tars(evicted) && rows[victim.tar] == victim
    requires forall k | k in rows && k !in Tars(evicted) :: victim.lastUsedAt <= rows[k].lastUsedAt
    ensures Evicting(rows, max, evicted + [victim])
  {
    hide Total;
    var more := evicted + [victim];
    TarsMore(evicted, victim);
    forall n | 0 <= n < |more| ensures Total(rows - Tars(more[..n])) > max {
      if n < |evicted| { assert more[..n] == evicted[..n]; } else { assert more[..n] == evicted; }
    }
    forall i | 0 <= i < |evicted| ensures evicted[i].tar != victim.tar && evicted[i].lastUsedAt <= victim.lastUsedAt {
      assert evicted[i].tar in Tars(evicted);
    }
  }

  /** Nothing is evicted from a table that fits. */
  lemma NoNeedless(rows: Rows, max: nat)
    ensures Total(rows) <= max ==> forall evicted :: Evicting(rows, max, evicted) ==> evicted == []
  {
    hide Total;
    forall evicted | Evicting(rows, max, evicted) ensures Total(rows) <= max ==> evicted == [] {
      if evicted != [] { assert rows - Tars(evicted[..0]) == rows; }
    }
  }

  lemma SurvivorsYounger(rows: Rows, max: nat, evicted: seq<Entry>)
    requires Evicting(rows, max, evicted)
    ensures forall i, k | 0 <= i < |evicted| && k in rows - Tars(evicted) :: evicted[i].lastUsedAt <= (rows - Tars(evicted))[k].lastUsedAt
  {
    hide Total;
  }

  ghost predicate NoTies(rows: Rows) {
    forall i, j | i in rows && j in rows && rows[i].lastUsedAt == rows[j].lastUsedAt :: i == j
  }

  lemma NotAlreadyOut(rows: Rows, max: nat, evicted: seq<Entry>, n: nat)
    requires Evicts(rows, max, evicted) && n < |evicted|
    ensures evicted[n].tar !in Tars(evicted[..n])
  {
    var front := evicted[..n];
    hide Total;
    forall i | 0 <= i < n ensures front[i].tar != evicted[n].tar { assert front[i] == evicted[i]; }
  }

  lemma OldestNext(rows: Rows, max: nat, evicted: seq<Entry>, n: nat, k: string)
    requires Evicts(rows, max, evicted) && n < |evicted| && k in rows && k !in Tars(evicted[..n])
    ensures evicted[n].lastUsedAt <= rows[k].lastUsedAt
  {
    hide Total;
    var front := evicted[..n];
    forall i | 0 <= i < n ensures evicted[i].tar in Tars(front) { assert front[i] == evicted[i]; }
    if k in Tars(evicted) {
      var i :| 0 <= i < |evicted| && evicted[i].tar == k;
      assert i >= n;
    }
  }

  /** The next one out is the oldest of what is left. */
  lemma NextIsOldest(rows: Rows, max: nat, evicted: seq<Entry>, n: nat)
    requires Evicts(rows, max, evicted) && n < |evicted|
    ensures evicted[n].tar !in Tars(evicted[..n])
    ensures forall k | k in rows && k !in Tars(evicted[..n]) :: evicted[n].lastUsedAt <= rows[k].lastUsedAt
  {
    var front := evicted[..n];
    hide Evicts, Tars;
    NotAlreadyOut(rows, max, evicted, n);
    forall k | k in rows && k !in Tars(front) ensures evicted[n].lastUsedAt <= rows[k].lastUsedAt {
      OldestNext(rows, max, evicted, n, k);
    }
  }

  /** Without ties in `last_used_at` there is only one way to evict: limit and table decide it. */
  lemma {:induction false} EvictionPrefixUnique(rows: Rows, max: nat, a: seq<Entry>, b: seq<Entry>, n: nat)
    requires Keyed(rows) && NoTies(rows) && Evicts(rows, max, a) && Evicts(rows, max, b)
    requires n <= |a|
    ensures n <= |b| && a[..n] == b[..n]
  {
    hide Evicts, NoTies, Keyed;
    if n > 0 {
      EvictionPrefixUnique(rows, max, a, b, n - 1);
      SameNext(rows, max, a, b, n - 1);
      assert a[..n] == a[..n - 1] + [a[n - 1]] && b[..n] == b[..n - 1] + [b[n - 1]];
    }
  }

  lemma SameNext(rows: Rows, max: nat, a: seq<Entry>, b: seq<Entry>, m: nat)
    requires NoTies(rows) && Evicts(rows, max, a) && Evicts(rows, max, b)
    requires m < |a| && m <= |b| && a[..m] == b[..m]
    ensures m < |b| && a[m] == b[m]
  {
    assert b[..|b|] == b;
    assert Total(rows - Tars(a[..m])) > max;
    NextIsOldest(rows, max, a, m);
    NextIsOldest(rows, max, b, m);
    assert a[m].lastUsedAt == b[m].lastUsedAt;
    assert a[m].tar == b[m].tar;
  }

  lemma EvictionUnique(rows: Rows, max: nat, a: seq<Entry>, b: seq<Entry>)
    requires Keyed(rows) && NoTies(rows) && Evicts(rows, max, a) && Evicts(rows, max, b)
    ensures a == b
  {
    EvictionPrefixUnique(rows, max, a, b, |a|);
    EvictionPrefixUnique(rows, max, b, a, |b|);
    assert a[..|a|] == a && b[..|b|] == b;
  }

  // ---- the cache ----------------------------------------------------------------------------------

  datatype Lookup = Miss | Hit(elfPath: string)
  datatype StoreError = Missing | InvalidInput

  class Cache {
    var rows: Rows
    var files: map<string, FileKind>

    ghost predicate Valid()
      reads this
    {
      Keyed(rows)
    }

    /** A lookup would hit. */
    predicate Hits(tar: string)
      reads this
    {
      tar in rows && rows[tar].elfPath in files && files[rows[tar].elfPath].Regular?
    }

    constructor ()
      ensures Valid() && rows == map[]
    {
      rows, files := map[], map[];
    }

    /** On conflict everything but `built_at` is refreshed. */
    method Upsert(e: Entry)
      requires Valid()
      modifies this`rows
      ensures Valid()
      ensures rows == old(rows)[e.tar := if e.tar in old(rows) then e.(builtAt := old(rows)[e.tar].builtAt) else e]
    {
      if e.tar in rows {
        rows := rows[e.tar := rows[e.tar].(elfPath := e.elfPath, lastUsedAt := e.lastUsedAt, size := e.size)];
      } else {
        rows := rows[e.tar := e];
      }
    }

    /** `cache_lookup`: a hit is touched; a row whose file has gone is dropped. */
    method CacheLookup(tar: string, now: int) returns (r: Lookup)
      requires Valid()
      modifies this`rows
      ensures Valid()
      ensures r.Hit? <==> old(Hits(tar))
      ensures r.Hit? <==> tar in old(rows) && old(rows)[tar].elfPath in files && files[old(rows)[tar].elfPath].Regular?
      ensures r.Hit? ==> r.elfPath == old(rows)[tar].elfPath && rows == old(rows)[tar := old(rows)[tar].(lastUsedAt := now)]
      ensures r.Miss? ==> rows == old(rows) - {tar}
    {
      if tar !in rows {
        assert rows == rows - {tar};
        return Miss;
      }
      var path := rows[tar].elfPath;
      if !(path in files && files[path].Regular?) {
        rows := rows - {tar};
        return Miss;
      }
      rows := rows[tar := rows[tar].(lastUsedAt := now)];
      return Hit(path);
    }

    /** `cache_store`: only a regular file can be cached, under its current size. */
    method CacheStore(tar: string, elfPath: string, now: int) returns (r: Result<(), StoreError>)
      requires Valid()
      modifies this`rows
      ensures Valid()
      ensures r.Ok? <==> elfPath in files && files[elfPath].Regular?
      ensures r.Err? ==> rows == old(rows)
      ensures r.Ok? ==> Hits(tar) && rows[tar].elfPath == elfPath && rows[tar].lastUsedAt == now && rows[tar].size == files[elfPath].size
      ensures r.Ok? ==> rows[tar].builtAt == (if tar in old(rows) then old(rows)[tar].builtAt else now)
      ensures rows - {tar} == old(rows) - {tar}
    {
      if elfPath !in files { return Err(Missing); }
      if !files[elfPath].Regular? { return Err(InvalidInput); }
      Upsert(Entry(tar, elfPath, now, now, files[elfPath].size));
      return Ok(());
    }

    /** `SUM(size_bytes), COUNT(*)`. */
    method Stats() returns (total: nat, count: nat)
      ensures total == Total(rows) && count == |rows|
    {
      total, count := 0, 0;
      var todo := rows;
      while todo != map[]
        invariant total + Total(todo) == Total(rows) && count + |todo| == |rows|
        decreases |todo|
      {
        var k :| k in todo;
        TotalWithout(todo, k);
        total, count := total + todo[k].size, count + 1;
        assert |todo - {k}| == |todo| - 1 by { assert (todo - {k}).Keys == todo.Keys - {k}; }
        todo := todo - {k};
      }
    }

    /** `ORDER BY last_used_at ASC LIMIT 1`. */
    method Oldest() returns (victim: Option<Entry>)
      requires Valid()
      ensures victim.None? <==> rows == map[]
      ensures victim.Some? ==>
                victim.value.tar in rows && rows[victim.value.tar] == victim.value
                && forall k | k in rows :: victim.value.lastUsedAt <= rows[k].lastUsedAt
    {
      if rows == map[] { return None; }
      var best :| best in rows;
      var todo := rows.Keys - {best};
      while todo != {}
        invariant todo <= rows.Keys && best in rows
        invariant forall k | k in rows && k !in todo :: rows[best].lastUsedAt <= rows[k].lastUsedAt
        decreases todo
      {
        var k :| k in todo;
        if rows[k].lastUsedAt < rows[best].lastUsedAt { best := k; }
        todo := todo - {k};
      }
      return Some(rows[best]);
    }

    /** `evict_until_under`: what is left fits, and nothing went that did not have to. */
    method EvictUntilUnder(max: nat) returns (evicted: seq<Entry>)
      requires Valid()
      modifies this`rows
      ensures Valid() && Evicts(old(rows), max, evicted) && rows == old(rows) - Tars(evicted)
      ensures Total(rows) <= max && (Total(old(rows)) <= max ==> evicted == [] && rows == old(rows))
      ensures forall i, k | 0 <= i < |evicted| && k in rows :: evicted[i].lastUsedAt <= rows[k].lastUsedAt
    {
      NoNeedless(rows, max);
      hide Total, Evicting, Tars;
      evicted := [];
      ghost var before := rows;
      EvictNone(before, max);
      while true
        invariant Valid() && rows == before - Tars(evicted) && Evicting(before, max, evicted)
        decreases |rows|
      {
        var total, _ := Stats();
        if total <= max {
          SurvivorsYounger(before, max, evicted);
          return;
        }
        NothingWeighsNothing(rows);
        var oldest := Oldest();
        match oldest
        case None => assert false;   // an empty table is never over the limit
        case Some(victim) =>
          evicted := EvictOne(victim, max, before, evicted);
      }
    }

    /** Delete the row and remember it. */
    method EvictOne(victim: Entry, ghost max: nat, ghost before: Rows, evicted: seq<Entry>) returns (more: seq<Entry>)
      requires Valid() && rows == before - Tars(evicted) && Evicting(before, max, evicted) && Total(rows) > max
      requires victim.tar in rows && rows[victim.tar] == victim
      requires forall k | k in rows :: victim.lastUsedAt <= rows[k].lastUsedAt
      modifies this`rows
      ensures Valid() && rows == before - Tars(more) && Evicting(before, max, more)
      ensures |rows| < |old(rows)|
    {
      hide Total, Evicting, Tars;
      forall k | k in before && k !in Tars(evicted) ensures victim.lastUsedAt <= before[k].lastUsedAt { assert k in rows; }
      EvictOneMore(before, max, evicted, victim);
      TarsMore(evicted, victim);
      more := evicted + [victim];
      assert (rows - {victim.tar}).Keys == rows.Keys - {victim.tar};
      assert before - Tars(more) == rows - {victim.tar};
      rows := rows - {victim.tar};
    }

    /** `evict_lru`: unlink the files of the evicted rows; a file that is already gone is no error. As long as no
        survivor shares a file with an evicted row (paths are content-addressed), survivors still hit. */
    method EvictLru(max: nat) returns (evicted: seq<Entry>)
      requires Valid()
      modifies this
      ensures Valid() && Evicts(old(rows), max, evicted) && rows == old(rows) - Tars(evicted)
      ensures forall p :: p in files <==> p in old(files) && !(old(files)[p].Regular? && exists i :: 0 <= i < |evicted| && evicted[i].elfPath == p)
      ensures forall p | p in files :: files[p] == old(files)[p]
      ensures (forall i, k | 0 <= i < |evicted| && k in rows :: evicted[i].elfPath != rows[k].elfPath) ==>
                forall k | k in rows :: Hits(k) <==> old(Hits(k))
    {
      evicted := EvictUntilUnder(max);
      for i := 0 to |evicted|
        invariant Valid() && rows == old(rows) - Tars(evicted)
        invariant forall p :: p in files <==> p in old(files) && !(old(files)[p].Regular? && exists j :: 0 <= j < i && evicted[j].elfPath == p)
        invariant forall p | p in files :: files[p] == old(files)[p]
      {
        var path := evicted[i].elfPath;
        if path in files && files[path].Regular? { files := files - {path}; }
      }
    }
  }
}

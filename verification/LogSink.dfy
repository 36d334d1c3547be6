/** The log pipeline of one job: frames are numbered, published to live viewers, and stored in batches. */
module LogSink {
  import opened Options
  import opened Proto
  import T = Tables
  import St = Store

  const BATCH_MAX: nat := 64
  const FLUSH_INTERVAL_US: nat := 50_000
  const U64_MAX: nat := 0xFFFF_FFFF_FFFF_FFFF

  /** What has happened to a job's frames in this process: base is what the table held before, pub everything
      published since, and the first |kept| of those have been flushed, successfully or not. */
  datatype Pipe = Pipe(base: seq<LogFrame>, pub: seq<LogFrame>, kept: seq<bool>, table: seq<LogFrame>, next: nat)

  function Pending(p: Pipe): seq<LogFrame>
    requires |p.kept| <= |p.pub|
  {
    p.pub[|p.kept|..]
  }

  /** The frames whose flush succeeded, in publishing order. */
  function Kept(frames: seq<LogFrame>, kept: seq<bool>): seq<LogFrame>
    requires |kept| <= |frames|
  {
    if kept == [] then []
    else Kept(frames, kept[..|kept| - 1]) + if kept[|kept| - 1] then [frames[|kept| - 1]] else []
  }

  predicate Contiguous(frames: seq<LogFrame>, from: nat) {
    forall i | 0 <= i < |frames| :: frames[i].seqNo == from + i
  }

  /** Published is persisted plus lost plus pending, in order. */
  predicate Accounted(p: Pipe) {
    |p.kept| <= |p.pub| && p.table == p.base + Kept(p.pub, p.kept)
  }

  /** The pending keys count up to the counter and are all beyond the table's. */
  predicate Numbered(p: Pipe)
    requires |p.kept| <= |p.pub|
  {
    T.NextSeq(p.table) + |Pending(p)| <= p.next && Contiguous(Pending(p), p.next - |Pending(p)|)
  }

  predicate FromBase(p: Pipe) { forall i | 0 <= i < |p.pub| :: T.NextSeq(p.base) <= p.pub[i].seqNo }

  predicate Flowing(p: Pipe) { Accounted(p) && Numbered(p) && SeqOrdered(p.table) && FromBase(p) }

  // ---- the three things that happen to a pipeline -------------------------------------

  function Publish(p: Pipe, f: LogFrame): Pipe { p.(pub := p.pub + [f], next := p.next + 1) }

  function Repeat(ok: bool, n: nat): (bits: seq<bool>)
    ensures |bits| == n && forall i | 0 <= i < n :: bits[i] == ok
  {
    if n == 0 then [] else Repeat(ok, n - 1) + [ok]
  }

  function Flush(p: Pipe, ok: bool): Pipe
    requires |p.kept| <= |p.pub|
  {
    p.(kept := p.kept + Repeat(ok, |Pending(p)|), table := if ok then p.table + Pending(p) else p.table)
  }

  /** The next phase's counter is read off the table. */
  function NextPhase(p: Pipe): Pipe { p.(next := T.NextSeq(p.table)) }

  datatype Event = Published(f: LogFrame) | Flushed(ok: bool) | PhaseStarts

  /** A frame is stamped with the counter; a phase starts when the sink of the one before has finished. */
  predicate Can(p: Pipe, e: Event) {
    && |p.kept| <= |p.pub|
    && (e.Published? ==> e.f.seqNo == p.next)
    && (e.PhaseStarts? ==> |p.kept| == |p.pub|)
  }

  function Do(p: Pipe, e: Event): Pipe
    requires Can(p, e)
  {
    match e
    case Published(f) => Publish(p, f)
    case Flushed(ok) => Flush(p, ok)
    case PhaseStarts => NextPhase(p)
  }

  predicate History(p: Pipe, es: seq<Event>)
    decreases |es|
  {
    es == [] || (Can(p, es[0]) && History(Do(p, es[0]), es[1..]))
  }

  function Through(p: Pipe, es: seq<Event>): Pipe
    requires History(p, es)
    decreases |es|
  {
    if es == [] then p else Through(Do(p, es[0]), es[1..])
  }

  function Opened(base: seq<LogFrame>): Pipe { Pipe(base, [], [], base, T.NextSeq(base)) }

  // ---- flow ------------------------------------------------------------------------------

  lemma {:induction false} KeptLocal(a: seq<LogFrame>, b: seq<LogFrame>, kept: seq<bool>)
    requires |kept| <= |a|
    ensures Kept(a + b, kept) == Kept(a, kept)
    decreases |kept|
  {
    if kept != [] { KeptLocal(a, b, kept[..|kept| - 1]); }
  }

  lemma KeptSnoc(frames: seq<LogFrame>, kept: seq<bool>, ok: bool)
    requires |kept| < |frames|
    ensures Kept(frames, kept + [ok]) == Kept(frames, kept) + if ok then [frames[|kept|]] else []
  {
    assert (kept + [ok])[..|kept|] == kept;
  }

  lemma {:induction false} KeptJoin(frames: seq<LogFrame>, a: seq<bool>, b: seq<bool>)
    requires |a| + |b| <= |frames|
    ensures Kept(frames, a + b) == Kept(frames, a) + Kept(frames[|a|..], b)
    decreases |b|
  {
    if b == [] {
      assert a + b == a;
    } else {
      var init, last := b[..|b| - 1], b[|b| - 1];
      assert a + b == (a + init) + [last] && b == init + [last];
      KeptJoin(frames, a, init);
      KeptSnoc(frames, a + init, last);
      KeptSnoc(frames[|a|..], init, last);
      hide Kept;
    }
  }

  /** A flush keeps all its frames or none. */
  lemma {:induction false} KeptUniform(frames: seq<LogFrame>, bits: seq<bool>, ok: bool)
    requires |bits| <= |frames| && forall i | 0 <= i < |bits| :: bits[i] == ok
    ensures ok ==> Kept(frames, bits) == frames[..|bits|]
    ensures !ok ==> Kept(frames, bits) == []
    decreases |bits|
  {
    if bits != [] {
      KeptUniform(frames, bits[..|bits| - 1], ok);
      if ok { FrontSnoc(frames, |bits| - 1); }
    }
  }

  lemma FrontSnoc(frames: seq<LogFrame>, n: nat)
    requires n < |frames|
    ensures frames[..n] + [frames[n]] == frames[..n + 1]
  {}

  /** The pending frames continue the table's keys. */
  lemma PendingContinues(p: Pipe)
    requires |p.kept| <= |p.pub| && Numbered(p) && SeqOrdered(p.table)
    ensures SeqOrdered(p.table + Pending(p))
  {}

  lemma BaseBelow(p: Pipe)
    requires Accounted(p) && SeqOrdered(p.table)
    ensures T.NextSeq(p.base) <= T.NextSeq(p.table)
  {
    hide Kept;
    if p.base != [] {
      assert p.base[|p.base| - 1] == p.table[|p.base| - 1];
    }
  }

  lemma PublishKeepsFlowing(p: Pipe, f: LogFrame)
    requires Flowing(p) && f.seqNo == p.next
    ensures Flowing(Publish(p, f)) && Pending(Publish(p, f)) == Pending(p) + [f]
  {
    KeptLocal(p.pub, [f], p.kept);
    BaseBelow(p);
    hide Kept, SeqOrdered, T.NextSeq;
    PendingMore(p, f);
  }

  lemma PendingMore(p: Pipe, f: LogFrame)
    requires |p.kept| <= |p.pub|
    ensures Pending(Publish(p, f)) == Pending(p) + [f]
  {}

  lemma PendingFlushed(p: Pipe, ok: bool)
    requires |p.kept| <= |p.pub|
    ensures |Flush(p, ok).kept| == |p.pub| && Pending(Flush(p, ok)) == []
  {}

  lemma FlushAccounted(p: Pipe, ok: bool)
    requires Accounted(p)
    ensures Accounted(Flush(p, ok))
  {
    var bits := Repeat(ok, |Pending(p)|);
    KeptJoin(p.pub, p.kept, bits);
    KeptUniform(Pending(p), bits, ok);
    hide Kept, Repeat;
    var had, more := Kept(p.pub, p.kept), if ok then Pending(p) else [];
    assert Kept(Pending(p), bits) == more;
    assert p.base + (had + more) == (p.base + had) + more;
    assert more == [] ==> (p.base + had) + more == p.base + had;
  }

  lemma FlushNumbered(p: Pipe, ok: bool)
    requires |p.kept| <= |p.pub| && Numbered(p)
    ensures Numbered(Flush(p, ok))
  {
    PendingFlushed(p, ok);
    var t := p.table + Pending(p);
    assert Pending(p) == [] ==> t == p.table;
    assert Pending(p) != [] ==> t[|t| - 1] == Pending(p)[|Pending(p)| - 1];
  }

  lemma FlushKeepsFlowing(p: Pipe, ok: bool)
    requires Flowing(p)
    ensures Flowing(Flush(p, ok)) && Pending(Flush(p, ok)) == []
  {
    PendingFlushed(p, ok);
    PendingContinues(p);
    FlushAccounted(p, ok);
    FlushNumbered(p, ok);
    hide Accounted, Numbered, SeqOrdered, Pending;
  }

  /** Any event keeps the pipeline flowing; in particular a flush is never refused for a taken key: what it
      inserts lands at the end of the table, even after earlier flushes failed. */
  lemma EventKeepsFlowing(p: Pipe, e: Event)
    requires Flowing(p) && Can(p, e)
    ensures Flowing(Do(p, e))
    ensures T.AppendBatch(p.table, Pending(p)) == Ok(p.table + Pending(p))
  {
    PendingContinues(p);
    T.AppendAtEnd(p.table, Pending(p));
    match e
    case Published(f) => PublishKeepsFlowing(p, f);
    case Flushed(ok) => FlushKeepsFlowing(p, ok);
    case PhaseStarts => assert Pending(p) == [];
  }

  /** Log sequence integrity: whatever mixture of phases, flushes and failures a job goes through. */
  lemma {:induction false} AlwaysFlowing(p: Pipe, es: seq<Event>)
    requires Flowing(p) && History(p, es)
    ensures Flowing(Through(p, es)) && Through(p, es).base == p.base
    decreases |es|
  {
    if es != [] {
      EventKeepsFlowing(p, es[0]);
      AlwaysFlowing(Do(p, es[0]), es[1..]);
    }
  }

  predicate NoFailedFlush(es: seq<Event>) { forall i | 0 <= i < |es| :: es[i] != Flushed(false) }

  /** What a pipeline without failures is: everything flushed is in the table, and the keys count up without gaps. */
  predicate Lossless(p: Pipe) {
    && |p.kept| <= |p.pub|
    && p.table == p.base + p.pub[..|p.kept|]
    && Contiguous(p.pub, T.NextSeq(p.base))
    && p.next == T.NextSeq(p.base) + |p.pub|
  }

  lemma EventKeepsLossless(p: Pipe, e: Event)
    requires Lossless(p) && Can(p, e) && e != Flushed(false)
    ensures Lossless(Do(p, e)) && p.table <= Do(p, e).table && p.pub <= Do(p, e).pub && |p.kept| <= |Do(p, e).kept|
  {
    match e
    case Published(f) => assert Do(p, e).pub[..|p.kept|] == p.pub[..|p.kept|];
    case Flushed(_) => assert p.table + Pending(p) == p.base + p.pub;
    case PhaseStarts =>
      if p.pub != [] {
        assert p.table[|p.table| - 1] == p.pub[|p.pub| - 1];
      } else {
        assert p.table == p.base;
      }
  }

  /** With no failed flush the persisted frames are exactly the published ones, keyed 0..k-1 from an empty
      table, straight through the change from build to run. */
  lemma {:induction false} NothingLost(p: Pipe, es: seq<Event>)
    requires Lossless(p) && History(p, es) && NoFailedFlush(es)
    ensures Lossless(Through(p, es))
    decreases |es|
  {
    if es != [] {
      assert es[0] != Flushed(false);
      EventKeepsLossless(p, es[0]);
      NothingLost(Do(p, es[0]), es[1..]);
    }
  }

  // ---- handing over from one phase to the next -----------------------------------------------

  predicate KeysIncrease(p: Pipe) { forall i, j | 0 <= i < j < |p.pub| :: p.pub[i].seqNo < p.pub[j].seqNo }

  lemma {:induction false} KeptBelow(frames: seq<LogFrame>, kept: seq<bool>, bound: nat)
    requires |kept| <= |frames| && forall i | 0 <= i < |kept| :: frames[i].seqNo < bound
    ensures forall i | 0 <= i < |Kept(frames, kept)| :: Kept(frames, kept)[i].seqNo < bound
    decreases |kept|
  {
    if kept != [] { KeptBelow(frames, kept[..|kept| - 1], bound); }
  }

  /** The next phase's keys continue after every published one exactly if the last flush of this phase
      succeeded (or nothing was ever published). If it failed, keys that live viewers have already seen
      are given out again. */
  lemma HandoverIsCleanIff(p: Pipe)
    requires Flowing(p) && KeysIncrease(p) && |p.kept| == |p.pub|
    ensures (forall i | 0 <= i < |p.pub| :: p.pub[i].seqNo < NextPhase(p).next)
            <==> p.pub == [] || p.kept[|p.kept| - 1]
  {
    if p.pub != [] {
      var n := |p.pub| - 1;
      KeptBelow(p.pub, p.kept[..n], p.pub[n].seqNo);
      var k := Kept(p.pub, p.kept);
      assert k == [] ==> p.table == p.base;
      assert k != [] ==> p.table[|p.table| - 1] == k[|k| - 1];
      if !p.kept[n] {
        assert k == Kept(p.pub, p.kept[..n]);
        assert NextPhase(p).next <= p.pub[n].seqNo;
      }
    }
  }

  // ---- the sink ---------------------------------------------------------------------------------

  class FrameSink {
    const job: JobId
    const store: St.Store
    const jobStart: nat
    var next: nat                  // the shared AtomicU64
    var batch: seq<LogFrame>
    var lastFlush: nat
    ghost var pipe: Pipe

    /** The job's rows are written by this sink alone while it lives. */
    ghost predicate Valid()
      reads this, store
    {
      && Flowing(pipe) && next == pipe.next && batch == Pending(pipe) && |batch| < BATCH_MAX
      && store.Db().Log(job) == pipe.table
    }

    constructor (job: JobId, store: St.Store, start: nat, now: nat, ghost base: seq<LogFrame>)
      requires SeqOrdered(base) && store.Db().Log(job) == base && start == T.NextSeq(base)
      ensures Valid() && pipe == Opened(base) && this.job == job && this.store == store
    {
      this.job, this.store, jobStart, next := job, store, now, start;
      batch, lastFlush := [], now;
      pipe := Opened(base);
    }

    static function Elapsed(now: nat, since: nat): nat { if now >= since then now - since else 0 }

    /** Assign seq and timestamp, publish, buffer; flush when the batch is full or the interval has passed.
        The frame handed back is the one the broker delivers. `dbOk` says whether SQLite itself works. */
    method Push(level: LogLevel, target: Option<string>, message: string, now: nat, dbOk: bool) returns (frame: LogFrame)
      requires Valid()
      modifies this, store`frames
      ensures Valid()
      ensures frame.seqNo == old(next) && next == old(next) + 1
      ensures frame.tsUs == if now < jobStart then 0 else if now - jobStart <= U64_MAX then now - jobStart else U64_MAX
      ensures frame.level == level && frame.target == target && frame.message == message
      ensures var flush := old(|batch|) + 1 >= 64 || now >= old(lastFlush) + 50_000;
              && batch == (if flush then [] else old(batch) + [frame])
              && pipe == (if flush then Flush(Publish(old(pipe), frame), dbOk && job in store.jobs) else Publish(old(pipe), frame))
              && lastFlush == if flush then now else old(lastFlush)
    {
      var ts := Elapsed(now, jobStart);
      frame := LogFrame(next, if ts <= U64_MAX then ts else U64_MAX, level, target, message);
      next := next + 1;
      batch := batch + [frame];
      EventKeepsFlowing(pipe, Published(frame));
      pipe := Publish(pipe, frame);
      if |batch| >= BATCH_MAX || Elapsed(now, lastFlush) >= FLUSH_INTERVAL_US {
        FlushBatch(now, dbOk);
      }
    }

    /** On a quiet source: flush a non-empty batch once the interval has passed. */
    method Tick(now: nat, dbOk: bool)
      requires Valid()
      modifies this, store`frames
      ensures Valid()
      ensures var flush := old(batch) != [] && now >= old(lastFlush) + 50_000;
              && batch == (if flush then [] else old(batch))
              && pipe == if flush then Flush(old(pipe), dbOk && job in store.jobs) else old(pipe)
    {
      if batch != [] && Elapsed(now, lastFlush) >= FLUSH_INTERVAL_US {
        FlushBatch(now, dbOk);
      }
    }

    /** The source has closed: nothing stays pending. */
    method Finish(now: nat, dbOk: bool)
      requires Valid()
      modifies this, store`frames
      ensures Valid() && batch == []
      ensures pipe == if old(batch) != [] then Flush(old(pipe), dbOk && job in store.jobs) else old(pipe)
    {
      if batch != [] { FlushBatch(now, dbOk); }
    }

    /** A failed write is logged and the batch dropped. A write fails only if SQLite does or the job row is
        gone: never because of a key. */
    method FlushBatch(now: nat, dbOk: bool)
      requires Flowing(pipe) && next == pipe.next && batch == Pending(pipe) && store.Db().Log(job) == pipe.table
      modifies this, store`frames
      ensures Valid() && batch == [] && lastFlush == now
      ensures pipe == Flush(old(pipe), dbOk && job in store.jobs)
    {
      EventKeepsFlowing(pipe, Flushed(dbOk && job in store.jobs));
      if dbOk {
        var r := store.AppendBatch(job, batch);
      }
      pipe := Flush(pipe, dbOk && job in store.jobs);
      batch := [];
      lastFlush := now;
    }
  }
}

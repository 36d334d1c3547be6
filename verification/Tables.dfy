/** The SQLite tables as one value, and what each statement of paavo-db means on it.
    Every function is one statement (or one transaction); an `Err` leaves the tables as they were. */
module Tables {
  import opened Options
  import opened Proto

  datatype DbError = NotFound | AlreadyExists | StateConflict | Conflict | ForeignKey | DuplicateKey

  datatype Db = Db(
    jobs: map<JobId, JobRow>,
    boards: map<BoardId, BoardRow>,
    frames: map<JobId, seq<LogFrame>>)
  {
    /** The job's log rows in primary-key order; a job without rows has none. */
    function Log(id: JobId): seq<LogFrame> {
      if id in frames then frames[id] else []
    }

    predicate RunningOn(b: BoardId) {
      exists id :: id in jobs && jobs[id].state == Running && jobs[id].boardId == Some(b)
    }

    predicate BuildingTar(tar: string) {
      exists id :: id in jobs && jobs[id].state == Building && jobs[id].tar == tar
    }

    predicate References(b: BoardId) {
      exists id :: id in jobs && jobs[id].boardId == Some(b)
    }
  }

  // ---- job.rs -------------------------------------------------------------

  function InsertJob(db: Db, row: JobRow): Result<Db, DbError> {
    if row.id in db.jobs then Err(AlreadyExists)
    else Ok(db.(jobs := db.jobs[row.id := row.(
      state := Submitted, outcome := None, boardId := None,
      startedAt := None, finishedAt := None, elfPath := None)]))
  }

  function SubmittedToBuilding(db: Db, id: JobId, now: int): Result<Db, DbError> {
    if id in db.jobs && db.jobs[id].state == Submitted then
      Ok(db.(jobs := db.jobs[id := db.jobs[id].(state := Building, startedAt := Some(now))]))
    else Err(StateConflict)
  }

  function BuildingToAwaitingBoard(db: Db, id: JobId, elf: string): Result<Db, DbError> {
    if id in db.jobs && db.jobs[id].state == Building then
      Ok(db.(jobs := db.jobs[id := db.jobs[id].(state := AwaitingBoard, elfPath := Some(elf))]))
    else Err(StateConflict)
  }

  /** The row guard is checked before the `board_id` foreign key can fire. */
  function AwaitingToRunning(db: Db, id: JobId, b: BoardId): Result<Db, DbError> {
    if !(id in db.jobs && db.jobs[id].state == AwaitingBoard) then Err(StateConflict)
    else if b !in db.boards then Err(ForeignKey)
    else Ok(db.(jobs := db.jobs[id := db.jobs[id].(state := Running, boardId := Some(b))]))
  }

  function Finalize(db: Db, id: JobId, o: JobOutcome, now: int): Result<Db, DbError> {
    if id in db.jobs && !db.jobs[id].state.IsTerminal() then
      Ok(db.(jobs := db.jobs[id := db.jobs[id].(state := o.State(), outcome := Some(o), finishedAt := Some(now))]))
    else Err(StateConflict)
  }

  /** `cancel_if_pending`: abort a job that no worker holds. */
  function CancelIfPending(db: Db, id: JobId, now: int): Result<Db, DbError> {
    if id !in db.jobs then Err(NotFound)
    else if db.jobs[id].state != Submitted && db.jobs[id].state != AwaitingBoard then Err(StateConflict)
    else Finalize(db, id, Abort(User), now)
  }

  // ---- log.rs -------------------------------------------------------------

  /** `COALESCE(MAX(seq), -1) + 1` over rows in primary-key order. */
  function NextSeq(frames: seq<LogFrame>): nat {
    if frames == [] then 0 else frames[|frames| - 1].seqNo + 1
  }

  /** Insert one row in primary-key position, unless its key is taken. */
  function InsertFrame(frames: seq<LogFrame>, f: LogFrame): Result<seq<LogFrame>, DbError> {
    if frames == [] || frames[|frames| - 1].seqNo < f.seqNo then Ok(frames + [f])
    else if frames[|frames| - 1].seqNo == f.seqNo then Err(DuplicateKey)
    else
      var init := InsertFrame(frames[..|frames| - 1], f);
      if init.Err? then init else Ok(init.value + [frames[|frames| - 1]])
  }

  /** One transaction: all the rows or none. */
  function AppendBatch(frames: seq<LogFrame>, batch: seq<LogFrame>): Result<seq<LogFrame>, DbError>
    decreases |batch|
  {
    if batch == [] then Ok(frames)
    else
      var one := InsertFrame(frames, batch[0]);
      if one.Err? then one else AppendBatch(one.value, batch[1..])
  }

  /** The foreign key speaks only when there is a row to insert. */
  function FlushFrames(db: Db, id: JobId, batch: seq<LogFrame>): Result<Db, DbError> {
    if batch == [] then Ok(db)
    else if id !in db.jobs then Err(ForeignKey)
    else
      var r := AppendBatch(db.Log(id), batch);
      if r.Err? then Err(r.error) else Ok(db.(frames := db.frames[id := r.value]))
  }

  lemma {:induction false} InsertFrameRows(frames: seq<LogFrame>, f: LogFrame)
    ensures InsertFrame(frames, f).Ok? ==> multiset(InsertFrame(frames, f).value) == multiset(frames) + multiset{f}
  {
    if frames != [] {
      var init, last := frames[..|frames| - 1], frames[|frames| - 1];
      InsertFrameRows(init, f);
      assert frames == init + [last];
    }
  }

  predicate Taken(frames: seq<LogFrame>, key: nat) { exists i :: 0 <= i < |frames| && frames[i].seqNo == key }

  lemma {:induction false} InsertFrameRefusal(frames: seq<LogFrame>, f: LogFrame)
    requires SeqOrdered(frames)
    ensures InsertFrame(frames, f).Err? <==> Taken(frames, f.seqNo)
  {
    if frames != [] && f.seqNo < frames[|frames| - 1].seqNo {
      var init := frames[..|frames| - 1];
      InsertFrameRefusal(init, f);
      if i :| 0 <= i < |frames| && frames[i].seqNo == f.seqNo { assert init[i] == frames[i]; }
      if i :| 0 <= i < |init| && init[i].seqNo == f.seqNo { assert frames[i] == init[i]; }
    }
  }

  lemma {:induction false} InsertFrameBelow(frames: seq<LogFrame>, f: LogFrame, bound: nat)
    requires f.seqNo < bound && forall i | 0 <= i < |frames| :: frames[i].seqNo < bound
    ensures var r := InsertFrame(frames, f);
            r.Ok? ==> forall i | 0 <= i < |r.value| :: r.value[i].seqNo < bound
  {
    if frames != [] { InsertFrameBelow(frames[..|frames| - 1], f, bound); }
  }

  lemma OrderedSnoc(frames: seq<LogFrame>, f: LogFrame)
    requires SeqOrdered(frames) && forall i | 0 <= i < |frames| :: frames[i].seqNo < f.seqNo
    ensures SeqOrdered(frames + [f])
  {}

  lemma {:induction false} InsertFrameOrder(frames: seq<LogFrame>, f: LogFrame)
    requires SeqOrdered(frames)
    ensures InsertFrame(frames, f).Ok? ==> SeqOrdered(InsertFrame(frames, f).value)
  {
    if frames != [] && f.seqNo < frames[|frames| - 1].seqNo {
      var init, last := frames[..|frames| - 1], frames[|frames| - 1];
      InsertFrameOrder(init, f);
      InsertFrameBelow(init, f, last.seqNo);
      var r := InsertFrame(init, f);
      if r.Ok? { OrderedSnoc(r.value, last); }
    }
  }

  /** The insert is refused exactly when the key is taken, and otherwise adds that one row in key order. */
  lemma InsertFrameMeaning(frames: seq<LogFrame>, f: LogFrame)
    requires SeqOrdered(frames)
    ensures InsertFrame(frames, f).Err? <==> Taken(frames, f.seqNo)
    ensures InsertFrame(frames, f).Ok? ==>
              SeqOrdered(InsertFrame(frames, f).value)
              && multiset(InsertFrame(frames, f).value) == multiset(frames) + multiset{f}
  {
    InsertFrameRows(frames, f);
    InsertFrameOrder(frames, f);
    InsertFrameRefusal(frames, f);
    hide InsertFrame;
  }

  lemma {:induction false} AppendBatchMeaning(frames: seq<LogFrame>, batch: seq<LogFrame>)
    requires SeqOrdered(frames)
    ensures AppendBatch(frames, batch).Ok? ==>
              SeqOrdered(AppendBatch(frames, batch).value)
              && multiset(AppendBatch(frames, batch).value) == multiset(frames) + multiset(batch)
    decreases |batch|
  {
    if batch != [] {
      InsertFrameMeaning(frames, batch[0]);
      assert batch == [batch[0]] + batch[1..];
      var one := InsertFrame(frames, batch[0]);
      if one.Ok? {
        AppendBatchMeaning(one.value, batch[1..]);
      }
    }
  }

  /** A batch that continues the keys is never refused and lands at the end. */
  lemma {:induction false} AppendAtEnd(frames: seq<LogFrame>, batch: seq<LogFrame>)
    requires SeqOrdered(frames + batch)
    ensures AppendBatch(frames, batch) == Ok(frames + batch)
    decreases |batch|
  {
    if batch == [] {
      assert frames + batch == frames;
    } else {
      assert frames + batch == (frames + [batch[0]]) + batch[1..];
      assert frames != [] ==> (frames + batch)[|frames| - 1] == frames[|frames| - 1] && (frames + batch)[|frames|] == batch[0];
      AppendAtEnd(frames + [batch[0]], batch[1..]);
    }
  }

  /** What a flush does to the tables: an empty one commits, rows for an unknown job are refused, and otherwise the rows
      all get into that job's log, in key order, or, if a key is taken, none of them. */
  lemma FlushFramesMeaning(db: Db, id: JobId, batch: seq<LogFrame>)
    requires SeqOrdered(db.Log(id))
    ensures var r := FlushFrames(db, id, batch);
            && (batch == [] ==> r == Ok(db))
            && (batch != [] && id !in db.jobs ==> r == Err(ForeignKey))
            && (r.Ok? ==>
                  && r.value.jobs == db.jobs && r.value.boards == db.boards
                  && (forall k | k != id :: r.value.Log(k) == db.Log(k))
                  && SeqOrdered(r.value.Log(id)) && multiset(r.value.Log(id)) == multiset(db.Log(id)) + multiset(batch))
  {
    AppendBatchMeaning(db.Log(id), batch);
    hide AppendBatch, SeqOrdered;
  }

  // ---- startup reconciliation (job.rs) -------------------------------------

  predicate Orphan(row: JobRow) { row.state == Building || row.state == Running }

  function Interrupt(row: JobRow, now: int): JobRow {
    row.(state := Aborted, outcome := Some(Abort(Interrupted)), finishedAt := Some(now))
  }

  const INTERRUPTED_MESSAGE := "job interrupted: paavod restarted while this job was in-flight; any output above is partial"

  function ForensicFrame(row: JobRow, log: seq<LogFrame>, now: int): LogFrame {
    var ts := if row.startedAt.Some? && now > row.startedAt.value then (now - row.startedAt.value) * 1000 else 0;
    LogFrame(NextSeq(log), ts, Warn, None, INTERRUPTED_MESSAGE)
  }

  function Orphans(db: Db): set<JobId> { set id | id in db.jobs && Orphan(db.jobs[id]) }

  /** The sweep over the given rows: each is interrupted and gets one forensic frame. */
  function Sweep(db: Db, ids: set<JobId>, now: int): Db
    requires ids <= db.jobs.Keys
  {
    Db(map id | id in db.jobs :: if id in ids then Interrupt(db.jobs[id], now) else db.jobs[id],
       db.boards,
       map id | id in db.frames.Keys + ids ::
         if id in ids then db.Log(id) + [ForensicFrame(db.jobs[id], db.Log(id), now)] else db.Log(id))
  }

  function AbortInterrupted(db: Db, now: int): Db { Sweep(db, Orphans(db), now) }

  /** What the sweep over the given rows means for one id. */
  predicate SweptAt(db: Db, ids: set<JobId>, now: int, t: Db, id: JobId) {
    && (id in t.jobs <==> id in db.jobs)
    && (id in db.jobs ==> t.jobs[id] == if id in ids then Interrupt(db.jobs[id], now) else db.jobs[id])
    && (id in t.frames <==> id in db.frames || id in ids)
    && (id in ids ==> id in db.jobs && t.Log(id) == db.Log(id) + [ForensicFrame(db.jobs[id], db.Log(id), now)])
    && (id !in ids ==> t.Log(id) == db.Log(id))
  }

  /** Interrupting one more row extends the sweep. */
  lemma SweptAtMore(db: Db, done: set<JobId>, now: int, t: Db, id: JobId, u: Db, k: JobId)
    requires SweptAt(db, done, now, t, k) && SweptAt(db, done, now, t, id) && id in db.jobs && id !in done
    requires u == t.(jobs := t.jobs[id := Interrupt(t.jobs[id], now)],
                     frames := t.frames[id := t.Log(id) + [ForensicFrame(t.jobs[id], t.Log(id), now)]])
    ensures SweptAt(db, done + {id}, now, u, k)
  {}

  lemma SweptEverywhere(db: Db, ids: set<JobId>, now: int, t: Db)
    requires ids <= db.jobs.Keys && t.boards == db.boards
    requires forall id :: SweptAt(db, ids, now, t, id)
    ensures t == Sweep(db, ids, now)
  {
    var u := Sweep(db, ids, now);
    forall id ensures id in t.jobs <==> id in u.jobs { assert SweptAt(db, ids, now, t, id); }
    forall id | id in t.jobs ensures t.jobs[id] == u.jobs[id] { assert SweptAt(db, ids, now, t, id); }
    forall id ensures id in t.frames <==> id in u.frames { assert SweptAt(db, ids, now, t, id); }
    forall id | id in t.frames ensures t.frames[id] == u.frames[id] { assert SweptAt(db, ids, now, t, id); }
    assert t.jobs == u.jobs && t.frames == u.frames;
  }

  lemma NoOrphanLeft(db: Db, now: int)
    ensures var t := AbortInterrupted(db, now);
            Orphans(t) == {} && t.boards == db.boards && t.jobs.Keys == db.jobs.Keys
  {
    hide ForensicFrame;
  }

  lemma UntouchedBySweep(db: Db, now: int, id: JobId)
    requires id in db.jobs && !Orphan(db.jobs[id])
    ensures var t := AbortInterrupted(db, now);
            id in t.jobs && t.jobs[id] == db.jobs[id] && t.Log(id) == db.Log(id)
  {
    hide ForensicFrame, Interrupt;
  }

  /** The frame a restart leaves: a warning, stamped with the microseconds since the build began, if it did. */
  predicate TellsOfRestart(f: LogFrame, row: JobRow, now: int) {
    && f.level == Warn && f.target == None && f.message == INTERRUPTED_MESSAGE
    && (row.startedAt.Some? && row.startedAt.value <= now ==> f.tsUs == (now - row.startedAt.value) * 1000)
    && (row.startedAt.None? || now < row.startedAt.value ==> f.tsUs == 0)
  }

  /** An orphan's row and log once it has been swept. */
  predicate OrphanRecovered(db: Db, t: Db, id: JobId, now: int) {
    && id in db.jobs && id in t.jobs
    && t.jobs[id] == db.jobs[id].(state := Aborted, outcome := Some(Abort(Interrupted)), finishedAt := Some(now))
    && |t.Log(id)| == |db.Log(id)| + 1 && t.Log(id)[..|db.Log(id)|] == db.Log(id)
    && TellsOfRestart(t.Log(id)[|db.Log(id)|], db.jobs[id], now)
    && (SeqOrdered(db.Log(id)) ==> SeqOrdered(t.Log(id)))
  }

  lemma OrphanSwept(db: Db, now: int, id: JobId)
    requires id in Orphans(db)
    ensures OrphanRecovered(db, AbortInterrupted(db, now), id, now)
  {
    var t := AbortInterrupted(db, now);
    assert t.Log(id) == db.Log(id) + [ForensicFrame(db.jobs[id], db.Log(id), now)];
    ForensicIsLast(db.jobs[id], db.Log(id), now);
    assert TellsOfRestart(ForensicFrame(db.jobs[id], db.Log(id), now), db.jobs[id], now);
    hide SeqOrdered, ForensicFrame, TellsOfRestart;
  }

  lemma ForensicIsLast(row: JobRow, log: seq<LogFrame>, now: int)
    ensures SeqOrdered(log) ==> SeqOrdered(log + [ForensicFrame(row, log, now)])
  {}

  /** What a restart leaves behind: no row in flight, every other row as it was (a built job keeps its ELF
      and stays runnable), boards untouched, and for each orphan exactly one frame, keyed after all the others. */
  lemma RestartRecovery(db: Db, now: int)
    ensures var t := AbortInterrupted(db, now);
            && (forall id | id in t.jobs :: t.jobs[id].state !in {Building, Running})
            && t.boards == db.boards && t.jobs.Keys == db.jobs.Keys
            && (forall id | id in db.jobs && db.jobs[id].state !in {Building, Running} ::
                  t.jobs[id] == db.jobs[id] && t.Log(id) == db.Log(id))
            && (forall id | id in db.jobs && db.jobs[id].state in {Building, Running} ::
                  && t.jobs[id] == db.jobs[id].(state := Aborted, outcome := Some(Abort(Interrupted)), finishedAt := Some(now))
                  && |t.Log(id)| == |db.Log(id)| + 1 && t.Log(id)[..|db.Log(id)|] == db.Log(id)
                  && TellsOfRestart(t.Log(id)[|db.Log(id)|], db.jobs[id], now)
                  && (SeqOrdered(db.Log(id)) ==> SeqOrdered(t.Log(id))))
  {
    var t := AbortInterrupted(db, now);
    NoOrphanLeft(db, now);
    forall id | id in t.jobs ensures t.jobs[id].state !in {Building, Running} { assert id !in Orphans(t); }
    forall id | id in db.jobs && db.jobs[id].state !in {Building, Running}
      ensures t.jobs[id] == db.jobs[id] && t.Log(id) == db.Log(id)
    {
      UntouchedBySweep(db, now, id);
    }
    hide SeqOrdered, ForensicFrame, Interrupt, Sweep, AbortInterrupted, TellsOfRestart;
    forall id | id in db.jobs && db.jobs[id].state in {Building, Running} ensures OrphanRecovered(db, t, id, now) {
      OrphanSwept(db, now, id);
    }
  }

  /** A second sweep finds nothing to do. */
  lemma RestartIdempotent(db: Db, now: int, later: int)
    ensures AbortInterrupted(AbortInterrupted(db, now), later) == AbortInterrupted(db, now)
  {
    var t := AbortInterrupted(db, now);
    assert Orphans(t) == {};
    var u := AbortInterrupted(t, later);
    assert u.jobs == t.jobs && u.frames == t.frames;
  }

  // ---- board.rs -----------------------------------------------------------

  function InsertBoard(db: Db, b: BoardRow): Result<Db, DbError> {
    if b.id in db.boards then Err(AlreadyExists)
    else Ok(db.(boards := db.boards[b.id := b.(quarantineReason := None, infraFailures := 0, lastUsedAt := None)]))
  }

  function TouchLastUsed(db: Db, id: BoardId, now: int): Result<Db, DbError> {
    if id !in db.boards then Err(NotFound)
    else Ok(db.(boards := db.boards[id := db.boards[id].(lastUsedAt := Some(now))]))
  }

  function Quarantine(db: Db, id: BoardId, reason: string): Result<Db, DbError> {
    if id !in db.boards then Err(NotFound)
    else Ok(db.(boards := db.boards[id := db.boards[id].(health := Quarantined, quarantineReason := Some(reason))]))
  }

  function Unquarantine(db: Db, id: BoardId): Result<Db, DbError> {
    if id !in db.boards then Err(NotFound)
    else Ok(db.(boards := db.boards[id := db.boards[id].(health := Healthy, quarantineReason := None, infraFailures := 0)]))
  }

  /** Only a quarantined board goes, and only when no job row references it. */
  function DeleteBoard(db: Db, id: BoardId): Result<Db, DbError> {
    if id !in db.boards then Err(NotFound)
    else if db.boards[id].health != Quarantined then Err(Conflict)
    else if db.References(id) then Err(Conflict)
    else Ok(db.(boards := db.boards - {id}))
  }

  // ---- quarantine.rs ------------------------------------------------------

  predicate CountsAgainstBoard(o: JobOutcome, releasedCleanly: bool) {
    o.CountsTowardInfraFailure() || (o.Timeout? && o.reason == Inactivity && !releasedCleanly)
  }

  /** The board row after a run ended on it. */
  function Charge(b: BoardRow, o: JobOutcome, releasedCleanly: bool, threshold: nat): BoardRow {
    if !CountsAgainstBoard(o, releasedCleanly) then b.(infraFailures := 0)
    else
      var n := b.infraFailures + 1;
      if n >= threshold
      then b.(infraFailures := n, health := Quarantined, quarantineReason := Some(AutoReason(n)))
      else b.(infraFailures := n)
  }

  function ApplyOutcomeToBoard(db: Db, id: BoardId, o: JobOutcome, releasedCleanly: bool, threshold: nat): Result<Db, DbError> {
    if id !in db.boards then Err(NotFound)
    else Ok(db.(boards := db.boards[id := Charge(db.boards[id], o, releasedCleanly, threshold)]))
  }

  /** The number a decimal numeral stands for. */
  function Numeral(s: string): int
    requires forall i | 0 <= i < |s| :: '0' <= s[i] <= '9'
  {
    if s == [] then 0 else 10 * Numeral(s[..|s| - 1]) + (s[|s| - 1] as int - '0' as int)
  }

  /** The numeral of a count, without leading zeros. */
  lemma {:induction false} DecimalMeaning(n: nat)
    ensures var s := Decimal(n);
            && s != [] && (forall i | 0 <= i < |s| :: '0' <= s[i] <= '9')
            && Numeral(s) == n && (s[0] == '0' ==> s == "0")
  {
    var digit := [('0' as int + n % 10) as char];
    if n < 10 {
      assert Numeral(digit[..0]) == 0;
    } else {
      DecimalMeaning(n / 10);
      var front := Decimal(n / 10);
      assert (front + digit)[..|front|] == front;
    }
  }

  /** The next key is past every key of the table, and 0 for an empty one: keys count up without a gap. */
  lemma NextSeqMeaning(frames: seq<LogFrame>)
    requires SeqOrdered(frames)
    ensures forall i | 0 <= i < |frames| :: frames[i].seqNo < NextSeq(frames)
    ensures if frames == [] then NextSeq(frames) == 0 else exists i :: 0 <= i < |frames| && frames[i].seqNo + 1 == NextSeq(frames)
  {
    if frames != [] { assert frames[|frames| - 1].seqNo + 1 == NextSeq(frames); }
  }

  function AutoReason(n: nat): string { "auto: " + Decimal(n) + " consecutive infra failures" }

  function Decimal(n: nat): string {
    if n < 10 then [('0' as int + n) as char] else Decimal(n / 10) + [('0' as int + n % 10) as char]
  }

  // ---- admin.rs -----------------------------------------------------------

  predicate InFlight(db: Db) {
    exists id :: id in db.jobs && db.jobs[id].state in {Building, AwaitingBoard, Running}
  }

  /** Refused while anything is in flight; board rows go only when asked for. */
  function Purge(db: Db, boards: bool): Result<Db, DbError> {
    if InFlight(db) then Err(Conflict)
    else Ok(Db(map[], if boards then map[] else db.boards, map[]))
  }
}

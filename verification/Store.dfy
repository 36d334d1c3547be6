/** The database handle: the tables are updated in place, statement by statement, and every helper is
    proved to do what Tables says its statement (or transaction) means. */
module Store {
  import opened Options
  import opened Proto
  import T = Tables

  type Status = Result<(), T.DbError>

  /** The helper succeeded with the specified tables, or failed and left the tables alone. */
  predicate Did(before: T.Db, spec: Result<T.Db, T.DbError>, r: Status, after: T.Db) {
    match spec
    case Ok(db) => r == Ok(()) && after == db
    case Err(e) => r == Err(e) && after == before
  }

  class Store {
    var jobs: map<JobId, JobRow>
    var boards: map<BoardId, BoardRow>
    var frames: map<JobId, seq<LogFrame>>

    constructor (db: T.Db)
      ensures Db() == db
    {
      jobs, boards, frames := db.jobs, db.boards, db.frames;
    }

    function Db(): T.Db
      reads this
    {
      T.Db(jobs, boards, frames)
    }

    // ---- job rows -------------------------------------------------------------

    /** A new job is Submitted, whatever else the row given says. */
    method InsertJob(row: JobRow) returns (r: Status)
      modifies this`jobs
      ensures Did(old(Db()), T.InsertJob(old(Db()), row), r, Db())
      ensures if row.id in old(jobs) then r == Err(T.AlreadyExists) && jobs == old(jobs)
              else r == Ok(()) && jobs == old(jobs)[row.id := JobRow(row.id, row.priority, row.selector, Submitted, None, None,
                                                                     row.submittedAt, None, None, row.tar, None, row.skipCache)]
    {
      if row.id in jobs { return Err(T.AlreadyExists); }
      jobs := jobs[row.id := JobRow(row.id, row.priority, row.selector, Submitted, None, None, row.submittedAt,
                                    None, None, row.tar, None, row.skipCache)];
      return Ok(());
    }

    method TransitionSubmittedToBuilding(id: JobId, now: int) returns (r: Status)
      modifies this`jobs
      ensures Did(old(Db()), T.SubmittedToBuilding(old(Db()), id, now), r, Db())
      ensures if id in old(jobs) && old(jobs)[id].state == Submitted
              then r == Ok(()) && jobs == old(jobs)[id := old(jobs)[id].(state := Building, startedAt := Some(now))]
              else r == Err(T.StateConflict) && jobs == old(jobs)
    {
      if id !in jobs || jobs[id].state != Submitted { return Err(T.StateConflict); }
      jobs := jobs[id := jobs[id].(state := Building, startedAt := Some(now))];
      return Ok(());
    }

    method TransitionBuildingToAwaitingBoard(id: JobId, elf: string) returns (r: Status)
      modifies this`jobs
      ensures Did(old(Db()), T.BuildingToAwaitingBoard(old(Db()), id, elf), r, Db())
      ensures if id in old(jobs) && old(jobs)[id].state == Building
              then r == Ok(()) && jobs == old(jobs)[id := old(jobs)[id].(state := AwaitingBoard, elfPath := Some(elf))]
              else r == Err(T.StateConflict) && jobs == old(jobs)
    {
      if id !in jobs || jobs[id].state != Building { return Err(T.StateConflict); }
      jobs := jobs[id := jobs[id].(state := AwaitingBoard, elfPath := Some(elf))];
      return Ok(());
    }

    method TransitionAwaitingToRunning(id: JobId, b: BoardId) returns (r: Status)
      modifies this`jobs
      ensures Did(old(Db()), T.AwaitingToRunning(old(Db()), id, b), r, Db())
      ensures if !(id in old(jobs) && old(jobs)[id].state == AwaitingBoard) then r == Err(T.StateConflict) && jobs == old(jobs)
              else if b !in old(boards) then r == Err(T.ForeignKey) && jobs == old(jobs)
              else r == Ok(()) && jobs == old(jobs)[id := old(jobs)[id].(state := Running, boardId := Some(b))]
    {
      if id !in jobs || jobs[id].state != AwaitingBoard { return Err(T.StateConflict); }
      if b !in boards { return Err(T.ForeignKey); }
      jobs := jobs[id := jobs[id].(state := Running, boardId := Some(b))];
      return Ok(());
    }

    method Finalize(id: JobId, o: JobOutcome, now: int) returns (r: Status)
      modifies this`jobs
      ensures Did(old(Db()), T.Finalize(old(Db()), id, o, now), r, Db())
      ensures r.Ok? <==> id in old(jobs) && old(jobs)[id].state in {Submitted, Building, AwaitingBoard, Running}
      ensures r.Ok? ==>
                var state := match o
                             case Pass => Passed
                             case Fail(_) => Failed
                             case Timeout(_, _) => TimedOut
                             case Abort(_) => Aborted;
                jobs == old(jobs)[id := old(jobs)[id].(state := state, outcome := Some(o), finishedAt := Some(now))]
      ensures r.Err? ==> r.error == T.StateConflict && jobs == old(jobs)
    {
      if id !in jobs || jobs[id].state.IsTerminal() { return Err(T.StateConflict); }
      jobs := jobs[id := jobs[id].(state := o.State(), outcome := Some(o), finishedAt := Some(now))];
      return Ok(());
    }

    /** Reads the row, then finalizes it: two statements under one lock. */
    method CancelIfPending(id: JobId, now: int) returns (r: Status)
      modifies this`jobs
      ensures Did(old(Db()), T.CancelIfPending(old(Db()), id, now), r, Db())
      ensures if id !in old(jobs) then r == Err(T.NotFound) && jobs == old(jobs)
              else if old(jobs)[id].state in {Submitted, AwaitingBoard} then
                r == Ok(())
                && jobs == old(jobs)[id := old(jobs)[id].(state := Aborted, outcome := Some(Abort(User)), finishedAt := Some(now))]
              else r == Err(T.StateConflict) && jobs == old(jobs)
    {
      if id !in jobs { return Err(T.NotFound); }
      var row := jobs[id];
      if row.state != Submitted && row.state != AwaitingBoard { return Err(T.StateConflict); }
      r := Finalize(id, Abort(User), now);
    }

    // ---- boards -----------------------------------------------------------------

    method InsertBoard(b: BoardRow) returns (r: Status)
      modifies this`boards
      ensures Did(old(Db()), T.InsertBoard(old(Db()), b), r, Db())
      ensures if b.id in old(boards) then r == Err(T.AlreadyExists) && boards == old(boards)
              else r == Ok(()) && boards == old(boards)[b.id := BoardRow(b.id, b.kind, b.wiringProfile, b.health, None, 0, None)]
    {
      if b.id in boards { return Err(T.AlreadyExists); }
      boards := boards[b.id := BoardRow(b.id, b.kind, b.wiringProfile, b.health, None, 0, None)];
      return Ok(());
    }

    method TouchLastUsed(b: BoardId, now: int) returns (r: Status)
      modifies this`boards
      ensures Did(old(Db()), T.TouchLastUsed(old(Db()), b, now), r, Db())
      ensures if b in old(boards) then r == Ok(()) && boards == old(boards)[b := old(boards)[b].(lastUsedAt := Some(now))]
              else r == Err(T.NotFound) && boards == old(boards)
    {
      if b !in boards { return Err(T.NotFound); }
      boards := boards[b := boards[b].(lastUsedAt := Some(now))];
      return Ok(());
    }

    method BumpInfraFailure(b: BoardId) returns (r: Status)
      modifies this`boards
      ensures if b in old(boards)
              then r == Ok(()) && boards == old(boards)[b := old(boards)[b].(infraFailures := old(boards)[b].infraFailures + 1)]
              else r == Err(T.NotFound) && boards == old(boards)
    {
      if b !in boards { return Err(T.NotFound); }
      boards := boards[b := boards[b].(infraFailures := boards[b].infraFailures + 1)];
      return Ok(());
    }

    method ResetInfraFailures(b: BoardId) returns (r: Status)
      modifies this`boards
      ensures if b in old(boards)
              then r == Ok(()) && boards == old(boards)[b := old(boards)[b].(infraFailures := 0)]
              else r == Err(T.NotFound) && boards == old(boards)
    {
      if b !in boards { return Err(T.NotFound); }
      boards := boards[b := boards[b].(infraFailures := 0)];
      return Ok(());
    }

    method Quarantine(b: BoardId, reason: string) returns (r: Status)
      modifies this`boards
      ensures Did(old(Db()), T.Quarantine(old(Db()), b, reason), r, Db())
      ensures if b in old(boards)
              then r == Ok(()) && boards == old(boards)[b := old(boards)[b].(health := Quarantined, quarantineReason := Some(reason))]
              else r == Err(T.NotFound) && boards == old(boards)
    {
      if b !in boards { return Err(T.NotFound); }
      boards := boards[b := boards[b].(health := Quarantined, quarantineReason := Some(reason))];
      return Ok(());
    }

    method Unquarantine(b: BoardId) returns (r: Status)
      modifies this`boards
      ensures Did(old(Db()), T.Unquarantine(old(Db()), b), r, Db())
      ensures if b in old(boards)
              then r == Ok(())
                   && boards == old(boards)[b := old(boards)[b].(health := Healthy, quarantineReason := None, infraFailures := 0)]
              else r == Err(T.NotFound) && boards == old(boards)
    {
      if b !in boards { return Err(T.NotFound); }
      boards := boards[b := boards[b].(health := Healthy, quarantineReason := None, infraFailures := 0)];
      return Ok(());
    }

    /** The row is read first; the foreign key speaks only when the DELETE runs. */
    method Delete(b: BoardId) returns (r: Status)
      modifies this`boards
      ensures Did(old(Db()), T.DeleteBoard(old(Db()), b), r, Db())
      ensures r.Ok? <==> b in old(boards) && old(boards)[b].health == Quarantined && forall j | j in jobs :: jobs[j].boardId != Some(b)
      ensures boards == if r.Ok? then old(boards) - {b} else old(boards)
      ensures r.Err? ==> r.error == if b in old(boards) then T.Conflict else T.NotFound
    {
      if b !in boards { return Err(T.NotFound); }
      if boards[b].health != Quarantined { return Err(T.Conflict); }
      if exists id :: id in jobs && jobs[id].boardId == Some(b) { return Err(T.Conflict); }
      boards := boards - {b};
      return Ok(());
    }

    /** `purge`, its database half: nothing goes while anything is in flight. */
    method Purge(andBoards: bool) returns (r: Status)
      modifies this
      ensures Did(old(Db()), T.Purge(old(Db()), andBoards), r, Db())
      ensures r.Ok? <==> forall id | id in old(jobs) :: old(jobs)[id].state !in {Building, AwaitingBoard, Running}
      ensures r.Ok? ==> jobs == map[] && frames == map[] && boards == if andBoards then map[] else old(boards)
      ensures r.Err? ==> r.error == T.Conflict && jobs == old(jobs) && frames == old(frames) && boards == old(boards)
    {
      if exists id :: id in jobs && jobs[id].state in {Building, AwaitingBoard, Running} { return Err(T.Conflict); }
      frames := map[];
      jobs := map[];
      if andBoards { boards := map[]; }
      return Ok(());
    }

    /** `apply_outcome_to_board`: reset, or bump, re-read and perhaps quarantine. Says whether it quarantined. */
    method ApplyOutcomeToBoard(b: BoardId, o: JobOutcome, releasedCleanly: bool, threshold: nat)
      returns (r: Result<bool, T.DbError>)
      modifies this`boards
      ensures Did(old(Db()), T.ApplyOutcomeToBoard(old(Db()), b, o, releasedCleanly, threshold),
                  if r.Ok? then Ok(()) else Err(r.error), Db())
      ensures r.Ok? <==> b in old(boards)
      ensures r.Err? ==> r.error == T.NotFound && boards == old(boards)
      ensures r.Ok? ==>
                var was := old(boards)[b];
                var counts := match o
                              case Fail(InfraErr(_, _)) => true
                              case Timeout(Inactivity, _) => !releasedCleanly
                              case _ => false;
                && (r.value <==> counts && was.infraFailures + 1 >= threshold)
                && (!counts ==> boards == old(boards)[b := was.(infraFailures := 0)])
                && (counts && !r.value ==> boards == old(boards)[b := was.(infraFailures := was.infraFailures + 1)])
                && (r.value ==>
                      var reason := "auto: " + T.Decimal(was.infraFailures + 1) + " consecutive infra failures";
                      boards == old(boards)[b := was.(infraFailures := was.infraFailures + 1, health := Quarantined,
                                                      quarantineReason := Some(reason))])
    {
      if !T.CountsAgainstBoard(o, releasedCleanly) {
        var s := ResetInfraFailures(b);
        return if s.Ok? then Ok(false) else Err(s.error);
      }
      var s := BumpInfraFailure(b);
      if s.Err? { return Err(s.error); }
      var row := boards[b];
      if row.infraFailures >= threshold {
        s := Quarantine(b, T.AutoReason(row.infraFailures));
        return Ok(true);
      }
      return Ok(false);
    }

    // ---- log rows -----------------------------------------------------------------

    /** `append_batch`: one insert per frame inside a transaction that is dropped at the first failure. */
    method AppendBatch(id: JobId, batch: seq<LogFrame>) returns (r: Status)
      modifies this`frames
      ensures Did(old(Db()), T.FlushFrames(old(Db()), id, batch), r, Db())
    {
      if batch == [] { return Ok(()); }
      if id !in jobs { return Err(T.ForeignKey); }
      var rows := Db().Log(id);
      for i := 0 to |batch|
        invariant T.AppendBatch(old(Db()).Log(id), batch) == T.AppendBatch(rows, batch[i..])
      {
        var one := T.InsertFrame(rows, batch[i]);
        if one.Err? { return Err(one.error); }
        assert batch[i..][1..] == batch[i + 1..];
        rows := one.value;
      }
      frames := frames[id := rows];
      return Ok(());
    }

    // ---- startup -------------------------------------------------------------------

    /** `abort_interrupted_jobs`: snapshot the orphans, then give each one forensic frame and its terminal row. */
    method AbortInterruptedJobs(now: int) returns (n: nat)
      modifies this`jobs, this`frames
      ensures Db() == T.AbortInterrupted(old(Db()), now)
      ensures n == |T.Orphans(old(Db()))|
    {
      var orphans := T.Orphans(Db());
      SweepRows(orphans, now);
      return |orphans|;
    }

    method SweepRows(orphans: set<JobId>, now: int)
      requires orphans <= jobs.Keys
      modifies this`jobs, this`frames
      ensures Db() == T.Sweep(old(Db()), orphans, now)
    {
      var todo := orphans;
      ghost var before, done := Db(), {};
      while todo != {}
        invariant done !! todo && done + todo == orphans && boards == before.boards
        invariant forall id :: T.SweptAt(before, done, now, Db(), id)
        decreases |todo|
      {
        var id :| id in todo;
        ghost var t := Db();
        assert T.SweptAt(before, done, now, t, id);
        InterruptRow(id, now);
        forall k ensures T.SweptAt(before, done + {id}, now, Db(), k) {
          T.SweptAtMore(before, done, now, t, id, Db(), k);
        }
        todo, done := todo - {id}, done + {id};
      }
      assert done == orphans;
      T.SweptEverywhere(before, done, now, Db());
    }

    /** One orphan: the forensic frame first, then the row. */
    method InterruptRow(id: JobId, now: int)
      requires id in jobs
      modifies this`jobs, this`frames
      ensures var db := old(Db());
              Db() == db.(jobs := db.jobs[id := T.Interrupt(db.jobs[id], now)],
                          frames := db.frames[id := db.Log(id) + [T.ForensicFrame(db.jobs[id], db.Log(id), now)]])
    {
      var log := Db().Log(id);
      frames := frames[id := log + [T.ForensicFrame(jobs[id], log, now)]];
      jobs := jobs[id := T.Interrupt(jobs[id], now)];
    }
  }
}

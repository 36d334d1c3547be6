/** The two threads of one test run as they are written, each with arbitrary sections of the other, of the clock and
    of the command channel between any two of its own. */
module RunThreads {
  import opened Options
  import opened Proto
  import opened Watchdog
  import H = History

  datatype Thread = Worker | Dog

  predicate By(l: Label, me: Thread) { if me.Worker? then WorkerLabel(l) else DogLabel(l) }

  predicate Others(ls: seq<Label>, me: Thread) { forall i | 0 <= i < |ls| :: !By(ls[i], me) }

  function Mine(me: Thread): Label -> bool { l => By(l, me) }

  predicate Performs(before: seq<Label>, after: seq<Label>, me: Thread, own: seq<Label>) {
    H.Performs(before, after, Mine(me), own)
  }

  /** What a thread relies on: its own control state, and for the worker that the watchdog does not come back. */
  predicate OwnKept(r: Run, t: Run, me: Thread) {
    match me
    case Worker =>
      t.worker == r.worker && t.trace == r.trace && t.sent == r.sent && t.seenTestOk == r.seenTestOk
      && (r.dog.Gone? ==> t.dog.Gone?)
    case Dog => t.dog == r.dog && t.judgedAt == r.judgedAt && r.now <= t.now
  }

  lemma {:induction false} OthersKeepOwn(r: Run, ls: seq<Label>, me: Thread)
    requires Legal(r, ls) && Others(ls, me)
    ensures OwnKept(r, After(r, ls), me)
    decreases |ls|
  {
    if ls != [] {
      assert !By(ls[0], me);
      OthersKeepOwn(Apply(r, ls[0]), ls[1..], me);
    }
  }

  // ---- turns ---------------------------------------------------------------------------------------

  /** A turn of the watchdog that finds nothing. */
  const FULL_TURN: seq<Label> := [LookForDone, LookForCommand, ReadClock, ReadActivity]

  /** Its last turn: the worker is done, a command has come, or a limit is exceeded. */
  predicate LastDogTurn(ls: seq<Label>) {
    ls == [LookForDone] || ls == [LookForDone, LookForCommand, WriteStop] || ls == FULL_TURN + [WriteStop]
  }

  predicate DogTurns(turns: nat, rounds: seq<seq<Label>>, exited: bool) {
    && |rounds| <= turns && (exited ==> rounds != []) && (!exited ==> |rounds| == turns)
    && forall k | 0 <= k < |rounds| :: if exited && k == |rounds| - 1 then LastDogTurn(rounds[k]) else rounds[k] == FULL_TURN
  }

  predicate GoesOn(e: ProbeEvent) { e.Frame? || e.Nothing? }

  /** A turn of the worker that gets a frame, or nothing in time. */
  function WorkerTurn(e: ProbeEvent): seq<Label> {
    [CheckStop, Call, Receive(e)] + if e.Frame? then [Touch, Forward] else []
  }

  /** Its last turn: a stop is visible, or the event ends the session. */
  predicate LastWorkerTurn(e: ProbeEvent, ls: seq<Label>) {
    ls == [CheckStop, Finalise] || (!GoesOn(e) && ls == [CheckStop, Call, Receive(e)])
  }

  predicate WorkerTurns(events: seq<ProbeEvent>, rounds: seq<seq<Label>>, done: bool) {
    && |rounds| <= |events| && (done ==> rounds != []) && (!done ==> |rounds| == |events|)
    && forall k | 0 <= k < |rounds| ::
         if done && k == |rounds| - 1 then LastWorkerTurn(events[k], rounds[k])
         else GoesOn(events[k]) && rounds[k] == WorkerTurn(events[k])
  }

  lemma WorkerTurnsMore(events: seq<ProbeEvent>, n: nat, rounds: seq<seq<Label>>, own: seq<Label>)
    requires n < |events| && WorkerTurns(events[..n], rounds, false)
    ensures GoesOn(events[n]) && own == WorkerTurn(events[n]) ==> WorkerTurns(events[..n + 1], rounds + [own], false)
    ensures LastWorkerTurn(events[n], own) ==> WorkerTurns(events, rounds + [own], true)
  {
    hide LastWorkerTurn, WorkerTurn, GoesOn;
  }

  /** The outcome of a session that ended with this event, given whether the marker was seen before. */
  predicate EndsWith(e: ProbeEvent, seenTestOk: bool, o: JobOutcome) {
    match e
    case Bkpt => o == if seenTestOk then JobOutcome.Pass else Fail(TestErr("bkpt without preceding Test OK"))
    case Panic(message) => o == Fail(TestErr(message))
    case Disconnect => o == Fail(InfraErr("probe_disconnect", "probe disconnected mid-run"))
    case IoFailure(error) => o == Fail(InfraErr("probe_io", error))
    case _ => false
  }

  function AttachSections(error: Option<string>): seq<Label> {
    if error.None? then [Attach(error), Touch] else [Attach(error)]
  }

  /** What `run_job` goes through: attach, drive, tell the watchdog, join it. */
  datatype Job = Job(rounds: seq<seq<Label>>, driven: bool, joined: bool) {
    function Sections(error: Option<string>): seq<Label> {
      AttachSections(error) + H.Flat(rounds)
      + (if driven then [SignalDone] else []) + (if joined then [Join] else [])
    }

    predicate Shape(error: Option<string>, events: seq<ProbeEvent>) {
      (joined ==> driven) && if error.Some? then rounds == [] && driven else WorkerTurns(events, rounds, driven)
    }
  }

  class Session {
    const limits: Limits
    const startedAt: nat
    var clock: nat
    var lastActivity: nat
    var stopReason: Option<StopReason>
    var workerDone: bool
    var commands: seq<AbortReason>
    var logTx: seq<LogFrame>
    var dogExited: bool
    ghost var boot: Run
    ghost var history: seq<Label>      // every section performed since, by anyone
    ghost var model: Run               // where that leads

    ghost predicate Valid()
      reads this
    {
      && Legal(boot, history) && model == After(boot, history) && RunOk(model)
      && model.limits == limits && model.startedAt == startedAt && model.now == clock
      && model.lastActivity == lastActivity && model.stop == stopReason && model.done == workerDone
      && model.commands == commands && model.sent == logTx && (model.dog.Gone? <==> dogExited)
    }

    constructor (limits: Limits, now: nat)
      requires limits.Valid()
      ensures Valid() && model == Start(limits, now, []) && boot == model && history == []
    {
      this.limits, startedAt, clock, lastActivity := limits, now, now, now;
      stopReason, workerDone, commands, logTx, dogExited := None, false, [], [], false;
      model, boot, history := Start(limits, now, []), Start(limits, now, []), [];
      StartOk(limits, now, []);
    }

    /** A section of this thread is appended to the history and to what it has done. */
    ghost method Record(me: Thread, l: Label, since: seq<Label>, own: seq<Label>) returns (more: seq<Label>)
      requires Legal(boot, history) && model == After(boot, history) && RunOk(model) && Enabled(model, l)
      requires By(l, me) && Performs(since, history, me, own)
      modifies this`model, this`history
      ensures Legal(boot, history) && model == After(boot, history) && RunOk(model)
      ensures model == Apply(old(model), l)
      ensures more == own + [l] && Performs(since, history, me, more)
    {
      StepKeepsRunOk(model, l);
      Resume(boot, history, [l]);
      assert [l][1..] == [];
      H.One(history, l, Mine(me));
      H.Both(since, history, history + [l], Mine(me), own, [l]);
      model, history, more := Apply(model, l), history + [l], own + [l];
    }

    /** Between two sections the other thread, the clock and the command channel may have moved. */
    method Interfere(ghost me: Thread)
      requires Valid()
      modifies this
      ensures Valid() && boot == old(boot)
      ensures old(history) <= history && Others(history[|old(history)|..], me)
    {}

    method Yield(ghost me: Thread, ghost since: seq<Label>, ghost own: seq<Label>)
      requires Valid() && Performs(since, history, me, own)
      modifies this
      ensures Valid() && boot == old(boot) && OwnKept(old(model), model, me)
      ensures Performs(since, history, me, own)
    {
      ghost var before := history;
      Interfere(me);
      ghost var more := history[|before|..];
      assert history == before + more;
      hide RunOk;
      Resume(boot, before, more);
      OthersKeepOwn(After(boot, before), more, me);
      H.OthersOnly(before, more, Mine(me));
      H.Both(since, before, history, Mine(me), own, []);
      assert own + [] == own;
    }

    // ---- watchdog.rs -----------------------------------------------------------------------------

    method LookForDoneSection(ghost since: seq<Label>, ghost own: seq<Label>) returns (done: bool, ghost more: seq<Label>)
      requires Valid() && model.dog == LookingForDone && Performs(since, history, Dog, own)
      modifies this
      ensures Valid() && boot == old(boot) && Performs(since, history, Dog, more) && more == own + [LookForDone]
      ensures model.dog == (if done then Gone else LookingForCommand) && clock == old(clock) && done == workerDone
    {
      hide RunOk, Performs, Legal, After;
      done := workerDone;
      if done { dogExited := true; }
      more := Record(Dog, LookForDone, since, own);
    }

    method LookForCommandSection(ghost since: seq<Label>, ghost own: seq<Label>)
      returns (reason: Option<StopReason>, ghost more: seq<Label>)
      requires Valid() && model.dog == LookingForCommand && Performs(since, history, Dog, own)
      modifies this
      ensures Valid() && boot == old(boot) && Performs(since, history, Dog, more) && more == own + [LookForCommand]
      ensures model.dog == (if reason.Some? then Writing(reason.value) else ReadingClock) && clock == old(clock)
      ensures if old(commands) == [] then reason.None? && commands == []
              else reason == Some(Commanded(old(commands)[0])) && commands == old(commands)[1..]
    {
      hide RunOk, Performs, Legal, After;
      reason := None;
      if commands != [] {
        reason := Some(Commanded(commands[0]));
        commands := commands[1..];
      }
      more := Record(Dog, LookForCommand, since, own);
    }

    method ReadClockSection(ghost since: seq<Label>, ghost own: seq<Label>) returns (now: nat, ghost more: seq<Label>)
      requires Valid() && model.dog == ReadingClock && Performs(since, history, Dog, own)
      modifies this
      ensures Valid() && boot == old(boot) && Performs(since, history, Dog, more) && more == own + [ReadClock]
      ensures model.dog == ReadingActivity(now) && now == clock == old(clock)
    {
      hide RunOk, Performs, Legal, After;
      now := clock;
      more := Record(Dog, ReadClock, since, own);
    }

    /** Silence is looked at before the total. */
    method CompareSection(now: nat, ghost since: seq<Label>, ghost own: seq<Label>)
      returns (reason: Option<StopReason>, ghost more: seq<Label>)
      requires Valid() && model.dog == ReadingActivity(now) && Performs(since, history, Dog, own)
      modifies this
      ensures Valid() && boot == old(boot) && Performs(since, history, Dog, more) && more == own + [ReadActivity]
      ensures model.dog == (if reason.Some? then Writing(reason.value) else LookingForDone)
      ensures model.judgedAt == now && clock == old(clock)
      ensures reason == if now > lastActivity + limits.inactivityMs * 1_000_000 then Some(Overdue(Inactivity))
                        else if now > startedAt + limits.hardMaxMs * 1_000_000 then Some(Overdue(HardMax))
                        else None
    {
      hide RunOk, Performs, Legal, After;
      var silent, total := Since(now, lastActivity), Since(now, startedAt);
      more := Record(Dog, ReadActivity, since, own);
      if silent > limits.inactivityMs * NS_PER_MS { return Some(Overdue(Inactivity)), more; }
      if total > limits.hardMaxMs * NS_PER_MS { return Some(Overdue(HardMax)), more; }
      reason := None;
    }

    method FireSection(reason: StopReason, ghost since: seq<Label>, ghost own: seq<Label>) returns (ghost more: seq<Label>)
      requires Valid() && model.dog == Writing(reason) && Performs(since, history, Dog, own)
      modifies this
      ensures Valid() && boot == old(boot) && Performs(since, history, Dog, more) && more == own + [WriteStop]
      ensures model.dog == Gone && stopReason == Some(reason) && clock == old(clock)
    {
      hide RunOk, Performs, Legal, After;
      stopReason := Some(reason);
      dogExited := true;
      more := Record(Dog, WriteStop, since, own);
    }

    method YieldDog(ghost since: seq<Label>, ghost own: seq<Label>)
      requires Valid() && Performs(since, history, Dog, own)
      modifies this
      ensures Valid() && boot == old(boot) && model.dog == old(model).dog && Performs(since, history, Dog, own)
      ensures old(clock) <= clock && model.judgedAt == old(model).judgedAt
    {
      Yield(Dog, since, own);
    }

    /** One turn of the loop; says whether the watchdog returns. */
    method DogTurn() returns (exited: bool, ghost own: seq<Label>)
      requires Valid() && model.dog == LookingForDone
      modifies this
      ensures Valid() && boot == old(boot) && Performs(old(history), history, Dog, own)
      ensures if exited then model.dog == Gone && LastDogTurn(own) else model.dog == LookingForDone && own == FULL_TURN
      ensures if exited then stopReason.Some? || workerDone else old(clock) <= model.judgedAt && WithinLimits(model)
      ensures old(clock) <= clock
    {
      H.Nothing(history, Mine(Dog));
      exited, own := DogTurnSince(history);
      assert RunOk(model);
      hide Legal, After, Performs, Tells, Explained;
    }

    method DogTurnSince(ghost since: seq<Label>) returns (exited: bool, ghost own: seq<Label>)
      requires Valid() && model.dog == LookingForDone && Performs(since, history, Dog, [])
      modifies this
      ensures Valid() && boot == old(boot) && Performs(since, history, Dog, own)
      ensures exited ==> model.dog == Gone
      ensures exited ==> own == [LookForDone] || own == [LookForDone, LookForCommand, WriteStop]
                         || own == [LookForDone, LookForCommand, ReadClock, ReadActivity, WriteStop]
      ensures !exited ==> model.dog == LookingForDone && own == [LookForDone, LookForCommand, ReadClock, ReadActivity]
                          && old(clock) <= model.judgedAt
      ensures old(clock) <= clock
    {
      hide *;
      YieldDog(since, []);
      exited, own := LookForDoneSection(since, []);
      if exited { return; }
      YieldDog(since, own);
      var reason;
      reason, own := LookForCommandSection(since, own);
      YieldDog(since, own);
      if reason.None? {
        exited, own := CompareAndFire(since, own);
      } else {
        own := FireSection(reason.value, since, own);
        exited := true;
      }
    }

    /** The rest of a turn that found no command. */
    method CompareAndFire(ghost since: seq<Label>, ghost own0: seq<Label>) returns (fired: bool, ghost own: seq<Label>)
      requires Valid() && model.dog == ReadingClock && Performs(since, history, Dog, own0)
      modifies this
      ensures Valid() && boot == old(boot) && Performs(since, history, Dog, own)
      ensures fired ==> model.dog == Gone && own == own0 + [ReadClock, ReadActivity, WriteStop]
      ensures !fired ==> model.dog == LookingForDone && own == own0 + [ReadClock, ReadActivity] && old(clock) <= model.judgedAt
      ensures old(clock) <= clock
    {
      hide *;
      var now, reason;
      now, own := ReadClockSection(since, own0);
      YieldDog(since, own);
      reason, own := CompareSection(now, since, own);
      if reason.None? { return false, own; }
      YieldDog(since, own);
      own := FireSection(reason.value, since, own);
      fired := true;
    }

    /** `run_watchdog`, for so many turns: without returning it goes through all of them, and then neither limit was
        exceeded at the clock value of the last one. It returns only with a stop written or the worker done. */
    method RunWatchdog(turns: nat) returns (exited: bool, ghost rounds: seq<seq<Label>>)
      requires Valid() && model.dog == LookingForDone
      modifies this
      ensures Valid() && boot == old(boot) && Performs(old(history), history, Dog, H.Flat(rounds))
      ensures DogTurns(turns, rounds, exited) && model.dog == if exited then Gone else LookingForDone
      ensures exited ==> stopReason.Some? || workerDone
      ensures !exited && turns > 0 ==> old(clock) <= model.judgedAt && WithinLimits(model)
    {
      ghost var since := history;
      H.Nothing(since, Mine(Dog));
      rounds := [];
      for n := 0 to turns
        invariant Valid() && boot == old(boot) && model.dog == LookingForDone
        invariant Performs(since, history, Dog, H.Flat(rounds)) && DogTurns(n, rounds, false)
        invariant old(clock) <= clock && (n > 0 ==> old(clock) <= model.judgedAt && WithinLimits(model))
      {
        hide Valid, LastDogTurn, WithinLimits;
        ghost var t := history;
        ghost var own;
        exited, own := DogTurn();
        H.Both(since, t, history, Mine(Dog), H.Flat(rounds), own);
        H.FlatMore(rounds, own);
        rounds := rounds + [own];
        if exited { return; }
      }
      exited := false;
    }

    // ---- worker.rs ---------------------------------------------------------------------------------

    /** The instant read when the frame (or the session) arrived is written. */
    method TouchSection(at: nat, ghost since: seq<Label>, ghost own: seq<Label>) returns (ghost more: seq<Label>)
      requires Valid() && (model.worker.Attached? || model.worker.Touching?) && model.worker.at == at
      requires Performs(since, history, Worker, own)
      modifies this
      ensures Valid() && boot == old(boot) && Performs(since, history, Worker, more) && more == own + [Touch]
      ensures model.worker == if old(model).worker.Attached? then Checking else Forwarding(old(model).worker.frame)
      ensures model.seenTestOk == old(model).seenTestOk && lastActivity == at
    {
      hide RunOk, Performs, Legal, After;
      lastActivity := at;
      more := Record(Worker, Touch, since, own);
    }

    method ForwardSection(frame: LogFrame, seenTestOk: bool, ghost since: seq<Label>, ghost own: seq<Label>)
      returns (seen: bool, ghost more: seq<Label>)
      requires Valid() && model.worker == Forwarding(frame) && model.seenTestOk == seenTestOk && Performs(since, history, Worker, own)
      modifies this
      ensures Valid() && boot == old(boot) && Performs(since, history, Worker, more) && more == own + [Forward]
      ensures model.worker == Checking && model.seenTestOk == seen && logTx == old(logTx) + [frame]
      ensures seen <==> seenTestOk || (frame.level == Info && Trim(frame.message) == "Test OK")
    {
      hide RunOk, Performs, Legal, After;
      seen := seenTestOk || (frame.level == Info && Trim(frame.message) == "Test OK");
      logTx := logTx + [frame];
      more := Record(Worker, Forward, since, own);
    }

    method CheckStopSection(ghost since: seq<Label>, ghost own: seq<Label>) returns (stop: Option<StopReason>, ghost more: seq<Label>)
      requires Valid() && model.worker == Checking && Performs(since, history, Worker, own)
      modifies this
      ensures Valid() && boot == old(boot) && Performs(since, history, Worker, more) && more == own + [CheckStop]
      ensures model.worker == (if stop.Some? then Stopping(stop.value) else AboutToCall) && model.seenTestOk == old(model).seenTestOk
      ensures stop == stopReason
    {
      hide RunOk, Performs, Legal, After;
      stop := stopReason;
      more := Record(Worker, CheckStop, since, own);
    }

    method CallSection(ghost since: seq<Label>, ghost own: seq<Label>) returns (ghost more: seq<Label>)
      requires Valid() && model.worker == AboutToCall && Performs(since, history, Worker, own)
      modifies this
      ensures Valid() && boot == old(boot) && Performs(since, history, Worker, more) && more == own + [Call]
      ensures model.worker == Calling && model.seenTestOk == old(model).seenTestOk
    {
      hide RunOk, Performs, Legal, After;
      more := Record(Worker, Call, since, own);
    }

    /** `next_event` returns what the session has. */
    method ReceiveSection(e: ProbeEvent, ghost since: seq<Label>, ghost own: seq<Label>) returns (at: nat, ghost more: seq<Label>)
      requires Valid() && model.worker == Calling && Performs(since, history, Worker, own)
      modifies this
      ensures Valid() && boot == old(boot) && Performs(since, history, Worker, more) && more == own + [Receive(e)]
      ensures model.seenTestOk == old(model).seenTestOk
      ensures model.worker == match e
                              case Frame(f) => Touching(f, at)
                              case Nothing => Checking
                              case _ => Finished(Ends(e, old(model).seenTestOk))
    {
      hide RunOk, Performs, Legal, After;
      at := clock;
      more := Record(Worker, Receive(e), since, own);
    }

    /** `finalise_for_stop`. */
    method FinaliseSection(reason: StopReason, ghost since: seq<Label>, ghost own: seq<Label>)
      returns (outcome: JobOutcome, ghost more: seq<Label>)
      requires Valid() && model.worker == Stopping(reason) && Performs(since, history, Worker, own)
      modifies this
      ensures Valid() && boot == old(boot) && Performs(since, history, Worker, more) && more == own + [Finalise]
      ensures model.worker == Finished(outcome)
      ensures match reason
              case Overdue(limit) =>
                && outcome.Timeout? && outcome.reason == limit && outcome.elapsedMs <= U64_MAX
                && outcome.elapsedMs * 1_000_000 <= clock - startedAt
                && (outcome.elapsedMs < U64_MAX ==> clock - startedAt < (outcome.elapsedMs + 1) * 1_000_000)
              case Commanded(who) => outcome == Abort(who)
    {
      StopIsTold(model);
      hide RunOk, Performs, Legal, After;
      outcome := StopOutcome(reason, ElapsedMs(clock, startedAt));
      more := Record(Worker, Finalise, since, own);
    }

    method YieldWorker(ghost since: seq<Label>, ghost own: seq<Label>)
      requires Valid() && Performs(since, history, Worker, own)
      modifies this
      ensures Valid() && boot == old(boot) && Performs(since, history, Worker, own)
      ensures model.worker == old(model).worker && model.seenTestOk == old(model).seenTestOk
    {
      Yield(Worker, since, own);
    }

    /** One turn of the loop on the event the session has: says whether the worker has its outcome, or else
        whether the marker has been seen. */
    method WorkerRound(e: ProbeEvent, seenTestOk: bool) returns (outcome: Option<JobOutcome>, seen: bool, ghost own: seq<Label>)
      requires Valid() && model.worker == Checking && model.seenTestOk == seenTestOk
      modifies this
      ensures Valid() && boot == old(boot) && Performs(old(history), history, Worker, own)
      ensures outcome.Some? ==> model.worker == Finished(outcome.value) && LastWorkerTurn(e, own)
      ensures outcome.None? ==> model.worker == Checking && model.seenTestOk == seen && GoesOn(e) && own == WorkerTurn(e)
    {
      H.Nothing(history, Mine(Worker));
      outcome, seen, own := WorkerRoundSince(e, seenTestOk, history);
    }

    method WorkerRoundSince(e: ProbeEvent, seenTestOk: bool, ghost since: seq<Label>)
      returns (outcome: Option<JobOutcome>, seen: bool, ghost own: seq<Label>)
      requires Valid() && model.worker == Checking && model.seenTestOk == seenTestOk && Performs(since, history, Worker, [])
      modifies this
      ensures Valid() && boot == old(boot) && Performs(since, history, Worker, own)
      ensures outcome.Some? ==> model.worker == Finished(outcome.value)
                                && (own == [CheckStop, Finalise] || (!GoesOn(e) && own == [CheckStop, Call, Receive(e)]))
                                && (own != [CheckStop, Finalise] ==> EndsWith(e, seenTestOk, outcome.value))
      ensures outcome.None? ==> model.worker == Checking && model.seenTestOk == seen && GoesOn(e)
                                && own == [CheckStop, Call, Receive(e)] + if e.Frame? then [Touch, Forward] else []
    {
      hide *;
      seen := seenTestOk;
      YieldWorker(since, []);
      var stop;
      stop, own := CheckStopSection(since, []);
      YieldWorker(since, own);
      if stop.Some? {
        var o;
        o, own := FinaliseSection(stop.value, since, own);
        return Some(o), seen, own;
      }
      own := CallSection(since, own);
      outcome, seen, own := HandleEvent(e, seenTestOk, since, own);
    }

    /** The rest of a turn, from inside `next_event` on. */
    method HandleEvent(e: ProbeEvent, seenTestOk: bool, ghost since: seq<Label>, ghost own0: seq<Label>)
      returns (outcome: Option<JobOutcome>, seen: bool, ghost own: seq<Label>)
      requires Valid() && model.worker == Calling && model.seenTestOk == seenTestOk && Performs(since, history, Worker, own0)
      modifies this
      ensures Valid() && boot == old(boot) && Performs(since, history, Worker, own)
      ensures outcome.Some? ==> model.worker == Finished(outcome.value) && !GoesOn(e) && own == own0 + [Receive(e)]
      ensures outcome.Some? ==> EndsWith(e, seenTestOk, outcome.value)
      ensures outcome.None? ==> model.worker == Checking && model.seenTestOk == seen && GoesOn(e)
                                && own == own0 + [Receive(e)] + if e.Frame? then [Touch, Forward] else []
    {
      hide Valid, Performs;
      seen := seenTestOk;
      YieldWorker(since, own0);
      var at;
      at, own := ReceiveSection(e, since, own0);
      match e
      case Frame(frame) =>
        seen, own := HandleFrame(frame, at, seenTestOk, since, own);
        outcome := None;
      case Nothing => outcome := None;
      case Bkpt =>
        outcome := Some(if seenTestOk then JobOutcome.Pass else Fail(TestErr("bkpt without preceding Test OK")));
      case Panic(message) => outcome := Some(Fail(TestErr(message)));
      case Disconnect => outcome := Some(Fail(InfraErr("probe_disconnect", "probe disconnected mid-run")));
      case IoFailure(error) => outcome := Some(Fail(InfraErr("probe_io", error)));
    }

    /** A decoded frame: touch, look for the marker, forward. */
    method HandleFrame(frame: LogFrame, at: nat, seenTestOk: bool, ghost since: seq<Label>, ghost own0: seq<Label>)
      returns (seen: bool, ghost own: seq<Label>)
      requires Valid() && model.worker == Touching(frame, at) && model.seenTestOk == seenTestOk && Performs(since, history, Worker, own0)
      modifies this
      ensures Valid() && boot == old(boot) && Performs(since, history, Worker, own) && own == own0 + [Touch, Forward]
      ensures model.worker == Checking && model.seenTestOk == seen
      ensures seen <==> seenTestOk || (frame.level == Info && Trim(frame.message) == "Test OK")
    {
      hide *;
      YieldWorker(since, own0);
      own := TouchSection(at, since, own0);
      YieldWorker(since, own);
      seen, own := ForwardSection(frame, seenTestOk, since, own);
    }

    /** `drive_session` on the events the session has, turn by turn: without an outcome it goes through all of them. */
    method DriveSession(events: seq<ProbeEvent>) returns (outcome: Option<JobOutcome>, ghost rounds: seq<seq<Label>>)
      requires Valid() && model.worker == Checking && !model.seenTestOk
      modifies this
      ensures Valid() && boot == old(boot) && Performs(old(history), history, Worker, H.Flat(rounds))
      ensures WorkerTurns(events, rounds, outcome.Some?)
      ensures model.worker == if outcome.Some? then Finished(outcome.value) else Checking
    {
      ghost var since := history;
      H.Nothing(since, Mine(Worker));
      rounds := [];
      var seenTestOk := false;
      for n := 0 to |events|
        invariant Valid() && boot == old(boot) && model.worker == Checking && model.seenTestOk == seenTestOk
        invariant Performs(since, history, Worker, H.Flat(rounds)) && WorkerTurns(events[..n], rounds, false)
      {
        hide Valid, LastWorkerTurn, WorkerTurn, WorkerTurns;
        ghost var t := history;
        ghost var own;
        outcome, seenTestOk, own := WorkerRound(events[n], seenTestOk);
        WorkerTurnsMore(events, n, rounds, own);
        H.Both(since, t, history, Mine(Worker), H.Flat(rounds), own);
        H.FlatMore(rounds, own);
        rounds := rounds + [own];
        if outcome.Some? { return; }
      }
      assert events[..|events|] == events;
      outcome := None;
    }

    /** `make_session`, and restarting the inactivity clock once the probe is attached. */
    method AttachSession(error: Option<string>) returns (failure: Option<JobOutcome>, ghost own: seq<Label>)
      requires Valid() && model.worker == Attaching && !model.seenTestOk
      modifies this
      ensures Valid() && boot == old(boot) && Performs(old(history), history, Worker, own) && own == AttachSections(error)
      ensures !model.seenTestOk && (failure.Some? <==> error.Some?)
      ensures model.worker == if failure.Some? then Finished(failure.value) else Checking
      ensures failure.Some? ==> failure.value == Fail(InfraErr("probe_attach", error.value))
    {
      ghost var since := history;
      H.Nothing(since, Mine(Worker));
      var at;
      at, own := AttachSection(error, since);
      hide Valid, Performs;
      match error
      case Some(e) => failure := Some(Fail(InfraErr("probe_attach", e)));
      case None =>
        YieldWorker(since, own);
        own := TouchSection(at, since, own);
        failure := None;
    }

    method AttachSection(error: Option<string>, ghost since: seq<Label>) returns (at: nat, ghost own: seq<Label>)
      requires Valid() && model.worker == Attaching && !model.seenTestOk && Performs(since, history, Worker, [])
      modifies this
      ensures Valid() && boot == old(boot) && Performs(since, history, Worker, own) && own == [Attach(error)]
      ensures !model.seenTestOk
      ensures model.worker == if error.None? then Attached(at) else Finished(Fail(InfraErr("probe_attach", error.value)))
    {
      hide RunOk, Performs, Legal, After;
      at := clock;
      own := Record(Worker, Attach(error), since, []);
    }

    method SignalDoneSection(outcome: JobOutcome, ghost since: seq<Label>, ghost own: seq<Label>) returns (ghost more: seq<Label>)
      requires Valid() && model.worker == Finished(outcome) && Performs(since, history, Worker, own)
      modifies this
      ensures Valid() && boot == old(boot) && Performs(since, history, Worker, more) && more == own + [SignalDone]
      ensures model.worker == Joining(outcome) && workerDone
    {
      hide RunOk, Performs, Legal, After;
      workerDone := true;
      more := Record(Worker, SignalDone, since, own);
    }

    method JoinSection(outcome: JobOutcome, ghost since: seq<Label>, ghost own: seq<Label>) returns (ghost more: seq<Label>)
      requires Valid() && model.worker == Joining(outcome) && dogExited && Performs(since, history, Worker, own)
      modifies this
      ensures Valid() && boot == old(boot) && Performs(since, history, Worker, more) && more == own + [Join]
      ensures model.worker == Returned(outcome) && Told(model, outcome) && logTx == FramesIn(model.trace)
    {
      hide Performs, Legal, After, RunOk, Told, FramesIn;
      more := Record(Worker, Join, since, own);
      ReturnedIsTold(model);
    }

    /** `watchdog_join.join()`, looked at so many times and once more: it gives up only while the watchdog is still there. */
    method JoinWatchdog(outcome: JobOutcome, looks: nat, ghost since: seq<Label>, ghost own: seq<Label>)
      returns (joined: bool, ghost more: seq<Label>)
      requires Valid() && model.worker == Joining(outcome) && Performs(since, history, Worker, own)
      modifies this
      ensures Valid() && boot == old(boot) && Performs(since, history, Worker, more)
      ensures more == own + if joined then [Join] else []
      ensures joined ==> model.worker == Returned(outcome) && Told(model, outcome) && logTx == FramesIn(model.trace)
      ensures !joined ==> model.worker == Joining(outcome) && !dogExited
    {
      hide Valid, Performs, Told;
      var n := looks;
      while true
        invariant Valid() && boot == old(boot) && model.worker == Joining(outcome) && Performs(since, history, Worker, own)
        decreases n
      {
        YieldWorker(since, own);
        if dogExited {
          more := JoinSection(outcome, since, own);
          return true, more;
        }
        if n == 0 { return false, own; }
        n := n - 1;
      }
    }

    /** The worker thread of `run_job`. A returned outcome is told by what the session did and the limits;
        there is none only while events are left to come or the watchdog has not left. */
    method RunJob(error: Option<string>, events: seq<ProbeEvent>, looks: nat) returns (outcome: Option<JobOutcome>, ghost job: Job)
      requires Valid() && model.worker == Attaching && !model.seenTestOk
      modifies this
      ensures Valid() && boot == old(boot) && Performs(old(history), history, Worker, job.Sections(error)) && job.Shape(error, events)
      ensures outcome.Some? <==> job.joined
      ensures outcome.Some? ==> model.worker == Returned(outcome.value) && Told(model, outcome.value) && logTx == FramesIn(model.trace)
      ensures job.driven && !job.joined ==> workerDone && !dogExited
    {
      hide Told, Legal, After;
      ghost var since := history;
      ghost var own, rounds := [], [];
      outcome, own := AttachSession(error);
      if outcome.None? {
        ghost var t := history;
        outcome, rounds := DriveSession(events);
        H.Both(since, t, history, Mine(Worker), own, H.Flat(rounds));
        own := own + H.Flat(rounds);
      } else {
        assert own == own + H.Flat(rounds);
      }
      if outcome.None? {
        job := Job(rounds, false, false);
        assert own == job.Sections(error);
        return;
      }
      hide Performs;
      YieldWorker(since, own);
      own := SignalDoneSection(outcome.value, since, own);
      var joined;
      joined, own := JoinWatchdog(outcome.value, looks, since, own);
      job := Job(rounds, true, joined);
      assert own == job.Sections(error);
      if !joined { outcome := None; }
    }
  }
}

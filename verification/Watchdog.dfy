/** One test run on a board: the worker thread drives the probe session while the watchdog thread decides
    when to stop it. They share the time of the last activity and the stop reason, and a clock. */
module Watchdog {
  import opened Options
  import opened Proto
  import H = History

  const NS_PER_MS: nat := 1_000_000
  const U64_MAX: nat := 0xFFFF_FFFF_FFFF_FFFF

  /** Both limits are u64 milliseconds. */
  datatype Limits = Limits(inactivityMs: nat, hardMaxMs: nat) {
    predicate Valid() { inactivityMs <= U64_MAX && hardMaxMs <= U64_MAX }
  }

  datatype StopReason = Overdue(limit: TimeoutReason) | Commanded(who: AbortReason)

  /** What `next_event` can return: the session is an arbitrary event source. */
  datatype ProbeEvent =
    | Frame(frame: LogFrame)
    | Bkpt
    | Panic(message: string)
    | Disconnect
    | Nothing
    | IoFailure(error: string)

  datatype DogPc =
    | LookingForDone
    | LookingForCommand
    | ReadingClock
    | ReadingActivity(now: nat)
    | Writing(reason: StopReason)
    | Gone

  datatype WorkerPc =
    | Attaching
    | Attached(at: nat)
    | Checking
    | AboutToCall
    | Calling
    | Touching(frame: LogFrame, at: nat)
    | Forwarding(frame: LogFrame)
    | Stopping(reason: StopReason)
    | Finished(outcome: JobOutcome)
    | Joining(outcome: JobOutcome)
    | Returned(outcome: JobOutcome)

  datatype Run = Run(
    limits: Limits,
    now: nat,                        // nanoseconds
    startedAt: nat,
    lastActivity: nat,
    stop: Option<StopReason>,
    done: bool,                      // worker_done has been sent
    commands: seq<AbortReason>,      // the cancel channel
    dog: DogPc,
    worker: WorkerPc,
    seenTestOk: bool,
    sent: seq<LogFrame>,             // forwarded to the log channel
    trace: seq<ProbeEvent>,          // history: every event the session produced
    arrivals: seq<nat>,              // history: when the session went live, and when each frame arrived
    touched: nat,                    // history: how many of these have been written to lastActivity
    judgedAt: nat,                   // history: the clock value the watchdog last compared, and how many
    judgedTouched: nat,              //   arrivals had been written, and had happened, when it did
    judgedArrived: nat,
    issued: set<AbortReason>,        // history: every command ever sent
    stops: nat,                      // history: writes of the stop reason
    lateCalls: nat)                  // history: next_event calls begun after the stop was visible

  datatype Label =
    | LookForDone | LookForCommand | ReadClock | ReadActivity | WriteStop
    | Attach(error: Option<string>) | Touch | CheckStop | Call | Receive(e: ProbeEvent) | Forward | Finalise | SignalDone | Join
    | Elapse(ns: nat) | Command(c: AbortReason)

  predicate DogLabel(l: Label) { l.LookForDone? || l.LookForCommand? || l.ReadClock? || l.ReadActivity? || l.WriteStop? }
  predicate WorkerLabel(l: Label) { !DogLabel(l) && !l.Elapse? && !l.Command? }

  predicate Enabled(r: Run, l: Label) {
    match l
    case LookForDone => r.dog.LookingForDone?
    case LookForCommand => r.dog.LookingForCommand?
    case ReadClock => r.dog.ReadingClock?
    case ReadActivity => r.dog.ReadingActivity?
    case WriteStop => r.dog.Writing?
    case Attach(_) => r.worker.Attaching?
    case Touch => r.worker.Attached? || r.worker.Touching?
    case CheckStop => r.worker.Checking?
    case Call => r.worker.AboutToCall?
    case Receive(_) => r.worker.Calling?
    case Forward => r.worker.Forwarding?
    case Finalise => r.worker.Stopping?
    case SignalDone => r.worker.Finished?
    case Join => r.worker.Joining? && r.dog.Gone?
    case Elapse(_) => true
    case Command(_) => true
  }

  /** `duration_since` saturates. */
  function Since(now: nat, past: nat): nat { if now >= past then now - past else 0 }

  function ElapsedMs(now: nat, past: nat): nat {
    var ms := Since(now, past) / NS_PER_MS;
    if ms <= U64_MAX then ms else U64_MAX
  }

  /** Rust's `str::trim`: the Unicode White_Space characters. */
  predicate IsSpace(c: char) {
    var n := c as int;
    9 <= n <= 13 || n == 0x20 || n == 0x85 || n == 0xA0 || n == 0x1680 || 0x2000 <= n <= 0x200A
    || n == 0x2028 || n == 0x2029 || n == 0x202F || n == 0x205F || n == 0x3000
  }

  function Trim(s: string): string
    decreases |s|
  {
    if s == [] then s
    else if IsSpace(s[0]) then Trim(s[1..])
    else if IsSpace(s[|s| - 1]) then Trim(s[..|s| - 1])
    else s
  }

  predicate TestOk(f: LogFrame) { f.level == Info && Trim(f.message) == "Test OK" }

  /** What an event that ends the session ends it with. */
  function Ends(e: ProbeEvent, seenTestOk: bool): JobOutcome
    requires !e.Frame? && !e.Nothing?
  {
    match e
    case Bkpt => if seenTestOk then JobOutcome.Pass else Fail(TestErr("bkpt without preceding Test OK"))
    case Panic(m) => Fail(TestErr(m))
    case Disconnect => Fail(InfraErr("probe_disconnect", "probe disconnected mid-run"))
    case IoFailure(m) => Fail(InfraErr("probe_io", m))
  }

  /** `finalise_for_stop`. */
  function StopOutcome(reason: StopReason, elapsedMs: nat): JobOutcome {
    match reason
    case Overdue(limit) => Timeout(limit, elapsedMs)
    case Commanded(who) => Abort(who)
  }

  /** One turn of the watchdog's clock comparison: silence is looked at first. */
  function Judge(r: Run, now: nat): DogPc {
    if Since(now, r.lastActivity) > r.limits.inactivityMs * NS_PER_MS then Writing(Overdue(Inactivity))
    else if Since(now, r.startedAt) > r.limits.hardMaxMs * NS_PER_MS then Writing(Overdue(HardMax))
    else LookingForDone
  }

  function Apply(r: Run, l: Label): Run
    requires Enabled(r, l)
  {
    match l
    case LookForDone => r.(dog := if r.done then Gone else LookingForCommand)
    case LookForCommand =>
      if r.commands == [] then r.(dog := ReadingClock)
      else r.(commands := r.commands[1..], dog := Writing(Commanded(r.commands[0])))
    case ReadClock => r.(dog := ReadingActivity(r.now))
    case ReadActivity =>
      r.(dog := Judge(r, r.dog.now), judgedAt := r.dog.now, judgedTouched := r.touched, judgedArrived := |r.arrivals|)
    case WriteStop => r.(stop := Some(r.dog.reason), stops := r.stops + 1, dog := Gone)
    case Attach(error) =>
      r.(worker := if error.None? then Attached(r.now) else Finished(Fail(InfraErr("probe_attach", error.value))),
         arrivals := if error.None? then r.arrivals + [r.now] else r.arrivals)
    case Touch =>
      r.(lastActivity := r.worker.at, touched := |r.arrivals|, worker := if r.worker.Attached? then Checking else Forwarding(r.worker.frame))
    case CheckStop => r.(worker := if r.stop.Some? then Stopping(r.stop.value) else AboutToCall)
    case Call => r.(worker := Calling, lateCalls := r.lateCalls + if r.stop.Some? then 1 else 0)
    case Receive(e) =>
      r.(trace := r.trace + [e], arrivals := if e.Frame? then r.arrivals + [r.now] else r.arrivals,
         worker := match e
                   case Frame(f) => Touching(f, r.now)
                   case Nothing => Checking
                   case _ => Finished(Ends(e, r.seenTestOk)))
    case Forward =>
      r.(seenTestOk := r.seenTestOk || TestOk(r.worker.frame), sent := r.sent + [r.worker.frame], worker := Checking)
    case Finalise => r.(worker := Finished(StopOutcome(r.worker.reason, ElapsedMs(r.now, r.startedAt))))
    case SignalDone => r.(done := true, worker := Joining(r.worker.outcome))
    case Join => r.(worker := Returned(r.worker.outcome))
    case Elapse(ns) => r.(now := r.now + ns)
    case Command(c) => r.(commands := r.commands + [c], issued := r.issued + {c})
  }

  function Start(limits: Limits, now: nat, commands: seq<AbortReason>): Run {
    Run(limits, now, now, now, None, false, commands, LookingForDone, Attaching, false, [], [],
        [], 0, 0, 0, 0, set c | c in commands, 0, 0)
  }

  // ---- the invariant -----------------------------------------------------------------------------

  /** A stop for a limit comes only when that much time has passed since the start; a commanded one only on command. */
  predicate Justified(r: Run, reason: StopReason) {
    match reason
    case Overdue(Inactivity) => r.now - r.startedAt > r.limits.inactivityMs * NS_PER_MS
    case Overdue(HardMax) => r.now - r.startedAt > r.limits.hardMaxMs * NS_PER_MS
    case Commanded(who) => who in r.issued
  }

  predicate Clocks(r: Run) {
    && r.startedAt <= r.lastActivity <= r.now
    && (r.worker.Attached? || r.worker.Touching? ==> r.startedAt <= r.worker.at <= r.now)
    && (r.dog.ReadingActivity? ==> r.startedAt <= r.dog.now <= r.now)
  }

  predicate Stops(r: Run) {
    && r.stops == (if r.stop.Some? then 1 else 0)
    && (r.stop.Some? ==> r.dog.Gone? && Justified(r, r.stop.value))
    && (r.dog.Writing? ==> Justified(r, r.dog.reason))
    && (r.worker.Stopping? ==> r.stop == Some(r.worker.reason))
    && (r.dog.Gone? ==> r.stop.Some? || r.done)
    && (r.done <==> r.worker.Joining? || r.worker.Returned?)
    && (r.worker.Returned? ==> r.dog.Gone?)
    && (forall c | c in r.commands :: c in r.issued)
  }

  /** The last activity is the latest arrival written; at most one arrival is not written yet, the one in the
      worker's hands. */
  predicate Activity(r: Run) {
    && r.touched <= |r.arrivals| == r.touched + (if r.worker.Attached? || r.worker.Touching? then 1 else 0)
    && (r.worker.Attached? || r.worker.Touching? ==> r.arrivals[r.touched] == r.worker.at)
    && (forall i | 0 <= i < |r.arrivals| :: r.startedAt <= r.arrivals[i] <= r.now)
    && (forall i, j | 0 <= i < j < |r.arrivals| :: r.arrivals[i] <= r.arrivals[j])
    && r.lastActivity == if r.touched == 0 then r.startedAt else r.arrivals[r.touched - 1]
  }

  /** When the watchdog stops the run for inactivity, no arrival written by then, nor the start, is within the
      limit of its clock value; it may have overlooked one arrival that was not written yet. */
  predicate Idle(r: Run) {
    && r.judgedTouched <= r.judgedArrived <= r.judgedTouched + 1 && r.judgedArrived <= |r.arrivals|
    && (Suspects(r, Inactivity) ==> SilentBefore(r))
  }

  predicate Suspects(r: Run, limit: TimeoutReason) {
    r.stop == Some(Overdue(limit)) || (r.dog.Writing? && r.dog.reason == Overdue(limit))
  }

  predicate Calls(r: Run) {
    r.lateCalls <= (if r.stop.Some? && !r.worker.AboutToCall? then 1 else 0)
  }

  function FramesIn(trace: seq<ProbeEvent>): seq<LogFrame> {
    if trace == [] then []
    else FramesIn(trace[..|trace| - 1]) + if trace[|trace| - 1].Frame? then [trace[|trace| - 1].frame] else []
  }

  predicate Silent(trace: seq<ProbeEvent>) { forall i | 0 <= i < |trace| :: trace[i].Frame? || trace[i].Nothing? }

  predicate OkSeen(frames: seq<LogFrame>) { exists i :: 0 <= i < |frames| && TestOk(frames[i]) }

  /** The frame in the worker's hands. */
  function InHand(w: WorkerPc): seq<LogFrame> {
    if w.Touching? || w.Forwarding? then [w.frame] else []
  }

  function Verdict(w: WorkerPc): Option<JobOutcome> {
    if w.Finished? || w.Joining? || w.Returned? then Some(w.outcome) else None
  }

  /** Why the worker has this outcome. */
  predicate Explained(r: Run, o: JobOutcome) {
    || (r.trace == [] && o.Fail? && o.failure.InfraErr? && o.failure.stage == "probe_attach")
    || (r.stop.Some? && Silent(r.trace) && StoppedBy(r.limits, r.stop.value, o))
    || (r.trace != [] && EndedBy(r.trace, o))
  }

  predicate EndedBy(trace: seq<ProbeEvent>, o: JobOutcome)
    requires trace != []
  {
    var init, e := trace[..|trace| - 1], trace[|trace| - 1];
    Silent(init) && !e.Frame? && !e.Nothing? && o == Ends(e, OkSeen(FramesIn(init)))
  }

  /** A limit's timeout reports at least the limit. */
  predicate StoppedBy(limits: Limits, reason: StopReason, o: JobOutcome) {
    match reason
    case Overdue(limit) =>
      o.Timeout? && o.reason == limit
      && o.elapsedMs >= if limit == Inactivity then limits.inactivityMs else limits.hardMaxMs
    case Commanded(who) => o == Abort(who)
  }

  predicate Tells(r: Run) {
    && FramesIn(r.trace) == r.sent + InHand(r.worker)
    && r.seenTestOk == OkSeen(r.sent)
    && match Verdict(r.worker)
       case Some(o) => Explained(r, o)
       case None => Silent(r.trace) && (r.worker.Attaching? ==> r.trace == [])
  }

  /** The last activity the watchdog knew of when it last compared the clock. */
  function KnownActivity(r: Run): nat {
    if 0 < r.judgedTouched <= |r.arrivals| then r.arrivals[r.judgedTouched - 1] else r.startedAt
  }

  /** The clock value the watchdog last compared was within both limits, in nanoseconds. */
  predicate WithinLimits(r: Run) {
    && r.judgedAt <= r.startedAt + r.limits.hardMaxMs * 1_000_000
    && r.judgedAt <= KnownActivity(r) + r.limits.inactivityMs * 1_000_000
  }

  predicate Deciding(r: Run) { r.stop.Some? || r.dog.Writing? }

  predicate Vigilant(r: Run) {
    && r.judgedTouched <= r.touched && (!Deciding(r) ==> WithinLimits(r))
  }

  predicate RunOk(r: Run) {
    r.limits.Valid() && Clocks(r) && Activity(r) && Idle(r) && Stops(r) && Calls(r) && Tells(r) && Vigilant(r)
  }

  lemma StartOk(limits: Limits, now: nat, commands: seq<AbortReason>)
    requires limits.Valid()
    ensures RunOk(Start(limits, now, commands))
  {}

  lemma StepKeepsClocks(r: Run, l: Label)
    requires Clocks(r) && Enabled(r, l)
    ensures Clocks(Apply(r, l))
  {}

  /** A deserved stop happens: the watchdog that has read the clock decides to stop the run for inactivity exactly if
      the last activity is further back than that limit, and otherwise for the hard limit exactly if the start is. */
  lemma WatchdogDecides(r: Run)
    requires r.dog.ReadingActivity?
    ensures var t, now := Apply(r, ReadActivity), r.dog.now;
            && t.judgedAt == now && t.judgedTouched == r.touched
            && t.dog == if now > r.lastActivity + r.limits.inactivityMs * 1_000_000 then Writing(Overdue(Inactivity))
                        else if now > r.startedAt + r.limits.hardMaxMs * 1_000_000 then Writing(Overdue(HardMax))
                        else LookingForDone
  {}

  /** A command that is there when the watchdog looks becomes the stop reason, the oldest one first. */
  lemma CommandDecides(r: Run)
    requires r.dog.LookingForCommand?
    ensures var t := Apply(r, LookForCommand);
            if r.commands == [] then t.dog == ReadingClock && t.commands == []
            else t.dog == Writing(Commanded(r.commands[0])) && [r.commands[0]] + t.commands == r.commands
  {}

  /** A decided stop is written, and the worker that looks for it obeys it before it asks for another event. */
  lemma StopIsObeyed(r: Run)
    ensures r.dog.Writing? ==> Apply(r, WriteStop).stop == Some(r.dog.reason)
    ensures r.worker.Checking? ==>
              Apply(r, CheckStop).worker == if r.stop.Some? then Stopping(r.stop.value) else AboutToCall
  {}

  /** The outcome of a stop: the limit with the whole milliseconds since the start, as far as 64 bits go, or the
      command's sender. */
  lemma StopIsTold(r: Run)
    requires r.worker.Stopping? && r.startedAt <= r.now
    ensures var w := Apply(r, Finalise).worker;
            && w.Finished?
            && (r.worker.reason.Overdue? ==>
                  && w.outcome.Timeout? && w.outcome.reason == r.worker.reason.limit && w.outcome.elapsedMs <= U64_MAX
                  && w.outcome.elapsedMs * 1_000_000 <= r.now - r.startedAt
                  && (w.outcome.elapsedMs < U64_MAX ==> r.now - r.startedAt < (w.outcome.elapsedMs + 1) * 1_000_000))
            && (r.worker.reason.Commanded? ==> w.outcome == Abort(r.worker.reason.who))
  {}

  /** The watchdog's comparison is on a clock value it read before it read the last activity. */
  lemma JudgeJustified(r: Run)
    requires Clocks(r) && r.dog.ReadingActivity?
    ensures var d := Judge(r, r.dog.now); d.Writing? ==> Justified(r, d.reason)
  {}

  lemma StepKeepsStops(r: Run, l: Label)
    requires Clocks(r) && Stops(r) && Enabled(r, l)
    ensures Stops(Apply(r, l))
  {
    if l.ReadActivity? { JudgeJustified(r); }
  }

  lemma AttachKeepsActivity(r: Run, error: Option<string>)
    requires Clocks(r) && Activity(r) && Enabled(r, Attach(error))
    ensures Activity(Apply(r, Attach(error)))
  {}

  lemma TouchKeepsActivity(r: Run)
    requires Clocks(r) && Activity(r) && Enabled(r, Touch)
    ensures Activity(Apply(r, Touch))
  {}

  lemma ReceiveKeepsActivity(r: Run, e: ProbeEvent)
    requires Clocks(r) && Activity(r) && Enabled(r, Receive(e))
    ensures Activity(Apply(r, Receive(e)))
  {}

  lemma OtherKeepsActivity(r: Run, l: Label)
    requires Activity(r) && Enabled(r, l) && !l.Attach? && !l.Touch? && !l.Receive?
    ensures Activity(Apply(r, l))
  {
    var t := Apply(r, l);
    assert t.arrivals == r.arrivals && t.touched == r.touched && t.lastActivity == r.lastActivity;
    assert t.startedAt == r.startedAt && r.now <= t.now;
    assert t.worker == r.worker || !(t.worker.Attached? || t.worker.Touching?);
    hide Enabled, Apply;
  }

  lemma StepKeepsActivity(r: Run, l: Label)
    requires Clocks(r) && Activity(r) && Enabled(r, l)
    ensures Activity(Apply(r, l))
  {
    hide Clocks, Activity, Apply;
    if l.Attach? { AttachKeepsActivity(r, l.error); }
    else if l.Touch? { TouchKeepsActivity(r); }
    else if l.Receive? { ReceiveKeepsActivity(r, l.e); }
    else { OtherKeepsActivity(r, l); }
  }

  lemma StepKeepsIdle(r: Run, l: Label)
    requires Clocks(r) && Activity(r) && Idle(r) && Stops(r) && Enabled(r, l)
    ensures Idle(Apply(r, l))
  {
    hide Idle, Apply;
    if l.ReadActivity? { JudgeKeepsIdle(r); }
    else if l.Attach? || l.Touch? || l.Receive? { ArrivalKeepsIdle(r, l); }
    else { OtherKeepsIdle(r, l); }
  }

  lemma JudgeKeepsIdle(r: Run)
    requires Clocks(r) && Activity(r) && Idle(r) && Stops(r) && r.dog.ReadingActivity?
    ensures Idle(Apply(r, ReadActivity))
  {}

  lemma ArrivalKeepsIdle(r: Run, l: Label)
    requires Idle(r) && Enabled(r, l) && (l.Attach? || l.Touch? || l.Receive?)
    ensures Idle(Apply(r, l))
  {}

  /** No arrival, and the suspicion is at most what it was. */
  lemma OtherKeepsIdle(r: Run, l: Label)
    requires Idle(r) && Enabled(r, l) && !l.ReadActivity? && !l.Attach? && !l.Touch? && !l.Receive?
    ensures Idle(Apply(r, l))
  {
    var t := Apply(r, l);
    assert t.arrivals == r.arrivals && t.judgedAt == r.judgedAt && t.judgedTouched == r.judgedTouched;
    assert t.judgedArrived == r.judgedArrived && t.startedAt == r.startedAt && t.limits == r.limits && r.now <= t.now;
    assert Suspects(t, Inactivity) ==> Suspects(r, Inactivity);
    hide Enabled, Apply, Suspects;
  }

  lemma JudgeKeepsVigilant(r: Run)
    requires Activity(r) && Vigilant(r) && r.dog.ReadingActivity?
    ensures Vigilant(Apply(r, ReadActivity))
  {
    WatchdogDecides(r);
    hide Judge;
  }

  lemma ArrivalKeepsVigilant(r: Run, l: Label)
    requires Activity(r) && Vigilant(r) && Enabled(r, l) && (l.Attach? || l.Touch? || l.Receive?)
    ensures Vigilant(Apply(r, l))
  {}

  lemma OtherKeepsVigilant(r: Run, l: Label)
    requires Vigilant(r) && Enabled(r, l) && !l.ReadActivity? && !l.Attach? && !l.Touch? && !l.Receive?
    ensures Vigilant(Apply(r, l))
  {
    var t := Apply(r, l);
    assert t.arrivals == r.arrivals && t.judgedAt == r.judgedAt && t.judgedTouched == r.judgedTouched && t.touched == r.touched;
    assert t.startedAt == r.startedAt && t.limits == r.limits && (Deciding(r) ==> Deciding(t));
    hide Enabled, Apply, Deciding;
  }

  lemma StepKeepsVigilant(r: Run, l: Label)
    requires Activity(r) && Vigilant(r) && Enabled(r, l)
    ensures Vigilant(Apply(r, l))
  {
    hide Vigilant, Apply;
    if l.ReadActivity? { JudgeKeepsVigilant(r); }
    else if l.Attach? || l.Touch? || l.Receive? { ArrivalKeepsVigilant(r, l); }
    else { OtherKeepsVigilant(r, l); }
  }

  lemma StepKeepsCalls(r: Run, l: Label)
    requires Stops(r) && Calls(r) && Enabled(r, l)
    ensures Calls(Apply(r, l))
  {}

  lemma TraceMore(trace: seq<ProbeEvent>, e: ProbeEvent)
    ensures (trace + [e])[..|trace|] == trace
    ensures FramesIn(trace + [e]) == FramesIn(trace) + if e.Frame? then [e.frame] else []
  {
    assert (trace + [e])[..|trace + [e]| - 1] == trace;
  }

  lemma OkSeenMore(frames: seq<LogFrame>, f: LogFrame)
    ensures OkSeen(frames + [f]) <==> OkSeen(frames) || TestOk(f)
  {
    var more := frames + [f];
    assert more[|frames|] == f;
    if OkSeen(frames) {
      var i :| 0 <= i < |frames| && TestOk(frames[i]);
      assert more[i] == frames[i];
    }
  }

  lemma ReceiveTells(r: Run, e: ProbeEvent)
    requires Tells(r) && r.worker.Calling?
    ensures Tells(Apply(r, Receive(e)))
  {
    TraceMore(r.trace, e);
    hide FramesIn, OkSeen;
    assert r.sent + [] == r.sent;
    if !e.Frame? && !e.Nothing? { assert EndedBy(r.trace + [e], Ends(e, r.seenTestOk)); }
  }

  /** The truncation to milliseconds does not lose the limit. */
  lemma FinaliseTells(r: Run)
    requires RunOk(r) && r.worker.Stopping?
    ensures Tells(Apply(r, Finalise))
  {
    assert StoppedBy(r.limits, r.stop.value, StopOutcome(r.stop.value, ElapsedMs(r.now, r.startedAt)));
  }

  lemma ForwardTells(r: Run)
    requires Tells(r) && r.worker.Forwarding?
    ensures Tells(Apply(r, Forward))
  {
    OkSeenMore(r.sent, r.worker.frame);
    hide FramesIn, OkSeen, TestOk;
    assert Apply(r, Forward).sent + [] == r.sent + [r.worker.frame];
  }

  lemma AttachTells(r: Run, error: Option<string>)
    requires Tells(r) && r.worker.Attaching?
    ensures Tells(Apply(r, Attach(error)))
  {
    hide FramesIn, OkSeen, EndedBy, StoppedBy;
  }

  lemma TouchTells(r: Run)
    requires Tells(r) && (r.worker.Attached? || r.worker.Touching?)
    ensures Tells(Apply(r, Touch))
  {
    hide FramesIn, OkSeen;
  }

  /** A stop reason is written once, so no explanation changes. */
  lemma WriteStopTells(r: Run)
    requires Stops(r) && Tells(r) && r.dog.Writing?
    ensures Tells(Apply(r, WriteStop))
  {
    hide FramesIn, OkSeen, EndedBy, StoppedBy;
  }

  /** What the run has to tell is as it was. */
  predicate SameTale(r: Run, t: Run) {
    && t.trace == r.trace && t.sent == r.sent && t.seenTestOk == r.seenTestOk && t.stop == r.stop && t.limits == r.limits
    && InHand(t.worker) == InHand(r.worker) && Verdict(t.worker) == Verdict(r.worker)
    && (t.worker.Attaching? ==> r.worker.Attaching?)
  }

  lemma OtherSameTale(r: Run, l: Label)
    requires Enabled(r, l)
    requires !l.Receive? && !l.Finalise? && !l.Forward? && !l.Touch? && !l.Attach? && !l.WriteStop?
    ensures SameTale(r, Apply(r, l))
  {}

  lemma StepKeepsTells(r: Run, l: Label)
    requires RunOk(r) && Enabled(r, l)
    ensures Tells(Apply(r, l))
  {
    hide Tells, Apply;
    match l
    case Receive(e) => ReceiveTells(r, e);
    case Finalise => FinaliseTells(r);
    case Forward => ForwardTells(r);
    case Touch => TouchTells(r);
    case Attach(error) => AttachTells(r, error);
    case WriteStop => WriteStopTells(r);
    case _ =>
      OtherSameTale(r, l);
      SameTaleTells(r, Apply(r, l));
  }

  lemma SameTaleTells(r: Run, t: Run)
    requires Tells(r) && SameTale(r, t)
    ensures Tells(t)
  {
    hide FramesIn, OkSeen, InHand, Verdict, EndedBy, StoppedBy, Silent;
  }

  lemma SameLimits(r: Run, l: Label)
    requires Enabled(r, l)
    ensures Apply(r, l).limits == r.limits
  {}

  lemma StepKeepsRunOk(r: Run, l: Label)
    requires RunOk(r) && Enabled(r, l)
    ensures RunOk(Apply(r, l))
  {
    SameLimits(r, l);
    hide Clocks, Activity, Idle, Stops, Calls, Tells, Vigilant, Enabled, Apply;
    StepKeepsClocks(r, l);
    StepKeepsActivity(r, l);
    StepKeepsIdle(r, l);
    StepKeepsStops(r, l);
    StepKeepsCalls(r, l);
    StepKeepsTells(r, l);
    StepKeepsVigilant(r, l);
  }

  // ---- every interleaving, every clock ---------------------------------------------------------------

  ghost predicate Legal(r: Run, ls: seq<Label>)
    decreases |ls|
  {
    ls == [] || (Enabled(r, ls[0]) && Legal(Apply(r, ls[0]), ls[1..]))
  }

  ghost function After(r: Run, ls: seq<Label>): Run
    requires Legal(r, ls)
    decreases |ls|
  {
    if ls == [] then r else After(Apply(r, ls[0]), ls[1..])
  }

  lemma {:induction false} StaysRunOk(r: Run, ls: seq<Label>)
    requires RunOk(r) && Legal(r, ls)
    ensures RunOk(After(r, ls))
    decreases |ls|
  {
    if ls != [] {
      StepKeepsRunOk(r, ls[0]);
      StaysRunOk(Apply(r, ls[0]), ls[1..]);
    }
  }

  lemma {:induction false} OkSeenInTrace(trace: seq<ProbeEvent>)
    ensures OkSeen(FramesIn(trace)) <==> exists i :: 0 <= i < |trace| && trace[i].Frame? && TestOk(trace[i].frame)
    decreases |trace|
  {
    if trace != [] {
      var init, e := trace[..|trace| - 1], trace[|trace| - 1];
      OkSeenInTrace(init);
      if e.Frame? { OkSeenMore(FramesIn(init), e.frame); } else { assert FramesIn(init) + [] == FramesIn(init); }
      if OkSeen(FramesIn(init)) {
        var i :| 0 <= i < |init| && init[i].Frame? && TestOk(init[i].frame);
        assert trace[i] == init[i];
      }
      if i :| 0 <= i < |trace| && trace[i].Frame? && TestOk(trace[i].frame) {
        assert i < |init| ==> init[i] == trace[i];
      }
    }
  }

  /** Main result, over every interleaving of the worker, the watchdog, the clock and the command channel:
      the stop reason is written at most once and at most one `next_event` call begins after it is visible;
      the forwarded frames are the observed ones, in order; a timeout reports at least its limit, one for
      inactivity followed no written activity within its limit and overlooked at most one arrival; an abort was
      commanded; and the run passes exactly when it ended at a breakpoint after a `Test OK` info frame. */
  lemma RunSoundness(limits: Limits, now: nat, commands: seq<AbortReason>, ls: seq<Label>)
    requires limits.Valid() && Legal(Start(limits, now, commands), ls)
    ensures var r := After(Start(limits, now, commands), ls);
            && r.stops <= 1 && r.lateCalls <= 1
            && r.sent <= FramesIn(r.trace) && |FramesIn(r.trace)| <= |r.sent| + 1
            && (r.worker.Returned? ==> var o := r.worker.outcome;
                  && r.dog.Gone? && r.sent == FramesIn(r.trace)
                  && (o.Timeout? && o.reason == HardMax ==> o.elapsedMs >= r.limits.hardMaxMs)
                  && (o.Timeout? && o.reason == Inactivity ==> o.elapsedMs >= r.limits.inactivityMs)
                  && (o.Timeout? && o.reason == Inactivity ==> r.judgedArrived <= r.judgedTouched + 1 && SilentBefore(r))
                  && (o.Abort? ==> o.who in r.issued)
                  && (o.Pass? <==> r.trace != [] && r.trace[|r.trace| - 1].Bkpt? && MarkerSeen(r.trace)))
  {
    StartOk(limits, now, commands);
    StaysRunOk(Start(limits, now, commands), ls);
    var r := After(Start(limits, now, commands), ls);
    if r.worker.Returned? && r.trace != [] {
      PassExplained(r, r.worker.outcome);
    }
  }

  /** Over all runs: as long as no stop is decided, the clock value the watchdog last compared was within the hard
      limit of the start and within the inactivity limit of the last activity written by then. */
  lemma LimitsEnforced(limits: Limits, now: nat, commands: seq<AbortReason>, ls: seq<Label>)
    requires limits.Valid() && Legal(Start(limits, now, commands), ls)
    ensures var r := After(Start(limits, now, commands), ls);
            r.stop.None? && !r.dog.Writing? ==> WithinLimits(r)
  {
    StartOk(limits, now, commands);
    StaysRunOk(Start(limits, now, commands), ls);
  }

  /** The marker was seen: an info frame that says exactly this, but for surrounding white space. */
  ghost predicate MarkerSeen(trace: seq<ProbeEvent>) {
    exists i :: 0 <= i < |trace| && trace[i].Frame? && trace[i].frame.level == Info && Trim(trace[i].frame.message) == "Test OK"
  }

  /** What a run's outcome tells: how the session ended, if it did, and otherwise the stop or why there was no session. */
  ghost predicate Told(r: Run, o: JobOutcome) {
    if r.trace != [] && !r.trace[|r.trace| - 1].Frame? && !r.trace[|r.trace| - 1].Nothing? then
      match r.trace[|r.trace| - 1]
      case Bkpt => o == if MarkerSeen(r.trace) then JobOutcome.Pass else Fail(TestErr("bkpt without preceding Test OK"))
      case Panic(m) => o == Fail(TestErr(m))
      case Disconnect => o == Fail(InfraErr("probe_disconnect", "probe disconnected mid-run"))
      case IoFailure(m) => o == Fail(InfraErr("probe_io", m))
    else
      || (r.trace == [] && o.Fail? && o.failure.InfraErr? && o.failure.stage == "probe_attach")
      || (r.stop.Some? &&
          match r.stop.value
          case Overdue(limit) =>
            o.Timeout? && o.reason == limit && o.elapsedMs >= if limit == Inactivity then r.limits.inactivityMs else r.limits.hardMaxMs
          case Commanded(who) => o == Abort(who))
  }

  /** Over all runs, what is returned is told by what happened. */
  lemma OutcomeIsTold(limits: Limits, now: nat, commands: seq<AbortReason>, ls: seq<Label>)
    requires limits.Valid() && Legal(Start(limits, now, commands), ls)
    ensures var r := After(Start(limits, now, commands), ls); r.worker.Returned? ==> Told(r, r.worker.outcome)
  {
    StartOk(limits, now, commands);
    StaysRunOk(Start(limits, now, commands), ls);
    var r := After(Start(limits, now, commands), ls);
    if r.worker.Returned? { ReturnedIsTold(r); }
  }

  lemma ReturnedIsTold(r: Run)
    requires RunOk(r) && r.worker.Returned?
    ensures Told(r, r.worker.outcome) && r.sent == FramesIn(r.trace)
  {
    ExplainedIsTold(r, r.worker.outcome);
    hide Told, FramesIn;
    assert r.sent + [] == r.sent;
  }

  lemma ExplainedIsTold(r: Run, o: JobOutcome)
    requires Explained(r, o)
    ensures Told(r, o)
  {
    hide FramesIn, Trim;
    if r.trace != [] {
      var init, e := r.trace[..|r.trace| - 1], r.trace[|r.trace| - 1];
      OkSeenInTrace(init);
      if !e.Frame? && !e.Nothing? {
        assert !Silent(r.trace);
        MarkerInFront(r.trace);
      } else {
        assert !EndedBy(r.trace, o);
      }
    }
  }

  lemma MarkerInFront(trace: seq<ProbeEvent>)
    requires trace != [] && !trace[|trace| - 1].Frame?
    ensures var init := trace[..|trace| - 1];
            MarkerSeen(trace) <==> exists i :: 0 <= i < |init| && init[i].Frame? && TestOk(init[i].frame)
  {
    hide Trim;
    var init := trace[..|trace| - 1];
    if i :| 0 <= i < |init| && init[i].Frame? && TestOk(init[i].frame) { assert trace[i] == init[i]; }
    if MarkerSeen(trace) {
      var i :| 0 <= i < |trace| && trace[i].Frame? && trace[i].frame.level == Info && Trim(trace[i].frame.message) == "Test OK";
      assert i < |init| && init[i] == trace[i];
    }
  }

  /** `trim` takes white space from both ends and nothing else. */
  lemma {:induction false} TrimMeaning(s: string) returns (front: string, back: string)
    ensures s == front + Trim(s) + back
    ensures (forall i | 0 <= i < |front| :: IsSpace(front[i])) && forall i | 0 <= i < |back| :: IsSpace(back[i])
    ensures Trim(s) != [] ==> !IsSpace(Trim(s)[0]) && !IsSpace(Trim(s)[|Trim(s)| - 1])
    decreases |s|
  {
    hide IsSpace;
    if s == [] {
      front, back := [], [];
    } else if IsSpace(s[0]) {
      front, back := TrimMeaning(s[1..]);
      front := [s[0]] + front;
    } else if IsSpace(s[|s| - 1]) {
      front, back := TrimMeaning(s[..|s| - 1]);
      back := back + [s[|s| - 1]];
    } else {
      front, back := [], [];
    }
  }

  /** Neither the start nor any arrival written by then is within the inactivity limit of the watchdog's clock value. */
  predicate SilentBefore(r: Run) {
    && r.startedAt + r.limits.inactivityMs * NS_PER_MS < r.judgedAt <= r.now
    && forall i | 0 <= i < r.judgedTouched && i < |r.arrivals| :: r.arrivals[i] + r.limits.inactivityMs * NS_PER_MS < r.judgedAt
  }

  lemma PassExplained(r: Run, o: JobOutcome)
    requires Explained(r, o) && r.trace != []
    ensures o.Pass? <==> r.trace[|r.trace| - 1].Bkpt?
                         && exists i :: 0 <= i < |r.trace| && r.trace[i].Frame? && TestOk(r.trace[i].frame)
  {
    var init, e := r.trace[..|r.trace| - 1], r.trace[|r.trace| - 1];
    OkSeenInTrace(init);
    if i :| 0 <= i < |init| && init[i].Frame? && TestOk(init[i].frame) { assert r.trace[i] == init[i]; }
    if i :| 0 <= i < |r.trace| && r.trace[i].Frame? && TestOk(r.trace[i].frame) {
      assert i < |init| ==> init[i] == r.trace[i];
    }
  }

  // ---- the overlooked frame ----------------------------------------------------------------------

  lemma {:induction false} Resume(r: Run, ls: seq<Label>, more: seq<Label>)
    requires Legal(r, ls)
    ensures Legal(r, ls + more) <==> Legal(After(r, ls), more)
    ensures Legal(r, ls + more) ==> After(r, ls + more) == After(After(r, ls), more)
    decreases |ls|
  {
    if ls == [] {
      assert ls + more == more;
    } else {
      assert (ls + more)[0] == ls[0] && (ls + more)[1..] == ls[1..] + more;
      Resume(Apply(r, ls[0]), ls[1..], more);
    }
  }

  function OverlookStep(limits: Limits, f: LogFrame, i: nat): Label {
    match i
    case 0 => Attach(None)
    case 1 => Touch
    case 2 => CheckStop
    case 3 => Call
    case 4 => Elapse(limits.inactivityMs * NS_PER_MS + 1)
    case 5 => Receive(Frame(f))
    case 6 => LookForDone
    case 7 => LookForCommand
    case 8 => ReadClock
    case 9 => ReadActivity
    case _ => WriteStop
  }

  function OverlookRun(limits: Limits, f: LogFrame, i: nat): Run {
    var late := limits.inactivityMs * NS_PER_MS + 1;
    var live := Start(limits, 0, []).(arrivals := [0]);
    var received := live.(now := late, touched := 1, worker := Touching(f, late), arrivals := [0, late], trace := [Frame(f)]);
    match i
    case 0 => Start(limits, 0, [])
    case 1 => live.(worker := Attached(0))
    case 2 => live.(touched := 1, worker := Checking)
    case 3 => live.(touched := 1, worker := AboutToCall)
    case 4 => live.(touched := 1, worker := Calling)
    case 5 => live.(touched := 1, worker := Calling, now := late)
    case 6 => received
    case 7 => received.(dog := LookingForCommand)
    case 8 => received.(dog := ReadingClock)
    case 9 => received.(dog := ReadingActivity(late))
    case 10 => received.(dog := Writing(Overdue(Inactivity)), judgedAt := late, judgedTouched := 1, judgedArrived := 2)
    case _ => received.(dog := Gone, judgedAt := late, judgedTouched := 1, judgedArrived := 2,
                        stop := Some(Overdue(Inactivity)), stops := 1)
  }

  lemma OverlookGoes(limits: Limits, f: LogFrame, i: nat)
    requires i < 11
    ensures Enabled(OverlookRun(limits, f, i), OverlookStep(limits, f, i))
    ensures Apply(OverlookRun(limits, f, i), OverlookStep(limits, f, i)) == OverlookRun(limits, f, i + 1)
  {}

  function OverlookPath(limits: Limits, f: LogFrame, n: nat): seq<Label> {
    if n == 0 then [] else OverlookPath(limits, f, n - 1) + [OverlookStep(limits, f, n - 1)]
  }

  lemma {:induction false} OverlookLegal(limits: Limits, f: LogFrame, n: nat)
    requires n <= 11
    ensures Legal(Start(limits, 0, []), OverlookPath(limits, f, n))
    ensures After(Start(limits, 0, []), OverlookPath(limits, f, n)) == OverlookRun(limits, f, n)
  {
    if n > 0 {
      OverlookLegal(limits, f, n - 1);
      OverlookGoes(limits, f, n - 1);
      hide OverlookRun, OverlookStep, Enabled, Apply;
      Resume(Start(limits, 0, []), OverlookPath(limits, f, n - 1), [OverlookStep(limits, f, n - 1)]);
      assert [OverlookStep(limits, f, n - 1)][1..] == [];
    }
  }

  /** A frame that has arrived and is not yet written does not save the run: for any limits there is a run in
      which it arrives at the very instant the watchdog reads the clock, and which is stopped for inactivity. */
  lemma OverlookedFrame(limits: Limits, f: LogFrame)
    ensures exists ls :: Legal(Start(limits, 0, []), ls)
              && var r := After(Start(limits, 0, []), ls);
                 r.stop == Some(Overdue(Inactivity)) && |r.arrivals| == 2 && r.arrivals[1] == r.judgedAt
  {
    OverlookLegal(limits, f, 11);
    var r := OverlookRun(limits, f, 11);
    assert r.stop == Some(Overdue(Inactivity)) && |r.arrivals| == 2 && r.arrivals[1] == r.judgedAt;
    hide *;
  }

  function DogRank(d: DogPc): nat {
    match d
    case Gone => 0
    case Writing(_) => 1
    case LookingForDone => 1
    case ReadingActivity(_) => 2
    case ReadingClock => 3
    case LookingForCommand => 4
  }

  /** Once the worker is done, the join cannot wait for long: each section of the watchdog brings it closer
      to its end, and nobody else's moves it. */
  lemma JoinIsBounded(r: Run, l: Label)
    requires RunOk(r) && r.done && Enabled(r, l)
    ensures Apply(r, l).done
    ensures DogRank(Apply(r, l).dog) + (if DogLabel(l) then 1 else 0) <= DogRank(r.dog)
    ensures !r.dog.Gone? ==> exists d :: DogLabel(d) && Enabled(r, d)
  {
    var d := match r.dog
             case LookingForDone => LookForDone
             case LookingForCommand => LookForCommand
             case ReadingClock => ReadClock
             case ReadingActivity(_) => ReadActivity
             case _ => WriteStop;
    assert DogLabel(d) && (r.dog.Gone? || Enabled(r, d));
  }
}

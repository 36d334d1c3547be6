/** Whose sections are whose in a history of the daemon, and what each thread's own sections look like, round by
    round, in the order the code performs them. */
module Rounds {
  import opened Options
  import opened Proto
  import opened Tables
  import opened SchedulerSpec
  import opened Protocol
  import History

  datatype Actor = Dispatcher | BuildTaskOf(job: JobId) | RunTaskOf(job: JobId) | Handler

  predicate By(l: Label, me: Actor) {
    match me
    case Dispatcher => l.Dispatch?
    case BuildTaskOf(j) => l.Build? && l.job == j
    case RunTaskOf(j) => l.Run? && l.job == j
    case Handler => false
  }

  /** Sections of the other threads; the process stays up. */
  predicate Others(ls: seq<Label>, me: Actor) {
    forall i | 0 <= i < |ls| :: !By(ls[i], me) && !ls[i].Restart?
  }

  function Mine(me: Actor): Label -> bool { l => By(l, me) }

  /** From one history to a later one, this thread has performed exactly these sections. */
  predicate Performs(before: seq<Label>, after: seq<Label>, me: Actor, own: seq<Label>) {
    History.Performs(before, after, Mine(me), own)
  }

  lemma StartsWithNothing(h: seq<Label>, me: Actor)
    ensures Performs(h, h, me, [])
  {
    History.Nothing(h, Mine(me));
  }

  lemma OthersPerformNothing(before: seq<Label>, more: seq<Label>, me: Actor)
    requires Others(more, me)
    ensures Performs(before, before + more, me, [])
  {
    History.OthersOnly(before, more, Mine(me));
  }

  lemma PerformsOne(before: seq<Label>, l: Label, me: Actor)
    requires By(l, me)
    ensures Performs(before, before + [l], me, [l])
  {
    History.One(before, l, Mine(me));
  }

  lemma PerformsBoth(a: seq<Label>, b: seq<Label>, c: seq<Label>, me: Actor, x: seq<Label>, y: seq<Label>)
    requires Performs(a, b, me, x) && Performs(b, c, me, y)
    ensures Performs(a, c, me, x + y)
  {
    History.Both(a, b, c, Mine(me), x, y);
  }

  // ---- rounds of the two stages ------------------------------------------------------------------

  datatype StageKind = OfRuns | OfBuilds

  predicate PicksAt(l: Label, kind: StageKind, now: int) {
    l.Dispatch? && (if kind.OfRuns? then l.d.PickRun? && l.d.now == now else l.d.PickBuild? && l.d.now == now)
  }

  predicate PickedSomething(l: Label) {
    l.Dispatch? && ((l.d.PickRun? && l.d.placement.Some?) || (l.d.PickBuild? && l.d.choice.Some?))
  }

  /** What follows the pick of a round that spawned a task. */
  function Rest(kind: StageKind): seq<Label> {
    match kind
    case OfRuns => [Dispatch(ClaimRun), Dispatch(RegisterRun), Dispatch(SpawnRun)]
    case OfBuilds => [Dispatch(AcquireSlot), Dispatch(ClaimBuild), Dispatch(RegisterBuild), Dispatch(SpawnBuild)]
  }

  predicate FullRound(kind: StageKind, now: int, ls: seq<Label>) {
    |ls| > 0 && PicksAt(ls[0], kind, now) && PickedSomething(ls[0]) && ls[1..] == Rest(kind)
  }

  /** What follows the pick of a round that ended the stage: nothing was picked, the claim was lost, or there was
      no slot. */
  predicate LastRound(kind: StageKind, now: int, ls: seq<Label>) {
    |ls| > 0 && PicksAt(ls[0], kind, now)
    && if !PickedSomething(ls[0]) then |ls| == 1
       else if kind.OfRuns? then ls[1..] == [Dispatch(ClaimRun)]
       else ls[1..] == [Dispatch(AcquireSlot)] || ls[1..] == [Dispatch(AcquireSlot), Dispatch(ClaimBuild), Dispatch(ReleaseSlot)]
  }

  /** One round for each reading of the clock, until the stage is done. */
  predicate StageRounds(kind: StageKind, clock: seq<int>, rounds: seq<seq<Label>>, done: bool) {
    && |rounds| <= |clock| && (done ==> rounds != []) && (!done ==> |rounds| == |clock|)
    && forall k | 0 <= k < |rounds| ::
         if done && k == |rounds| - 1 then LastRound(kind, clock[k], rounds[k]) else FullRound(kind, clock[k], rounds[k])
  }

  // ---- a pass of the loop --------------------------------------------------------------------------

  datatype Pass =
    | Draining(buildsIdle: bool)
    | Working(runs: seq<seq<Label>>, runsDone: bool, builds: seq<seq<Label>>, buildsDone: bool)

  /** Under drain the build registry is looked at, and the run registry only if that is empty; otherwise the run
      stage comes before the build stage. */
  function PassSections(p: Pass): seq<Label> {
    [Dispatch(ReadDrain)] +
    match p
    case Draining(idle) => if idle then [Dispatch(ReadRunRegistry)] else []
    case Working(runs, _, builds, _) => History.Flat(runs) + History.Flat(builds)
  }

  predicate PassRounds(p: Pass, runClock: seq<int>, buildClock: seq<int>) {
    p.Working? ==>
      && StageRounds(OfRuns, runClock, p.runs, p.runsDone)
      && (if p.runsDone then StageRounds(OfBuilds, buildClock, p.builds, p.buildsDone) else p.builds == [] && !p.buildsDone)
  }

  // ---- build and run tasks ----------------------------------------------------------------------------------------

  datatype Point = InLookup | InAdvance | InBuilder | InCopy

  /** What the outside world holds for one build: the cache, the builder, the file copy, and a panic anywhere. */
  datatype BuildWorld = BuildWorld(
    cached: Option<string>,
    result: BuilderResult,
    copied: Result<string, string>,
    panics: Option<(Point, string)>)
  {
    predicate PanicsAt(p: Point) { panics.Some? && panics.value.0 == p }
    function Panic(): BuildStep { BuildPanics(if panics.Some? then panics.value.1 else "") }
    function Panicked(): BuildEnd {
      Terminal(Fail(InfraErr("build_dispatch", if panics.Some? then panics.value.1 else "")))
    }
  }

  /** The sections of `build_inner` after a cache hit, and what it returns, for a given world. */
  function HitPath(w: BuildWorld): (seq<BuildStep>, BuildEnd) {
    if w.PanicsAt(InAdvance) then ([w.Panic()], w.Panicked()) else ([AdvanceHit], Advanced)
  }

  /** After a successful build. */
  function CopyPath(w: BuildWorld): (seq<BuildStep>, BuildEnd) {
    if w.PanicsAt(InCopy) then ([w.Panic()], w.Panicked())
    else
      match w.copied
      case Err(m) => ([CopyFails(m)], Terminal(Fail(InfraErr("artifact_copy", m))))
      case Ok(stable) => ([StoreAndAdvance(stable)], Advanced)
  }

  /** After a cache miss. */
  function BuilderPath(w: BuildWorld): (seq<BuildStep>, BuildEnd) {
    if w.PanicsAt(InBuilder) then ([w.Panic()], w.Panicked())
    else
      match w.result
      case BuildFailed(e) => ([BuilderReturns(w.result)], Terminal(Fail(BuildErr(e))))
      case BuildCancelled => ([BuilderReturns(w.result)], Terminal(Abort(User)))
      case Built => ([BuilderReturns(w.result)] + CopyPath(w).0, CopyPath(w).1)
  }

  /** All of `build_inner`. */
  function BuildPath(w: BuildWorld, skipCache: bool): (seq<BuildStep>, BuildEnd) {
    var hit := if skipCache then None else w.cached;
    if w.PanicsAt(InLookup) then ([w.Panic()], w.Panicked())
    else
      var rest := if hit.Some? then HitPath(w) else BuilderPath(w);
      ([LookUp(hit)] + rest.0, rest.1)
  }

  /** What a build must come to: a panic where the build passes is its infra error; a cached tar advances with the
      cached ELF; without one the builder's result decides, and a copied artifact advances the job with the copy. */
  predicate BuildEnds(w: BuildWorld, skipCache: bool, end: BuildEnd, elf: Option<string>) {
    var hit := !skipCache && w.cached.Some?;
    var panics := w.panics.Some? &&
                  match w.panics.value.0
                  case InLookup => true
                  case InAdvance => hit
                  case InBuilder => !hit
                  case InCopy => !hit && w.result.Built?;
    if panics then end == Terminal(Fail(InfraErr("build_dispatch", w.panics.value.1)))
    else if hit then end == Advanced && elf == w.cached
    else
      match w.result
      case BuildFailed(stderr) => end == Terminal(Fail(BuildErr(stderr)))
      case BuildCancelled => end == Terminal(Abort(User))
      case Built =>
        match w.copied
        case Ok(stable) => end == Advanced && elf == Some(stable)
        case Err(m) => end == Terminal(Fail(InfraErr("artifact_copy", m)))
  }

  /** The path through `build_inner` ends as it must, if an advance is with the ELF of the path taken. */
  lemma PathEnds(w: BuildWorld, skipCache: bool, elf: Option<string>)
    requires var hit := !skipCache && w.cached.Some?;
             BuildPath(w, skipCache).1.Advanced? ==>
               elf == Some(if hit then w.cached.value else if w.copied.Ok? then w.copied.value else "")
    ensures BuildEnds(w, skipCache, BuildPath(w, skipCache).1, elf)
  {}

  function BuildSections(j: JobId, steps: seq<BuildStep>): seq<Label> {
    seq(|steps|, i requires 0 <= i < |steps| => Build(j, steps[i]))
  }

  lemma BuildSectionsJoin(j: JobId, a: seq<BuildStep>, b: seq<BuildStep>)
    ensures BuildSections(j, a + b) == BuildSections(j, a) + BuildSections(j, b)
  {}

  /** `run_one_build`: slot first, then the registry entry, then the row if the build did not advance it. */
  function BuildTaskPath(w: BuildWorld, skipCache: bool, now: int): seq<BuildStep> {
    var (steps, end) := BuildPath(w, skipCache);
    steps + [ReturnSlot, UnregisterBuild] + if end.Terminal? then [FinalizeBuild(now)] else []
  }

  lemma TaskSections(j: JobId, w: BuildWorld, skipCache: bool, now: int)
    ensures var (steps, end) := BuildPath(w, skipCache);
            var all := BuildSections(j, BuildTaskPath(w, skipCache, now));
            && (end.Advanced? ==> all == BuildSections(j, steps) + [Build(j, ReturnSlot)] + [Build(j, UnregisterBuild)])
            && (end.Terminal? ==> all == BuildSections(j, steps) + [Build(j, ReturnSlot)] + [Build(j, UnregisterBuild)]
                                         + [Build(j, FinalizeBuild(now))])
  {
    hide BuildPath;
  }

  datatype RunWorld = Returns(outcome: JobOutcome, clean: bool) | Panics(message: string) {
    /** A panic counts as an unclean InfraErr. */
    function Outcome(): JobOutcome { if Returns? then outcome else Fail(InfraErr("dispatch", message)) }
    function Clean(): bool { Returns? && clean }
  }

  /** A runner that panicked is stored as an infra error, with the probe not released. */
  lemma WhatTheRunnerSays(w: RunWorld)
    ensures match w
            case Returns(outcome, clean) => w.Outcome() == outcome && w.Clean() == clean
            case Panics(message) => w.Outcome() == Fail(InfraErr("dispatch", message)) && !w.Clean()
  {}
}

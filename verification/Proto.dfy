/** The wire and row types shared by the daemon's crates (paavo-proto, paavo-db). */
module Options {
  datatype Option<+T> = None | Some(value: T)
  datatype Result<+T, +E> = Ok(value: T) | Err(error: E)
}

module Bytes {
  newtype Byte = b: int | 0 <= b < 256

  const NEWLINE: Byte := 10
}

module Proto {
  import opened Options

  type JobId = nat      // a ULID
  type BoardId = string

  datatype Priority = Interactive | Scheduled {
    /** Smaller is sooner; also the persisted `job.priority` column. */
    function Weight(): nat { if Interactive? then 0 else 1 }
  }

  datatype JobState =
    Submitted | Building | AwaitingBoard | Running | Passed | Failed | TimedOut | Aborted
  {
    predicate IsTerminal() { Passed? || Failed? || TimedOut? || Aborted? }

    /** Position in the two-stage pipeline; all terminal states share the last place. */
    function Rank(): nat {
      match this
      case Submitted => 0
      case Building => 1
      case AwaitingBoard => 2
      case Running => 3
      case _ => 4
    }
  }

  datatype TerminalOutcome =
    | BuildErr(stderr: string)
    | TestErr(message: string)
    | InfraErr(stage: string, detail: string)

  datatype TimeoutReason = Inactivity | HardMax
  datatype AbortReason = User | DaemonShutdown | Interrupted

  datatype JobOutcome =
    | Pass
    | Fail(failure: TerminalOutcome)
    | Timeout(reason: TimeoutReason, elapsedMs: nat)
    | Abort(who: AbortReason)
  {
    predicate CountsTowardInfraFailure() { Fail? && failure.InfraErr? }

    /** `terminal_state_of`: the row state an outcome is stored under. */
    function State(): (s: JobState)
      ensures s.IsTerminal()
    {
      match this
      case Pass => Passed
      case Fail(_) => Failed
      case Timeout(_, _) => TimedOut
      case Abort(_) => Aborted
    }
  }

  datatype BoardHealth = Healthy | Quarantined

  datatype BoardRow = BoardRow(
    id: BoardId,
    kind: string,
    wiringProfile: Option<string>,
    health: BoardHealth,
    quarantineReason: Option<string>,
    infraFailures: nat,
    lastUsedAt: Option<int>)

  datatype BoardSelector = BoardSelector(
    kind: string,
    instance: Option<BoardId>,
    wiringProfile: Option<string>)
  {
    /** Health is not looked at here. */
    predicate Matches(board: BoardRow) {
      && kind == board.kind
      && (instance.Some? ==> instance.value == board.id)
      && (wiringProfile.Some? ==> board.wiringProfile == wiringProfile)
    }
  }

  datatype JobRow = JobRow(
    id: JobId,
    priority: Priority,
    selector: BoardSelector,
    state: JobState,
    outcome: Option<JobOutcome>,
    boardId: Option<BoardId>,
    submittedAt: int,
    startedAt: Option<int>,
    finishedAt: Option<int>,
    tar: string,
    elfPath: Option<string>,
    skipCache: bool)
  {
    /** `finished_at` is set iff the state is terminal iff an outcome is stored, and the two agree. */
    predicate Coherent() {
      && (finishedAt.Some? <==> state.IsTerminal())
      && (outcome.Some? <==> state.IsTerminal())
      && (outcome.Some? ==> outcome.value.State() == state)
    }
  }

  datatype LogLevel = Trace | Debug | Info | Warn | Error

  datatype LogFrame = LogFrame(seqNo: nat, tsUs: nat, level: LogLevel, target: Option<string>, message: string)

  /** The rows of one job in `log_frame`, in primary-key order. */
  predicate SeqOrdered(frames: seq<LogFrame>) {
    forall i, j | 0 <= i < j < |frames| :: frames[i].seqNo < frames[j].seqNo
  }
}

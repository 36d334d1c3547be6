/** Watching a job: history read after subscribing, then live events, deduplicated by the client, while the
    writer publishes and flushes, the row is finalized, cancelled or purged, reads fail, and other viewers come and go. */
module Viewing {
  import opened Options
  import opened Proto
  import opened LogSink

  datatype Phase = BuildPhase | RunPhase

  /** A broker event, and the NDJSON line it becomes; `Truncated` exists only on the wire. */
  datatype Line = Frame(frame: LogFrame) | Phased(phase: Phase) | Terminal(outcome: JobOutcome) | Truncated {
    predicate Closes() { Terminal? || Truncated? }
  }

  /** Where `stream_job` stands. `answer` is the outcome it will close with, if it already knows it; `answered` says
      that a finished response was closed that way. */
  datatype ViewerPc =
    | Arriving
    | Subscribing
    | Rechecking
    | Paging(answer: Option<JobOutcome>)
    | Tailing
    | Closed(answered: bool)
    | Refused                       // 404 or 500, no stream

  /** The terminal event is published once, and then the channel is dropped, once. */
  datatype Farewell = Silent | TerminalSent | ChannelDropped

  datatype World = World(
    pipe: Pipe,
    outcome: Option<JobOutcome>,    // the row is terminal
    byDispatch: bool,               // and it was a task that finalized it, not an inline cancel
    gone: bool,                     // the row was purged
    farewell: Farewell,             // the dispatcher's last words on the channel
    open: bool,                     // the broker has a channel for the job
    pc: ViewerPc,
    attached: bool,                 // our receiver's channel is the one in the broker
    inbox: seq<Line>,               // everything our receiver was sent
    pos: nat,                       // how much of it has been streamed
    out: seq<Line>,                 // the response body
    hist: nat,                      // rows read from the table
    cutOff: bool,                   // a history query failed
    since: nat, flushed: nat,       // published and flushed at the subscribe instant
    asked: nat,                     // flushed at the last history query
    early: nat,                     // other viewers that have read a row that was not terminal and will subscribe
    racing: nat)                    // and those that have subscribed and will re-check the row

  datatype Step =
    | Write(e: Event)
    | ChangePhase(phase: Phase)
    | FinalizeRow(o: JobOutcome)    // by a build or run task
    | CancelWaiting                 // by `cancel_job`, inline: nothing is published and no channel dropped
    | PurgeRow
    | Announce
    | DropChannel
    | OtherReads                    // another viewer finds the row not terminal; one that finds it terminal stays away
    | OtherSubscribes
    | OtherRechecks(ok: bool)
    | ReadRow(ok: bool)
    | Subscribe
    | Recheck(ok: bool)
    | ReadPage
    | PageFails
    | Take
    | HangUp(ok: bool)

  const PAGE: nat := 1000

  predicate Enabled(w: World, x: Step) {
    match x
    case Write(e) => Can(w.pipe, e) && (e.Published? ==> |Pending(w.pipe)| < BATCH_MAX)   // FrameSink.Valid
    case ChangePhase(_) => true
    case FinalizeRow(_) => w.outcome.None? && !w.gone
    case CancelWaiting => w.outcome.None? && !w.gone
    case PurgeRow => !w.gone
    case Announce => w.byDispatch && w.farewell == Silent
    case DropChannel => w.farewell == TerminalSent
    case OtherReads => w.outcome.None? && !w.gone
    case OtherSubscribes => w.early > 0
    case OtherRechecks(_) => w.racing > 0
    case ReadRow(_) => w.pc.Arriving?
    case Subscribe => w.pc.Subscribing?
    case Recheck(_) => w.pc.Rechecking?
    case ReadPage => w.pc.Paging?
    case PageFails => w.pc.Paging?
    case Take => w.pc.Tailing? && w.pos < |w.inbox|
    case HangUp(_) => w.pc.Tailing? && w.pos == |w.inbox| && !w.attached
  }

  /** `publish`: only receivers of the channel in the map get the event. */
  function Deliver(w: World, event: Line): World {
    if w.open && w.attached then w.(inbox := w.inbox + [event]) else w
  }

  /** `finalize`: receivers keep what they have and will see the end of the channel after it. */
  function Drop(w: World): World { w.(open := false, attached := false) }

  function AsLines(frames: seq<LogFrame>): (lines: seq<Line>)
    ensures |lines| == |frames|
  {
    seq(|frames|, i requires 0 <= i < |frames| => Frame(frames[i]))
  }

  /** `LIMIT 1000 OFFSET offset`. */
  function PageAt(table: seq<LogFrame>, offset: nat): (page: seq<LogFrame>)
    ensures |page| <= PAGE
  {
    if offset + PAGE <= |table| then table[offset..offset + PAGE]
    else if offset <= |table| then table[offset..]
    else []
  }

  /** History is over: the answer if there is one, and otherwise the tail. */
  function EndHistory(w: World): World
    requires w.pc.Paging?
  {
    if w.pc.answer.Some? then w.(out := w.out + [Terminal(w.pc.answer.value)], pc := Closed(true)) else w.(pc := Tailing)
  }

  function WithPage(w: World, page: seq<LogFrame>): (t: World)
    ensures t.out == w.out + AsLines(page) && t.pc == w.pc
  {
    w.(out := w.out + AsLines(page), hist := w.hist + |page|, asked := |w.pipe.kept|)
  }

  function AfterPage(w: World): World
    requires w.pc.Paging?
  {
    var page := PageAt(w.pipe.table, w.hist);
    var t := WithPage(w, page);
    if |page| == PAGE then t else EndHistory(t)
  }

  /** The outcome, if the row can be read and is terminal. */
  function Recovered(w: World, ok: bool): Line {
    if ok && !w.gone && w.outcome.Some? then Terminal(w.outcome.value) else Truncated
  }

  function Apply(w: World, x: Step): World
    requires Enabled(w, x)
  {
    match x
    case Write(e) =>
      var w1 := w.(pipe := Do(w.pipe, e));
      if e.Published? then Deliver(w1, Frame(e.f)) else w1
    case ChangePhase(p) => Deliver(w, Phased(p))
    case FinalizeRow(o) => w.(outcome := Some(o), byDispatch := true)
    case CancelWaiting => w.(outcome := Some(Abort(User)))
    case PurgeRow => w.(gone := true, pipe := w.pipe.(table := []))
    case Announce => Deliver(w.(farewell := TerminalSent), if w.outcome.Some? then Terminal(w.outcome.value) else Truncated)
    case DropChannel => Drop(w).(farewell := ChannelDropped)
    case OtherReads => w.(early := w.early + 1)
    case OtherSubscribes => w.(open := true, early := w.early - 1, racing := w.racing + 1)
    case OtherRechecks(ok) =>
      var w1 := w.(racing := w.racing - 1);
      if ok && !w.gone && w.outcome.None? then w1 else Drop(w1)
    case ReadRow(ok) =>
      w.(pc := if !ok || w.gone then Refused else if w.outcome.Some? then Paging(w.outcome) else Subscribing)
    case Subscribe =>
      w.(open := true, attached := true, pc := Rechecking, since := |w.pipe.pub|, flushed := |w.pipe.kept|)
    case Recheck(ok) =>
      if !ok || w.gone then Drop(w).(pc := Refused)
      else if w.outcome.Some? then Drop(w).(pc := Paging(w.outcome))
      else w.(pc := Paging(None))
    case ReadPage => AfterPage(w)
    case PageFails => EndHistory(w.(out := w.out + [Truncated], cutOff := true))
    case Take =>
      w.(out := w.out + [w.inbox[w.pos]], pos := w.pos + 1, pc := if w.inbox[w.pos].Closes() then Closed(false) else Tailing)
    case HangUp(ok) => w.(out := w.out + [Recovered(w, ok)], pc := Closed(false))
  }

  /** A viewer may arrive at any point of the job's life. */
  predicate Arrives(w: World) {
    && w == World(w.pipe, w.outcome, w.byDispatch, w.gone, w.farewell, w.open, Arriving, false, [], 0, [], 0, false, 0, 0, 0,
                 w.early, w.racing)
    && (w.farewell != Silent ==> w.byDispatch) && (w.byDispatch ==> w.outcome.Some?)
  }

  ghost predicate Legal(w: World, xs: seq<Step>)
    decreases |xs|
  {
    xs == [] || (Enabled(w, xs[0]) && Legal(Apply(w, xs[0]), xs[1..]))
  }

  ghost function After(w: World, xs: seq<Step>): World
    requires Legal(w, xs)
    decreases |xs|
  {
    if xs == [] then w else After(Apply(w, xs[0]), xs[1..])
  }

  lemma Then(w: World, x: Step, xs: seq<Step>)
    requires Enabled(w, x) && Legal(Apply(w, x), xs)
    ensures Legal(w, [x] + xs) && After(w, [x] + xs) == After(Apply(w, x), xs)
  {
    assert ([x] + xs)[1..] == xs;
  }

  // ---- closing lines ---------------------------------------------------------------------------

  /** How many lines of the response would close it for a client. */
  function Closers(lines: seq<Line>): nat {
    if lines == [] then 0 else Closers(lines[..|lines| - 1]) + if lines[|lines| - 1].Closes() then 1 else 0
  }

  lemma ClosersMore(lines: seq<Line>, x: Line)
    ensures Closers(lines + [x]) == Closers(lines) + if x.Closes() then 1 else 0
  {
    assert (lines + [x])[..|lines|] == lines;
  }

  lemma {:induction false} ClosersHistory(lines: seq<Line>, frames: seq<LogFrame>)
    ensures Closers(lines + AsLines(frames)) == Closers(lines)
    decreases |frames|
  {
    if frames == [] {
      assert lines + AsLines(frames) == lines;
    } else {
      var init := frames[..|frames| - 1];
      assert lines + AsLines(frames) == (lines + AsLines(init)) + [Frame(frames[|frames| - 1])];
      ClosersMore(lines + AsLines(init), Frame(frames[|frames| - 1]));
      ClosersHistory(lines, init);
    }
  }

  /** The closing line of a finished response. */
  predicate ClosedBy(out: seq<Line>, outcome: Option<JobOutcome>) {
    out != [] && var last := out[|out| - 1]; last == Truncated || (outcome.Some? && last == Terminal(outcome.value))
  }

  predicate Delivered(w: World) {
    && w.pos <= |w.inbox|
    && (w.farewell != Silent ==> w.byDispatch) && (w.byDispatch ==> w.outcome.Some?)
    && (w.attached && !w.pc.Rechecking? ==> !w.farewell.ChannelDropped?)     // who re-checks in time is dropped later
    && (forall i | 0 <= i < |w.inbox| && w.inbox[i].Closes() ::
          w.farewell != Silent && w.outcome.Some? && w.inbox[i] == Terminal(w.outcome.value))
    && (w.attached ==> w.open)
  }

  predicate Written(w: World) {
    && (w.pc.Paging? && w.pc.answer.Some? ==> w.pc.answer == w.outcome)
    && (w.cutOff ==> w.pc.Tailing? || w.pc.Closed?)
    && Closers(w.out) == (if w.cutOff then 1 else 0) + (if w.pc.Closed? then 1 else 0)
    && (w.pc.Closed? ==> ClosedBy(w.out, w.outcome))
  }

  lemma EndLeaves(w: World)
    requires w.pc.Paging?
    ensures var t := EndHistory(w);
            t == w.(out := t.out, pc := t.pc) && t.pc == if w.pc.answer.Some? then Closed(true) else Tailing
  {}

  /** Reading a page changes the response and where the viewer stands, nothing else. */
  lemma PageLeaves(w: World)
    requires w.pc.Paging?
    ensures var t := AfterPage(w);
            && t == w.(out := t.out, hist := t.hist, asked := |w.pipe.kept|, pc := t.pc)
            && t.hist == w.hist + |PageAt(w.pipe.table, w.hist)|
            && t.pc == if |PageAt(w.pipe.table, w.hist)| == PAGE then w.pc
                       else if w.pc.answer.Some? then Closed(true) else Tailing
  {
    var page := PageAt(w.pipe.table, w.hist);
    EndLeaves(WithPage(w, page));
    hide PageAt, AsLines, EndHistory;
  }

  lemma PageWrites(w: World)
    requires w.pc.Paging?
    ensures var body := w.out + AsLines(PageAt(w.pipe.table, w.hist));
            if AfterPage(w).pc.Closed? then w.pc.answer.Some? && AfterPage(w).out == body + [Terminal(w.pc.answer.value)]
            else AfterPage(w).out == body
  {
    EndWrites(WithPage(w, PageAt(w.pipe.table, w.hist)));
    hide PageAt, AsLines, EndHistory, WithPage;
  }

  lemma EndWrites(w: World)
    requires w.pc.Paging?
    ensures var t := EndHistory(w);
            if t.pc.Closed? then w.pc.answer.Some? && t.out == w.out + [Terminal(w.pc.answer.value)] else t.out == w.out
  {}

  lemma DeliverKeepsDelivered(w: World, event: Line)
    requires Delivered(w) && (event.Closes() ==> w.farewell != Silent && w.outcome.Some? && event == Terminal(w.outcome.value))
    ensures Delivered(Deliver(w, event))
  {}

  /** The steps that put something into inboxes. */
  predicate Sends(x: Step) { x.Write? || x.ChangePhase? || x.Announce? }

  lemma SenderKeepsDelivered(w: World, x: Step)
    requires Delivered(w) && Enabled(w, x) && Sends(x)
    ensures Delivered(Apply(w, x))
  {
    match x
    case Write(e) =>
      var w1 := w.(pipe := Do(w.pipe, e));
      assert Delivered(w1);
      if e.Published? { DeliverKeepsDelivered(w1, Frame(e.f)); }
    case ChangePhase(p) => DeliverKeepsDelivered(w, Phased(p));
    case Announce =>
      assert Delivered(w.(farewell := TerminalSent));
      DeliverKeepsDelivered(w.(farewell := TerminalSent), Terminal(w.outcome.value));
  }

  /** What the daemon and other viewers do. */
  predicate Elsewhere(x: Step) {
        || x.FinalizeRow? || x.CancelWaiting? || x.PurgeRow? || x.DropChannel?
    || x.OtherReads? || x.OtherSubscribes? || x.OtherRechecks?
  }

  lemma ElsewhereKeepsDelivered(w: World, x: Step)
    requires Delivered(w) && Enabled(w, x) && Elsewhere(x)
    ensures Delivered(Apply(w, x))
  {}

  lemma RowReadKeepsDelivered(w: World, x: Step)
    requires Delivered(w) && Enabled(w, x) && (x.ReadRow? || x.Recheck? || x.Subscribe?)
    ensures Delivered(Apply(w, x))
  {}

  lemma LineKeepsDelivered(w: World, x: Step)
    requires Delivered(w) && Enabled(w, x) && (x.PageFails? || x.Take? || x.HangUp?)
    ensures Delivered(Apply(w, x))
  {}

  lemma StepKeepsDelivered(w: World, x: Step)
    requires Delivered(w) && Enabled(w, x)
    ensures Delivered(Apply(w, x))
  {
    hide AfterPage;
    if Sends(x) {
      SenderKeepsDelivered(w, x);
    } else if Elsewhere(x) {
      ElsewhereKeepsDelivered(w, x);
    } else if x.ReadPage? {
      PageLeaves(w);
    } else if x.PageFails? || x.Take? || x.HangUp? {
      LineKeepsDelivered(w, x);
    } else {
      RowReadKeepsDelivered(w, x);
    }
  }

  lemma ReadPageReads(w: World)
    requires w.pc.Paging?
    ensures Apply(w, ReadPage) == AfterPage(w)
  {}

  lemma PageKeepsWritten(w: World)
    requires Written(w) && w.pc.Paging?
    ensures Written(AfterPage(w))
  {
    hide Closers, PageAt, AsLines, AfterPage;
    PageLeaves(w);
    PageCloses(w);
  }

  lemma PageCloses(w: World)
    requires w.pc.Paging?
    ensures var t := AfterPage(w);
            && Closers(t.out) == Closers(w.out) + (if t.pc.Closed? then 1 else 0)
            && (t.pc.Closed? ==> w.pc.answer.Some? && t.out != [] && t.out[|t.out| - 1] == Terminal(w.pc.answer.value))
  {
    hide Closers, PageAt, AsLines, AfterPage;
    var page := PageAt(w.pipe.table, w.hist);
    PageWrites(w);
    ClosersHistory(w.out, page);
    if w.pc.answer.Some? { ClosersMore(w.out + AsLines(page), Terminal(w.pc.answer.value)); }
  }

  lemma CutKeepsWritten(w: World)
    requires Written(w) && w.pc.Paging?
    ensures Written(Apply(w, PageFails))
  {
    var body := w.out + [Truncated];
    ClosersMore(w.out, Truncated);
    hide Closers;
    if w.pc.answer.Some? { ClosersMore(body, Terminal(w.pc.answer.value)); }
  }

  lemma TakeKeepsWritten(w: World)
    requires Delivered(w) && Written(w) && Enabled(w, Take)
    ensures Written(Apply(w, Take))
  {
    var line, t := w.inbox[w.pos], Apply(w, Take);
    ClosersMore(w.out, line);
    assert t == w.(out := w.out + [line], pos := t.pos, pc := if line.Closes() then Closed(false) else Tailing);
    hide Closers, Apply;
  }

  lemma HangUpKeepsWritten(w: World, ok: bool)
    requires Written(w) && Enabled(w, HangUp(ok))
    ensures Written(Apply(w, HangUp(ok)))
  {
    ClosersMore(w.out, Recovered(w, ok));
    hide Closers;
  }

  /** The response is as it was, and an outcome once stored stays. */
  predicate SameResponse(w: World, t: World) {
    t.pc == w.pc && t.out == w.out && t.cutOff == w.cutOff && (t.outcome == w.outcome || w.outcome.None?)
  }

  lemma SenderLeavesResponse(w: World, x: Step)
    requires Enabled(w, x) && Sends(x)
    ensures SameResponse(w, Apply(w, x))
  {
    hide Do;
    match x
    case Write(e) =>
    case ChangePhase(p) =>
    case Announce =>
  }

  lemma ElsewhereLeavesResponse(w: World, x: Step)
    requires Enabled(w, x) && Elsewhere(x)
    ensures SameResponse(w, Apply(w, x))
  {}

  lemma OutsideKeepsWritten(w: World, x: Step)
    requires Written(w) && Enabled(w, x) && (Sends(x) || Elsewhere(x))
    ensures Written(Apply(w, x))
  {
    if Sends(x) { SenderLeavesResponse(w, x); } else { ElsewhereLeavesResponse(w, x); }
    hide Closers, Apply, Enabled;
  }

  lemma RowReadKeepsWritten(w: World, x: Step)
    requires Written(w) && Enabled(w, x) && (x.ReadRow? || x.Recheck? || x.Subscribe?)
    ensures Written(Apply(w, x))
  {
    hide Closers;
  }

  lemma StepKeepsWritten(w: World, x: Step)
    requires Delivered(w) && Written(w) && Enabled(w, x)
    ensures Written(Apply(w, x))
  {
    hide Delivered, Written, Apply;
    if x.ReadPage? {
      ReadPageReads(w);
      PageKeepsWritten(w);
    } else if x.PageFails? { CutKeepsWritten(w); }
    else if x.Take? { TakeKeepsWritten(w); }
    else if x.HangUp? { HangUpKeepsWritten(w, x.ok); }
    else if Sends(x) || Elsewhere(x) { OutsideKeepsWritten(w, x); }
    else { RowReadKeepsWritten(w, x); }
  }

  lemma {:induction false} StaysWritten(w: World, xs: seq<Step>)
    requires Delivered(w) && Written(w) && Legal(w, xs)
    ensures Delivered(After(w, xs)) && Written(After(w, xs))
    decreases |xs|
  {
    if xs != [] {
      StepKeepsDelivered(w, xs[0]);
      StepKeepsWritten(w, xs[0]);
      StaysWritten(Apply(w, xs[0]), xs[1..]);
    }
  }

  /** Whatever happens, also under purges and failing reads: a finished response ends with a closing line, the
      stored outcome or a truncation notice, and that is its only one exactly if no history query failed. */
  lemma EndsClosed(w: World, xs: seq<Step>)
    requires Arrives(w) && Legal(w, xs)
    ensures var t := After(w, xs);
            if t.pc.Closed? then ClosedBy(t.out, t.outcome) && (Closers(t.out) == 1 <==> !t.cutOff)
            else Closers(t.out) == (if t.cutOff then 1 else 0)
  {
    StaysWritten(w, xs);
  }

  /** No read fails and the row is not purged. */
  predicate Faultless(x: Step) {
    !x.PurgeRow? && !x.PageFails? && x != OtherRechecks(false) && x != ReadRow(false) && x != Recheck(false) && x != HangUp(false)
  }

  predicate FaultlessRun(xs: seq<Step>) { forall i | 0 <= i < |xs| :: Faultless(xs[i]) }

  /** A viewer past the subscription either still has its channel or the row is terminal; a finished response ends
      with the outcome. */
  predicate Answered(w: World) {
    && !w.gone && !w.cutOff && !w.pc.Refused?
    && (w.pc.Rechecking? || w.pc == Paging(None) || w.pc.Tailing? ==> w.attached || w.outcome.Some?)
    && (w.pc.Closed? ==> w.outcome.Some? && w.out != [] && w.out[|w.out| - 1] == Terminal(w.outcome.value))
  }

  lemma PageKeepsAnswered(w: World)
    requires Written(w) && Answered(w) && w.pc.Paging?
    ensures Answered(AfterPage(w))
  {
    PageLeaves(w);
    PageWrites(w);
    hide AfterPage, PageAt, AsLines, Closers;
  }

  lemma OutsideKeepsAnswered(w: World, x: Step)
    requires Delivered(w) && Answered(w) && Enabled(w, x) && Faultless(x) && (Sends(x) || Elsewhere(x))
    ensures Answered(Apply(w, x))
  {
    hide Do, Can;
  }

  lemma ViewerKeepsAnswered(w: World, x: Step)
    requires Delivered(w) && Answered(w) && Enabled(w, x) && Faultless(x) && !Sends(x) && !Elsewhere(x) && !x.ReadPage?
    ensures Answered(Apply(w, x))
  {}

  lemma StepKeepsAnswered(w: World, x: Step)
    requires Delivered(w) && Written(w) && Answered(w) && Enabled(w, x) && Faultless(x)
    ensures Answered(Apply(w, x))
  {
    hide Answered, AfterPage;
    if x.ReadPage? { PageKeepsAnswered(w); }
    else if Sends(x) || Elsewhere(x) { OutsideKeepsAnswered(w, x); }
    else { ViewerKeepsAnswered(w, x); }
  }

  lemma {:induction false} StaysAnswered(w: World, xs: seq<Step>)
    requires Delivered(w) && Written(w) && Answered(w) && Legal(w, xs) && FaultlessRun(xs)
    ensures Answered(After(w, xs))
    decreases |xs|
  {
    if xs != [] {
      assert Faultless(xs[0]);
      StepKeepsDelivered(w, xs[0]);
      StepKeepsWritten(w, xs[0]);
      StepKeepsAnswered(w, xs[0]);
      StaysAnswered(Apply(w, xs[0]), xs[1..]);
    }
  }

  /** Without such faults a finished response ends with the stored outcome and has no other closing line, also when
      another viewer's recheck drops the channel before the dispatcher announces. */
  lemma ClosesOnceWithOutcome(w: World, xs: seq<Step>)
    requires Arrives(w) && !w.gone && Legal(w, xs) && FaultlessRun(xs)
    ensures var t := After(w, xs);
            if t.pc.Closed? then t.outcome.Some? && Closers(t.out) == 1 && t.out != [] && t.out[|t.out| - 1] == Terminal(t.outcome.value)
            else Closers(t.out) == 0
  {
    StaysWritten(w, xs);
    StaysAnswered(w, xs);
  }

  // ---- what reaches a viewer ---------------------------------------------------------------------

  /** A viewer whose channel is the broker's gets every published frame, every phase change and the terminal event;
      any other gets nothing. */
  lemma SentReaches(w: World, f: LogFrame, phase: Phase)
    requires Delivered(w)
    ensures Can(w.pipe, Published(f)) && |Pending(w.pipe)| < BATCH_MAX ==>
              Apply(w, Write(Published(f))).inbox == w.inbox + if w.attached then [Frame(f)] else []
    ensures Apply(w, ChangePhase(phase)).inbox == w.inbox + if w.attached then [Phased(phase)] else []
    ensures w.byDispatch && w.farewell == Silent ==>
              w.outcome.Some? && Apply(w, Announce).inbox == w.inbox + if w.attached then [Terminal(w.outcome.value)] else []
  {
    assert w.inbox + [] == w.inbox;
    hide Can;
  }

  /** A viewer who comes when the row is terminal is answered from it: all of history, then the stored outcome, for
      however many pages that takes. */
  lemma AnsweredFromRow(w: World) returns (xs: seq<Step>)
    requires Arrives(w) && !w.gone && w.outcome.Some?
    ensures Legal(w, xs) && (forall i | 0 <= i < |xs| :: xs[i] == if i == 0 then ReadRow(true) else ReadPage)
    ensures After(w, xs).pc == Closed(true) && After(w, xs).out == AsLines(w.pipe.table) + [Terminal(w.outcome.value)]
  {
    var w1 := w.(pc := Paging(w.outcome));
    assert Apply(w, ReadRow(true)) == w1;
    assert w.pipe.table[0..] == w.pipe.table && [] + AsLines(w.pipe.table) == AsLines(w.pipe.table);
    var rest := PagesToEnd(w1);
    hide Apply;
    Then(w, ReadRow(true), rest);
    xs := [ReadRow(true)] + rest;
  }

  lemma {:induction false} PagesToEnd(w: World) returns (xs: seq<Step>)
    requires w.pc.Paging? && w.pc.answer.Some? && w.hist <= |w.pipe.table|
    ensures Legal(w, xs) && forall i | 0 <= i < |xs| :: xs[i] == ReadPage
    ensures After(w, xs).pc == Closed(true)
    ensures After(w, xs).out == w.out + AsLines(w.pipe.table[w.hist..]) + [Terminal(w.pc.answer.value)]
    decreases |w.pipe.table| - w.hist
  {
    ReadPageReads(w);
    PageLeaves(w);
    PageWrites(w);
    var t, page := AfterPage(w), PageAt(w.pipe.table, w.hist);
    PageThenRest(w.pipe.table, w.hist);
    hide Apply, AfterPage, PageAt, AsLines;
    var rest := [];
    if |page| == PAGE { rest := PagesToEnd(t); }
    Then(w, ReadPage, rest);
    xs := [ReadPage] + rest;
    assert (w.out + AsLines(page)) + AsLines(w.pipe.table[t.hist..]) == w.out + (AsLines(page) + AsLines(w.pipe.table[t.hist..]));
  }

  lemma PageThenRest(table: seq<LogFrame>, offset: nat)
    requires offset <= |table|
    ensures var page := PageAt(table, offset);
            && offset + |page| <= |table|
            && AsLines(page) + AsLines(table[offset + |page|..]) == AsLines(table[offset..])
            && (|page| < PAGE ==> AsLines(page) == AsLines(table[offset..]))
  {}

  // ---- who can close a tail ---------------------------------------------------------------------------

  /** Nobody will say anything more on the channel, and nobody will drop it: the row is not a task's to finalize, it
      will not be finalized any more, and no other viewer is past its first look at the row. */
  predicate Stuck(w: World) {
    && w.pc.Tailing? && w.attached && !w.byDispatch && (w.outcome.Some? || w.gone)
    && w.early == 0 && w.racing == 0
  }

  lemma ViewerKeepsStuck(w: World, x: Step)
    requires Delivered(w) && Stuck(w) && Enabled(w, x) && !Sends(x) && !Elsewhere(x)
    ensures Stuck(Apply(w, x))
  {
    assert x.Take?;
  }

  lemma OutsideKeepsStuck(w: World, x: Step)
    requires Delivered(w) && Stuck(w) && Enabled(w, x) && (Sends(x) || Elsewhere(x))
    ensures Stuck(Apply(w, x))
  {
    hide Do, Can;
  }

  lemma {:induction false} StaysStuck(w: World, xs: seq<Step>)
    requires Delivered(w) && Stuck(w) && Legal(w, xs)
    ensures Stuck(After(w, xs))
    decreases |xs|
  {
    if xs != [] {
      StepKeepsDelivered(w, xs[0]);
      if Sends(xs[0]) || Elsewhere(xs[0]) { OutsideKeepsStuck(w, xs[0]); } else { ViewerKeepsStuck(w, xs[0]); }
      hide Delivered, Stuck, Apply, Enabled;
      StaysStuck(Apply(w, xs[0]), xs[1..]);
    }
  }

  /** A tail whose channel is gone streams what it has and closes. */
  lemma {:induction false} TailEnds(w: World) returns (xs: seq<Step>)
    requires w.pc.Tailing? && !w.attached && w.pos <= |w.inbox|
    ensures Legal(w, xs) && After(w, xs).pc.Closed?
    decreases |w.inbox| - w.pos
  {
    if w.pos == |w.inbox| {
      xs := [HangUp(true)] + [];
      Then(w, HangUp(true), []);
    } else if w.inbox[w.pos].Closes() {
      xs := [Take] + [];
      Then(w, Take, []);
    } else {
      var rest := TailEnds(Apply(w, Take));
      xs := [Take] + rest;
      Then(w, Take, rest);
    }
  }

  /** The dispatcher announces, if it has not, and drops the channel. */
  lemma DispatchEnds(w: World) returns (xs: seq<Step>)
    requires w.pc.Tailing? && w.byDispatch && !w.farewell.ChannelDropped? && w.pos <= |w.inbox|
    ensures Legal(w, xs) && After(w, xs).pc.Closed?
  {
    if w.farewell != Silent {
      var rest := TailEnds(Apply(w, DropChannel));
      xs := [DropChannel] + rest;
      Then(w, DropChannel, rest);
    } else {
      var w1 := Apply(w, Announce);
      var rest := TailEnds(Apply(w1, DropChannel));
      Then(w1, DropChannel, rest);
      xs := [Announce] + ([DropChannel] + rest);
      Then(w, Announce, [DropChannel] + rest);
    }
  }

  /** A task finalizes the row, and then as above. */
  lemma FinalizingEnds(w: World) returns (xs: seq<Step>)
    requires w.pc.Tailing? && w.outcome.None? && !w.gone && !w.farewell.ChannelDropped? && w.pos <= |w.inbox|
    ensures Legal(w, xs) && After(w, xs).pc.Closed?
  {
    var rest := DispatchEnds(Apply(w, FinalizeRow(Abort(User))));
    xs := [FinalizeRow(Abort(User))] + rest;
    Then(w, FinalizeRow(Abort(User)), rest);
  }

  /** Another viewer that has subscribed re-checks a row that is terminal or gone, and drops the channel. */
  lemma RecheckEnds(w: World) returns (xs: seq<Step>)
    requires w.pc.Tailing? && w.racing > 0 && (w.outcome.Some? || w.gone) && w.pos <= |w.inbox|
    ensures Legal(w, xs) && After(w, xs).pc.Closed?
  {
    var rest := TailEnds(Apply(w, OtherRechecks(true)));
    xs := [OtherRechecks(true)] + rest;
    Then(w, OtherRechecks(true), rest);
  }

  /** Another viewer that read the row in time subscribes first. */
  lemma EarlyEnds(w: World) returns (xs: seq<Step>)
    requires w.pc.Tailing? && w.early > 0 && (w.outcome.Some? || w.gone) && w.pos <= |w.inbox|
    ensures Legal(w, xs) && After(w, xs).pc.Closed?
  {
    var rest := RecheckEnds(Apply(w, OtherSubscribes));
    xs := [OtherSubscribes] + rest;
    Then(w, OtherSubscribes, rest);
  }

  ghost predicate Closable(w: World) {
    exists xs :: Legal(w, xs) && After(w, xs).pc.Closed?
  }

  /** Over all runs: a tail can still be closed exactly if the row can still be finalized or a task has finalized it,
      the channel is gone, or another viewer that read the row before it was terminal has not re-checked it. An
      inline cancel publishes nothing and drops nothing, and viewers that arrive after it are answered from the
      row: without such a racing viewer a tail of a cancelled job hangs for ever. */
  lemma ClosableIff(w: World)
    requires Delivered(w) && w.pc.Tailing?
    ensures Closable(w) <==>
              w.byDispatch || (w.outcome.None? && !w.gone) || !w.attached || w.early + w.racing > 0
  {
    if !w.attached {
      var xs := TailEnds(w);
    } else if w.byDispatch {
      var xs := DispatchEnds(w);
    } else if w.outcome.None? && !w.gone {
      var xs := FinalizingEnds(w);
    } else if w.racing > 0 {
      var xs := RecheckEnds(w);
    } else if w.early > 0 {
      var xs := EarlyEnds(w);
    } else if Closable(w) {
      var xs :| Legal(w, xs) && After(w, xs).pc.Closed?;
      StaysStuck(w, xs);
    }
  }

  /** Such a tail is real: the only viewer of a waiting job, its log less than a page, is left hanging by an inline
      cancel after its re-check, though nothing fails in that run. */
  lemma CancelLeavesHanging(w: World)
    requires Arrives(w) && w.outcome.None? && !w.gone && w.early == 0 && w.racing == 0 && |w.pipe.table| < PAGE
    ensures exists xs ::
              Legal(w, xs) && FaultlessRun(xs)
              && var t := After(w, xs);
                 t.pc.Tailing? && t.outcome == Some(Abort(User)) && t.attached && Delivered(t) && !Closable(t)
  {
    var xs := HangingRun(w);
    StaysWritten(w, xs);
    ClosableIff(After(w, xs));
    hide Legal, After, Delivered, Closable, FaultlessRun;
    assert Stuck(After(w, xs));
  }

  lemma HangingRun(w: World) returns (xs: seq<Step>)
    requires Arrives(w) && w.outcome.None? && !w.gone && w.early == 0 && w.racing == 0 && |w.pipe.table| < PAGE
    ensures Legal(w, xs) && FaultlessRun(xs) && Stuck(After(w, xs)) && After(w, xs).outcome == Some(Abort(User))
  {
    var w1 := w.(pc := Subscribing);
    var w2 := w1.(open := true, attached := true, pc := Rechecking, since := |w.pipe.pub|, flushed := |w.pipe.kept|);
    assert Apply(w, ReadRow(true)) == w1 && Apply(w1, Subscribe) == w2;
    var rest := HangingRest(w2);
    hide Apply, Stuck;
    Then(w1, Subscribe, rest);
    Then(w, ReadRow(true), [Subscribe] + rest);
    xs := [ReadRow(true)] + ([Subscribe] + rest);
  }

  lemma RecheckGoesOn(w: World)
    requires w.pc.Rechecking? && w.outcome.None? && !w.gone
    ensures Apply(w, Recheck(true)) == w.(pc := Paging(None))
  {}

  lemma LastPageTails(w: World)
    requires w.pc == Paging(None) && w.hist == 0 && |w.pipe.table| < PAGE
    ensures var t := AfterPage(w); t == w.(out := t.out, hist := t.hist, asked := |w.pipe.kept|, pc := Tailing)
  {
    PageLeaves(w);
    hide AfterPage;
  }

  lemma CancelSticks(w: World)
    requires w.pc.Tailing? && w.attached && w.outcome.None? && !w.gone && !w.byDispatch && w.early == 0 && w.racing == 0
    ensures Stuck(Apply(w, CancelWaiting)) && Apply(w, CancelWaiting).outcome == Some(Abort(User))
  {}

  lemma HangingRest(w: World) returns (xs: seq<Step>)
    requires w.pc.Rechecking? && w.attached && w.outcome.None? && !w.gone && !w.byDispatch && w.early == 0 && w.racing == 0
    requires w.hist == 0 && |w.pipe.table| < PAGE
    ensures Legal(w, xs) && FaultlessRun(xs) && Stuck(After(w, xs)) && After(w, xs).outcome == Some(Abort(User))
  {
    var w1 := w.(pc := Paging(None));
    RecheckGoesOn(w);
    var w2 := AfterPage(w1);
    LastPageTails(w1);
    assert Apply(w1, ReadPage) == w2;
    hide AfterPage;
    CancelSticks(w2);
    hide Apply, Stuck;
    Then(w2, CancelWaiting, []);
    Then(w1, ReadPage, [CancelWaiting] + []);
    Then(w, Recheck(true), [ReadPage] + ([CancelWaiting] + []));
    xs := [Recheck(true)] + ([ReadPage] + ([CancelWaiting] + []));
  }
}

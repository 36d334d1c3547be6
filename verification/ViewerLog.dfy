/** What a viewer's log contains: the frames of the response, as the client deduplicates them, against what the
    job published. */
module ViewerLog {
  import opened Options
  import opened Proto
  import opened LogSink
  import opened Viewing

  // ---- the frames of a response --------------------------------------------------------------------

  function FramesOf(lines: seq<Line>): seq<LogFrame> {
    if lines == [] then []
    else FramesOf(lines[..|lines| - 1]) + if lines[|lines| - 1].Frame? then [lines[|lines| - 1].frame] else []
  }

  lemma {:induction false} FramesOfJoin(a: seq<Line>, b: seq<Line>)
    ensures FramesOf(a + b) == FramesOf(a) + FramesOf(b)
    decreases |b|
  {
    if b == [] {
      assert a + b == a;
    } else {
      assert (a + b)[..|a + b| - 1] == a + b[..|b| - 1];
      FramesOfJoin(a, b[..|b| - 1]);
    }
  }

  lemma {:induction false} FramesOfAsLines(frames: seq<LogFrame>)
    ensures FramesOf(AsLines(frames)) == frames
    decreases |frames|
  {
    if frames != [] {
      assert AsLines(frames)[..|frames| - 1] == AsLines(frames[..|frames| - 1]);
      FramesOfAsLines(frames[..|frames| - 1]);
    }
  }

  lemma FramesOfMore(lines: seq<Line>, x: Line)
    ensures FramesOf(lines + [x]) == FramesOf(lines) + if x.Frame? then [x.frame] else []
  {
    assert (lines + [x])[..|lines + [x]| - 1] == lines;
  }

  lemma {:induction false} FramesOfPrefix(lines: seq<Line>, n: nat)
    requires n <= |lines|
    ensures FramesOf(lines[..n]) <= FramesOf(lines)
  {
    assert lines == lines[..n] + lines[n..];
    FramesOfJoin(lines[..n], lines[n..]);
  }

  /** What has been streamed from the inbox. */
  function Taken(w: World): seq<Line> { if w.pos <= |w.inbox| then w.inbox[..w.pos] else w.inbox }

  predicate NotStreaming(pc: ViewerPc) { pc.Arriving? || pc.Subscribing? || pc.Rechecking? }

  predicate NotTailing(pc: ViewerPc) { NotStreaming(pc) || pc.Paging? }

  /** The inbox holds exactly the frames published since the subscription, for as long as the channel lasts. */
  predicate Received(w: World) {
    && w.pos <= |w.inbox| && w.since <= |w.pipe.pub|
    && (w.pc.Arriving? || w.pc.Subscribing? ==> w.inbox == [] && !w.attached)
    && (NotTailing(w.pc) ==> w.pos == 0)
    && FramesOf(w.inbox) <= w.pipe.pub[w.since..]
    && (w.attached ==> w.open && FramesOf(w.inbox) == w.pipe.pub[w.since..])
  }

  lemma NoticeKeepsReceived(w: World, event: Line)
    requires Received(w) && !event.Frame?
    ensures Received(Deliver(w, event))
  {
    FramesOfMore(w.inbox, event);
  }

  lemma PublishKeepsReceived(w: World, f: LogFrame)
    requires Received(w)
    ensures Received(Deliver(w.(pipe := Publish(w.pipe, f)), Frame(f)))
  {
    FramesOfMore(w.inbox, Frame(f));
    assert (w.pipe.pub + [f])[w.since..] == w.pipe.pub[w.since..] + [f];
  }

  lemma SubscribeKeepsReceived(w: World)
    requires Received(w) && w.pc.Subscribing?
    ensures Received(Apply(w, Subscribe))
  {
    assert w.pipe.pub[|w.pipe.pub|..] == [];
  }

  lemma StepKeepsReceived(w: World, x: Step)
    requires Received(w) && Enabled(w, x)
    ensures Received(Apply(w, x))
  {
    hide FramesOf, AfterPage;
    if Sends(x) {
      SenderKeepsReceived(w, x);
    } else if x.Subscribe? {
      SubscribeKeepsReceived(w);
    } else if x.ReadPage? {
      PageLeaves(w);
      hide PageAt, AsLines;
      SameKeepsReceived(w, AfterPage(w));
    } else {
      OtherLeavesInbox(w, x);
      hide Apply, SameInbox, Received;
      SameKeepsReceived(w, Apply(w, x));
    }
  }

  lemma SenderKeepsReceived(w: World, x: Step)
    requires Received(w) && Enabled(w, x) && Sends(x)
    ensures Received(Apply(w, x))
  {
    match x
    case Write(e) => if e.Published? { PublishKeepsReceived(w, e.f); }
    case ChangePhase(p) => NoticeKeepsReceived(w, Phased(p));
    case Announce =>
      NoticeKeepsReceived(w.(farewell := TerminalSent), if w.outcome.Some? then Terminal(w.outcome.value) else Truncated);
  }

  /** What was published and what was received are as they were. */
  predicate SameInbox(w: World, t: World) {
    && t.inbox == w.inbox && t.pipe.pub == w.pipe.pub && t.since == w.since
    && (t.attached ==> w.attached && t.open)
    && (t.pc.Arriving? || t.pc.Subscribing? ==> w.pc.Arriving? || w.pc.Subscribing?)
    && (if NotTailing(t.pc) then NotTailing(w.pc) && t.pos == w.pos else w.pos <= t.pos <= w.pos + 1)
    && (t.pos > w.pos ==> w.pos < |w.inbox|)
  }

  lemma ElsewhereLeavesInbox(w: World, x: Step)
    requires Enabled(w, x) && Elsewhere(x) && (w.attached ==> w.open)
    ensures SameInbox(w, Apply(w, x))
  {}

  lemma RowLeavesInbox(w: World, ok: bool)
    requires Enabled(w, ReadRow(ok)) && (w.attached ==> w.open)
    ensures SameInbox(w, Apply(w, ReadRow(ok)))
  {}

  lemma RecheckLeavesInbox(w: World, ok: bool)
    requires Enabled(w, Recheck(ok)) && (w.attached ==> w.open)
    ensures SameInbox(w, Apply(w, Recheck(ok)))
  {}

  lemma CutLeavesInbox(w: World)
    requires Enabled(w, PageFails) && (w.attached ==> w.open)
    ensures SameInbox(w, Apply(w, PageFails))
  {}

  lemma TailLeavesInbox(w: World, x: Step)
    requires Enabled(w, x) && (x.Take? || x.HangUp?) && (w.attached ==> w.open)
    ensures SameInbox(w, Apply(w, x))
  {}

  lemma OtherLeavesInbox(w: World, x: Step)
    requires Enabled(w, x) && !Sends(x) && !x.Subscribe? && !x.ReadPage? && (w.attached ==> w.open)
    ensures SameInbox(w, Apply(w, x))
  {
    hide SameInbox, Apply;
    if Elsewhere(x) { ElsewhereLeavesInbox(w, x); }
    else if x.Take? || x.HangUp? { TailLeavesInbox(w, x); }
    else if x.ReadRow? { RowLeavesInbox(w, x.ok); }
    else if x.Recheck? { RecheckLeavesInbox(w, x.ok); }
    else { CutLeavesInbox(w); }
  }

  lemma SameKeepsReceived(w: World, t: World)
    requires Received(w) && SameInbox(w, t)
    ensures Received(t)
  {
    hide FramesOf;
  }

  /** The response is a prefix of the table, then the frames streamed from the inbox. */
  predicate Streamed(w: World) {
    && w.hist <= |w.pipe.table|
    && (NotStreaming(w.pc) ==> w.hist == 0 && w.out == [])
    && FramesOf(w.out) == w.pipe.table[..w.hist] + FramesOf(Taken(w))
  }

  lemma PageExtends(out: seq<Line>, table: seq<LogFrame>, offset: nat)
    requires offset <= |table| && FramesOf(out) == table[..offset]
    ensures var n := offset + |PageAt(table, offset)|;
            n <= |table| && FramesOf(out + AsLines(PageAt(table, offset))) == table[..n]
  {
    var page := PageAt(table, offset);
    FramesOfAsLines(page);
    FramesOfJoin(out, AsLines(page));
    hide FramesOf, AsLines;
    assert table[..offset] + page == table[..offset + |page|];
  }

  /** Until the tail starts, the response is history alone. */
  lemma HistoryAlone(w: World, n: nat)
    requires w.pos == 0 && n <= |w.pipe.table|
    ensures w.pipe.table[..n] + FramesOf(Taken(w)) == w.pipe.table[..n]
  {
    assert Taken(w) == [];
  }

  lemma PageFrames(w: World)
    requires w.pc.Paging?
    ensures FramesOf(AfterPage(w).out) == FramesOf(w.out + AsLines(PageAt(w.pipe.table, w.hist)))
  {
    var body := w.out + AsLines(PageAt(w.pipe.table, w.hist));
    PageWrites(w);
    hide FramesOf, PageAt, AsLines, AfterPage;
    if AfterPage(w).pc.Closed? { FramesOfMore(body, Terminal(w.pc.answer.value)); }
  }

  lemma PageKeepsStreamed(w: World)
    requires Streamed(w) && w.pos == 0 && w.pc.Paging?
    ensures Streamed(AfterPage(w))
  {
    var t := AfterPage(w);
    hide FramesOf, PageAt, AsLines, Taken, AfterPage;
    PageLeaves(w);
    HistoryAlone(w, w.hist);
    PageExtends(w.out, w.pipe.table, w.hist);
    HistoryAlone(t, t.hist);
    PageFrames(w);
  }

  lemma TakeOne(lines: seq<Line>, pos: nat)
    requires pos < |lines|
    ensures FramesOf(lines[..pos + 1]) == FramesOf(lines[..pos]) + if lines[pos].Frame? then [lines[pos].frame] else []
  {
    FramesOfMore(lines[..pos], lines[pos]);
    assert lines[..pos] + [lines[pos]] == lines[..pos + 1];
  }

  lemma TakeKeepsStreamed(w: World)
    requires Received(w) && Streamed(w) && Enabled(w, Take)
    ensures Streamed(Apply(w, Take))
  {
    hide FramesOf;
    var t, more := Apply(w, Take), if w.inbox[w.pos].Frame? then [w.inbox[w.pos].frame] else [];
    var past, taken := w.pipe.table[..w.hist], FramesOf(Taken(w));
    TakeOne(w.inbox, w.pos);
    FramesOfMore(w.out, w.inbox[w.pos]);
    assert FramesOf(t.out) == (past + taken) + more == past + (taken + more);
  }

  lemma HangUpKeepsStreamed(w: World, ok: bool)
    requires Streamed(w) && Enabled(w, HangUp(ok))
    ensures Streamed(Apply(w, HangUp(ok)))
  {
    FramesOfMore(w.out, Recovered(w, ok));
    hide FramesOf;
    assert Taken(Apply(w, HangUp(ok))) == Taken(w);
  }

  /** The table and the inbox only grow, and the response with them left alone. */
  predicate Grown(w: World, t: World) {
    && w.pipe.table <= t.pipe.table && w.inbox <= t.inbox
    && t.out == w.out && t.hist == w.hist && t.pos == w.pos
    && (NotStreaming(t.pc) ==> NotStreaming(w.pc))
  }

  lemma WriteGrows(w: World, e: Event)
    requires Enabled(w, Write(e))
    ensures Grown(w, Apply(w, Write(e)))
  {}

  lemma NoticeGrows(w: World, x: Step)
    requires Enabled(w, x) && (x.ChangePhase? || x.Announce?)
    ensures Grown(w, Apply(w, x))
  {}

  lemma ElsewhereGrows(w: World, x: Step)
    requires Enabled(w, x) && Faultless(x) && Elsewhere(x)
    ensures Grown(w, Apply(w, x))
  {
    match x
    case DropChannel =>
    case OtherRechecks(ok) =>
    case _ =>
  }

  lemma SubscribeGrows(w: World)
    requires w.pc.Subscribing?
    ensures Grown(w, Apply(w, Subscribe))
  {}

  lemma RowGrows(w: World, ok: bool)
    requires w.pc.Arriving?
    ensures Grown(w, Apply(w, ReadRow(ok)))
  {}

  lemma RecheckGrows(w: World, ok: bool)
    requires w.pc.Rechecking?
    ensures Grown(w, Apply(w, Recheck(ok)))
  {
    if ok && !w.gone && w.outcome.None? { RecheckGoesOn(w); }
  }

  lemma GrowthKeepsStreamed(w: World, t: World)
    requires Streamed(w) && Grown(w, t) && w.pos <= |w.inbox|
    ensures Streamed(t)
  {
    hide FramesOf;
    assert t.pipe.table[..w.hist] == w.pipe.table[..w.hist];
    assert Taken(t) == Taken(w);
  }

  lemma StepKeepsStreamed(w: World, x: Step)
    requires Received(w) && Streamed(w) && Enabled(w, x) && Faultless(x)
    ensures Streamed(Apply(w, x))
  {
    hide FramesOf, Taken, Streamed;
    if x.ReadPage? {
      PageKeepsStreamed(w);
    } else if x.Take? {
      TakeKeepsStreamed(w);
    } else if x.HangUp? {
      HangUpKeepsStreamed(w, x.ok);
    } else {
      StepGrows(w, x);
      hide Apply, Grown, Enabled;
      GrowthKeepsStreamed(w, Apply(w, x));
    }
  }

  /** Line by line, phase changes included: the response is history, then what the channel delivered, in order, and
      after that at most a closing line of its own. */
  predicate Relayed(w: World) {
    && w.hist <= |w.pipe.table| && w.pos <= |w.inbox|
    && (NotStreaming(w.pc) ==> w.hist == 0) && (NotTailing(w.pc) ==> w.pos == 0)
    && AsLines(w.pipe.table[..w.hist]) + w.inbox[..w.pos] <= w.out
    && |w.out| <= w.hist + w.pos + 1 && (!w.pc.Closed? ==> |w.out| == w.hist + w.pos)
  }

  lemma PageRelayed(w: World)
    requires Relayed(w) && w.pc.Paging?
    ensures Relayed(AfterPage(w))
  {
    var t, page := AfterPage(w), PageAt(w.pipe.table, w.hist);
    PageLeaves(w);
    PageWrites(w);
    hide AfterPage;
    HistoryGrows(w.pipe.table, w.hist);
    hide PageAt, AsLines;
    assert w.inbox[..0] == [];
    assert w.out == AsLines(w.pipe.table[..w.hist]);
    assert t.inbox[..t.pos] == [];
  }

  lemma HistoryGrows(table: seq<LogFrame>, offset: nat)
    requires offset <= |table|
    ensures var n := offset + |PageAt(table, offset)|;
            n <= |table| && AsLines(table[..offset]) + AsLines(PageAt(table, offset)) == AsLines(table[..n])
  {}

  lemma TakeRelayed(w: World)
    requires Relayed(w) && Enabled(w, Take)
    ensures Relayed(Apply(w, Take))
  {
    var t := Apply(w, Take);
    assert t == w.(out := w.out + [w.inbox[w.pos]], pos := w.pos + 1, pc := t.pc);
    hide Apply, AsLines;
    assert w.inbox[..w.pos] + [w.inbox[w.pos]] == w.inbox[..w.pos + 1];
    assert w.out == AsLines(w.pipe.table[..w.hist]) + w.inbox[..w.pos];
    assert t.out == AsLines(w.pipe.table[..w.hist]) + t.inbox[..t.pos];
  }

  lemma HangUpRelayed(w: World, ok: bool)
    requires Relayed(w) && Enabled(w, HangUp(ok))
    ensures Relayed(Apply(w, HangUp(ok)))
  {
    hide AsLines, Recovered;
  }

  lemma GrowthRelayed(w: World, t: World)
    requires Relayed(w) && Grown(w, t) && (NotTailing(t.pc) ==> NotTailing(w.pc)) && (t.pc.Closed? <==> w.pc.Closed?)
    ensures Relayed(t)
  {
    hide AsLines;
    assert t.pipe.table[..w.hist] == w.pipe.table[..w.hist];
    assert t.inbox[..w.pos] == w.inbox[..w.pos];
  }

  lemma OtherMovesOn(w: World, x: Step)
    requires Enabled(w, x) && !x.ReadPage? && !x.PageFails? && !x.Take? && !x.HangUp?
    ensures var t := Apply(w, x); (NotTailing(t.pc) ==> NotTailing(w.pc)) && (t.pc.Closed? <==> w.pc.Closed?)
  {
    hide Do;
    if Sends(x) { SenderLeavesResponse(w, x); } else if Elsewhere(x) { ElsewhereLeavesResponse(w, x); }
    else if x.ReadRow? { assert NotTailing(w.pc); } else if x.Recheck? { assert NotTailing(w.pc); }
  }

  lemma StepKeepsRelayed(w: World, x: Step)
    requires Relayed(w) && Enabled(w, x) && Faultless(x)
    ensures Relayed(Apply(w, x))
  {
    hide Relayed, AfterPage;
    if x.ReadPage? { PageRelayed(w); }
    else if x.Take? { TakeRelayed(w); }
    else if x.HangUp? { HangUpRelayed(w, x.ok); }
    else {
      OtherMovesOn(w, x);
      StepGrows(w, x);
      hide Apply, Grown, Enabled;
      GrowthRelayed(w, Apply(w, x));
    }
  }

  lemma StepGrows(w: World, x: Step)
    requires Enabled(w, x) && Faultless(x) && !x.ReadPage? && !x.Take? && !x.HangUp?
    ensures Grown(w, Apply(w, x))
  {
    hide Grown, Apply;
    if x.Write? { WriteGrows(w, x.e); }
    else if Elsewhere(x) { ElsewhereGrows(w, x); }
    else if x.ChangePhase? || x.Announce? { NoticeGrows(w, x); }
    else if x.Subscribe? { SubscribeGrows(w); }
    else if x.ReadRow? { RowGrows(w, x.ok); }
    else { RecheckGrows(w, x.ok); }
  }

  lemma {:induction false} StaysRelayed(w: World, xs: seq<Step>)
    requires Relayed(w) && Legal(w, xs) && FaultlessRun(xs)
    ensures Relayed(After(w, xs))
    decreases |xs|
  {
    if xs != [] {
      hide Relayed, Apply, Enabled;
      assert Faultless(xs[0]);
      StepKeepsRelayed(w, xs[0]);
      StaysRelayed(Apply(w, xs[0]), xs[1..]);
    }
  }

  /** Without faults, whenever a viewer looks: its response is the beginning of the table, then everything streamed of
      what its channel delivered, and at most one line of its own. */
  lemma EveryLineRelayed(w: World, xs: seq<Step>)
    requires Arrives(w) && !w.gone && Legal(w, xs) && FaultlessRun(xs)
    ensures var t := After(w, xs);
            && t.hist <= |t.pipe.table| && t.pos <= |t.inbox|
            && AsLines(t.pipe.table[..t.hist]) + t.inbox[..t.pos] <= t.out && |t.out| <= t.hist + t.pos + 1
  {
    StaysRelayed(w, xs);
  }

  predicate HistoryRead(pc: ViewerPc) { pc.Tailing? || pc.Closed? }

  /** Without failed flushes: the history read is everything flushed at the last query, which was after the subscription. */
  predicate CaughtUp(w: World) {
    && Lossless(w.pipe)
    && |Pending(w.pipe)| <= BATCH_MAX
    && w.flushed <= |w.pipe.kept| && w.flushed <= w.since <= w.flushed + BATCH_MAX
    && (HistoryRead(w.pc) ==> w.hist == |w.pipe.base| + w.asked && w.flushed <= w.asked <= |w.pipe.kept|)
  }

  /** A flush of this job fails. */
  predicate LosesFrames(x: Step) { x == Write(Flushed(false)) }

  predicate LosslessRun(xs: seq<Step>) { forall i | 0 <= i < |xs| :: !LosesFrames(xs[i]) }

  /** A page that is not full is the table's last. */
  lemma LastPage(table: seq<LogFrame>, offset: nat)
    requires offset <= |table| && |PageAt(table, offset)| != PAGE
    ensures offset + |PageAt(table, offset)| == |table|
  {}

  lemma PageKeepsCaughtUp(w: World)
    requires CaughtUp(w) && w.pc.Paging? && w.hist <= |w.pipe.table|
    ensures CaughtUp(AfterPage(w)) && AfterPage(w).pipe == w.pipe
  {
    PageLeaves(w);
    if |PageAt(w.pipe.table, w.hist)| != PAGE { LastPage(w.pipe.table, w.hist); }
    hide AfterPage, PageAt, AsLines;
  }

  lemma WriteKeepsCaughtUp(w: World, e: Event)
    requires CaughtUp(w) && Enabled(w, Write(e)) && e != Flushed(false)
    ensures CaughtUp(Apply(w, Write(e))) && Apply(w, Write(e)).pipe.base == w.pipe.base
  {
    EventKeepsLossless(w.pipe, e);
    hide Lossless;
  }

  lemma SubscribeKeepsCaughtUp(w: World)
    requires CaughtUp(w) && w.pc.Subscribing?
    ensures CaughtUp(Apply(w, Subscribe)) && Apply(w, Subscribe).pipe == w.pipe
  {
    assert |w.pipe.kept| <= |w.pipe.pub| <= |w.pipe.kept| + BATCH_MAX;
    hide Lossless;
  }

  /** Neither the table nor what was read of it has changed. */
  predicate SameHistory(w: World, t: World) {
    && t.pipe == w.pipe && t.since == w.since && t.flushed == w.flushed && t.asked == w.asked && t.hist == w.hist
    && (HistoryRead(t.pc) ==> HistoryRead(w.pc))
  }

  lemma OutsideLeavesHistory(w: World, x: Step)
    requires Enabled(w, x) && Faultless(x) && (x.ChangePhase? || x.Announce? || Elsewhere(x))
    ensures SameHistory(w, Apply(w, x))
  {}

  lemma RowLeavesHistory(w: World, ok: bool)
    requires Enabled(w, ReadRow(ok))
    ensures SameHistory(w, Apply(w, ReadRow(ok)))
  {}

  lemma RecheckLeavesHistory(w: World, ok: bool)
    requires Enabled(w, Recheck(ok))
    ensures SameHistory(w, Apply(w, Recheck(ok)))
  {}

  lemma TailLeavesHistory(w: World, x: Step)
    requires Enabled(w, x) && (x.Take? || x.HangUp?)
    ensures SameHistory(w, Apply(w, x))
  {}

  lemma OtherLeavesHistory(w: World, x: Step)
    requires Enabled(w, x) && Faultless(x) && !x.Write? && !x.ReadPage? && !x.Subscribe?
    ensures SameHistory(w, Apply(w, x))
  {
    hide SameHistory, Apply;
    if x.ChangePhase? || x.Announce? || Elsewhere(x) { OutsideLeavesHistory(w, x); }
    else if x.Take? || x.HangUp? { TailLeavesHistory(w, x); }
    else if x.ReadRow? { RowLeavesHistory(w, x.ok); }
    else { RecheckLeavesHistory(w, x.ok); }
  }

  lemma SameKeepsCaughtUp(w: World, t: World)
    requires CaughtUp(w) && SameHistory(w, t)
    ensures CaughtUp(t)
  {
    hide Lossless;
  }

  lemma StepKeepsCaughtUp(w: World, x: Step)
    requires CaughtUp(w) && w.hist <= |w.pipe.table| && Enabled(w, x) && Faultless(x) && !LosesFrames(x)
    ensures CaughtUp(Apply(w, x)) && Apply(w, x).pipe.base == w.pipe.base
  {
    hide AfterPage, CaughtUp;
    if x.Write? { WriteKeepsCaughtUp(w, x.e); }
    else if x.ReadPage? { PageKeepsCaughtUp(w); }
    else if x.Subscribe? { SubscribeKeepsCaughtUp(w); }
    else {
      OtherLeavesHistory(w, x);
      hide Apply;
      SameKeepsCaughtUp(w, Apply(w, x));
    }
  }

  /** Once history is read, at least the first n flushed frames were seen. */
  predicate SeenFrom(w: World, n: nat) { n <= |w.pipe.kept| && (HistoryRead(w.pc) ==> n <= w.asked) }

  lemma WriteKeepsSeen(w: World, e: Event, n: nat)
    requires SeenFrom(w, n) && Enabled(w, Write(e))
    ensures SeenFrom(Apply(w, Write(e)), n)
  {}

  lemma StepKeepsSeen(w: World, x: Step, n: nat)
    requires SeenFrom(w, n) && Enabled(w, x) && Faultless(x)
    ensures SeenFrom(Apply(w, x), n)
  {
    hide AfterPage;
    if x.Write? { WriteKeepsSeen(w, x.e, n); }
    else if x.ReadPage? { PageLeaves(w); }
    else if !x.Subscribe? {
      OtherLeavesHistory(w, x);
      hide Apply;
    }
  }

  lemma {:induction false} StaysSeen(w: World, xs: seq<Step>, n: nat)
    requires SeenFrom(w, n) && Legal(w, xs) && FaultlessRun(xs)
    ensures SeenFrom(After(w, xs), n)
    decreases |xs|
  {
    if xs != [] {
      hide SeenFrom, Apply, Enabled;
      assert Faultless(xs[0]);
      StepKeepsSeen(w, xs[0], n);
      StaysSeen(Apply(w, xs[0]), xs[1..], n);
    }
  }

  predicate Faithful(w: World) { Received(w) && Streamed(w) && CaughtUp(w) }

  lemma {:induction false} StaysFaithful(w: World, xs: seq<Step>)
    requires Faithful(w) && Legal(w, xs) && FaultlessRun(xs) && LosslessRun(xs)
    ensures Faithful(After(w, xs)) && After(w, xs).pipe.base == w.pipe.base
    decreases |xs|
  {
    if xs != [] {
      hide Received, CaughtUp, Apply, Enabled;
      assert Faultless(xs[0]) && !LosesFrames(xs[0]);
      StepKeepsReceived(w, xs[0]);
      StepKeepsStreamed(w, xs[0]);
      StepKeepsCaughtUp(w, xs[0]);
      StaysFaithful(Apply(w, xs[0]), xs[1..]);
    }
  }

  // ---- the client --------------------------------------------------------------------------------

  /** The frame listener: append only when strictly newer than the tail. */
  function ClientStep(log: seq<LogFrame>, f: LogFrame): seq<LogFrame> {
    if log == [] || f.seqNo > log[|log| - 1].seqNo then log + [f] else log
  }

  function ClientLog(log: seq<LogFrame>, frames: seq<LogFrame>): seq<LogFrame> {
    if frames == [] then log else ClientStep(ClientLog(log, frames[..|frames| - 1]), frames[|frames| - 1])
  }

  /** Whatever arrives, the client's log is strictly increasing, and made of what it had and what arrived. */
  lemma {:induction false} ClientOrdered(log: seq<LogFrame>, frames: seq<LogFrame>)
    requires SeqOrdered(log)
    ensures SeqOrdered(ClientLog(log, frames)) && log <= ClientLog(log, frames)
    ensures forall f | f in ClientLog(log, frames) :: f in log || f in frames
    decreases |frames|
  {
    if frames != [] { ClientOrdered(log, frames[..|frames| - 1]); }
  }

  /** A frame newer than all that came before it is shown. */
  lemma {:induction false} ClientShows(frames: seq<LogFrame>, i: nat)
    requires i < |frames| && forall j | 0 <= j < i :: frames[j].seqNo < frames[i].seqNo
    ensures frames[i] in ClientLog([], frames)
    decreases |frames|
  {
    var init := frames[..|frames| - 1];
    if i < |init| {
      ClientShows(init, i);
    } else {
      ClientOrdered([], init);
      var log := ClientLog([], init);
      if log != [] { assert log[|log| - 1] in init; }
    }
  }

  lemma OrderedStream(p: Pipe)
    requires Lossless(p) && SeqOrdered(p.base)
    ensures SeqOrdered(p.base + p.pub)
  {}

  /** The number of frames published up to the last event streamed. */
  function Horizon(w: World): nat { w.since + |FramesOf(Taken(w))| }

  /** The streamed frames, by position: history first, then what was published since the subscription. */
  lemma StreamedAt(w: World, j: nat)
    requires Faithful(w) && j < |FramesOf(w.out)|
    ensures Horizon(w) <= |w.pipe.pub| && |FramesOf(w.out)| == w.hist + Horizon(w) - w.since
    ensures FramesOf(w.out)[j] == if j < w.hist then (w.pipe.base + w.pipe.pub)[j] else w.pipe.pub[w.since + j - w.hist]
  {
    FramesOfPrefix(w.inbox, w.pos);
    hide FramesOf;
    if j >= w.hist {
      assert FramesOf(Taken(w))[j - w.hist] == FramesOf(w.inbox)[j - w.hist];
    }
  }

  /** What the client shows is in order, is made of published frames, and lacks none of those flushed at the last
      history query or published between the subscription and the last event streamed. What lies between the two
      was published and not yet flushed at the subscribe instant: at most 64 frames. */
  ghost predicate MissesOnlyTheGap(t: World) {
    var log := ClientLog([], FramesOf(t.out));
    && SeqOrdered(log)
    && t.flushed <= t.asked && t.since <= t.flushed + 64 && Horizon(t) <= |t.pipe.pub|
    && (forall i | 0 <= i < |t.pipe.pub| && (i < t.asked || t.since <= i < Horizon(t)) :: t.pipe.pub[i] in log)
    && (forall f | f in t.pipe.base :: f in log)
    && (forall f | f in log :: f in t.pipe.base || f in t.pipe.pub)
  }

  predicate ArrivesInTime(w: World) {
    Arrives(w) && !w.gone && Lossless(w.pipe) && SeqOrdered(w.pipe.base) && |Pending(w.pipe)| <= BATCH_MAX
  }

  lemma ArrivesFaithful(w: World)
    requires ArrivesInTime(w)
    ensures Faithful(w)
  {}

  /** Main result: a viewer arrives at any point, reads history, and follows the live events or is answered from the
      row. Without failed flushes or reads it misses at most the gap, whatever the others do meanwhile, and nothing
      that was flushed when it arrived. */
  lemma BoundedGap(w: World, xs: seq<Step>)
    requires ArrivesInTime(w) && Legal(w, xs) && FaultlessRun(xs) && LosslessRun(xs)
    requires HistoryRead(After(w, xs).pc)
    ensures MissesOnlyTheGap(After(w, xs)) && |w.pipe.kept| <= After(w, xs).asked
  {
    StaysSeen(w, xs, |w.pipe.kept|);
    ArrivesFaithful(w);
    StaysFaithful(w, xs);
    hide MissesOnlyTheGap, Legal, FaultlessRun, LosslessRun;
    LogHasAllButGap(After(w, xs));
  }

  lemma LogHasAllButGap(t: World)
    requires Faithful(t) && SeqOrdered(t.pipe.base) && HistoryRead(t.pc)
    ensures MissesOnlyTheGap(t)
  {
    FramesOfPrefix(t.inbox, t.pos);
    ClientOrdered([], FramesOf(t.out));
    BaseIsShown(t);
    NothingInvented(t);
    hide FramesOf, ClientLog, Lossless, Streamed;
    forall i | 0 <= i < |t.pipe.pub| && (i < t.asked || t.since <= i < Horizon(t))
      ensures t.pipe.pub[i] in ClientLog([], FramesOf(t.out))
    {
      PublishedIsShown(t, i);
    }
  }

  lemma BaseIsShown(t: World)
    requires Faithful(t) && SeqOrdered(t.pipe.base) && HistoryRead(t.pc)
    ensures forall f | f in t.pipe.base :: f in ClientLog([], FramesOf(t.out))
  {
    hide FramesOf, ClientLog, Streamed, Received, Lossless;
    forall f | f in t.pipe.base ensures f in ClientLog([], FramesOf(t.out)) {
      var i :| 0 <= i < |t.pipe.base| && t.pipe.base[i] == f;
      HistoryIsShown(t, i);
    }
  }

  lemma NothingInvented(t: World)
    requires Faithful(t)
    ensures forall f | f in FramesOf(t.out) :: f in t.pipe.base || f in t.pipe.pub
  {
    hide FramesOf, Received;
    forall f | f in FramesOf(t.out) ensures f in t.pipe.base || f in t.pipe.pub {
      var j :| 0 <= j < |FramesOf(t.out)| && FramesOf(t.out)[j] == f;
      StreamedAt(t, j);
      if j < t.hist { assert f in t.pipe.base + t.pipe.pub; }
    }
  }

  lemma HistoryIsShown(t: World, i: nat)
    requires Faithful(t) && SeqOrdered(t.pipe.base) && i < t.hist
    ensures (t.pipe.base + t.pipe.pub)[i] in ClientLog([], FramesOf(t.out))
  {
    var frames := FramesOf(t.out);
    OrderedStream(t.pipe);
    hide FramesOf, ClientLog, Lossless;
    forall j | 0 <= j <= i ensures frames[j] == (t.pipe.base + t.pipe.pub)[j] { StreamedAt(t, j); }
    ClientShows(frames, i);
  }

  lemma PublishedIsShown(t: World, i: nat)
    requires Faithful(t) && SeqOrdered(t.pipe.base) && HistoryRead(t.pc)
    requires i < |t.pipe.pub| && (i < t.asked || t.since <= i < Horizon(t))
    ensures t.pipe.pub[i] in ClientLog([], FramesOf(t.out))
  {
    hide FramesOf, ClientLog, Taken;
    var b, frames := |t.pipe.base|, FramesOf(t.out);
    if i < t.asked {
      HistoryIsShown(t, b + i);
    } else {
      var at := t.hist + i - t.since;
      OrderedStream(t.pipe);
      StreamedAt(t, at);
      forall j | 0 <= j < at ensures frames[j].seqNo < t.pipe.pub[i].seqNo {
        StreamedAt(t, j);
      }
      ClientShows(frames, at);
    }
  }

  /** The gap is real: a frame published just before the subscription and flushed just after history was read is in
      neither the response nor the channel. */
  lemma GapIsReal(f: LogFrame)
    requires f.seqNo == 0
    ensures exists w, xs ::
              ArrivesInTime(w) && Legal(w, xs) && FaultlessRun(xs) && LosslessRun(xs)
              && var t := After(w, xs); t.pc.Tailing? && t.pipe.table == [f] && t.out == [] && t.inbox == [] && t.attached
  {
    var w0 := World(Publish(Opened([]), f), None, false, false, Silent, false, Arriving, false, [], 0, [], 0, false, 0, 0, 0, 0, 0);
    var w1 := w0.(pc := Subscribing);
    var w2 := w0.(open := true, attached := true, pc := Rechecking, since := 1);
    assert ArrivesInTime(w0) by { assert Lossless(w0.pipe); }
    var xs := ReadsBeforeFlush(w2);
    assert Apply(w0, ReadRow(true)) == w1 && Apply(w1, Subscribe) == w2;
    hide Apply, ArrivesInTime;
    Then(w1, Subscribe, xs);
    Then(w0, ReadRow(true), [Subscribe] + xs);
    GapRunIsFaultless();
    assert [ReadRow(true)] + ([Subscribe] + xs) == GapRun();
  }

  function GapRun(): seq<Step> { [ReadRow(true), Subscribe, Recheck(true), ReadPage, Write(Flushed(true))] }

  lemma GapRunIsFaultless()
    ensures FaultlessRun(GapRun()) && LosslessRun(GapRun())
  {}

  lemma EmptyPage(w: World)
    requires w.pc == Paging(None) && w.hist == 0 && w.pipe.table == [] && w.asked == |w.pipe.kept|
    ensures Apply(w, ReadPage) == w.(pc := Tailing)
  {
    assert w.out + AsLines([]) == w.out;
  }

  lemma FlushFills(w: World)
    requires w.pipe.table == [] && w.pipe.kept == []
    ensures Enabled(w, Write(Flushed(true)))
    ensures var t := Apply(w, Write(Flushed(true))); t == w.(pipe := t.pipe) && t.pipe.table == w.pipe.pub
  {
    assert Pending(w.pipe) == w.pipe.pub;
  }

  lemma ReadsBeforeFlush(w: World) returns (xs: seq<Step>)
    requires w.pc.Rechecking? && w.outcome.None? && !w.gone && w.attached && w.out == [] && w.inbox == [] && w.hist == 0
    requires w.pipe.table == [] && w.pipe.kept == [] && |w.pipe.pub| == 1 && w.asked == 0
    ensures Legal(w, xs)
    ensures xs == [Recheck(true), ReadPage, Write(Flushed(true))]
    ensures var t := After(w, xs);
            t.pc.Tailing? && t.pipe.table == w.pipe.pub && t.out == [] && t.inbox == [] && t.attached
  {
    var w1 := w.(pc := Paging(None));
    var w2 := w.(pc := Tailing);
    RecheckGoesOn(w);
    EmptyPage(w1);
    FlushFills(w2);
    hide Apply, Faultless, LosesFrames;
    xs := [Write(Flushed(true))] + [];
    Then(w2, Write(Flushed(true)), []);
    Then(w1, ReadPage, xs);
    Then(w, Recheck(true), [ReadPage] + xs);
    xs := [Recheck(true)] + ([ReadPage] + xs);
  }

  /** After a phase whose last flush failed, the next phase's first frame repeats a key, and a client that
      followed live does not show it. */
  lemma DirtyHandoverHides(f: LogFrame, g: LogFrame)
    requires f.seqNo == 0 && g.seqNo == 0
    ensures var p := NextPhase(Flush(Publish(Opened([]), f), false));
            && Can(p, Published(g)) && Publish(p, g).pub == [f, g]
            && ClientLog([], [f, g]) == [f]
  {
    assert ClientLog([], [f]) == [f] by { assert [f][..0] == []; }
    assert [f, g][..1] == [f];
  }

  // ---- the paging loop ---------------------------------------------------------------------------

  /** The table as the k-th query finds it: a writer may have appended to it, and retention deleted from it. */
  function At(tables: seq<seq<LogFrame>>, k: nat): seq<LogFrame>
    requires tables != []
  {
    tables[if k < |tables| then k else |tables| - 1]
  }

  function PageNo(tables: seq<seq<LogFrame>>, k: nat): seq<LogFrame>
    requires tables != []
  {
    PageAt(At(tables, k), k * PAGE)
  }

  /** What the first n queries find. */
  function PagesRead(tables: seq<seq<LogFrame>>, n: nat): seq<LogFrame>
    requires tables != []
  {
    if n == 0 then [] else PagesRead(tables, n - 1) + PageNo(tables, n - 1)
  }

  function Longest(tables: seq<seq<LogFrame>>): (m: nat)
    ensures forall k | 0 <= k < |tables| :: |tables[k]| <= m
  {
    if tables == [] then 0
    else
      var m, last := Longest(tables[..|tables| - 1]), |tables[|tables| - 1]|;
      if m >= last then m else last
  }

  lemma LinesJoin(a: seq<LogFrame>, b: seq<LogFrame>)
    ensures AsLines(a + b) == AsLines(a) + AsLines(b)
  {}

  /** `historical_lines`: page by page, by offset, against a table that changes in any way between the queries; the
      query numbered `broken` fails. The result is what each query found at its offset, up to the first page that
      is not full, or up to the failure, with a truncation notice. */
  method HistoricalLines(tables: seq<seq<LogFrame>>, broken: Option<nat>) returns (lines: seq<Line>, queries: nat)
    requires tables != []
    ensures queries > 0 && (broken.Some? ==> queries - 1 <= broken.value)
    ensures forall k | 0 <= k < queries - 1 :: |PageNo(tables, k)| == 1000
    ensures broken != Some(queries - 1) ==>
              |PageNo(tables, queries - 1)| < 1000 && lines == AsLines(PagesRead(tables, queries))
    ensures broken == Some(queries - 1) ==> lines == AsLines(PagesRead(tables, queries - 1)) + [Truncated]
  {
    hide AsLines, PageAt;
    lines, queries := [], 0;
    var offset := 0;
    ghost var bound := Longest(tables);
    while true
      invariant offset == queries * PAGE <= bound
      invariant lines == AsLines(PagesRead(tables, queries))
      invariant forall k | 0 <= k < queries :: |PageNo(tables, k)| == PAGE
      invariant broken.Some? ==> queries <= broken.value
      decreases bound - offset
    {
      if broken == Some(queries) {
        lines := lines + [Truncated];
        queries := queries + 1;
        return;
      }
      var chunk := PageAt(At(tables, queries), offset);
      LinesJoin(PagesRead(tables, queries), chunk);
      lines := lines + AsLines(chunk);
      queries := queries + 1;
      if |chunk| < PAGE { return; }
      FullPageFits(At(tables, queries - 1), offset);
      offset := offset + PAGE;
    }
  }

  lemma FullPageFits(table: seq<LogFrame>, offset: nat)
    requires |PageAt(table, offset)| == PAGE
    ensures offset + PAGE <= |table| && PageAt(table, offset) == table[offset..offset + PAGE]
  {}

  predicate Growing(tables: seq<seq<LogFrame>>) {
    forall i, j | 0 <= i <= j < |tables| :: tables[i] <= tables[j]
  }

  /** While the table only grows, full pages are its beginning, and a page that is not full completes it. */
  lemma {:induction false} PagesOfGrowing(tables: seq<seq<LogFrame>>, n: nat)
    requires tables != [] && Growing(tables) && n > 0
    requires forall k | 0 <= k < n - 1 :: |PageNo(tables, k)| == PAGE
    ensures var t := At(tables, n - 1);
            && (n - 1) * PAGE <= |t| && PagesRead(tables, n - 1) == t[..(n - 1) * PAGE]
            && (|PageNo(tables, n - 1)| == PAGE ==> n * PAGE <= |t| && PagesRead(tables, n) == t[..n * PAGE])
            && (|PageNo(tables, n - 1)| < PAGE ==> PagesRead(tables, n) == t)
  {
    var t := At(tables, n - 1);
    if n > 1 {
      var u := At(tables, n - 2);
      PagesOfGrowing(tables, n - 1);
      assert |PageNo(tables, n - 2)| == PAGE;
      assert u <= t;
    }
    GrowingPage(t, (n - 1) * PAGE);
  }

  lemma GrowingPage(table: seq<LogFrame>, offset: nat)
    requires offset <= |table|
    ensures var page := PageAt(table, offset);
            && (|page| == PAGE ==> offset + PAGE <= |table| && table[..offset] + page == table[..offset + PAGE])
            && (|page| < PAGE ==> table[..offset] + page == table)
  {}

  /** When rows before the offset are deleted between two queries, as retention does, the rest of the table moves up
      and the next page starts as many rows too late as were deleted: those rows are never read. */
  lemma DeletionSkips(before: seq<LogFrame>, kept: seq<LogFrame>, rest: seq<LogFrame>)
    requires |kept| <= |before|
    ensures PageAt(before + rest, |before|) == PageAt(rest, 0)
    ensures PageAt(kept + rest, |before|) == PageAt(rest, |before| - |kept|)
  {
    hide *;
    PageOfRest(before, rest, |before|);
    PageOfRest(kept, rest, |before|);
  }

  lemma PageOfRest(front: seq<LogFrame>, rest: seq<LogFrame>, offset: nat)
    requires |front| <= offset
    ensures PageAt(front + rest, offset) == PageAt(rest, offset - |front|)
  {
    var all, at := front + rest, offset - |front|;
    if offset + PAGE <= |all| {
      assert all[offset..offset + PAGE] == rest[at..at + PAGE];
    } else if offset <= |all| {
      assert all[offset..] == rest[at..];
    }
  }
}

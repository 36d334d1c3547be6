/** When the writer is done before the row is: what a closed viewer's log then lacks. */
module CompleteLog {
  import opened Options
  import opened Proto
  import opened LogSink
  import opened Viewing
  import opened ViewerLog

  /** A row becomes terminal only when its sink has finished, and nothing is published after. Dispatch joins the
      forwarder before it advances or finalizes the row; only a panic breaks this. */
  predicate Orderly(w: World, x: Step) {
    && (x.FinalizeRow? || x.CancelWaiting? ==> |w.pipe.kept| == |w.pipe.pub|)
    && (x.Write? && x.e.Published? ==> w.outcome.None?)
  }

  ghost predicate OrderlyRun(w: World, xs: seq<Step>)
    requires Legal(w, xs)
    decreases |xs|
  {
    xs == [] || (Orderly(w, xs[0]) && OrderlyRun(Apply(w, xs[0]), xs[1..]))
  }

  /** A terminal row's log is complete. */
  predicate Sealed(w: World) { w.outcome.Some? ==> |w.pipe.kept| == |w.pipe.pub| }

  /** The viewers that follow the channel or have followed it to the end. */
  predicate Live(pc: ViewerPc) { pc.Rechecking? || pc == Paging(None) || pc.Tailing? || pc == Closed(false) }

  /** The inbox has everything published since the subscription, whatever has become of the channel. */
  predicate Whole(w: World) { w.since <= |w.pipe.pub| && FramesOf(w.inbox) == w.pipe.pub[w.since..] }

  predicate EndIsLast(w: World) {
    forall i, k | 0 <= i < k < |w.inbox| && w.inbox[i].Closes() :: !w.inbox[k].Frame?
  }

  /** The end of the tail was the end of the inbox's frames; the end of a history that was the whole answer was the
      end of the log. */
  predicate Finished(w: World) {
    && (w.pc == Closed(false) ==> FramesOf(Taken(w)) == FramesOf(w.inbox))
    && (w.pc == Closed(true) ==> w.asked == |w.pipe.pub|)
  }

  predicate Complete(w: World) { Sealed(w) && (Live(w.pc) ==> Whole(w)) && EndIsLast(w) && Finished(w) }

  // ---- each part is kept ------------------------------------------------------------------------

  lemma WriteKeepsSealed(w: World, e: Event)
    requires Sealed(w) && Enabled(w, Write(e)) && Orderly(w, Write(e))
    ensures Sealed(Apply(w, Write(e)))
  {
    if e.Flushed? { PendingFlushed(w.pipe, e.ok); }
  }

  lemma OutsideKeepsSealed(w: World, x: Step)
    requires Sealed(w) && Enabled(w, x) && Orderly(w, x) && (x.ChangePhase? || x.Announce? || Elsewhere(x))
    ensures Sealed(Apply(w, x))
  {}

  lemma RowReadKeepsSealed(w: World, x: Step)
    requires Sealed(w) && Enabled(w, x) && (x.ReadRow? || x.Recheck? || x.Subscribe?)
    ensures Sealed(Apply(w, x))
  {}

  lemma LineKeepsSealed(w: World, x: Step)
    requires Sealed(w) && Enabled(w, x) && (x.PageFails? || x.Take? || x.HangUp?)
    ensures Sealed(Apply(w, x))
  {}

  lemma StepKeepsSealed(w: World, x: Step)
    requires Sealed(w) && Enabled(w, x) && Orderly(w, x)
    ensures Sealed(Apply(w, x))
  {
    hide AfterPage;
    if x.Write? { WriteKeepsSealed(w, x.e); }
    else if x.ReadPage? { PageLeaves(w); }
    else if x.ChangePhase? || x.Announce? || Elsewhere(x) { OutsideKeepsSealed(w, x); }
    else if x.PageFails? || x.Take? || x.HangUp? { LineKeepsSealed(w, x); }
    else { RowReadKeepsSealed(w, x); }
  }

  /** A step that is not a publication leaves a detached viewer's world alone. */
  lemma NothingArrives(w: World, x: Step)
    requires Enabled(w, x) && Sends(x) && !w.attached && (x.Write? ==> !x.e.Published?)
    ensures var t := Apply(w, x); t.inbox == w.inbox && t.pipe.pub == w.pipe.pub && t.since == w.since && t.pc == w.pc
  {}

  lemma SenderStaysWhole(w: World, x: Step)
    requires Received(w) && Answered(w) && Whole(w) && Live(w.pc)
    requires Enabled(w, x) && Sends(x) && Orderly(w, x)
    ensures Whole(Apply(w, x)) && Apply(w, x).pc == w.pc
  {
    StepKeepsReceived(w, x);
    if w.attached {
      assert Apply(w, x).attached && Apply(w, x).pc == w.pc;
      hide FramesOf, Apply;
    } else {
      NothingArrives(w, x);
      hide FramesOf;
    }
  }

  lemma OtherStaysLive(w: World, x: Step)
    requires Enabled(w, x) && !Sends(x) && !x.Subscribe? && !x.ReadPage? && !x.PageFails? && Live(Apply(w, x).pc)
    ensures Live(w.pc)
  {
    if Elsewhere(x) { ElsewhereLeavesResponse(w, x); } else if !x.Take? && !x.HangUp? { RowReadStaysLive(w, x); }
    hide Apply;
  }

  lemma RowReadStaysLive(w: World, x: Step)
    requires Enabled(w, x) && (x.ReadRow? || x.Recheck?)
    ensures Live(Apply(w, x).pc) ==> Live(w.pc)
  {}

  lemma StepKeepsWhole(w: World, x: Step)
    requires Received(w) && Answered(w) && (Live(w.pc) ==> Whole(w))
    requires Enabled(w, x) && Faultless(x) && Orderly(w, x) && Live(Apply(w, x).pc)
    ensures Whole(Apply(w, x))
  {
    if Sends(x) {
      SenderLeavesViewer(w, x);
      SenderStaysWhole(w, x);
    } else if x.Subscribe? {
      SubscribeKeepsReceived(w);
    } else if x.ReadPage? {
      PageLeaves(w);
      hide AfterPage, FramesOf;
    } else {
      OtherStaysLive(w, x);
      OtherLeavesInbox(w, x);
      hide FramesOf, Apply;
    }
  }

  lemma SenderLeavesViewer(w: World, x: Step)
    requires Enabled(w, x) && Sends(x)
    ensures var t := Apply(w, x);
            t.pc == w.pc && t.pos == w.pos && t.asked == w.asked && t.outcome == w.outcome
  {
    hide Do, Can;
    match x
    case Write(e) => WriteLeavesViewer(w, e);
    case ChangePhase(p) =>
    case Announce =>
  }

  lemma WriteLeavesViewer(w: World, e: Event)
    requires Enabled(w, Write(e))
    ensures var t := Apply(w, Write(e));
            t.pc == w.pc && t.pos == w.pos && t.asked == w.asked && t.outcome == w.outcome
  {
    var w1 := w.(pipe := Do(w.pipe, e));
    assert Apply(w, Write(e)) == if e.Published? then Deliver(w1, Frame(e.f)) else w1;
    hide Do, Can, Apply;
  }

  /** What a sender adds to an inbox. */
  lemma SenderAdds(w: World, x: Step)
    requires Enabled(w, x) && Sends(x) && Orderly(w, x)
    ensures var t := Apply(w, x);
            t.inbox == w.inbox || exists event :: t.inbox == w.inbox + [event] && (event.Frame? ==> w.outcome.None?)
  {
    match x
    case Write(e) => if e.Published? && w.open && w.attached { assert Apply(w, x).inbox == w.inbox + [Frame(e.f)]; }
    case ChangePhase(p) => if w.open && w.attached { assert Apply(w, x).inbox == w.inbox + [Phased(p)]; }
    case Announce =>
      var event := if w.outcome.Some? then Terminal(w.outcome.value) else Truncated;
      if w.open && w.attached { assert Apply(w, x).inbox == w.inbox + [event]; }
  }

  lemma StepKeepsEndLast(w: World, x: Step)
    requires Delivered(w) && EndIsLast(w) && (w.attached ==> w.open) && Enabled(w, x) && Faultless(x) && Orderly(w, x)
    ensures EndIsLast(Apply(w, x))
  {
    if Sends(x) {
      SenderAdds(w, x);
      hide Apply;
    } else if x.ReadPage? {
      PageLeaves(w);
      hide AfterPage;
    } else if x.Subscribe? {
    } else {
      OtherLeavesInbox(w, x);
      hide Apply;
    }
  }

  lemma {:induction false} NoFrames(lines: seq<Line>)
    requires forall k | 0 <= k < |lines| :: !lines[k].Frame?
    ensures FramesOf(lines) == []
    decreases |lines|
  {
    if lines != [] { NoFrames(lines[..|lines| - 1]); }
  }

  /** Nothing is missed after a closing line. */
  lemma ClosingIsLast(w: World)
    requires EndIsLast(w) && Enabled(w, Take) && w.inbox[w.pos].Closes()
    ensures FramesOf(w.inbox[..w.pos + 1]) == FramesOf(w.inbox)
  {
    var front, rest := w.inbox[..w.pos + 1], w.inbox[w.pos + 1..];
    assert front + rest == w.inbox;
    NoFrames(rest);
    FramesOfJoin(front, rest);
  }

  lemma TakeFinishes(w: World)
    requires Finished(w) && EndIsLast(w) && Enabled(w, Take)
    ensures Finished(Apply(w, Take))
  {
    if w.inbox[w.pos].Closes() { ClosingIsLast(w); }
    var t := Apply(w, Take);
    assert t.inbox == w.inbox && t.pos == w.pos + 1 && t.pc == if w.inbox[w.pos].Closes() then Closed(false) else Tailing;
    hide FramesOf, Apply;
  }

  lemma HangUpFinishes(w: World, ok: bool)
    requires Finished(w) && Enabled(w, HangUp(ok))
    ensures Finished(Apply(w, HangUp(ok)))
  {
    assert Taken(Apply(w, HangUp(ok))) == w.inbox;
    hide FramesOf;
  }

  lemma PageFinishes(w: World)
    requires Sealed(w) && Written(w) && w.pc.Paging?
    ensures Finished(AfterPage(w))
  {
    PageLeaves(w);
    hide AfterPage, PageAt, FramesOf, Closers;
  }

  lemma NothingPublished(w: World, x: Step)
    requires Enabled(w, x) && Sends(x) && Orderly(w, x) && w.outcome.Some?
    ensures Apply(w, x).pipe.pub == w.pipe.pub
  {}

  lemma SenderFinishes(w: World, x: Step)
    requires Finished(w) && Answered(w) && w.pos <= |w.inbox| && Enabled(w, x) && Sends(x) && Orderly(w, x)
    ensures Finished(Apply(w, x))
  {
    var t := Apply(w, x);
    SenderLeavesViewer(w, x);
    if w.pc.Closed? {
      NothingPublished(w, x);
      SenderAdds(w, x);
      hide Apply, FramesOf, Enabled, Orderly;
      if t.inbox != w.inbox {
        var event :| t.inbox == w.inbox + [event] && (event.Frame? ==> w.outcome.None?);
        FramesOfMore(w.inbox, event);
        assert Taken(t) == Taken(w);
      }
    }
  }

  lemma ElsewhereFinishes(w: World, x: Step)
    requires Finished(w) && Enabled(w, x) && Faultless(x) && Elsewhere(x)
    ensures Finished(Apply(w, x))
  {
    hide FramesOf;
  }

  lemma RowReadFinishes(w: World, x: Step)
    requires Enabled(w, x) && (x.ReadRow? || x.Recheck? || x.Subscribe?)
    ensures Finished(Apply(w, x))
  {
    assert !Apply(w, x).pc.Closed?;
    hide FramesOf, Taken, Apply;
  }

  lemma StepKeepsFinished(w: World, x: Step)
    requires Finished(w) && EndIsLast(w) && Sealed(w) && Written(w) && Answered(w) && w.pos <= |w.inbox|
    requires Enabled(w, x) && Faultless(x) && Orderly(w, x)
    ensures Finished(Apply(w, x))
  {
    hide Finished;
    if Sends(x) { SenderFinishes(w, x); }
    else if x.ReadPage? { PageFinishes(w); }
    else if x.Take? { TakeFinishes(w); }
    else if x.HangUp? { HangUpFinishes(w, x.ok); }
    else if Elsewhere(x) { ElsewhereFinishes(w, x); }
    else { RowReadFinishes(w, x); }
  }

  lemma StepKeepsComplete(w: World, x: Step)
    requires Received(w) && Delivered(w) && Written(w) && Answered(w) && Complete(w)
    requires Enabled(w, x) && Faultless(x) && Orderly(w, x)
    ensures Complete(Apply(w, x))
  {
    StepKeepsSealed(w, x);
    StepKeepsEndLast(w, x);
    StepKeepsFinished(w, x);
    if Live(Apply(w, x).pc) { StepKeepsWhole(w, x); }
    hide Apply, Sealed, Whole, EndIsLast, Finished;
  }

  // ---- the theorem -------------------------------------------------------------------------------

  lemma {:induction false} StaysComplete(w: World, xs: seq<Step>)
    requires Faithful(w) && Delivered(w) && Written(w) && Answered(w) && Complete(w)
    requires Legal(w, xs) && FaultlessRun(xs) && LosslessRun(xs) && OrderlyRun(w, xs)
    ensures Complete(After(w, xs))
    decreases |xs|
  {
    if xs != [] {
      hide Received, Streamed, CaughtUp, Delivered, Written, Answered, Complete, Apply, Enabled;
      assert Faultless(xs[0]) && !LosesFrames(xs[0]);
      StepKeepsReceived(w, xs[0]);
      StepKeepsStreamed(w, xs[0]);
      StepKeepsCaughtUp(w, xs[0]);
      StepKeepsDelivered(w, xs[0]);
      StepKeepsWritten(w, xs[0]);
      StepKeepsAnswered(w, xs[0]);
      StepKeepsComplete(w, xs[0]);
      StaysComplete(Apply(w, xs[0]), xs[1..]);
    }
  }

  lemma ArrivesComplete(w: World)
    requires ArrivesInTime(w) && (w.outcome.Some? ==> Pending(w.pipe) == [])
    ensures Delivered(w) && Written(w) && Answered(w) && Complete(w)
  {}

  lemma ClosedMeans(t: World)
    requires Complete(t) && t.pc.Closed?
    ensures if t.pc.answered then t.asked == |t.pipe.pub| else Horizon(t) == |t.pipe.pub|
  {
    hide FramesOf, Taken;
  }

  /** A response answered from the row shows the job's whole log; one that followed the channel to the end lacks
      at most the gap between the last history query and the subscription. */
  lemma CompleteWhenClosed(w: World, xs: seq<Step>)
    requires ArrivesInTime(w) && (w.outcome.Some? ==> Pending(w.pipe) == [])
    requires Legal(w, xs) && FaultlessRun(xs) && LosslessRun(xs) && OrderlyRun(w, xs)
    requires After(w, xs).pc.Closed?
    ensures var t := After(w, xs);
            var log := ClientLog([], FramesOf(t.out));
            && MissesOnlyTheGap(t)
            && (forall i | 0 <= i < |t.pipe.pub| && (t.pc.answered || !(t.asked <= i < t.since)) :: t.pipe.pub[i] in log)
  {
    hide Legal, After, Enabled, Apply, FaultlessRun, LosslessRun, OrderlyRun, ArrivesInTime, Complete, Faithful, Delivered, Written;
    hide Answered, FramesOf, ClientLog, Taken, Horizon, SeqOrdered, Pending;
    ArrivesFaithful(w);
    ArrivesComplete(w);
    StaysComplete(w, xs);
    ClosedMeans(After(w, xs));
    BoundedGap(w, xs);
  }
}

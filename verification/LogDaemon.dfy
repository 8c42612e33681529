/**
 Stream and Handle as code: the select loops of internal/daemon/logs.go, each with the
 other goroutines moving between its operations. The locals of a loop are tied to the
 state of the pipeline, so what is proved of all schedules holds for the loops.
 */
module LogDaemon {
  import opened Basics
  import opened LogPipeline
  import opened LogTheorems
  import opened LogCauses

  /** Nothing of Handle has moved. */
  ghost predicate SameHandler(s: Pipe, t: Pipe) {
    t.handler == s.handler && t.hHand == s.hHand && t.wire == s.wire
  }

  lemma UpstreamLeavesHandler(s: Pipe, a: Action)
    requires ProducerEnabled(s, a) || StreamerEnabled(s, a)
    ensures SameHandler(s, Apply(s, a))
  {
  }

  class Session {
    const container: seq<string>
    var st: Pipe
    ghost var run: seq<Action>

    ghost predicate Valid()
      reads this
    {
      Legal(Begin(container), run) && st == After(Begin(container), run)
    }

    constructor (container: seq<string>)
      ensures Valid() && this.container == container && st == Begin(container)
    {
      this.container := container;
      st, run := Begin(container), [];
    }

    method Act(a: Action)
      requires Valid() && Enabled(st, a)
      modifies this
      ensures Valid() && st == Apply(old(st), a)
      ensures old(st.producer) != NotStarted ==> st.producer != NotStarted
    {
      OneMore(Begin(container), run, a);
      StartIsForGood(st, a);
      st, run := Apply(st, a), run + [a];
    }

    lemma Holds()
      requires Valid()
      ensures Inv(st, container)
    {
      BeginHolds(container);
      RunKeeps(Begin(container), run, container);
    }

    /** One step of LogsFollow or Stream. */
    method Upstream(a: Action)
      requires Valid() && (ProducerEnabled(st, a) || StreamerEnabled(st, a))
      modifies this
      ensures Valid() && SameHandler(old(st), st) && Measure(st) < Measure(old(st))
    {
      Holds();
      StepsLowerMeasure(st, a);
      UpstreamLeavesHandler(st, a);
      Act(a);
    }

    /** LogsFollow and Stream move as they like, and the context may be cancelled. */
    method UpstreamMoves()
      requires Valid()
      modifies this
      ensures Valid() && SameHandler(old(st), st) && Measure(st) <= Measure(old(st))
    {
      var moves: nat := *;
      while moves > 0
        invariant Valid() && SameHandler(old(st), st) && Measure(st) <= Measure(old(st))
      {
        var a: Action := *;
        if a == Cancel {
          Act(a);
        } else if ProducerEnabled(st, a) || StreamerEnabled(st, a) {
          Upstream(a);
        }
        moves := moves - 1;
      }
    }

    /** Handle sleeps until someone else has moved. */
    method Wait()
      requires Valid() && !st.streamer.Over? && |st.lines.buf| < LINE_CAP
      modifies this
      ensures Valid() && SameHandler(old(st), st) && Measure(st) < Measure(old(st))
    {
      Holds();
      Upstream(UpstreamMove(st));
    }

    /** One step of Handle. */
    method Do(a: Action)
      requires Valid() && HandlerEnabled(st, a)
      modifies this
      ensures Valid() && st == ApplyHandler(old(st), a) && Measure(st) < Measure(old(st))
    {
      Holds();
      StepsLowerMeasure(st, a);
      Act(a);
    }

    /** Handle and LogsFollow move as they like, and the context may be cancelled. */
    method OthersMove()
      requires Valid()
      modifies this
      ensures Valid() && st.streamer == old(st.streamer) && st.sHand == old(st.sHand)
      ensures old(st.producer) != NotStarted ==> st.producer != NotStarted
    {
      var moves: nat := *;
      while moves > 0
        invariant Valid() && st.streamer == old(st.streamer) && st.sHand == old(st.sHand)
        invariant old(st.producer) != NotStarted ==> st.producer != NotStarted
      {
        var a: Action := *;
        if a == Cancel || ProducerEnabled(st, a) || HandlerEnabled(st, a) {
          OthersLeaveStreamer(st, a);
          Act(a);
        }
        moves := moves - 1;
      }
    }
  }

  lemma OthersLeaveStreamer(s: Pipe, a: Action)
    requires a == Cancel || ProducerEnabled(s, a) || HandlerEnabled(s, a)
    ensures Apply(s, a).streamer == s.streamer && Apply(s, a).sHand == s.sHand
  {
  }

  /** The select of Handle has nothing to offer: then someone upstream can move. */
  lemma NothingToReceive(s: Pipe)
    requires StreamerInv(s) && HandlerInv(s) && s.handler.Waiting? && s.handler != Waiting(true, true)
    requires s.handler.linesDone || !(Ready(s.lines) || Drained(s.lines))
    requires s.handler.errDone || !(Ready(s.errCh) || Drained(s.errCh))
    ensures !s.streamer.Over? && |s.lines.buf| < LINE_CAP
  {
  }

  method SendOneLine(w: Session) returns (ok: bool)
    requires w.Valid() && w.st.handler.Waiting? && w.st.hHand == [] && !w.st.handler.linesDone && Ready(w.st.lines)
    modifies w
    ensures w.Valid() && Measure(w.st) < Measure(old(w.st))
    ensures if ok then w.st.handler == old(w.st.handler) && w.st.hHand == [] else w.st.handler == Stopped(SendFailed)
  {
    w.Do(Receive);
    w.UpstreamMoves();
    ok := *;
    w.Do(SendLine(ok));
  }

  /** The select loop of LogStreamHandler.Handle, after its ack. It always ends. */
  method Handle(w: Session) returns (how: Ending)
    requires w.Valid() && w.st.handler == Waiting(false, false) && w.st.hHand == []
    modifies w
    ensures w.Valid() && w.st.handler == Stopped(how)
    ensures EndsOnce(w.st) && LossInv(w.st, w.container) && Sent(w.st.wire) <= Scanned(w.st, w.container)
    ensures how == SentDone && !w.st.cancelled ==>
      && NoCause(w.run)
      && (Sent(w.st.wire) == w.container
          <==> (Look(NoContainer) !in w.run && w.st.lost == w.st.torn) || w.container == [])
    ensures how == SentError ==> EndedByError(w.run, w.st.wire[|w.st.wire| - 1])
  {
    how := Loop(w);
    RunCaused(w.container, w.run);
    TerminalNoteIsLast(w.container, w.run);
    LinesAreConserved(w.container, w.run);
    if how == SentDone {
      assert w.st.wire[|w.st.wire| - 1] == DoneNote;
      DoneMeansEverything(w.container, w.run);
    }
  }

  method Loop(w: Session) returns (how: Ending)
    requires w.Valid() && w.st.handler == Waiting(false, false) && w.st.hHand == []
    modifies w
    ensures w.Valid() && w.st.handler == Stopped(how)
  {
    var linesDone, errDone := false, false;
    while true
      invariant w.Valid() && w.st.handler == Waiting(linesDone, errDone) && w.st.hHand == []
      decreases Measure(w.st)
    {
      w.UpstreamMoves();
      if linesDone && errDone {
        var ok: bool := *;
        w.Do(SendDone(ok));
        return if ok then SentDone else SendFailed;
      }
      var eager: bool, first: bool := *, *;
      var errCase := !errDone && (Ready(w.st.errCh) || Drained(w.st.errCh));
      var lineCase := !linesDone && (Ready(w.st.lines) || Drained(w.st.lines));
      if w.st.cancelled && (eager || !(errCase || lineCase)) {
        w.Do(HandlerQuit);
        return GaveUp;
      } else if errCase && (first || !lineCase) {
        if Drained(w.st.errCh) {
          w.Do(SeeErrChClosed);
          errDone := true;
        } else {
          var ok: bool := *;
          w.Do(ReceiveErr(ok));
          return if ok then SentError else SendFailed;
        }
      } else if lineCase {
        if Drained(w.st.lines) {
          w.Do(SeeOutClosed);
          linesDone := true;
        } else {
          var ok := SendOneLine(w);
          if !ok { return SendFailed; }
        }
      } else {
        w.Holds();
        NothingToReceive(w.st);
        w.Wait();
      }
    }
  }

  /** One pass of Stream's select once something is ready; `back` when Stream returns. */
  method Select(w: Session, linesDone: bool, errsDone: bool) returns (back: bool, ld: bool, ed: bool)
    requires w.Valid() && w.st.streamer == Selecting(linesDone, errsDone)
    requires w.st.sHand == [] && !(linesDone && errsDone)
    modifies w
    ensures w.Valid()
    ensures if back then w.st.streamer.Returned? && w.st.streamer.err.Some?
            else w.st.streamer == Selecting(ld, ed) && |w.st.sHand| <= 1 && (w.st.sHand != [] ==> ld == linesDone)
    ensures old(w.st.producer) != NotStarted ==> w.st.producer != NotStarted
  {
    back, ld, ed := false, linesDone, errsDone;
    var eager: bool, first: bool := *, *;
    if w.st.cancelled && eager {
      w.Act(StreamQuit);
      back := true;
    } else if !errsDone && (Ready(w.st.dockerErrs) || Drained(w.st.dockerErrs)) && first {
      if Drained(w.st.dockerErrs) {
        w.Act(SeeErrsClosed);
        ed := true;
      } else {
        w.Act(TakeErr);
        back := true;
      }
    } else if !linesDone && Drained(w.st.dockerLines) {
      w.Act(SeeLinesClosed);
      ld := true;
    } else if !linesDone && Ready(w.st.dockerLines) {
      w.Act(TakeLine);
    }
  }

  /**
   LogStreamer.Stream. `looks` bounds how often it looks at its channels: whether it
   returns depends on the container and on Handle. A failed lookup comes back as it is; any
   other error is that of the cancelled context or one that Docker or the scanner gave. If it
   returns none, none was given; having followed a container it has then passed everything
   on: all that the scanner got is with Handle or sent.
   */
  method Stream(w: Session, res: Lookup, looks: nat) returns (back: bool)
    requires w.Valid() && w.st.streamer == Starting
    modifies w
    ensures w.Valid() && (back ==> w.st.streamer.Returned?)
    ensures res.LookupFailed? ==> back && w.st.streamer.err == Some(res.err)
    ensures res == NoContainer ==> back && w.st.streamer.err == None
    ensures back && w.st.streamer.err.Some? ==>
      Cause(w.run, w.st.streamer.err.value) || (w.st.cancelled && w.st.streamer.err.value == "context canceled")
    ensures back && w.st.streamer.err.None? ==> PassedOn(w.st) && NoCause(w.run)
    ensures back && w.st.streamer.err.None? && !w.st.cancelled && res == Follow ==>
      && LossInv(w.st, w.container)
      && Sent(w.st.wire) + w.st.hHand + w.st.lines.buf == Scanned(w.st, w.container)
  {
    back := StreamLoop(w, res, looks);
    w.Holds();
    RunCaused(w.container, w.run);
    if back && w.st.streamer.err.None? { ReturnedWell(w.run, w.st); }
    if back && w.st.streamer.err.None? && !w.st.cancelled && res == Follow {
      AllPassedOn(w.st, Scanned(w.st, w.container));
    }
  }

  lemma AllPassedOn(s: Pipe, lines: seq<string>)
    requires Conserved(s, lines) && ProducerInv(s) && PassedOn(s) && !s.cancelled && s.producer != NotStarted
    ensures Sent(s.wire) + s.hHand + s.lines.buf == lines
  {
    assert s.sHand == [] && s.dockerLines.buf == [] && s.pHand == [] && s.unread == [];
    assert InFlight(s) == s.hHand + s.lines.buf;
    assert Sent(s.wire) + (s.hHand + s.lines.buf) == lines;
  }

  /** The inner select: pass the line on or see the cancellation. */
  method PassOn(w: Session, linesDone: bool, errsDone: bool) returns (back: bool)
    requires w.Valid() && w.st.streamer == Selecting(linesDone, errsDone) && |w.st.sHand| == 1
    modifies w
    ensures w.Valid() && |w.st.sHand| <= 1
    ensures if back then w.st.streamer.Returned? else w.st.streamer == Selecting(linesDone, errsDone)
    ensures old(w.st.producer) != NotStarted ==> w.st.producer != NotStarted
  {
    back := false;
    var eager: bool := *;
    if w.st.cancelled && eager {
      w.Act(StreamQuit);
      back := true;
    } else if |w.st.lines.buf| < LINE_CAP {
      w.Act(Forward);
    }
  }

  method StreamLoop(w: Session, res: Lookup, looks: nat) returns (back: bool)
    requires w.Valid() && w.st.streamer == Starting
    modifies w
    ensures w.Valid() && (back ==> w.st.streamer.Returned?)
    ensures match res
            case Follow => w.st.producer != NotStarted
            case NoContainer => back && w.st.streamer == Returned(None)
            case LookupFailed(err) => back && w.st.streamer == Returned(Some(err))
  {
    w.Holds();
    w.Act(Look(res));
    if res != Follow { return true; }
    var linesDone, errsDone := false, false;
    for i := 0 to looks
      invariant w.Valid() && w.st.streamer == Selecting(linesDone, errsDone) && |w.st.sHand| <= 1
      invariant w.st.producer != NotStarted
    {
      w.OthersMove();
      if w.st.sHand != [] {
        back := PassOn(w, linesDone, errsDone);
        if back { return; }
      } else if linesDone && errsDone {
        w.Act(Return);
        return true;
      } else {
        back, linesDone, errsDone := Select(w, linesDone, errsDone);
        if back { return; }
      }
    }
    back := false;
  }
}

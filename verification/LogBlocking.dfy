/**
 What becomes of Stream and LogsFollow once a send has failed and Handle has returned.
 Nobody reads the line channel any more, and the context is the daemon's: it does not end
 with the connection (internal/daemon/server.go:96).
 */
module LogBlocking {
  import opened Basics
  import opened LogPipeline
  import opened LogTheorems

  /** Nothing can move unless the context ends; a break of the Docker stream moves nobody. */
  ghost predicate Still(s: Pipe) {
    forall a :: Enabled(s, a) ==> a == Cancel || a.Break?
  }

  /** Both goroutines are over. */
  predicate AtRest(s: Pipe) {
    s.streamer.Over? && (s.producer == NotStarted || s.producer == Finished)
  }

  /** Stream has a line for a channel that is full, and so has LogsFollow unless it is through. */
  predicate Blocked(s: Pipe) {
    && s.streamer.Selecting? && s.sHand != [] && |s.lines.buf| == LINE_CAP
    && (s.producer == Finished || (s.producer == Scanning && s.pHand != [] && |s.dockerLines.buf| == LINE_CAP))
  }

  /** While the context lives, Stream returns an error only if it found no agent or LogsFollow met the error. */
  ghost predicate LeftForCause(s: Pipe) {
    Left(s.streamer) && s.streamer.err.Some? && !s.cancelled ==> s.producer == NotStarted || s.failed
  }

  lemma StepKeepsCause(s: Pipe, a: Action)
    requires Enabled(s, a) && LeftForCause(s) && ProducerInv(s) && StreamerInv(s)
    ensures LeftForCause(Apply(s, a))
  {
    if ProducerEnabled(s, a) {
      ProducerKeepsCause(s, a);
    } else if StreamerEnabled(s, a) {
      StreamerKeepsCause(s, a);
    }
  }

  lemma ProducerKeepsCause(s: Pipe, a: Action)
    requires ProducerEnabled(s, a) && LeftForCause(s)
    ensures LeftForCause(ApplyProducer(s, a))
  {
  }

  lemma StreamerKeepsCause(s: Pipe, a: Action)
    requires StreamerEnabled(s, a) && LeftForCause(s) && ProducerInv(s) && StreamerInv(s)
    ensures LeftForCause(ApplyStreamer(s, a))
  {
  }

  lemma {:induction false} RunKeepsCause(container: seq<string>, acts: seq<Action>)
    requires Legal(Begin(container), acts)
    ensures LeftForCause(Reached(container, acts))
    decreases |acts|
  {
    if acts != [] {
      var most := acts[..|acts| - 1];
      RunKeepsCause(container, most);
      BeginHolds(container);
      RunKeeps(Begin(container), most, container);
      StepKeepsCause(Reached(container, most), acts[|acts| - 1]);
    }
  }

  // ---------- when nothing moves ----------

  lemma RestIsStill(s: Pipe)
    requires s.handler.Stopped? && !s.cancelled && (AtRest(s) || Blocked(s))
    ensures Still(s)
  {
  }

  /** A move of Stream's goroutine or of LogsFollow, where Stream is not in its select. */
  lemma LeavingMoves(s: Pipe) returns (a: Action)
    requires ProducerInv(s) && StreamerInv(s) && LeftForCause(s) && !s.cancelled
    requires !s.streamer.Selecting? && !AtRest(s)
    ensures Enabled(s, a) && a != Cancel && !a.Break?
  {
    match s.streamer
    case Starting => a := Look(NoContainer);
    case Returned(_) => a := Report;
    case ClosingErrCh(_) => a := CloseErrCh;
    case ClosingOut(_) => a := CloseOut;
    case Over(_) =>
      a := if s.producer.Failing? then PushErr else if s.producer == ClosingErrs then CloseErrs else CloseLines;
  }

  /** Likewise where it has a line in hand that the channel does not take. */
  lemma FullMoves(s: Pipe) returns (a: Action)
    requires ProducerInv(s) && StreamerInv(s) && s.streamer.Selecting? && s.sHand != []
    requires !Blocked(s)
    ensures Enabled(s, a) && a != Cancel && !a.Break?
  {
    if |s.lines.buf| < LINE_CAP {
      a := Forward;
    } else {
      match s.producer
      case Opening => a := Open(None);
      case Scanning => a := if s.pHand != [] then Push else if s.unread != [] then Scan else ScanEnd(None);
      case Failing(_) => a := PushErr;
      case ClosingErrs => a := CloseErrs;
      case ClosingLines => a := CloseLines;
    }
  }

  /** And where it looks at its channels. */
  lemma LookingMoves(s: Pipe) returns (a: Action)
    requires ProducerInv(s) && StreamerInv(s) && s.streamer.Selecting? && s.sHand == []
    ensures Enabled(s, a) && a != Cancel && !a.Break?
  {
    var linesDone, errsDone := s.streamer.linesDone, s.streamer.errsDone;
    if linesDone && errsDone {
      a := Return;
    } else if !linesDone && Ready(s.dockerLines) {
      a := TakeLine;
    } else if !linesDone && Drained(s.dockerLines) {
      a := SeeLinesClosed;
    } else if !errsDone && Ready(s.dockerErrs) {
      a := TakeErr;
    } else if !errsDone && Drained(s.dockerErrs) {
      a := SeeErrsClosed;
    } else {
      a := ProducerMove(s);
    }
  }

  /**
   After Handle has returned and while the context lives, nothing can move exactly if both
   goroutines are over or Stream is blocked on the channel that nobody reads.
   */
  lemma StillIff(container: seq<string>, acts: seq<Action>)
    requires Legal(Begin(container), acts)
    requires Reached(container, acts).handler.Stopped? && !Reached(container, acts).cancelled
    ensures var s := Reached(container, acts);
            Still(s) <==> AtRest(s) || Blocked(s)
  {
    BeginHolds(container);
    RunKeeps(Begin(container), acts, container);
    RunKeepsCause(container, acts);
    var s := Reached(container, acts);
    if AtRest(s) || Blocked(s) {
      RestIsStill(s);
    } else {
      var a;
      if !s.streamer.Selecting? {
        a := LeavingMoves(s);
      } else if s.sHand != [] {
        a := FullMoves(s);
      } else {
        a := LookingMoves(s);
      }
      assert Enabled(s, a);
    }
  }

  // ---------- how it comes to that ----------

  /** A container is followed without errors, the context lives, and Handle could not send a line. */
  ghost predicate Abandoned(s: Pipe) {
    && !s.cancelled && !s.failed && s.producer != NotStarted && s.streamer != Starting
    && (Left(s.streamer) ==> s.streamer.err.None?)
    && s.handler == Stopped(SendFailed)
  }

  /**
   When nothing moves any more, Stream is blocked exactly if more lines were left to it than
   the channel holds: those the scanner got, but for the ones sent and the one in Handle's hand.
   */
  lemma BlockedIff(container: seq<string>, acts: seq<Action>)
    requires Legal(Begin(container), acts) && Abandoned(Reached(container, acts)) && Still(Reached(container, acts))
    ensures var s := Reached(container, acts);
            && LossInv(s, container)
            && (Blocked(s) <==> |Scanned(s, container)| - |Sent(s.wire)| - |s.hHand| > 128)
  {
    BeginHolds(container);
    RunKeeps(Begin(container), acts, container);
    StillIff(container, acts);
    var s := Reached(container, acts);
    assert |Scanned(s, container)|
           == |Sent(s.wire)| + |s.hHand| + |s.lines.buf| + |s.sHand| + |s.dockerLines.buf| + |s.pHand| + |s.unread|;
    if AtRest(s) {
      assert PassedOn(s);
    }
  }

  /** Steps without errors, breaks and cancellation. */
  predicate Calm(a: Action) {
    && a != Cancel && !a.Break? && !a.Look?
    && (a.Open? || a.ScanEnd? ==> a.err.None?)
  }

  lemma CalmStep(s: Pipe, a: Action)
    requires Enabled(s, a) && Calm(a) && Abandoned(s) && ProducerInv(s)
    ensures Abandoned(Apply(s, a)) && SameEnd(s, Apply(s, a))
  {
    if ProducerEnabled(s, a) {
      CalmProducer(s, a);
    } else {
      CalmStreamer(s, a);
    }
  }

  /** Handle is where it was, and nothing more is lost. */
  ghost predicate SameEnd(s: Pipe, t: Pipe) {
    t.handler == s.handler && t.hHand == s.hHand && t.wire == s.wire && t.lost == s.lost && t.torn == s.torn
  }

  lemma CalmProducer(s: Pipe, a: Action)
    requires ProducerEnabled(s, a) && Calm(a) && Abandoned(s) && ProducerInv(s)
    ensures Abandoned(ApplyProducer(s, a)) && SameEnd(s, ApplyProducer(s, a))
  {
  }

  lemma CalmStreamer(s: Pipe, a: Action)
    requires StreamerEnabled(s, a) && Calm(a) && Abandoned(s) && ProducerInv(s)
    ensures Abandoned(ApplyStreamer(s, a)) && SameEnd(s, ApplyStreamer(s, a))
  {
  }

  /** Where no calm step is possible, nothing moves. */
  lemma CalmIsStill(s: Pipe)
    requires Abandoned(s) && forall a :: Enabled(s, a) ==> !Calm(a)
    ensures Still(s)
  {
    forall a | Enabled(s, a) ensures a == Cancel || a.Break? {
      if a.Open? {
        assert Enabled(s, Open(None)) && Calm(Open(None));
      } else if a.ScanEnd? {
        var b := if s.unread != [] then Scan else ScanEnd(None);
        assert Enabled(s, b) && Calm(b);
      }
    }
  }

  /** From there the goroutines go on until nothing moves. */
  lemma RunsDry(container: seq<string>, acts: seq<Action>) returns (more: seq<Action>)
    requires Legal(Begin(container), acts) && Abandoned(Reached(container, acts))
    ensures Legal(Begin(container), more)
    ensures var s, t := Reached(container, acts), Reached(container, more);
            Abandoned(t) && Still(t) && SameEnd(s, t)
    decreases Measure(Reached(container, acts))
  {
    var s := Reached(container, acts);
    BeginHolds(container);
    RunKeeps(Begin(container), acts, container);
    if a :| Enabled(s, a) && Calm(a) {
      CalmStep(s, a);
      StepsLowerMeasure(s, a);
      more := Then(Begin(container), acts, a);
      more := RunsDry(container, more);
    } else {
      more := acts;
      CalmIsStill(s);
    }
  }

  /**
   A client that goes away before its first line: with two lines more than the channel
   holds there is a run that leaves Stream blocked until the daemon's context ends.
   */
  lemma StreamStaysBlocked(container: seq<string>) returns (acts: seq<Action>)
    requires |container| >= 130
    ensures Legal(Begin(container), acts)
    ensures var s := Reached(container, acts);
            Blocked(s) && Still(s) && s.handler == Stopped(SendFailed) && !s.cancelled
  {
    acts := FirstSendFails(container);
    var s := Reached(container, acts);
    acts := RunsDry(container, acts);
    BlockedIff(container, acts);
  }

  lemma FirstSendFails(container: seq<string>) returns (acts: seq<Action>)
    requires container != []
    ensures Legal(Begin(container), acts)
    ensures var s := Reached(container, acts);
            Abandoned(s) && s.lost == [] == s.torn && s.wire == [] && s.hHand == [container[0]]
  {
    acts := FollowBegins(container);
    acts := OneLineForwarded(container, acts, Reached(container, acts));
    acts := FirstLineIsLost(container, acts, Reached(container, acts));
  }

  lemma FirstLineIsLost(container: seq<string>, acts: seq<Action>, s: Pipe) returns (more: seq<Action>)
    requires Legal(Begin(container), acts) && Reached(container, acts) == s
    requires s.handler == Waiting(false, false) && s.hHand == [] && s.lines.buf != []
    ensures Legal(Begin(container), more)
    ensures Reached(container, more)
            == s.(lines := Pop(s.lines), hHand := [s.lines.buf[0]], handler := Stopped(SendFailed))
  {
    more := Then(Begin(container), acts, Receive);
    more := Then(Begin(container), more, SendLine(false));
  }
}

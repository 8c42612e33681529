/**
 What a log stream delivers and how it ends, for every schedule of its goroutines.
 */
module LogTheorems {
  import opened Basics
  import opened LogPipeline
  import opened LogCauses

  function Reached(container: seq<string>, acts: seq<Action>): Pipe
    requires Legal(Begin(container), acts)
  {
    After(Begin(container), acts)
  }

  /**
   Conservation: in every reachable state the lines sent, those in the hands and channels
   on the way, and those still unread are together exactly the lines the scanner gets:
   those of the container, or after a break those before it and what is left of one more.
   */
  lemma LinesAreConserved(container: seq<string>, acts: seq<Action>)
    requires Legal(Begin(container), acts)
    ensures var s := Reached(container, acts);
            && LossInv(s, container)
            && Sent(s.wire) + InFlight(s) + s.unread == Scanned(s, container)
            && Sent(s.wire) <= Scanned(s, container)
            && |s.lines.buf| <= 128 && |s.dockerLines.buf| <= 128
  {
    BeginHolds(container);
    RunKeeps(Begin(container), acts, container);
    SentIsPrefix(Reached(container, acts), Scanned(Reached(container, acts), container));
  }

  lemma SentIsPrefix(s: Pipe, lines: seq<string>)
    requires Conserved(s, lines)
    ensures Sent(s.wire) <= lines
  {
    assert lines == Sent(s.wire) + (InFlight(s) + s.unread);
  }

  /**
   So the client has seen a prefix of the container's lines, in order and without
   repetition, exactly unless it was sent a line that a break tore.
   */
  lemma PrefixUnlessTorn(container: seq<string>, acts: seq<Action>)
    requires Legal(Begin(container), acts)
    ensures var s := Reached(container, acts);
            && LossInv(s, container)
            && (Sent(s.wire) <= container <==> s.torn <= s.lost || Sent(s.wire) != Scanned(s, container))
  {
    LinesAreConserved(container, acts);
    var s := Reached(container, acts);
    TornPrefix(s, container, Sent(s.wire));
  }

  lemma TornPrefix(s: Pipe, container: seq<string>, sent: seq<string>)
    requires LossInv(s, container) && sent <= Scanned(s, container)
    ensures sent <= container <==> s.torn <= s.lost || sent != Scanned(s, container)
  {
    var k := |container| - |s.lost|;
    assert container == container[..k] + s.lost;
    if s.torn != [] {
      assert Scanned(s, container)[k] == s.torn[0] && container[k] == s.lost[0];
      assert s.torn == [s.torn[0]];
    }
  }

  /** The scanner gets the whole log exactly if a break cost nothing but the end of the last line's line break. */
  lemma WholeIff(s: Pipe, container: seq<string>)
    requires LossInv(s, container)
    ensures Scanned(s, container) == container <==> s.lost == s.torn
  {
    var k := |container| - |s.lost|;
    assert container == container[..k] + s.lost;
    if Scanned(s, container) == container {
      assert s.torn == Scanned(s, container)[k..] && s.lost == container[k..];
    }
  }

  ghost predicate OnlyLines(wire: seq<Note>) {
    forall i :: 0 <= i < |wire| ==> wire[i].Line?
  }

  ghost predicate EndsOnce(s: Pipe) {
    if s.handler == Stopped(SentDone) || s.handler == Stopped(SentError) then
      && |s.wire| > 0 && OnlyLines(s.wire[..|s.wire| - 1])
      && (if s.handler.how == SentDone then s.wire[|s.wire| - 1] == DoneNote else s.wire[|s.wire| - 1].ErrorNote?)
    else OnlyLines(s.wire)
  }

  lemma WireEndsOnce(s: Pipe)
    requires HandlerInv(s)
    ensures EndsOnce(s)
  {
  }

  /** At most one terminal note, and nothing after it. */
  lemma TerminalNoteIsLast(container: seq<string>, acts: seq<Action>)
    requires Legal(Begin(container), acts)
    ensures EndsOnce(Reached(container, acts))
  {
    BeginHolds(container);
    RunKeeps(Begin(container), acts, container);
    WireEndsOnce(Reached(container, acts));
  }

  /** Until Stream has found a container to follow, nothing of it is read. */
  lemma {:induction false} UnreadUntilStarted(container: seq<string>, acts: seq<Action>)
    requires Legal(Begin(container), acts)
    ensures var s := Reached(container, acts); s.producer == NotStarted ==> s.unread == container && s.lost == []
    decreases |acts|
  {
    if acts != [] {
      UnreadUntilStarted(container, acts[..|acts| - 1]);
      StartIsForGood(Reached(container, acts[..|acts| - 1]), acts[|acts| - 1]);
    }
  }

  lemma StartIsForGood(s: Pipe, a: Action)
    requires Enabled(s, a)
    ensures Apply(s, a).producer == NotStarted ==>
      s.producer == NotStarted && Apply(s, a).unread == s.unread && Apply(s, a).lost == s.lost
  {
    if ProducerEnabled(s, a) {
      assert s.producer != NotStarted && ApplyProducer(s, a).producer != NotStarted;
    } else if StreamerEnabled(s, a) {
      StreamerLeavesUnread(s, a);
    }
  }

  lemma StreamerLeavesUnread(s: Pipe, a: Action)
    requires StreamerEnabled(s, a)
    ensures ApplyStreamer(s, a).unread == s.unread && ApplyStreamer(s, a).lost == s.lost
    ensures ApplyStreamer(s, a).producer == s.producer || ApplyStreamer(s, a).producer == Opening
  {
  }

  /**
   While the context lives, agent.log.done means that no error was met, and that every line
   was sent, exactly when Stream still found a container when it looked again and its stream
   broke off nowhere before the end, or there was nothing to send.
   */
  lemma DoneMeansEverything(container: seq<string>, acts: seq<Action>)
    requires Legal(Begin(container), acts)
    ensures var s := Reached(container, acts);
            DoneNote in s.wire && !s.cancelled ==>
              && NoCause(acts)
              && (Sent(s.wire) == container <==>
                    (Look(NoContainer) !in acts && s.lost == s.torn) || container == [])
  {
    BeginHolds(container);
    RunKeeps(Begin(container), acts, container);
    var s := Reached(container, acts);
    WholeIff(s, container);
    if DoneNote in s.wire && !s.cancelled {
      DoneMeansWhatCame(container, acts);
      UnreadUntilStarted(container, acts);
      DoneHasNoCause(container, acts);
    }
  }

  /** What done stands for while the context lives, by what Stream found when it looked again. */
  lemma DoneMeansWhatCame(container: seq<string>, acts: seq<Action>)
    requires Legal(Begin(container), acts)
    requires DoneNote in Reached(container, acts).wire && !Reached(container, acts).cancelled
    ensures var s := Reached(container, acts);
            && NoCause(acts) && LossInv(s, container)
            && Sent(s.wire) == if Look(NoContainer) in acts then [] else Scanned(s, container)
  {
    BeginHolds(container);
    RunKeeps(Begin(container), acts, container);
    UnreadUntilStarted(container, acts);
    DoneHasNoCause(container, acts);
    var s := Reached(container, acts);
    if s.producer == NotStarted {
      NothingSent(s, container);
    } else {
      DoneMeansScanned(s, Scanned(s, container));
    }
  }

  /** Having followed a container, done means that everything the scanner got was sent. */
  lemma DoneMeansScanned(s: Pipe, lines: seq<string>)
    requires Conserved(s, lines) && ProducerInv(s) && StreamerInv(s) && HandlerInv(s)
    requires DoneNote in s.wire && !s.cancelled && s.producer != NotStarted
    ensures Sent(s.wire) == lines
  {
    DoneIsSaidAtTheEnd(s);
    NothingLeft(s);
    assert Sent(s.wire) + [] + [] == lines;
  }

  lemma NothingSent(s: Pipe, container: seq<string>)
    requires LossInv(s, container) && Conserved(s, Scanned(s, container)) && s.unread == container && s.lost == []
    ensures Sent(s.wire) == []
  {
    assert |Scanned(s, container)| == |Sent(s.wire) + InFlight(s)| + |s.unread|;
  }

  /** What has not come to Handle yet, nearest to it first. */
  function Upstream(s: Pipe): seq<string> {
    s.sHand + s.dockerLines.buf + s.pHand + s.unread
  }

  /**
   Cancelled or not, when done is said the rest of what the scanner gets is upstream of
   Handle; so every line was sent exactly when nothing is left there and no break cost
   anything.
   */
  lemma DoneLeavesTheRest(container: seq<string>, acts: seq<Action>)
    requires Legal(Begin(container), acts) && DoneNote in Reached(container, acts).wire
    ensures var s := Reached(container, acts);
            && LossInv(s, container)
            && Sent(s.wire) + Upstream(s) == Scanned(s, container)
            && (Sent(s.wire) == container <==> Upstream(s) == [] && s.lost == s.torn)
  {
    BeginHolds(container);
    RunKeeps(Begin(container), acts, container);
    var s := Reached(container, acts);
    DoneIsSaidAtTheEnd(s);
    RestIsUpstream(s, Scanned(s, container));
    WholeIff(s, container);
    assert |Scanned(s, container)| == |Sent(s.wire)| + |Upstream(s)|;
    assert |Scanned(s, container)| <= |container|;
    assert Upstream(s) == [] ==> Sent(s.wire) + Upstream(s) == Sent(s.wire);
  }

  lemma RestIsUpstream(s: Pipe, lines: seq<string>)
    requires Conserved(s, lines) && s.hHand == [] && s.lines.buf == []
    ensures Sent(s.wire) + Upstream(s) == lines
  {
    assert InFlight(s) + s.unread == Upstream(s);
    Associates(Sent(s.wire), InFlight(s), s.unread);
  }

  /** The container may be gone when Stream looks again: the client is told done after no line. */
  lemma MissingContainerIsDone(container: seq<string>) returns (acts: seq<Action>)
    ensures Legal(Begin(container), acts)
    ensures var s := Reached(container, acts);
            DoneNote in s.wire && !s.cancelled && Look(NoContainer) in acts && Sent(s.wire) == []
  {
    acts := ClosedWithoutLines(container);
    acts := Then(Begin(container), acts, SendDone(true));
    SentOneMore([], DoneNote);
    DoneHasNoCause(container, acts);
  }

  lemma ClosedWithoutLines(container: seq<string>) returns (acts: seq<Action>)
    ensures Legal(Begin(container), acts)
    ensures After(Begin(container), acts)
            == Begin(container).(streamer := Over(None), errCh := Chan([], true), lines := Chan([], true),
                                handler := Waiting(true, true))
  {
    acts := NothingToFollow(container);
    acts := HandleSeesBoth(container, acts, After(Begin(container), acts));
  }

  lemma NothingToFollow(container: seq<string>) returns (acts: seq<Action>)
    ensures Legal(Begin(container), acts)
    ensures After(Begin(container), acts)
            == Begin(container).(streamer := Over(None), errCh := Chan([], true), lines := Chan([], true))
  {
    var b := Begin(container);
    acts := [];
    acts := Then(b, acts, Look(NoContainer));
    acts := Then(b, acts, Report);
    acts := StreamCloses(container, acts, b.(streamer := ClosingErrCh(None)));
  }

  /** The goroutine around Stream closes its two channels. */
  lemma StreamCloses(container: seq<string>, acts: seq<Action>, s: Pipe) returns (more: seq<Action>)
    requires Legal(Begin(container), acts) && After(Begin(container), acts) == s && s.streamer.ClosingErrCh?
    ensures Legal(Begin(container), more)
    ensures After(Begin(container), more)
            == s.(streamer := Over(s.streamer.err), errCh := Close(s.errCh), lines := Close(s.lines))
  {
    more := Then(Begin(container), acts, CloseErrCh);
    more := Then(Begin(container), more, CloseOut);
  }

  /** Handle sees both of them closed. */
  lemma HandleSeesBoth(container: seq<string>, acts: seq<Action>, s: Pipe) returns (more: seq<Action>)
    requires Legal(Begin(container), acts) && After(Begin(container), acts) == s
    requires s.handler == Waiting(false, false) && s.hHand == [] && Drained(s.errCh) && Drained(s.lines)
    ensures Legal(Begin(container), more)
    ensures After(Begin(container), more) == s.(handler := Waiting(true, true))
  {
    more := Then(Begin(container), acts, SeeErrChClosed);
    more := Then(Begin(container), more, SeeOutClosed);
  }

  /**
   The Docker stream may break, anywhere in its first line: the client is told done after
   what there was of that line, and of the lines after it none.
   */
  lemma BrokenStreamIsDone(container: seq<string>, cut: string) returns (acts: seq<Action>)
    requires container != [] && cut <= container[0]
    ensures Legal(Begin(container), acts)
    ensures var s := Reached(container, acts);
            && DoneNote in s.wire && !s.cancelled && s.producer == Finished
            && s.lost == container && Sent(s.wire) == s.torn == Fragment(cut)
  {
    acts := FollowBegins(container);
    acts := Then(Begin(container), acts, Break(cut));
    if cut != "" {
      acts := OneLineThrough(container, acts, Reached(container, acts));
      SentOneMore([], Line(cut));
    }
    var s := Reached(container, acts);
    acts := WindsUp(container, acts, s);
    SentOneMore(s.wire, DoneNote);
  }

  lemma FollowBegins(container: seq<string>) returns (acts: seq<Action>)
    ensures Legal(Begin(container), acts)
    ensures Reached(container, acts) == Begin(container).(producer := Scanning, streamer := Selecting(false, false))
  {
    acts := Then(Begin(container), [], Look(Follow));
    acts := Then(Begin(container), acts, Open(None));
  }

  /** The goroutines are at work and nothing is on its way. */
  ghost predicate Flowing(s: Pipe) {
    && s.producer == Scanning && s.streamer == Selecting(false, false) && s.handler == Waiting(false, false)
    && InFlight(s) == [] && s.dockerErrs == Chan([], false) && s.errCh == Chan([], false)
    && !s.dockerLines.closed && !s.lines.closed
  }

  /** The next line goes all the way to the client. */
  lemma OneLineThrough(container: seq<string>, acts: seq<Action>, s: Pipe) returns (more: seq<Action>)
    requires Legal(Begin(container), acts) && After(Begin(container), acts) == s && Flowing(s) && s.unread != []
    ensures Legal(Begin(container), more)
    ensures After(Begin(container), more) == s.(unread := s.unread[1..], wire := s.wire + [Line(s.unread[0])])
  {
    more := OneLineForwarded(container, acts, s);
    more := OneLineReceived(container, more, After(Begin(container), more), s.lines);
    more := Then(Begin(container), more, SendLine(true));
  }

  lemma OneLineReceived(container: seq<string>, acts: seq<Action>, s: Pipe, before: Chan<string>)
    returns (more: seq<Action>)
    requires Legal(Begin(container), acts) && After(Begin(container), acts) == s
    requires s.handler == Waiting(false, false) && s.hHand == [] && |s.lines.buf| == 1
    requires before == s.lines.(buf := [])
    ensures Legal(Begin(container), more)
    ensures After(Begin(container), more) == s.(lines := before, hHand := [s.lines.buf[0]])
  {
    more := Then(Begin(container), acts, Receive);
    assert Pop(s.lines) == before;
  }

  lemma OneLineForwarded(container: seq<string>, acts: seq<Action>, s: Pipe) returns (more: seq<Action>)
    requires Legal(Begin(container), acts) && After(Begin(container), acts) == s && Flowing(s) && s.unread != []
    ensures Legal(Begin(container), more)
    ensures After(Begin(container), more)
            == s.(unread := s.unread[1..], lines := Put(s.lines, s.unread[0]))
  {
    more := OneLinePushed(container, acts, s);
    var t := s.(unread := s.unread[1..], dockerLines := Put(s.dockerLines, s.unread[0]));
    more := Then(Begin(container), more, TakeLine);
    assert Pop(t.dockerLines) == s.dockerLines;
    more := Then(Begin(container), more, Forward);
  }

  lemma OneLinePushed(container: seq<string>, acts: seq<Action>, s: Pipe) returns (more: seq<Action>)
    requires Legal(Begin(container), acts) && After(Begin(container), acts) == s && Flowing(s) && s.unread != []
    ensures Legal(Begin(container), more)
    ensures After(Begin(container), more)
            == s.(unread := s.unread[1..], dockerLines := Put(s.dockerLines, s.unread[0]))
  {
    more := Then(Begin(container), acts, Scan);
    more := Then(Begin(container), more, Push);
  }

  /** With nothing left to scan, everything closes and done is said. */
  lemma WindsUp(container: seq<string>, acts: seq<Action>, s: Pipe) returns (more: seq<Action>)
    requires Legal(Begin(container), acts) && After(Begin(container), acts) == s && Flowing(s) && s.unread == []
    ensures Legal(Begin(container), more)
    ensures var t := After(Begin(container), more);
            && t.wire == s.wire + [DoneNote] && t.cancelled == s.cancelled && t.producer == Finished
            && t.lost == s.lost && t.torn == s.torn
  {
    more := ProducerCloses(container, acts, s);
    more := StreamReturns(container, more, After(Begin(container), more));
    more := StreamCloses(container, more, After(Begin(container), more));
    more := HandleSeesBoth(container, more, After(Begin(container), more));
    more := Then(Begin(container), more, SendDone(true));
  }

  lemma ProducerCloses(container: seq<string>, acts: seq<Action>, s: Pipe) returns (more: seq<Action>)
    requires Legal(Begin(container), acts) && After(Begin(container), acts) == s && Flowing(s) && s.unread == []
    ensures Legal(Begin(container), more)
    ensures After(Begin(container), more)
            == s.(producer := Finished, dockerErrs := Chan([], true), dockerLines := Close(s.dockerLines))
  {
    more := Then(Begin(container), acts, ScanEnd(None));
    more := Then(Begin(container), more, CloseErrs);
    more := Then(Begin(container), more, CloseLines);
  }

  lemma StreamReturns(container: seq<string>, acts: seq<Action>, s: Pipe) returns (more: seq<Action>)
    requires Legal(Begin(container), acts) && After(Begin(container), acts) == s
    requires s.streamer == Selecting(false, false) && s.sHand == [] && Drained(s.dockerErrs) && Drained(s.dockerLines)
    requires s.errCh.buf == []
    ensures Legal(Begin(container), more)
    ensures After(Begin(container), more) == s.(streamer := ClosingErrCh(None))
  {
    more := Then(Begin(container), acts, SeeErrsClosed);
    more := Then(Begin(container), more, SeeLinesClosed);
    more := StreamIsThrough(container, more, After(Begin(container), more));
  }

  lemma StreamIsThrough(container: seq<string>, acts: seq<Action>, s: Pipe) returns (more: seq<Action>)
    requires Legal(Begin(container), acts) && After(Begin(container), acts) == s
    requires s.streamer == Selecting(true, true) && s.sHand == [] && s.errCh.buf == []
    ensures Legal(Begin(container), more)
    ensures After(Begin(container), more) == s.(streamer := ClosingErrCh(None))
  {
    more := Then(Begin(container), acts, Return);
    more := Then(Begin(container), more, Report);
  }

  lemma DoneIsSaidAtTheEnd(s: Pipe)
    requires HandlerInv(s) && DoneNote in s.wire
    ensures s.handler == Stopped(SentDone)
  {
    WireEndsOnce(s);
    var i :| 0 <= i < |s.wire| && s.wire[i] == DoneNote;
    if i < |s.wire| - 1 { assert s.wire[..|s.wire| - 1][i] == s.wire[i]; }
  }

  lemma NothingLeft(s: Pipe)
    requires ProducerInv(s) && StreamerInv(s) && HandlerInv(s)
    requires s.handler == Stopped(SentDone) && !s.cancelled && s.producer != NotStarted
    ensures InFlight(s) == [] && s.unread == []
  {
    assert s.streamer.Over? && s.streamer.err.None?;
  }

  // ---------- schedules ----------

  lemma {:induction false} OneMore(s: Pipe, acts: seq<Action>, a: Action)
    requires Legal(s, acts) && Enabled(After(s, acts), a)
    ensures Legal(s, acts + [a]) && After(s, acts + [a]) == Apply(After(s, acts), a)
  {
    assert (acts + [a])[..|acts|] == acts;
  }

  /**
   The premise about the context is needed: the error of a cancelled Stream is
   suppressed, so Handle may see both channels closed before it sees the cancellation and
   announce the end of a log of which it has sent nothing.
   */
  lemma CancelledDoneIsEarly(container: seq<string>) returns (acts: seq<Action>)
    ensures Legal(Begin(container), acts)
    ensures var s := Reached(container, acts);
            DoneNote in s.wire && s.producer != NotStarted && s.cancelled && Sent(s.wire) == []
  {
    acts := BothChannelsClose(container);
    acts := Then(Begin(container), acts, SendDone(true));
    SentOneMore([], DoneNote);
  }

  lemma BothChannelsClose(container: seq<string>) returns (acts: seq<Action>)
    ensures Legal(Begin(container), acts)
    ensures After(Begin(container), acts)
            == Begin(container).(cancelled := true, producer := Opening, streamer := Over(Some(CANCELED)),
                                errCh := Chan([], true), lines := Chan([], true), handler := Waiting(true, true))
  {
    acts := StreamIsCancelled(container);
    acts := StreamCloses(container, acts, After(Begin(container), acts));
    acts := HandleSeesBoth(container, acts, After(Begin(container), acts));
  }

  lemma StreamIsCancelled(container: seq<string>) returns (acts: seq<Action>)
    ensures Legal(Begin(container), acts)
    ensures After(Begin(container), acts)
            == Begin(container).(cancelled := true, producer := Opening, streamer := ClosingErrCh(Some(CANCELED)))
  {
    acts := CancelledInSelect(container);
    acts := Then(Begin(container), acts, StreamQuit);
    acts := Then(Begin(container), acts, Report);
  }

  lemma CancelledInSelect(container: seq<string>) returns (acts: seq<Action>)
    ensures Legal(Begin(container), acts)
    ensures After(Begin(container), acts)
            == Begin(container).(cancelled := true, producer := Opening, streamer := Selecting(false, false))
  {
    acts := Then(Begin(container), [], Look(Follow));
    acts := Then(Begin(container), acts, Cancel);
  }

  lemma Then(s: Pipe, acts: seq<Action>, a: Action) returns (more: seq<Action>)
    requires Legal(s, acts) && Enabled(After(s, acts), a)
    ensures Legal(s, more) && After(s, more) == Apply(After(s, acts), a)
  {
    more := acts + [a];
    OneMore(s, acts, a);
  }

  // ---------- every schedule ends ----------

  function Flag(b: bool): nat { if b then 1 else 0 }

  function ProducerRank(p: Producer): nat {
    match p
    case NotStarted => 7
    case Opening => 6
    case Scanning => 5
    case Failing(_) => 4
    case ClosingErrs => 3
    case ClosingLines => 2
    case Finished => 0
  }

  function StreamerRank(t: Streamer): int {
    match t
    case Starting => 7
    case Selecting(linesDone, errsDone) => 6 - Flag(linesDone) - Flag(errsDone)
    case Returned(_) => 3
    case ClosingErrCh(_) => 2
    case ClosingOut(_) => 1
    case Over(_) => 0
  }

  function HandlerRank(h: Handler): int {
    match h
    case Waiting(linesDone, errDone) => 3 - Flag(linesDone) - Flag(errDone)
    case Stopped(_) => 0
  }

  /** Each line counts for the places it has still to pass. */
  function Measure(s: Pipe): (m: int)
    ensures 0 <= m
  {
    6 * |s.unread| + 5 * |s.pHand| + 4 * |s.dockerLines.buf| + 3 * |s.sHand| + 2 * |s.lines.buf| + |s.hHand|
      + ProducerRank(s.producer) + StreamerRank(s.streamer) + HandlerRank(s.handler) + Flag(s.lost == [])
  }

  /** Every step but a cancellation lowers the measure. */
  lemma StepsLowerMeasure(s: Pipe, a: Action)
    requires StreamerInv(s) && Enabled(s, a) && a != Cancel
    ensures Measure(Apply(s, a)) < Measure(s)
  {
    if ProducerEnabled(s, a) { ProducerLowers(s, a); }
    else if StreamerEnabled(s, a) { StreamerLowers(s, a); }
    else { HandlerLowers(s, a); }
  }

  lemma ProducerLowers(s: Pipe, a: Action)
    requires ProducerEnabled(s, a)
    ensures Measure(ApplyProducer(s, a)) < Measure(s)
  {
    if a.Scan? || a.Push? || a.Break? {
      ReadingLowers(s, a);
    } else {
      ClosingLowers(s, a);
    }
  }

  lemma ReadingLowers(s: Pipe, a: Action)
    requires ProducerEnabled(s, a) && (a.Scan? || a.Push? || a.Break?)
    ensures Measure(ApplyProducer(s, a)) < Measure(s)
  {
  }

  lemma ClosingLowers(s: Pipe, a: Action)
    requires ProducerEnabled(s, a) && !a.Scan? && !a.Push? && !a.Break?
    ensures Measure(ApplyProducer(s, a)) < Measure(s)
  {
  }

  lemma StreamerLowers(s: Pipe, a: Action)
    requires StreamerInv(s) && StreamerEnabled(s, a)
    ensures Measure(ApplyStreamer(s, a)) < Measure(s)
  {
  }

  lemma HandlerLowers(s: Pipe, a: Action)
    requires HandlerEnabled(s, a)
    ensures Measure(ApplyHandler(s, a)) < Measure(s)
  {
    if a.Receive? {
      ReceiveLowers(s);
    } else if a.SendLine? {
      SendLineLowers(s, a);
    } else {
      EndingLowers(s, a);
    }
  }

  lemma ReceiveLowers(s: Pipe)
    requires HandlerEnabled(s, Receive)
    ensures Measure(ApplyHandler(s, Receive)) < Measure(s)
  {
    var t := ApplyHandler(s, Receive);
    assert |t.lines.buf| == |s.lines.buf| - 1 && |t.hHand| == 1 && s.hHand == [];
  }

  lemma SendLineLowers(s: Pipe, a: Action)
    requires HandlerEnabled(s, a) && a.SendLine?
    ensures Measure(ApplyHandler(s, a)) < Measure(s)
  {
    var t := ApplyHandler(s, a);
    assert t.lines == s.lines && |t.hHand| <= |s.hHand|;
  }

  lemma EndingLowers(s: Pipe, a: Action)
    requires HandlerEnabled(s, a) && !a.Receive? && !a.SendLine?
    ensures Measure(ApplyHandler(s, a)) < Measure(s)
  {
    EndingMovesHandle(s, a);
  }

  lemma EndingMovesHandle(s: Pipe, a: Action)
    requires HandlerEnabled(s, a) && !a.Receive? && !a.SendLine?
    ensures var t := ApplyHandler(s, a);
            && HandlerRank(t.handler) < HandlerRank(s.handler) && t.hHand == s.hHand && t.lines == s.lines
            && t.unread == s.unread && t.pHand == s.pHand && t.dockerLines == s.dockerLines && t.sHand == s.sHand
            && t.producer == s.producer && t.streamer == s.streamer && t.lost == s.lost
  {
  }

  predicate FailedSend(a: Action) {
    a == SendLine(false) || a == SendDone(false) || a == ReceiveErr(false)
  }

  /** The context lives and every send works. */
  predicate Smooth(acts: seq<Action>) {
    forall i :: 0 <= i < |acts| ==> acts[i] != Cancel && !FailedSend(acts[i])
  }

  /** A move LogsFollow can make when docker's line channel has room. */
  function ProducerMove(s: Pipe): (a: Action)
    requires ProducerInv(s) && s.producer != NotStarted && s.producer != Finished && |s.dockerLines.buf| < LINE_CAP
    ensures ProducerEnabled(s, a)
  {
    match s.producer
    case Opening => Open(None)
    case Scanning => if s.pHand != [] then Push else if s.unread != [] then Scan else ScanEnd(None)
    case Failing(_) => PushErr
    case ClosingErrs => CloseErrs
    case ClosingLines => CloseLines
  }

  /** Unless Stream's goroutine is over or has a line it cannot pass on, it or LogsFollow can move. */
  function UpstreamMove(s: Pipe): (a: Action)
    requires ProducerInv(s) && StreamerInv(s) && !s.streamer.Over? && |s.lines.buf| < LINE_CAP
    ensures ProducerEnabled(s, a) || StreamerEnabled(s, a)
  {
    match s.streamer
    case Starting => Look(NoContainer)
    case Returned(_) => Report
    case ClosingErrCh(_) => CloseErrCh
    case ClosingOut(_) => CloseOut
    case Selecting(linesDone, errsDone) =>
      if s.sHand != [] then Forward
      else if linesDone && errsDone then Return
      else if !linesDone && Ready(s.dockerLines) then TakeLine
      else if !linesDone && Drained(s.dockerLines) then SeeLinesClosed
      else if !errsDone && Ready(s.dockerErrs) then TakeErr
      else if !errsDone && Drained(s.dockerErrs) then SeeErrsClosed
      else ProducerMove(s)
  }

  /** No reachable state in which Handle still waits is stuck. */
  lemma NeverStuck(s: Pipe, container: seq<string>) returns (a: Action)
    requires Inv(s, container) && s.handler.Waiting?
    ensures Enabled(s, a) && a != Cancel && !FailedSend(a)
  {
    if s.hHand != [] {
      a := SendLine(true);
    } else if s.handler == Waiting(true, true) {
      a := SendDone(true);
    } else {
      a := NextLook(s);
    }
  }

  /** What Handle can see, or what someone upstream can do. */
  lemma NextLook(s: Pipe) returns (a: Action)
    requires ProducerInv(s) && StreamerInv(s) && HandlerInv(s)
    requires s.handler.Waiting? && s.hHand == [] && s.handler != Waiting(true, true)
    ensures Enabled(s, a) && a != Cancel && !FailedSend(a)
  {
    if !s.handler.errDone && Ready(s.errCh) {
      a := ReceiveErr(true);
    } else if !s.handler.errDone && Drained(s.errCh) {
      a := SeeErrChClosed;
    } else if !s.handler.linesDone && Ready(s.lines) {
      a := Receive;
    } else if !s.handler.linesDone && Drained(s.lines) {
      a := SeeOutClosed;
    } else {
      a := NextUpstream(s);
    }
  }

  lemma NextUpstream(s: Pipe) returns (a: Action)
    requires ProducerInv(s) && StreamerInv(s) && HandlerInv(s)
    requires s.handler.Waiting? && s.handler != Waiting(true, true)
    requires s.handler.errDone || !(Ready(s.errCh) || Drained(s.errCh))
    requires s.handler.linesDone || !(Ready(s.lines) || Drained(s.lines))
    ensures Enabled(s, a) && a != Cancel && !FailedSend(a)
  {
    assert !s.streamer.Over? && |s.lines.buf| < LINE_CAP;
    a := UpstreamMove(s);
    UpstreamSendsNothing(s, a);
  }

  lemma UpstreamSendsNothing(s: Pipe, a: Action)
    requires ProducerEnabled(s, a) || StreamerEnabled(s, a)
    ensures a != Cancel && !FailedSend(a)
  {
  }

  lemma {:induction false} SmoothRunsStopWell(container: seq<string>, acts: seq<Action>)
    requires Legal(Begin(container), acts) && Smooth(acts)
    ensures var s := Reached(container, acts);
            !s.cancelled && (s.handler.Stopped? ==> s.handler.how == SentDone || s.handler.how == SentError)
    decreases |acts|
  {
    if acts != [] {
      var most, a := acts[..|acts| - 1], acts[|acts| - 1];
      assert Smooth(most) by {
        assert forall i :: 0 <= i < |most| ==> most[i] == acts[i];
      }
      SmoothRunsStopWell(container, most);
      assert a != Cancel && !FailedSend(a);
      SmoothStepStopsWell(Reached(container, most), a);
    }
  }

  lemma SmoothStepStopsWell(s: Pipe, a: Action)
    requires Enabled(s, a) && a != Cancel && !FailedSend(a) && !s.cancelled
    ensures var t := Apply(s, a);
            && !t.cancelled
            && (t.handler == s.handler || t.handler.Waiting? || t.handler.how == SentDone || t.handler.how == SentError)
  {
  }

  lemma {:induction false} RunsAreShort(container: seq<string>, acts: seq<Action>)
    requires Legal(Begin(container), acts) && Smooth(acts)
    ensures |acts| + Measure(Reached(container, acts)) <= Measure(Begin(container))
    decreases |acts|
  {
    if acts != [] {
      var init := acts[..|acts| - 1];
      RunsAreShort(container, init);
      assert acts[|acts| - 1] != Cancel;
      BeginHolds(container);
      RunKeeps(Begin(container), init, container);
      StepsLowerMeasure(Reached(container, init), acts[|acts| - 1]);
    }
  }

  ghost predicate EndedByError(acts: seq<Action>, note: Note) {
    note.ErrorNote? && Cause(acts, note.err)
  }

  /**
   Every schedule with a living context and working sends is finite, and when nothing can
   move any more the client has one terminal note after a prefix of what the scanner gets:
   an error that was met, with its text, or, when none was met, done after all of it, except
   that of a container gone when Stream looked again nothing was sent.
   */
  lemma StreamsEndCorrectly(container: seq<string>, acts: seq<Action>)
    requires Legal(Begin(container), acts) && Smooth(acts)
    ensures |acts| <= 6 * |container| + 18
    ensures var s := Reached(container, acts);
            (forall a :: Enabled(s, a) ==> a == Cancel || FailedSend(a)) ==>
              && |s.wire| > 0 && OnlyLines(s.wire[..|s.wire| - 1])
              && LossInv(s, container) && Sent(s.wire) <= Scanned(s, container)
              && (EndedByError(acts, s.wire[|s.wire| - 1])
                  || (s.wire[|s.wire| - 1] == DoneNote && NoCause(acts)
                      && Sent(s.wire) == if Look(NoContainer) in acts then [] else Scanned(s, container)))
  {
    BeginHolds(container);
    RunKeeps(Begin(container), acts, container);
    RunsAreShort(container, acts);
    SmoothRunsStopWell(container, acts);
    LinesAreConserved(container, acts);
    TerminalNoteIsLast(container, acts);
    var s := Reached(container, acts);
    if DoneNote in s.wire { DoneMeansWhatCame(container, acts); }
    RunCaused(container, acts);
    if s.handler.Waiting? {
      var a := NeverStuck(s, container);
    }
  }
}

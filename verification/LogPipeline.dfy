/**
 The log stream of one agent: LogsFollow (internal/sandbox/docker.go) reads the
 container, Stream and Handle (internal/daemon/logs.go) pass its lines on to the client.
 Three goroutines, joined by bounded channels for lines and for an error at each joint.
 The channels of a joint are closed one after the other and a select may look at them in
 any order.
 */
module LogPipeline {
  import opened Basics

  datatype Chan<T> = Chan(buf: seq<T>, closed: bool)

  const LINE_CAP := 128
  const ERR_CAP := 1

  /** What Handle sends after its ack. */
  datatype Note = Line(text: string) | DoneNote | ErrorNote(err: string)

  /** LogsFollow's goroutine; the deferred closes run errs first, then lines. */
  datatype Producer = NotStarted | Opening | Scanning | Failing(err: string) | ClosingErrs | ClosingLines | Finished

  /** Stream and the goroutine around it. `err` is what Stream returned. */
  datatype Streamer =
    | Starting
    | Selecting(linesDone: bool, errsDone: bool)
    | Returned(err: Option<string>)
    | ClosingErrCh(err: Option<string>)
    | ClosingOut(err: Option<string>)
    | Over(err: Option<string>)

  /** Handle's loop. */
  datatype Handler = Waiting(linesDone: bool, errDone: bool) | Stopped(how: Ending)

  datatype Ending = SentDone | SentError | SendFailed | GaveUp

  /**
   `unread` are the lines the scanner will still get. The error of StdCopy is dropped
   (internal/sandbox/docker.go:386), so a Docker stream that breaks reads as its end: then
   `lost` are the lines that were still to come, and `torn` is what the scanner gets of the
   first of them, if anything.

   A line is in the container, in the hand of one of the three goroutines, in one of the
   two line channels, or on the wire. `failed` tells that LogsFollow met an error. A
   goroutine that quits keeps the line it held; nobody will get it.
   */
  datatype Pipe = Pipe(
    cancelled: bool,
    unread: seq<string>,
    lost: seq<string>,
    torn: seq<string>,
    producer: Producer,
    failed: bool,
    pHand: seq<string>,
    dockerLines: Chan<string>,
    dockerErrs: Chan<string>,
    streamer: Streamer,
    sHand: seq<string>,
    lines: Chan<string>,
    errCh: Chan<string>,
    handler: Handler,
    hHand: seq<string>,
    wire: seq<Note>)

  function Begin(container: seq<string>): Pipe {
    Pipe(false, container, [], [], NotStarted, false, [], Chan([], false), Chan([], false),
         Starting, [], Chan([], false), Chan([], false), Waiting(false, false), [], [])
  }

  datatype Lookup = LookupFailed(err: string) | NoContainer | Follow

  datatype Action =
    // LogsFollow
    | Open(err: Option<string>)
    | Break(cut: string)
    | Scan
    | ScanEnd(err: Option<string>)
    | Push
    | PushErr
    | CloseErrs
    | CloseLines
    | ProducerQuit
    // Stream
    | Look(res: Lookup)
    | TakeLine
    | SeeLinesClosed
    | Forward
    | TakeErr
    | SeeErrsClosed
    | Return
    | StreamQuit
    | Report
    | CloseErrCh
    | CloseOut
    // Handle
    | Receive
    | SeeOutClosed
    | SendLine(ok: bool)
    | ReceiveErr(ok: bool)
    | SeeErrChClosed
    | SendDone(ok: bool)
    | HandlerQuit
    // the client goes away or the daemon stops
    | Cancel

  /** Stream has returned. */
  predicate Left(t: Streamer) {
    t.Returned? || t.ClosingErrCh? || t.ClosingOut? || t.Over?
  }

  predicate Ready<T(==)>(c: Chan<T>) { c.buf != [] }

  predicate Drained<T(==)>(c: Chan<T>) { c.buf == [] && c.closed }

  predicate ProducerEnabled(s: Pipe, a: Action) {
    match a
    case Open(_) => s.producer == Opening
    case Break(cut) => s.producer == Scanning && s.lost == [] && s.unread != [] && cut <= s.unread[0]
    case Scan => s.producer == Scanning && s.pHand == [] && s.unread != []
    case ScanEnd(err) => s.producer == Scanning && s.pHand == [] && (err.None? ==> s.unread == [] || s.cancelled)
    case Push => s.producer == Scanning && s.pHand != [] && |s.dockerLines.buf| < LINE_CAP
    case PushErr => s.producer.Failing? && |s.dockerErrs.buf| < ERR_CAP
    case CloseErrs => s.producer == ClosingErrs
    case CloseLines => s.producer == ClosingLines
    case ProducerQuit => s.producer == Scanning && s.pHand != [] && s.cancelled
    case _ => false
  }

  predicate StreamerEnabled(s: Pipe, a: Action) {
    match a
    case Look(_) => s.streamer == Starting
    case TakeLine => s.streamer.Selecting? && !s.streamer.linesDone && s.sHand == [] && Ready(s.dockerLines)
    case SeeLinesClosed => s.streamer.Selecting? && !s.streamer.linesDone && s.sHand == [] && Drained(s.dockerLines)
    case Forward => s.streamer.Selecting? && s.sHand != [] && |s.lines.buf| < LINE_CAP
    case TakeErr => s.streamer.Selecting? && !s.streamer.errsDone && s.sHand == [] && Ready(s.dockerErrs)
    case SeeErrsClosed => s.streamer.Selecting? && !s.streamer.errsDone && s.sHand == [] && Drained(s.dockerErrs)
    case Return => s.streamer == Selecting(true, true) && s.sHand == []
    case StreamQuit => s.streamer.Selecting? && s.cancelled && !(s.streamer == Selecting(true, true) && s.sHand == [])
    case Report => s.streamer.Returned? && |s.errCh.buf| < ERR_CAP
    case CloseErrCh => s.streamer.ClosingErrCh?
    case CloseOut => s.streamer.ClosingOut?
    case _ => false
  }

  predicate HandlerEnabled(s: Pipe, a: Action) {
    match a
    case Receive => s.handler.Waiting? && !s.handler.linesDone && s.hHand == [] && Ready(s.lines)
    case SeeOutClosed => s.handler.Waiting? && !s.handler.linesDone && s.hHand == [] && Drained(s.lines)
    case SendLine(_) => s.handler.Waiting? && s.hHand != []
    case ReceiveErr(_) => s.handler.Waiting? && !s.handler.errDone && s.hHand == [] && Ready(s.errCh)
    case SeeErrChClosed => s.handler.Waiting? && !s.handler.errDone && s.hHand == [] && Drained(s.errCh)
    case SendDone(_) => s.handler == Waiting(true, true) && s.hHand == []
    case HandlerQuit => s.handler.Waiting? && s.hHand == [] && s.cancelled && s.handler != Waiting(true, true)
    case _ => false
  }

  predicate Enabled(s: Pipe, a: Action) {
    ProducerEnabled(s, a) || StreamerEnabled(s, a) || HandlerEnabled(s, a) || a == Cancel
  }

  function Pop<T>(c: Chan<T>): Chan<T>
    requires c.buf != []
  {
    c.(buf := c.buf[1..])
  }

  function Put<T>(c: Chan<T>, x: T): Chan<T> {
    c.(buf := c.buf + [x])
  }

  function Close<T>(c: Chan<T>): Chan<T> {
    c.(closed := true)
  }

  /** The last line a scanner makes of a text that just ends. */
  function Fragment(cut: string): seq<string> {
    if cut == "" then [] else [cut]
  }

  function ApplyProducer(s: Pipe, a: Action): Pipe
    requires ProducerEnabled(s, a)
  {
    match a
    case Open(err) => if err.Some? then s.(producer := Failing(err.value), failed := true) else s.(producer := Scanning)
    case Break(cut) => s.(lost := s.unread, torn := Fragment(cut), unread := Fragment(cut))
    case Scan => s.(pHand := [s.unread[0]], unread := s.unread[1..])
    case ScanEnd(err) =>
      if err.Some? then s.(producer := Failing(err.value), failed := true) else s.(producer := ClosingErrs)
    case Push => s.(dockerLines := Put(s.dockerLines, s.pHand[0]), pHand := s.pHand[1..])
    case PushErr => s.(dockerErrs := Put(s.dockerErrs, s.producer.err), producer := ClosingErrs)
    case CloseErrs => s.(dockerErrs := Close(s.dockerErrs), producer := ClosingLines)
    case CloseLines => s.(dockerLines := Close(s.dockerLines), producer := Finished)
    case ProducerQuit => s.(producer := ClosingErrs)
  }

  const CANCELED := "context canceled"

  function ApplyStreamer(s: Pipe, a: Action): Pipe
    requires StreamerEnabled(s, a)
  {
    match a
    case Look(LookupFailed(err)) => s.(streamer := Returned(Some(err)))
    case Look(NoContainer) => s.(streamer := Returned(None))
    case Look(Follow) => s.(streamer := Selecting(false, false), producer := Opening)
    case TakeLine => s.(sHand := [s.dockerLines.buf[0]], dockerLines := Pop(s.dockerLines))
    case SeeLinesClosed => s.(streamer := s.streamer.(linesDone := true))
    case Forward => s.(lines := Put(s.lines, s.sHand[0]), sHand := s.sHand[1..])
    case TakeErr => s.(streamer := Returned(Some(s.dockerErrs.buf[0])), dockerErrs := Pop(s.dockerErrs))
    case SeeErrsClosed => s.(streamer := s.streamer.(errsDone := true))
    case Return => s.(streamer := Returned(None))
    case StreamQuit => s.(streamer := Returned(Some(CANCELED)))
    case Report =>
      // the error is passed on only while the context is alive
      if s.streamer.err.Some? && !s.cancelled then
        s.(errCh := Put(s.errCh, s.streamer.err.value), streamer := ClosingErrCh(s.streamer.err))
      else s.(streamer := ClosingErrCh(s.streamer.err))
    case CloseErrCh => s.(errCh := Close(s.errCh), streamer := ClosingOut(s.streamer.err))
    case CloseOut => s.(lines := Close(s.lines), streamer := Over(s.streamer.err))
  }

  function ApplyHandler(s: Pipe, a: Action): Pipe
    requires HandlerEnabled(s, a)
  {
    match a
    case Receive => s.(hHand := [s.lines.buf[0]], lines := Pop(s.lines))
    case SeeOutClosed => s.(handler := s.handler.(linesDone := true))
    case SendLine(ok) =>
      if ok then s.(wire := s.wire + [Line(s.hHand[0])], hHand := s.hHand[1..])
      else s.(handler := Stopped(SendFailed))
    case ReceiveErr(ok) =>
      var t := s.(errCh := Pop(s.errCh));
      if ok then t.(wire := s.wire + [ErrorNote(s.errCh.buf[0])], handler := Stopped(SentError))
      else t.(handler := Stopped(SendFailed))
    case SeeErrChClosed => s.(handler := s.handler.(errDone := true))
    case SendDone(ok) =>
      if ok then s.(wire := s.wire + [DoneNote], handler := Stopped(SentDone))
      else s.(handler := Stopped(SendFailed))
    case HandlerQuit => s.(handler := Stopped(GaveUp))
  }

  function Apply(s: Pipe, a: Action): Pipe
    requires Enabled(s, a)
  {
    if ProducerEnabled(s, a) then ApplyProducer(s, a)
    else if StreamerEnabled(s, a) then ApplyStreamer(s, a)
    else if HandlerEnabled(s, a) then ApplyHandler(s, a)
    else s.(cancelled := true)
  }

  // ---------- runs ----------

  predicate Legal(s: Pipe, acts: seq<Action>)
    decreases |acts|, 0
  {
    acts == [] || (Legal(s, acts[..|acts| - 1]) && Enabled(After(s, acts[..|acts| - 1]), acts[|acts| - 1]))
  }

  function After(s: Pipe, acts: seq<Action>): Pipe
    requires Legal(s, acts)
    decreases |acts|, 1
  {
    if acts == [] then s else Apply(After(s, acts[..|acts| - 1]), acts[|acts| - 1])
  }

  // ---------- invariants ----------

  function Sent(wire: seq<Note>): seq<string> {
    if wire == [] then []
    else Sent(wire[..|wire| - 1]) + if wire[|wire| - 1].Line? then [wire[|wire| - 1].text] else []
  }

  /** Everything that is not in the container any more and not yet on the wire, nearest to the wire first. */
  function InFlight(s: Pipe): seq<string> {
    s.hHand + s.lines.buf + s.sHand + s.dockerLines.buf + s.pHand
  }

  /** Every one of the lines is in exactly one place, and the places are in order. */
  ghost predicate Conserved(s: Pipe, lines: seq<string>) {
    Sent(s.wire) + InFlight(s) + s.unread == lines
  }

  /** What a break cost: the last lines of the container, but for a beginning of the first of them. */
  ghost predicate LossInv(s: Pipe, container: seq<string>) {
    && |s.lost| <= |container| && s.lost == container[|container| - |s.lost|..]
    && (s.torn == [] || (|s.torn| == 1 && s.lost != [] && s.torn[0] <= s.lost[0]))
  }

  /** The lines that the scanner gets, up to a break if there was one. */
  function Scanned(s: Pipe, container: seq<string>): seq<string>
    requires |s.lost| <= |container|
  {
    container[..|container| - |s.lost|] + s.torn
  }

  ghost predicate ProducerInv(s: Pipe) {
    && |s.pHand| <= 1 && |s.dockerLines.buf| <= LINE_CAP
    && (s.dockerErrs.closed <==> s.producer == ClosingLines || s.producer == Finished)
    && (s.dockerLines.closed <==> s.producer == Finished)
    && (s.producer == NotStarted || s.producer == Opening || s.producer == Scanning ==> !s.failed)
    && (s.producer.Failing? ==> s.failed && s.dockerErrs.buf == [])
    && (!s.failed ==> s.dockerErrs.buf == [])
    && (s.producer == ClosingErrs || s.producer == ClosingLines || s.producer == Finished ==>
          s.failed || s.cancelled || (s.unread == [] && s.pHand == []))
  }

  /** Stream ended well: it had nothing to follow, or it passed on everything there was. */
  ghost predicate PassedOn(s: Pipe) {
    || s.producer == NotStarted
    || (s.producer == Finished && !s.failed && s.dockerLines.buf == [] && s.sHand == [])
  }

  ghost predicate StreamerInv(s: Pipe) {
    && |s.sHand| <= 1 && |s.lines.buf| <= LINE_CAP
    && (s.streamer == Starting ==> s.producer == NotStarted && s.sHand == [])
    && (s.streamer.Selecting? ==>
          && s.producer != NotStarted
          && (s.streamer.linesDone ==> Drained(s.dockerLines))
          && (s.streamer.errsDone ==> Drained(s.dockerErrs) && !s.failed)
          && (s.failed ==> s.producer.Failing? || s.dockerErrs.buf != []))
    && (Left(s.streamer) ==> s.streamer.err.None? ==> PassedOn(s))
    && (s.errCh.closed <==> s.streamer.ClosingOut? || s.streamer.Over?)
    && (s.lines.closed <==> s.streamer.Over?)
    && (s.streamer == Starting || s.streamer.Selecting? || s.streamer.Returned? ==> s.errCh.buf == [])
  }

  /** An error that Stream returned while the context was alive is in errCh, or Handle has stopped over it. */
  ghost predicate HandlerInv(s: Pipe) {
    && |s.hHand| <= 1
    && (s.streamer.ClosingErrCh? || s.streamer.ClosingOut? || s.streamer.Over? ==>
          s.streamer.err.Some? ==>
            s.errCh.buf != [] || s.cancelled || (s.handler.Stopped? && s.handler.how != SentDone))
    && |s.errCh.buf| <= 1
    && (s.handler.Waiting? ==>
          && (s.handler.linesDone ==> Drained(s.lines))
          && (s.handler.errDone ==> Drained(s.errCh))
          && forall i :: 0 <= i < |s.wire| ==> s.wire[i].Line?)
    && (s.handler.Stopped? ==> WireEnds(s))
  }

  /** Lines, and after them at most the one note the loop ended with. */
  ghost predicate WireEnds(s: Pipe)
    requires s.handler.Stopped?
  {
    match s.handler.how
    case SentDone =>
      && |s.wire| > 0 && s.wire[|s.wire| - 1] == DoneNote
      && (forall i :: 0 <= i < |s.wire| - 1 ==> s.wire[i].Line?)
      && s.hHand == [] && Drained(s.lines) && Drained(s.errCh)
    case SentError =>
      && |s.wire| > 0 && s.wire[|s.wire| - 1].ErrorNote?
      && (forall i :: 0 <= i < |s.wire| - 1 ==> s.wire[i].Line?)
    case _ => forall i :: 0 <= i < |s.wire| ==> s.wire[i].Line?
  }

  ghost predicate Inv(s: Pipe, container: seq<string>) {
    && LossInv(s, container) && Conserved(s, Scanned(s, container))
    && ProducerInv(s) && StreamerInv(s) && HandlerInv(s)
  }

  lemma BeginHolds(container: seq<string>)
    ensures Inv(Begin(container), container)
  {
  }

  /** Moving a line along without changing the order keeps what there is. */
  lemma Moved(s: Pipe, t: Pipe, lines: seq<string>)
    requires Conserved(s, lines)
    requires Sent(t.wire) + t.hHand + t.lines.buf + t.sHand + t.dockerLines.buf + t.pHand + t.unread
             == Sent(s.wire) + s.hHand + s.lines.buf + s.sHand + s.dockerLines.buf + s.pHand + s.unread
    ensures Conserved(t, lines)
  {
    Flattened(s);
    Flattened(t);
  }

  lemma Flattened(s: Pipe)
    ensures Sent(s.wire) + InFlight(s) + s.unread
            == Sent(s.wire) + s.hHand + s.lines.buf + s.sHand + s.dockerLines.buf + s.pHand + s.unread
  {
    Regrouped(Sent(s.wire), s.hHand, s.lines.buf, s.sHand, s.dockerLines.buf, s.pHand);
  }

  lemma Regrouped<T>(a: seq<T>, b: seq<T>, c: seq<T>, d: seq<T>, e: seq<T>, f: seq<T>)
    ensures a + (b + c + d + e + f) == a + b + c + d + e + f
  {
    Associates(a, b + c + d + e, f);
    Associates(a, b + c + d, e);
    Associates(a, b + c, d);
    Associates(a, b, c);
  }

  lemma ProducerConserves(s: Pipe, a: Action, lines: seq<string>)
    requires Conserved(s, lines) && |s.pHand| <= 1 && ProducerEnabled(s, a) && !a.Break?
    ensures Conserved(ApplyProducer(s, a), lines)
  {
    if a == Scan {
      ScanConserves(s, lines);
    } else if a == Push {
      PushConserves(s, lines);
    } else {
      ProducerMovesNone(s, a);
    }
  }

  lemma ScanConserves(s: Pipe, lines: seq<string>)
    requires Conserved(s, lines) && ProducerEnabled(s, Scan)
    ensures Conserved(ApplyProducer(s, Scan), lines)
  {
    var t := ApplyProducer(s, Scan);
    assert t.pHand + t.unread == s.pHand + s.unread;
    Moved(s, t, lines);
  }

  lemma PushConserves(s: Pipe, lines: seq<string>)
    requires Conserved(s, lines) && |s.pHand| <= 1 && ProducerEnabled(s, Push)
    ensures Conserved(ApplyProducer(s, Push), lines)
  {
    var t := ApplyProducer(s, Push);
    assert t.dockerLines.buf + t.pHand == s.dockerLines.buf + s.pHand;
    Moved(s, t, lines);
  }

  /** The other steps of LogsFollow move no line. */
  lemma ProducerMovesNone(s: Pipe, a: Action)
    requires ProducerEnabled(s, a) && a != Scan && a != Push && !a.Break?
    ensures var t := ApplyProducer(s, a);
            && t.wire == s.wire && t.hHand == s.hHand && t.lines.buf == s.lines.buf && t.sHand == s.sHand
            && t.dockerLines.buf == s.dockerLines.buf && t.pHand == s.pHand && t.unread == s.unread
  {
  }

  lemma StreamerConserves(s: Pipe, a: Action, lines: seq<string>)
    requires Conserved(s, lines) && |s.sHand| <= 1 && StreamerEnabled(s, a)
    ensures Conserved(ApplyStreamer(s, a), lines)
  {
    if a == TakeLine {
      TakeLineConserves(s, lines);
    } else if a == Forward {
      ForwardConserves(s, lines);
    }
  }

  lemma TakeLineConserves(s: Pipe, lines: seq<string>)
    requires Conserved(s, lines) && StreamerEnabled(s, TakeLine)
    ensures Conserved(ApplyStreamer(s, TakeLine), lines)
  {
    var t := ApplyStreamer(s, TakeLine);
    assert t.sHand + t.dockerLines.buf == s.sHand + s.dockerLines.buf;
    Moved(s, t, lines);
  }

  lemma ForwardConserves(s: Pipe, lines: seq<string>)
    requires Conserved(s, lines) && |s.sHand| <= 1 && StreamerEnabled(s, Forward)
    ensures Conserved(ApplyStreamer(s, Forward), lines)
  {
    var t := ApplyStreamer(s, Forward);
    assert t.lines.buf + t.sHand == s.lines.buf + s.sHand;
    Moved(s, t, lines);
  }

  lemma SentOneMore(wire: seq<Note>, note: Note)
    ensures Sent(wire + [note]) == Sent(wire) + if note.Line? then [note.text] else []
  {
    assert (wire + [note])[..|wire|] == wire;
  }

  lemma ReceiveConserves(s: Pipe, lines: seq<string>)
    requires Conserved(s, lines) && HandlerEnabled(s, Receive)
    ensures Conserved(ApplyHandler(s, Receive), lines)
  {
    var t := ApplyHandler(s, Receive);
    assert t.hHand + t.lines.buf == s.hHand + s.lines.buf;
    Moved(s, t, lines);
  }

  lemma SendConserves(s: Pipe, lines: seq<string>)
    requires Conserved(s, lines) && |s.hHand| <= 1 && HandlerEnabled(s, SendLine(true))
    ensures Conserved(ApplyHandler(s, SendLine(true)), lines)
  {
    var t := ApplyHandler(s, SendLine(true));
    SentOneMore(s.wire, Line(s.hHand[0]));
    assert Sent(t.wire) + t.hHand == Sent(s.wire) + s.hHand;
    Moved(s, t, lines);
  }

  lemma HandlerConserves(s: Pipe, a: Action, lines: seq<string>)
    requires Conserved(s, lines) && |s.hHand| <= 1 && HandlerEnabled(s, a)
    ensures Conserved(ApplyHandler(s, a), lines)
  {
    if a == Receive {
      ReceiveConserves(s, lines);
    } else if a == SendLine(true) {
      SendConserves(s, lines);
    } else {
      NotingConserves(s, a, lines);
    }
  }

  lemma NotingConserves(s: Pipe, a: Action, lines: seq<string>)
    requires Conserved(s, lines) && HandlerEnabled(s, a) && a != Receive && a != SendLine(true)
    ensures Conserved(ApplyHandler(s, a), lines)
  {
    var t := ApplyHandler(s, a);
    NotingSendsNoLine(s, a);
    assert InFlight(t) == InFlight(s);
  }

  lemma NotingSendsNoLine(s: Pipe, a: Action)
    requires HandlerEnabled(s, a) && a != Receive && a != SendLine(true)
    ensures var t := ApplyHandler(s, a);
            && Sent(t.wire) == Sent(s.wire) && t.hHand == s.hHand && t.lines == s.lines && t.sHand == s.sHand
            && t.dockerLines == s.dockerLines && t.pHand == s.pHand && t.unread == s.unread
  {
    if a.ReceiveErr? { SentOneMore(s.wire, ErrorNote(s.errCh.buf[0])); }
    if a.SendDone? { SentOneMore(s.wire, DoneNote); }
    assert Sent(s.wire) + [] == Sent(s.wire);
  }

  // What a goroutine keeps of its own invariant and of those of the others.

  lemma ProducerKeeps(s: Pipe, a: Action)
    requires ProducerInv(s) && StreamerInv(s) && HandlerInv(s) && ProducerEnabled(s, a)
    ensures ProducerInv(ApplyProducer(s, a))
    ensures StreamerInv(ApplyProducer(s, a))
    ensures HandlerInv(ApplyProducer(s, a))
  {
    ProducerKeepsItself(s, a);
    ProducerKeepsStreamer(s, a);
    ProducerKeepsHandler(s, a);
  }

  lemma ProducerKeepsItself(s: Pipe, a: Action)
    requires ProducerInv(s) && ProducerEnabled(s, a)
    ensures ProducerInv(ApplyProducer(s, a))
  {
  }

  lemma ProducerKeepsStreamer(s: Pipe, a: Action)
    requires ProducerInv(s) && StreamerInv(s) && ProducerEnabled(s, a)
    ensures StreamerInv(ApplyProducer(s, a))
  {
  }

  /** LogsFollow leaves all that is after its own channels. */
  lemma ProducerLeavesRest(s: Pipe, a: Action)
    requires ProducerEnabled(s, a)
    ensures var t := ApplyProducer(s, a);
            && t.cancelled == s.cancelled && t.streamer == s.streamer && t.sHand == s.sHand
            && t.lines == s.lines && t.errCh == s.errCh
            && t.handler == s.handler && t.hHand == s.hHand && t.wire == s.wire
  {
  }

  lemma ProducerKeepsHandler(s: Pipe, a: Action)
    requires HandlerInv(s) && ProducerEnabled(s, a)
    ensures HandlerInv(ApplyProducer(s, a))
  {
    ProducerLeavesRest(s, a);
    SameForHandler(s, ApplyProducer(s, a));
  }

  lemma SameForHandler(s: Pipe, t: Pipe)
    requires HandlerInv(s) && t.cancelled == s.cancelled && t.streamer == s.streamer
    requires t.lines == s.lines && t.errCh == s.errCh
    requires t.handler == s.handler && t.hHand == s.hHand && t.wire == s.wire
    ensures HandlerInv(t)
  {
  }

  lemma StreamerKeeps(s: Pipe, a: Action)
    requires ProducerInv(s) && StreamerInv(s) && HandlerInv(s) && StreamerEnabled(s, a)
    ensures ProducerInv(ApplyStreamer(s, a))
    ensures StreamerInv(ApplyStreamer(s, a))
    ensures HandlerInv(ApplyStreamer(s, a))
  {
    StreamerKeepsProducer(s, a);
    if s.streamer == Starting || s.streamer.Selecting? {
      SelectingKeepsItself(s, a);
      SelectingKeepsHandler(s, a);
    } else {
      LeavingKeepsItself(s, a);
      LeavingKeepsHandler(s, a);
    }
  }

  lemma StreamerKeepsProducer(s: Pipe, a: Action)
    requires ProducerInv(s) && StreamerInv(s) && StreamerEnabled(s, a)
    ensures ProducerInv(ApplyStreamer(s, a))
  {
  }

  lemma SelectingKeepsItself(s: Pipe, a: Action)
    requires ProducerInv(s) && StreamerInv(s) && StreamerEnabled(s, a)
    requires s.streamer == Starting || s.streamer.Selecting?
    ensures StreamerInv(ApplyStreamer(s, a))
  {
  }

  lemma SelectingKeepsHandler(s: Pipe, a: Action)
    requires StreamerInv(s) && HandlerInv(s) && StreamerEnabled(s, a)
    requires s.streamer == Starting || s.streamer.Selecting?
    ensures HandlerInv(ApplyStreamer(s, a))
  {
    SelectingLeavesHandler(s, a);
  }

  lemma SelectingLeavesHandler(s: Pipe, a: Action)
    requires StreamerEnabled(s, a) && (s.streamer == Starting || s.streamer.Selecting?)
    ensures var t := ApplyStreamer(s, a);
            && (t.streamer.Selecting? || t.streamer.Returned?) && t.cancelled == s.cancelled && t.errCh == s.errCh
            && t.lines.closed == s.lines.closed && (a == Forward || t.lines == s.lines)
            && t.handler == s.handler && t.hHand == s.hHand && t.wire == s.wire
  {
  }

  lemma LeavingKeepsItself(s: Pipe, a: Action)
    requires StreamerInv(s) && StreamerEnabled(s, a) && s.streamer != Starting && !s.streamer.Selecting?
    ensures StreamerInv(ApplyStreamer(s, a))
  {
  }

  lemma LeavingKeepsHandler(s: Pipe, a: Action)
    requires StreamerInv(s) && HandlerInv(s) && StreamerEnabled(s, a)
    requires s.streamer != Starting && !s.streamer.Selecting?
    ensures HandlerInv(ApplyStreamer(s, a))
  {
  }

  lemma HandlerKeepsProducer(s: Pipe, a: Action)
    requires ProducerInv(s) && HandlerEnabled(s, a)
    ensures ProducerInv(ApplyHandler(s, a))
  {
  }

  /** Handle leaves all that is before its own channels, and of these it only takes. */
  lemma HandlerLeavesRest(s: Pipe, a: Action)
    requires HandlerEnabled(s, a)
    ensures var t := ApplyHandler(s, a);
            && t.cancelled == s.cancelled && t.unread == s.unread && t.producer == s.producer && t.failed == s.failed
            && t.pHand == s.pHand && t.dockerLines == s.dockerLines && t.dockerErrs == s.dockerErrs
            && t.streamer == s.streamer && t.sHand == s.sHand
            && |t.lines.buf| <= |s.lines.buf| && t.lines.closed == s.lines.closed
            && |t.errCh.buf| <= |s.errCh.buf| && t.errCh.closed == s.errCh.closed
  {
  }

  lemma HandlerKeepsStreamer(s: Pipe, a: Action)
    requires StreamerInv(s) && HandlerEnabled(s, a)
    ensures StreamerInv(ApplyHandler(s, a))
  {
    HandlerLeavesRest(s, a);
    LessForStreamer(s, ApplyHandler(s, a));
  }

  lemma LessForStreamer(s: Pipe, t: Pipe)
    requires StreamerInv(s) && t.cancelled == s.cancelled && t.unread == s.unread && t.producer == s.producer
    requires t.failed == s.failed && t.pHand == s.pHand && t.dockerLines == s.dockerLines
    requires t.dockerErrs == s.dockerErrs && t.streamer == s.streamer && t.sHand == s.sHand
    requires |t.lines.buf| <= |s.lines.buf| && t.lines.closed == s.lines.closed
    requires |t.errCh.buf| <= |s.errCh.buf| && t.errCh.closed == s.errCh.closed
    ensures StreamerInv(t)
  {
  }

  lemma HandlerKeepsItself(s: Pipe, a: Action)
    requires HandlerInv(s) && StreamerInv(s) && HandlerEnabled(s, a)
    ensures HandlerInv(ApplyHandler(s, a))
  {
    if a.SendLine? {
      SendLineKeepsHandler(s, a);
    } else if a.SendDone? || a.ReceiveErr? {
      SendLastKeepsHandler(s, a);
    }
  }

  lemma SendLineKeepsHandler(s: Pipe, a: Action)
    requires HandlerInv(s) && HandlerEnabled(s, a) && a.SendLine?
    ensures HandlerInv(ApplyHandler(s, a))
  {
  }

  lemma SendLastKeepsHandler(s: Pipe, a: Action)
    requires HandlerInv(s) && StreamerInv(s) && HandlerEnabled(s, a) && (a.SendDone? || a.ReceiveErr?)
    ensures HandlerInv(ApplyHandler(s, a))
  {
  }

  /** Every step of every goroutine, and a cancellation, keeps the invariant. */
  lemma ActionKeeps(s: Pipe, a: Action, container: seq<string>)
    requires Inv(s, container) && Enabled(s, a)
    ensures Inv(Apply(s, a), container)
  {
    if ProducerEnabled(s, a) {
      if a.Break? {
        BreakKeeps(s, a, container);
      } else {
        ProducerActionKeeps(s, a, container);
      }
    } else if StreamerEnabled(s, a) {
      StreamerActionKeeps(s, a, container);
    } else if HandlerEnabled(s, a) {
      HandlerActionKeeps(s, a, container);
    } else {
      CancelKeeps(s, container);
    }
  }

  lemma CancelKeeps(s: Pipe, container: seq<string>)
    requires Inv(s, container)
    ensures Inv(s.(cancelled := true), container)
  {
    Moved(s, s.(cancelled := true), Scanned(s, container));
  }

  /** A break changes what there is to scan, and nothing that was scanned. */
  lemma BreakKeeps(s: Pipe, a: Action, container: seq<string>)
    requires Inv(s, container) && ProducerEnabled(s, a) && a.Break?
    ensures Inv(ApplyProducer(s, a), container)
  {
    var t := ApplyProducer(s, a);
    BreakConserves(Sent(s.wire) + InFlight(s), s.unread, container, t.torn);
    assert InFlight(t) == InFlight(s);
    ProducerKeeps(s, a);
  }

  lemma BreakConserves(scanned: seq<string>, unread: seq<string>, container: seq<string>, torn: seq<string>)
    requires scanned + unread == container[..|container|] + []
    ensures |unread| <= |container| && unread == container[|container| - |unread|..]
    ensures scanned + torn == container[..|container| - |unread|] + torn
  {
    assert container == scanned + unread;
  }

  lemma ProducerActionKeeps(s: Pipe, a: Action, container: seq<string>)
    requires Inv(s, container) && ProducerEnabled(s, a) && !a.Break?
    ensures Inv(ApplyProducer(s, a), container)
  {
    ProducerConserves(s, a, Scanned(s, container));
    ProducerKeeps(s, a);
    ProducerLosesNothing(s, a);
  }

  lemma ProducerLosesNothing(s: Pipe, a: Action)
    requires ProducerEnabled(s, a) && !a.Break?
    ensures ApplyProducer(s, a).lost == s.lost && ApplyProducer(s, a).torn == s.torn
  {
  }

  lemma StreamerActionKeeps(s: Pipe, a: Action, container: seq<string>)
    requires Inv(s, container) && StreamerEnabled(s, a)
    ensures Inv(ApplyStreamer(s, a), container)
  {
    StreamerConserves(s, a, Scanned(s, container));
    StreamerKeeps(s, a);
    StreamerLosesNothing(s, a);
  }

  lemma StreamerLosesNothing(s: Pipe, a: Action)
    requires StreamerEnabled(s, a)
    ensures ApplyStreamer(s, a).lost == s.lost && ApplyStreamer(s, a).torn == s.torn
  {
  }

  lemma HandlerActionKeeps(s: Pipe, a: Action, container: seq<string>)
    requires Inv(s, container) && HandlerEnabled(s, a)
    ensures Inv(ApplyHandler(s, a), container)
  {
    HandlerConserves(s, a, Scanned(s, container));
    HandlerKeepsProducer(s, a);
    HandlerKeepsStreamer(s, a);
    HandlerKeepsItself(s, a);
    HandlerLosesNothing(s, a);
  }

  lemma HandlerLosesNothing(s: Pipe, a: Action)
    requires HandlerEnabled(s, a)
    ensures ApplyHandler(s, a).lost == s.lost && ApplyHandler(s, a).torn == s.torn
  {
  }

  lemma {:induction false} RunKeeps(s: Pipe, acts: seq<Action>, container: seq<string>)
    requires Inv(s, container) && Legal(s, acts)
    ensures Inv(After(s, acts), container)
    decreases |acts|
  {
    if acts != [] {
      RunKeeps(s, acts[..|acts| - 1], container);
      ActionKeeps(After(s, acts[..|acts| - 1]), acts[|acts| - 1], container);
    }
  }
}

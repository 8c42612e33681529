/**
 One RPCClient shared by any number of callers (internal/client/rpc.go) and the loop that
 serves its connection (internal/daemon/server.go). Responses carry ids but call never
 looks at them; that each call gets its own response rests on the client's lock, held from
 send to receive, on the server answering one request at a time, and on the encoder and the
 decoder refusing to work again once they have failed.
 */
module RpcPairing {
  import opened Basics

  datatype Request = Request(id: nat, greeting: bool, body: string)

  /** `to` is the request that was answered; it is not on the wire. */
  datatype Response = Response(id: nat, to: Request, error: bool, payload: string)

  /** serveConn: before the handshake, in it, waiting, dispatching, returned. */
  datatype Server = Fresh | Greets(req: Request) | Ready | Busy(req: Request) | Gone

  /** The last connection dialled, with the encoder and decoder made for it. */
  datatype Link = Link(
    toServer: seq<Request>,
    toClient: seq<Response>,
    server: Server,
    encFailed: bool,
    decFailed: bool)

  /** Where a caller is; from Greeting to Greeted and from Locked to Awaiting it holds the lock. */
  datatype Caller =
    | Dialling(body: string)
    | Greeting(body: string)
    | Greeted(body: string, req: Request)
    | Calling(body: string)
    | Locked(body: string)
    | Awaiting(req: Request)

  datatype Outcome = Outcome(req: Request, resp: Response)

  datatype Sys = Sys(
    nextID: nat,
    lock: Option<nat>,
    connected: bool,       // conn != nil; an older connection is closed
    link: Option<Link>,
    callers: map<nat, Caller>,
    results: seq<Outcome>) // what calls returned, in order

  datatype SendFault = Sends | CannotMarshal | WriteFails(delivered: bool)
  datatype RecvFault = Arrives | WrongType | ReadFails

  datatype Action =
    | Enter(caller: nat, body: string)
    | Dial(caller: nat, reachable: bool)
    | Greet(caller: nat, sent: SendFault)
    | Welcome(caller: nat, got: RecvFault)
    | Acquire(caller: nat)
    | Send(caller: nat, sent: SendFault)
    | Receive(caller: nat, got: RecvFault)
    | Close
    | Take
    | Reply(accepts: bool, payload: string, write: SendFault)
    | Quit

  const INIT := Sys(0, None, false, None, map[], [])
  const FRESH := Link([], [], Fresh, false, false)

  // ---------- the connection ----------

  /** json.Encoder.Encode on a connection; a failed write is remembered, a failed marshal is not. */
  function Encode(l: Link, connected: bool, req: Request, f: SendFault): Link {
    if l.encFailed then l
    else
      match f
      case CannotMarshal => l
      case Sends => if connected then l.(toServer := l.toServer + [req]) else l.(encFailed := true)
      case WriteFails(delivered) =>
        l.(encFailed := true, toServer := if delivered && connected then l.toServer + [req] else l.toServer)
  }

  predicate Encodes(l: Link, connected: bool, f: SendFault) {
    !l.encFailed && connected && f == Sends
  }

  /** json.Decoder.Decode returns at once with its old error, or with a new one, or when something came. */
  predicate CanDecode(l: Link, f: RecvFault) {
    l.decFailed || f == ReadFails || l.toClient != []
  }

  function Decode(l: Link, f: RecvFault): Link
    requires CanDecode(l, f)
  {
    if l.decFailed then l
    else if f == ReadFails then l.(decFailed := true)
    else l.(toClient := l.toClient[1..])
  }

  function Decoded(l: Link, f: RecvFault): Option<Response>
    requires CanDecode(l, f)
  {
    if l.decFailed || f != Arrives then None else Some(l.toClient[0])
  }

  predicate CanTake(l: Link) {
    (l.server == Fresh || l.server == Ready) && l.toServer != []
  }

  function Taken(l: Link): Link
    requires CanTake(l)
  {
    var req := l.toServer[0];
    l.(toServer := l.toServer[1..], server := if l.server == Fresh then Greets(req) else Busy(req))
  }

  /** One response with the request's id; the handshake must be one, and accepted, to go on. */
  function Replied(l: Link, accepts: bool, payload: string, write: SendFault): Link
    requires l.server.Greets? || l.server.Busy?
  {
    var req := l.server.req;
    var fine := accepts && (l.server.Greets? ==> req.greeting);
    var reached := write == Sends || write == WriteFails(true);
    l.(
      toClient := if reached then l.toClient + [Response(req.id, req, !fine, payload)] else l.toClient,
      server := if write != Sends || (l.server.Greets? && !fine) then Gone else Ready)
  }

  // ---------- the steps ----------

  predicate Holding(c: Caller) {
    c.Greeting? || c.Greeted? || c.Locked? || c.Awaiting?
  }

  function Leave(s: Sys, i: nat): Sys {
    s.(callers := s.callers - {i}, lock := None)
  }

  /** A handshake that failed: close, forget the connection, return the error. */
  function HangUp(s: Sys, i: nat): Sys {
    Leave(s, i).(connected := false)
  }

  function Move(s: Sys, i: nat, c: Caller): Sys {
    s.(callers := s.callers[i := c])
  }

  predicate Enabled(s: Sys, a: Action) {
    match a
    case Enter(i, _) => i !in s.callers
    case Dial(i, _) => i in s.callers && s.callers[i].Dialling? && s.lock == None
    case Greet(i, _) => i in s.callers && s.callers[i].Greeting? && s.link.Some?
    case Welcome(i, f) => i in s.callers && s.callers[i].Greeted? && s.link.Some? && CanDecode(s.link.value, f)
    case Acquire(i) => i in s.callers && s.callers[i].Calling? && s.lock == None
    case Send(i, _) => i in s.callers && s.callers[i].Locked? && s.link.Some?
    case Receive(i, f) => i in s.callers && s.callers[i].Awaiting? && s.link.Some? && CanDecode(s.link.value, f)
    case Close => s.lock == None
    case Take => s.link.Some? && CanTake(s.link.value)
    case Reply(_, _, _) => s.link.Some? && (s.link.value.server.Greets? || s.link.value.server.Busy?)
    case Quit => s.link.Some?
  }

  function Apply(s: Sys, a: Action): Sys
    requires Enabled(s, a)
  {
    match a
    case Enter(i, body) => Move(s, i, Dialling(body))
    case Dial(i, reachable) =>
      var body := s.callers[i].body;
      if s.connected then Move(s, i, Calling(body))
      else if !reachable then s.(callers := s.callers - {i})
      else Move(s, i, Greeting(body)).(lock := Some(i), connected := true, link := Some(FRESH))
    case Greet(i, f) =>
      var req := Request(s.nextID + 1, true, "");
      var l := s.link.value;
      var t := s.(nextID := req.id, link := Some(Encode(l, s.connected, req, f)));
      if Encodes(l, s.connected, f) then Move(t, i, Greeted(s.callers[i].body, req)) else HangUp(t, i)
    case Welcome(i, f) =>
      var l := s.link.value;
      var t := s.(link := Some(Decode(l, f)));
      var resp := Decoded(l, f);
      if resp.Some? && !resp.value.error then Move(t, i, Calling(s.callers[i].body)).(lock := None) else HangUp(t, i)
    case Acquire(i) => Move(s, i, Locked(s.callers[i].body)).(lock := Some(i))
    case Send(i, f) =>
      var req := Request(s.nextID + 1, false, s.callers[i].body);
      var l := s.link.value;
      var t := s.(nextID := req.id, link := Some(Encode(l, s.connected, req, f)));
      if Encodes(l, s.connected, f) then Move(t, i, Awaiting(req)) else Leave(t, i)
    case Receive(i, f) =>
      var l := s.link.value;
      var resp := Decoded(l, f);
      var t := Leave(s, i).(link := Some(Decode(l, f)));
      if resp.Some? then t.(results := s.results + [Outcome(s.callers[i].req, resp.value)]) else t
    case Close => s.(connected := false)
    case Take => s.(link := Some(Taken(s.link.value)))
    case Reply(accepts, payload, write) => s.(link := Some(Replied(s.link.value, accepts, payload, write)))
    case Quit => s.(link := Some(s.link.value.(server := Gone, toServer := [])))
  }

  ghost predicate Legal(acts: seq<Action>)
    decreases |acts|, 0
  {
    acts == []
    || (Legal(acts[..|acts| - 1]) && Enabled(After(acts[..|acts| - 1]), acts[|acts| - 1]))
  }

  ghost function After(acts: seq<Action>): Sys
    requires Legal(acts)
    decreases |acts|, 1
  {
    if acts == [] then INIT else Apply(After(acts[..|acts| - 1]), acts[|acts| - 1])
  }

  // ---------- what every step keeps ----------

  /** Requests whose answers are on the way back. */
  function Answered(rs: seq<Response>): (r: seq<Request>)
    ensures |r| == |rs|
  {
    if rs == [] then [] else [rs[0].to] + Answered(rs[1..])
  }

  function InHand(server: Server): seq<Request> {
    if server.Greets? || server.Busy? then [server.req] else []
  }

  /** Everything sent and not yet received, oldest first. */
  function InFlight(l: Link): seq<Request> {
    Answered(l.toClient) + InHand(l.server) + l.toServer
  }

  /** What the holder of the lock waits for. */
  function Expected(s: Sys): seq<Request> {
    if s.lock.None? || s.lock.value !in s.callers then []
    else
      match s.callers[s.lock.value]
      case Greeted(_, req) => [req]
      case Awaiting(req) => [req]
      case _ => []
  }

  predicate Usable(s: Sys) {
    s.connected && s.link.Some? && !s.link.value.encFailed && !s.link.value.decFailed
  }

  /** On a working connection exactly what the holder waits for is under way, unless the server is gone. */
  predicate Flow(l: Link, expected: seq<Request>) {
    InFlight(l) == expected || (l.server == Gone && InFlight(l) == [])
  }

  ghost predicate OneHolder(s: Sys) {
    && (s.lock.Some? ==> s.lock.value in s.callers)
    && forall i: nat :: i in s.callers ==> (Holding(s.callers[i]) <==> s.lock == Some(i))
  }

  ghost predicate Linked(s: Sys) {
    && (s.connected ==> s.link.Some?)
    && (forall i: nat :: i in s.callers && !s.callers[i].Dialling? ==> s.link.Some?)
    && (forall i: nat ::
          i in s.callers && (s.callers[i].Greeting? || s.callers[i].Greeted? || s.callers[i].Awaiting?) ==>
          s.connected && !s.link.value.encFailed)
  }

  ghost predicate Flowing(s: Sys) {
    Usable(s) ==> Flow(s.link.value, Expected(s))
  }

  /** Responses bear the id of what they answer. */
  predicate Echoed(l: Link) {
    forall n :: 0 <= n < |l.toClient| ==> l.toClient[n].id == l.toClient[n].to.id
  }

  ghost predicate Inv(s: Sys) {
    OneHolder(s) && Linked(s) && Flowing(s) && (s.link.Some? ==> Echoed(s.link.value))
  }

  lemma {:induction false} AnsweredAppends(rs: seq<Response>, r: Response)
    ensures Answered(rs + [r]) == Answered(rs) + [r.to]
  {
    if rs == [] {
      assert rs + [r] == [r];
    } else {
      assert (rs + [r])[1..] == rs[1..] + [r];
      AnsweredAppends(rs[1..], r);
    }
  }

  lemma TakenFlows(l: Link)
    requires CanTake(l)
    ensures InFlight(Taken(l)) == InFlight(l)
  {
  }

  lemma RepliedFlows(l: Link, accepts: bool, payload: string, write: SendFault)
    requires l.server.Greets? || l.server.Busy?
    requires write == Sends || write == WriteFails(true)
    ensures InFlight(Replied(l, accepts, payload, write)) == InFlight(l)
  {
    var r := Replied(l, accepts, payload, write).toClient[|l.toClient|];
    AnsweredAppends(l.toClient, r);
  }

  lemma DecodedFlows(l: Link)
    requires l.toClient != []
    ensures InFlight(l) == [l.toClient[0].to] + InFlight(l.(toClient := l.toClient[1..]))
  {
  }

  lemma StepKeepsHolder(s: Sys, a: Action)
    requires Enabled(s, a) && OneHolder(s)
    ensures OneHolder(Apply(s, a))
  {
  }

  lemma StepKeepsLinked(s: Sys, a: Action)
    requires Enabled(s, a) && OneHolder(s) && Linked(s)
    ensures Linked(Apply(s, a))
  {
  }

  lemma StepKeepsEcho(s: Sys, a: Action)
    requires Enabled(s, a) && (s.link.Some? ==> Echoed(s.link.value))
    ensures Apply(s, a).link.Some? ==> Echoed(Apply(s, a).link.value)
  {
    if a.Reply? {
      ReplyKeepsEcho(s, a);
    } else if a.Receive? || a.Welcome? {
      ReceivingKeepsEcho(s, a);
    }
  }

  lemma ReplyKeepsEcho(s: Sys, a: Action)
    requires Enabled(s, a) && a.Reply? && Echoed(s.link.value)
    ensures Echoed(Apply(s, a).link.value)
  {
  }

  lemma ReceivingKeepsEcho(s: Sys, a: Action)
    requires Enabled(s, a) && (a.Receive? || a.Welcome?) && Echoed(s.link.value)
    ensures Echoed(Apply(s, a).link.value)
  {
  }

  /** Steps of a caller that leave the connection alone. */
  lemma WaitingKeepsFlow(s: Sys, a: Action)
    requires Enabled(s, a) && Inv(s) && (a.Enter? || a.Dial? || a.Acquire? || a.Close?)
    ensures Flowing(Apply(s, a))
  {
  }

  lemma SendingKeepsFlow(s: Sys, a: Action)
    requires Enabled(s, a) && Inv(s) && (a.Greet? || a.Send?)
    ensures Flowing(Apply(s, a))
  {
    if a.Greet? {
      GreetingKeepsFlow(s, a);
    } else {
      CallingKeepsFlow(s, a);
    }
  }

  lemma GreetingKeepsFlow(s: Sys, a: Action)
    requires Enabled(s, a) && Inv(s) && a.Greet?
    ensures Flowing(Apply(s, a))
  {
    assert s.lock == Some(a.caller) && Expected(s) == [];
  }

  lemma CallingKeepsFlow(s: Sys, a: Action)
    requires Enabled(s, a) && Inv(s) && a.Send?
    ensures Flowing(Apply(s, a))
  {
    assert s.lock == Some(a.caller) && Expected(s) == [];
  }

  lemma ReceivingKeepsFlow(s: Sys, a: Action)
    requires Enabled(s, a) && Inv(s) && (a.Welcome? || a.Receive?)
    ensures Flowing(Apply(s, a))
  {
    if !s.link.value.decFailed && s.link.value.toClient != [] {
      DecodedFlows(s.link.value);
    }
  }

  lemma ServingKeepsFlow(s: Sys, a: Action)
    requires Enabled(s, a) && Inv(s) && (a.Take? || a.Reply? || a.Quit?)
    ensures Flowing(Apply(s, a))
  {
    if a.Take? {
      TakenFlows(s.link.value);
    } else if a.Reply? {
      if a.write == Sends || a.write == WriteFails(true) {
        RepliedFlows(s.link.value, a.accepts, a.payload, a.write);
      }
    }
  }

  lemma StepKeeps(s: Sys, a: Action)
    requires Enabled(s, a) && Inv(s)
    ensures Inv(Apply(s, a))
  {
    StepKeepsHolder(s, a);
    StepKeepsLinked(s, a);
    StepKeepsEcho(s, a);
    match a
    case Enter(_, _) => WaitingKeepsFlow(s, a);
    case Dial(_, _) => WaitingKeepsFlow(s, a);
    case Greet(_, _) => SendingKeepsFlow(s, a);
    case Welcome(_, _) => ReceivingKeepsFlow(s, a);
    case Acquire(_) => WaitingKeepsFlow(s, a);
    case Send(_, _) => SendingKeepsFlow(s, a);
    case Receive(_, _) => ReceivingKeepsFlow(s, a);
    case Close => WaitingKeepsFlow(s, a);
    case Take => ServingKeepsFlow(s, a);
    case Reply(_, _, _) => ServingKeepsFlow(s, a);
    case Quit => ServingKeepsFlow(s, a);
  }

  lemma {:induction false} RunKeeps(acts: seq<Action>)
    requires Legal(acts)
    ensures Inv(After(acts))
    decreases |acts|
  {
    if acts != [] {
      RunKeeps(acts[..|acts| - 1]);
      StepKeeps(After(acts[..|acts| - 1]), acts[|acts| - 1]);
    }
  }

  // ---------- results ----------

  /** What is decoded is the answer to what was asked. */
  lemma DecodedIsMine(s: Sys, f: RecvFault)
    requires Inv(s) && s.lock.Some? && s.link.Some? && CanDecode(s.link.value, f)
    requires s.callers[s.lock.value].Awaiting?
    ensures Decoded(s.link.value, f).Some? ==>
      && Decoded(s.link.value, f).value.to == s.callers[s.lock.value].req
      && Decoded(s.link.value, f).value.id == s.callers[s.lock.value].req.id
  {
    var l := s.link.value;
    if !l.decFailed && f == Arrives {
      DecodedFlows(l);
      assert Usable(s) && Expected(s) == [s.callers[s.lock.value].req];
      assert InFlight(l)[0] == l.toClient[0].to;
    }
  }

  predicate Paired(results: seq<Outcome>) {
    forall n :: 0 <= n < |results| ==>
      results[n].resp.to == results[n].req && results[n].resp.id == results[n].req.id
  }

  /**
   Every call that gets a response gets the one to its own request, whoever shares the
   client, whenever it is closed and dialled again, and whatever fails.
   */
  lemma {:induction false} EveryCallGetsItsOwn(acts: seq<Action>)
    requires Legal(acts)
    ensures Paired(After(acts).results)
    decreases |acts|
  {
    if acts != [] {
      var most, a := acts[..|acts| - 1], acts[|acts| - 1];
      EveryCallGetsItsOwn(most);
      RunKeeps(most);
      if a.Receive? {
        DecodedIsMine(After(most), a.got);
      }
    }
  }

  /** Ids of what is under way or returned; no two requests have the same. */
  predicate Numbered(s: Sys) {
    && (forall n :: 0 <= n < |s.results| ==> s.results[n].req.id <= s.nextID)
    && (forall m, n :: 0 <= m < n < |s.results| ==> s.results[m].req.id < s.results[n].req.id)
  }

  ghost predicate Newest(s: Sys) {
    forall i: nat :: i in s.callers && s.callers[i].Awaiting? ==>
      && s.callers[i].req.id == s.nextID
      && forall n :: 0 <= n < |s.results| ==> s.results[n].req.id < s.nextID
  }

  lemma StepKeepsNumbers(s: Sys, a: Action)
    requires Enabled(s, a) && OneHolder(s) && Numbered(s) && Newest(s)
    ensures Numbered(Apply(s, a)) && Newest(Apply(s, a))
  {
    if a.Receive? {
      ReceivingKeepsNumbers(s, a);
    } else if a.Greet? || a.Send? {
      SendingKeepsNumbers(s, a);
    } else {
      OthersKeepNumbers(s, a);
    }
  }

  lemma ReceivingKeepsNumbers(s: Sys, a: Action)
    requires Enabled(s, a) && OneHolder(s) && Numbered(s) && Newest(s) && a.Receive?
    ensures Numbered(Apply(s, a)) && Newest(Apply(s, a))
  {
    var t := Apply(s, a);
    assert s.lock == Some(a.caller);
    assert forall i: nat :: i in t.callers ==> !t.callers[i].Awaiting?;
  }

  lemma SendingKeepsNumbers(s: Sys, a: Action)
    requires Enabled(s, a) && OneHolder(s) && Numbered(s) && Newest(s) && (a.Greet? || a.Send?)
    ensures Numbered(Apply(s, a)) && Newest(Apply(s, a))
  {
    var t := Apply(s, a);
    assert s.lock == Some(a.caller) && t.results == s.results && t.nextID == s.nextID + 1;
    assert forall i: nat :: i in t.callers && t.callers[i].Awaiting? ==> i == a.caller;
  }

  lemma OthersKeepNumbers(s: Sys, a: Action)
    requires Enabled(s, a) && OneHolder(s) && Numbered(s) && Newest(s) && !a.Receive? && !a.Greet? && !a.Send?
    ensures Numbered(Apply(s, a)) && Newest(Apply(s, a))
  {
    var t := Apply(s, a);
    assert t.results == s.results && t.nextID == s.nextID;
    assert forall i: nat :: i in t.callers && t.callers[i].Awaiting? ==> i in s.callers && s.callers[i] == t.callers[i];
  }

  /** Calls return in the order of their ids, each id once. */
  lemma {:induction false} CallsReturnInOrder(acts: seq<Action>)
    requires Legal(acts)
    ensures Numbered(After(acts)) && Newest(After(acts))
    decreases |acts|
  {
    if acts != [] {
      var most, a := acts[..|acts| - 1], acts[|acts| - 1];
      CallsReturnInOrder(most);
      RunKeeps(most);
      StepKeepsNumbers(After(most), a);
    }
  }

  // ---------- the handshake comes first ----------

  predicate GreetedFirst(l: Link) {
    && (l.server.Fresh? ==> l.toClient == [] && forall n :: 0 <= n < |l.toServer| ==> l.toServer[n].greeting)
    && (l.server.Greets? ==> l.server.req.greeting)
  }

  ghost predicate Mannerly(s: Sys) {
    && (s.link.Some? ==> GreetedFirst(s.link.value))
    && (s.connected && s.link.Some? && s.link.value.server.Fresh? ==>
          s.lock.Some? && s.lock.value in s.callers
          && (s.callers[s.lock.value].Greeting? || s.callers[s.lock.value].Greeted?))
  }

  lemma StepKeepsManners(s: Sys, a: Action)
    requires Enabled(s, a) && OneHolder(s) && Mannerly(s)
    ensures Mannerly(Apply(s, a))
  {
    if a.Take? || a.Reply? || a.Quit? {
      ServingKeepsManners(s, a);
    } else if a.Greet? || a.Send? {
      SendingKeepsManners(s, a);
    } else {
      OthersKeepManners(s, a);
    }
  }

  lemma ServingKeepsManners(s: Sys, a: Action)
    requires Enabled(s, a) && Mannerly(s) && (a.Take? || a.Reply? || a.Quit?)
    ensures Mannerly(Apply(s, a))
  {
  }

  lemma SendingKeepsManners(s: Sys, a: Action)
    requires Enabled(s, a) && OneHolder(s) && Mannerly(s) && (a.Greet? || a.Send?)
    ensures Mannerly(Apply(s, a))
  {
  }

  lemma OthersKeepManners(s: Sys, a: Action)
    requires Enabled(s, a) && OneHolder(s) && Mannerly(s)
    requires !(a.Take? || a.Reply? || a.Quit? || a.Greet? || a.Send?)
    ensures Mannerly(Apply(s, a))
  {
  }

  /** The daemon never finds anything but a handshake in front: no caller slips in between dialling and greeting. */
  lemma {:induction false} HandshakeComesFirst(acts: seq<Action>)
    requires Legal(acts)
    ensures Mannerly(After(acts))
    decreases |acts|
  {
    if acts != [] {
      var most, a := acts[..|acts| - 1], acts[|acts| - 1];
      HandshakeComesFirst(most);
      RunKeeps(most);
      StepKeepsManners(After(most), a);
    }
  }

  // ---------- progress ----------

  /** A step that some healthy client, network or server would take. */
  predicate Smooth(s: Sys, a: Action)
    requires Enabled(s, a)
  {
    match a
    case Dial(_, reachable) => reachable
    case Greet(_, f) => f == Sends
    case Send(_, f) => f == Sends
    case Welcome(_, f) => f == (if s.link.value.toClient != [] then Arrives else ReadFails) && Ended(s.link.value)
    case Receive(_, f) => f == (if s.link.value.toClient != [] then Arrives else ReadFails) && Ended(s.link.value)
    case Acquire(_) => true
    case Take => true
    case Reply(_, _, write) => write == Sends
    case _ => false
  }

  /** There is something to read, or never will be. */
  predicate Ended(l: Link) {
    l.toClient != [] || l.server == Gone || l.decFailed
  }

  ghost predicate CanMove(s: Sys) {
    exists a :: Enabled(s, a) && Smooth(s, a)
  }

  /** While anyone is still in a call, someone can move: the lock is never held for nothing. */
  lemma NeverStuck(acts: seq<Action>, i: nat)
    requires Legal(acts) && i in After(acts).callers
    ensures CanMove(After(acts))
  {
    RunKeeps(acts);
    SomeoneMoves(After(acts), i);
  }

  lemma SomeoneMoves(s: Sys, i: nat)
    requires Inv(s) && i in s.callers
    ensures CanMove(s)
  {
    if s.lock.Some? {
      HolderMoves(s, s.lock.value);
    } else {
      var a := if s.callers[i].Dialling? then Dial(i, true) else Acquire(i);
      assert Enabled(s, a) && Smooth(s, a);
    }
  }

  lemma HolderMoves(s: Sys, i: nat)
    requires Inv(s) && s.lock == Some(i)
    ensures CanMove(s)
  {
    var c := s.callers[i];
    if c.Greeting? {
      assert Enabled(s, Greet(i, Sends)) && Smooth(s, Greet(i, Sends));
    } else if c.Locked? {
      assert Enabled(s, Send(i, Sends)) && Smooth(s, Send(i, Sends));
    } else if Ended(s.link.value) {
      var f := if s.link.value.toClient != [] then Arrives else ReadFails;
      var a := if c.Greeted? then Welcome(i, f) else Receive(i, f);
      assert Enabled(s, a) && Smooth(s, a);
    } else {
      ServerMoves(s);
    }
  }

  lemma ServerMoves(s: Sys)
    requires Usable(s) && Flowing(s) && |Expected(s)| == 1 && !Ended(s.link.value)
    ensures CanMove(s)
  {
    var l := s.link.value;
    assert InFlight(l) == Expected(s);
    var a := if l.server.Fresh? || l.server.Ready? then Take else Reply(true, "", Sends);
    assert Enabled(s, a) && Smooth(s, a);
  }

  // ---------- a failed connection ----------

  /** The connection is still in use though its encoder or its decoder has failed. */
  predicate Failing(s: Sys) {
    s.connected && s.link.Some? && (s.link.value.encFailed || s.link.value.decFailed)
  }

  /** Whoever shakes hands has a decoder that works. */
  ghost predicate GreetersRead(s: Sys) {
    forall i: nat :: i in s.callers && (s.callers[i].Greeting? || s.callers[i].Greeted?) ==>
      s.link.Some? && !s.link.value.decFailed
  }

  lemma StepKeepsGreeters(s: Sys, a: Action)
    requires Enabled(s, a) && OneHolder(s) && GreetersRead(s)
    ensures GreetersRead(Apply(s, a))
  {
    if a.Take? || a.Reply? || a.Quit? {
      ServerKeepsGreeters(s, a);
    } else {
      ClientKeepsGreeters(s, a);
    }
  }

  lemma ServerKeepsGreeters(s: Sys, a: Action)
    requires Enabled(s, a) && GreetersRead(s) && (a.Take? || a.Reply? || a.Quit?)
    ensures GreetersRead(Apply(s, a))
  {
  }

  lemma ClientKeepsGreeters(s: Sys, a: Action)
    requires Enabled(s, a) && OneHolder(s) && GreetersRead(s) && !(a.Take? || a.Reply? || a.Quit?)
    ensures GreetersRead(Apply(s, a))
  {
  }

  lemma {:induction false} GreetersAlwaysRead(acts: seq<Action>)
    requires Legal(acts)
    ensures GreetersRead(After(acts))
    decreases |acts|
  {
    if acts != [] {
      GreetersAlwaysRead(acts[..|acts| - 1]);
      RunKeeps(acts[..|acts| - 1]);
      StepKeepsGreeters(After(acts[..|acts| - 1]), acts[|acts| - 1]);
    }
  }

  lemma FailingStays(s: Sys, a: Action)
    requires Enabled(s, a) && Inv(s) && GreetersRead(s) && Failing(s) && a != Close
    ensures Failing(Apply(s, a)) && Apply(s, a).results == s.results
  {
    if a.Take? || a.Reply? || a.Quit? {
      ServingStaysFailing(s, a);
    } else if a.Send? || a.Receive? {
      CallingStaysFailing(s, a);
    }
  }

  lemma ServingStaysFailing(s: Sys, a: Action)
    requires Enabled(s, a) && Failing(s) && (a.Take? || a.Reply? || a.Quit?)
    ensures Failing(Apply(s, a)) && Apply(s, a).results == s.results
  {
  }

  lemma CallingStaysFailing(s: Sys, a: Action)
    requires Enabled(s, a) && Linked(s) && Failing(s) && (a.Send? || a.Receive?)
    ensures Failing(Apply(s, a)) && Apply(s, a).results == s.results
  {
  }

  /**
   After one failed write or read the client stays connected to no purpose: until someone
   calls Close no call returns a response, since Dial finds a connection and makes no other.
   */
  lemma {:induction false} OnlyCloseHelps(acts: seq<Action>, n: nat)
    requires Legal(acts) && n <= |acts| && forall i :: n <= i < |acts| ==> acts[i] != Close
    requires Legal(acts[..n]) && Failing(After(acts[..n]))
    ensures Failing(After(acts)) && After(acts).results == After(acts[..n]).results
    decreases |acts|
  {
    if n == |acts| {
      assert acts[..n] == acts;
    } else {
      var most := acts[..|acts| - 1];
      assert most[..n] == acts[..n];
      OnlyCloseHelps(most, n);
      RunKeeps(most);
      GreetersAlwaysRead(most);
      FailingStays(After(most), acts[|acts| - 1]);
    }
  }

  // ---------- calls end ----------

  /** How many steps of its own a caller has still to take at most, three to one of the daemon. */
  function Stage(c: Caller): nat {
    match c
    case Dialling(_) => 18
    case Greeting(_) => 15
    case Greeted(_, _) => 12
    case Calling(_) => 9
    case Locked(_) => 6
    case Awaiting(_) => 3
  }

  /** The stages of all callers together. */
  ghost function Stages(callers: map<nat, Caller>): nat
    decreases |callers|
  {
    if callers == map[] then 0
    else
      var i :| i in callers;
      assert |callers - {i}| < |callers| by { FewerCallers(callers, i); }
      Stage(callers[i]) + Stages(callers - {i})
  }

  lemma FewerCallers(callers: map<nat, Caller>, i: nat)
    requires i in callers
    ensures |callers - {i}| == |callers| - 1
  {
    assert (callers - {i}).Keys == callers.Keys - {i};
    assert |callers.Keys| == |callers| && |(callers - {i}).Keys| == |callers - {i}|;
  }

  /** The order of counting does not matter. */
  lemma {:induction false} StagesWithout(callers: map<nat, Caller>, i: nat)
    requires i in callers
    ensures Stages(callers) == Stage(callers[i]) + Stages(callers - {i})
    decreases |callers|
  {
    var j :| j in callers && Stages(callers) == Stage(callers[j]) + Stages(callers - {j});
    if j != i {
      FewerCallers(callers, i);
      FewerCallers(callers, j);
      StagesWithout(callers - {j}, i);
      StagesWithout(callers - {i}, j);
      assert callers - {j} - {i} == callers - {i} - {j};
    }
  }

  lemma StagesWith(callers: map<nat, Caller>, i: nat, c: Caller)
    requires i in callers
    ensures Stages(callers[i := c]) == Stages(callers) - Stage(callers[i]) + Stage(c)
  {
    StagesWithout(callers, i);
    StagesWithout(callers[i := c], i);
    assert callers[i := c] - {i} == callers - {i};
  }

  /** What the daemon has still to do: take a request, answer it. */
  function Work(s: Sys): nat {
    if s.link.None? then 0 else 2 * |s.link.value.toServer| + |InHand(s.link.value.server)|
  }

  ghost function Measure(s: Sys): nat {
    Stages(s.callers) + Work(s)
  }

  lemma CallerLowers(s: Sys, a: Action, i: nat)
    requires Inv(s) && Enabled(s, a) && i in s.callers
    requires a == Dial(i, true) || a == Acquire(i) || a == Greet(i, Sends) || a == Send(i, Sends)
    ensures Measure(Apply(s, a)) < Measure(s)
  {
    var t := Apply(s, a);
    StagesWithout(s.callers, i);
    if i in t.callers {
      StagesWith(s.callers, i, t.callers[i]);
      assert t.callers == s.callers[i := t.callers[i]];
    }
  }

  lemma ReceiverLowers(s: Sys, a: Action)
    requires Inv(s) && Enabled(s, a) && (a.Welcome? || a.Receive?)
    ensures Measure(Apply(s, a)) < Measure(s)
  {
    var t := Apply(s, a);
    StagesWithout(s.callers, a.caller);
    if a.caller in t.callers {
      StagesWith(s.callers, a.caller, t.callers[a.caller]);
      assert t.callers == s.callers[a.caller := t.callers[a.caller]];
    }
  }

  lemma DaemonLowers(s: Sys, a: Action)
    requires Enabled(s, a) && (a.Take? || a.Reply?)
    ensures Measure(Apply(s, a)) < Measure(s)
  {
  }

  /** Every step that goes well lowers the measure, so once no more calls come all of them end. */
  lemma SmoothStepsLower(s: Sys, a: Action)
    requires Inv(s) && Enabled(s, a) && Smooth(s, a)
    ensures Measure(Apply(s, a)) < Measure(s)
  {
    match a
    case Dial(i, _) => CallerLowers(s, a, i);
    case Greet(i, _) => CallerLowers(s, a, i);
    case Send(i, _) => CallerLowers(s, a, i);
    case Acquire(i) => CallerLowers(s, a, i);
    case Welcome(_, _) => ReceiverLowers(s, a);
    case Receive(_, _) => ReceiverLowers(s, a);
    case Take => DaemonLowers(s, a);
    case Reply(_, _, _) => DaemonLowers(s, a);
  }

  /** From `s` steps that go well can be taken one after the other. */
  ghost predicate GoesOn(s: Sys, more: seq<Action>)
    decreases |more|
  {
    more == []
    || (Enabled(s, more[0]) && Smooth(s, more[0]) && GoesOn(Apply(s, more[0]), more[1..]))
  }

  ghost function Onward(s: Sys, more: seq<Action>): Sys
    requires GoesOn(s, more)
    decreases |more|
  {
    if more == [] then s else Onward(Apply(s, more[0]), more[1..])
  }

  /**
   Calls end: from any reachable state there is a bound on how long everything can go on
   well without a new call, and when it can go on no longer every caller has returned.
   */
  lemma {:induction false} CallsEnd(s: Sys, more: seq<Action>)
    requires Inv(s) && GoesOn(s, more)
    ensures |more| + Measure(Onward(s, more)) <= Measure(s)
    ensures !CanMove(Onward(s, more)) ==> Onward(s, more).callers == map[]
    decreases |more|
  {
    if more != [] {
      StepKeeps(s, more[0]);
      SmoothStepsLower(s, more[0]);
      CallsEnd(Apply(s, more[0]), more[1..]);
    } else if s.callers != map[] {
      var i :| i in s.callers;
      SomeoneMoves(s, i);
    }
  }
}

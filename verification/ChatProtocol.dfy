/**
 internal/daemon/chat.go: one run of ChatHandler.Handle as a transition system.

 Pc names the point the run has reached; a Signal is what the run observes when it
 moves on: the answer of the database, of Docker, of the connection, or nothing.
 */
module ChatProtocol {
  import opened Basics
  import opened ChatStore

  // JSON-RPC error codes used by the handler (internal/protocol/messages.go)
  const INVALID_PARAMS := -32602
  const AGENT_NOT_FOUND := -32001
  const AGENT_NOT_RUNNING := -32002
  const HISTORY_UNAVAILABLE := -32008

  /** agent.chat.send parameters; `decodes` is false when they are not valid JSON for the type. */
  datatype Request = Request(decodes: bool, name: string, content: string, parentId: string, messageId: string)

  datatype Chunk = Chunk(name: string, role: Role, text: Text, sequence: int, final: bool, messageId: string)

  /** One envelope on the caller's connection. */
  datatype Msg = ErrorResponse(code: int) | Ack(messageId: string) | Note(chunk: Chunk)

  datatype Inspection = NoClient | InspectFailed | State(status: string)

  datatype ExecOutcome = ExecFailed(err: string) | Exited(code: int, stdout: string, stderr: string)

  datatype Pc =
    | Decode
    | Lookup
    | DrawUser
    | InsertUser(row: Row)
    | SendError(code: int)
    | SendAck
    | Inspect
    | Exec
    | Executing
    | DrawReply(role: Role, text: Text)
    | InsertReply(row: Row)
    | SendLast(chunk: Chunk)
    | ListReplies
    | SendDupAck
    | Poll
    | Replay(next: nat)
    | Done
    | Broken   // a send failed
    | Dead     // the daemon crashed

  /**
   `located`, `won`, `executed`, `userRow` and `tried` record what the run has done so
   far, `kept` that the insert of its reply was answered well. `met` is the row that held
   its message_id when it lost, `shown` are the stored replies it then found.
   */
  datatype Handler = Handler(
    req: Request,
    pc: Pc,
    agentId: nat,
    located: bool,
    won: bool,
    executed: bool,
    userRow: Option<Row>,
    tried: Option<Row>,
    kept: bool,
    met: Option<Row>,
    shown: seq<Row>,
    sent: seq<Msg>)

  datatype Signal =
    | Go
    | Found(rec: Option<AgentRec>)
    | Drawn(id: nat, now: nat, newId: string)
    | Inserted(res: InsertResult, err: string)
    | Sent(ok: bool)
    | Inspected(out: Inspection)
    | ExecStarted
    | ExecEnded(outcome: ExecOutcome)
    | Listed(rows: seq<Row>)
    | ListFailed(err: string)
    | TimedOut(err: string)

  predicate Acceptable(req: Request) {
    req.decodes && req.name != "" && req.content != "" && req.messageId != ""
  }

  function Start(req: Request): Handler {
    Handler(req, Decode, 0, false, false, false, None, None, false, None, [], [])
  }

  // ---------- texts ----------

  function NotRunningText(out: Inspection, name: string): Text {
    NotRunning(match out case State(status) => status case _ => "unknown", name)
  }

  /** Role and text of the reply to an exec. */
  function ExecReply(res: ExecOutcome): (Role, Text) {
    match res
    case ExecFailed(err) => (Error, Said(err))
    case Exited(code, stdout, stderr) =>
      if code != 0 then (Error, PiExited(code, if stderr == "" then stdout else stderr))
      else (ChatStore.Agent, Said(if stdout == "" then stderr else stdout))
  }

  // ---------- chunks ----------

  /** The chunk the winner of an insert sends for the reply row it stored. */
  function ReplyChunk(name: string, row: Row): Chunk {
    Chunk(name, row.role, row.content, 0, true, row.messageId)
  }

  /** What a reply turns into when it could not be stored. */
  function UnstoredChunk(name: string, err: string): Chunk {
    Chunk(name, Error, Unavailable(err), 0, true, "")
  }

  function ReplayChunk(name: string, replies: seq<Row>, i: nat): Chunk
    requires i < |replies|
  {
    var row := replies[i];
    Chunk(name, row.role, row.content, row.sequence, i == |replies| - 1, row.messageId)
  }

  /** persistedReplies: the rows of a listing that answer `parentId`. */
  function Replies(rows: seq<Row>, parentId: string): seq<Row> {
    if rows == [] then []
    else (if rows[0].parentId == parentId && rows[0].role != User then [rows[0]] else []) + Replies(rows[1..], parentId)
  }

  // ---------- steps ----------

  function UserRow(h: Handler, id: nat, now: nat): Row {
    Row(id, h.agentId, User, Said(h.req.content), h.req.parentId, h.req.messageId, 0, now)
  }

  function ReplyRow(h: Handler, role: Role, text: Text, id: nat, now: nat, newId: string): Row {
    Row(id, h.agentId, role, text, h.req.messageId, newId, 0, now)
  }

  function AfterSend(h: Handler, ok: bool, msg: Msg, pc: Pc): Handler {
    if ok then h.(sent := h.sent + [msg], pc := pc) else h.(pc := Broken)
  }

  /** The replies of a listing, if any, are replayed. */
  function AfterListing(h: Handler, rows: seq<Row>): Handler {
    var rs := Replies(rows, h.req.messageId);
    h.(pc := if rs == [] then Poll else Replay(0), shown := rs)
  }

  /** The run up to and including the insert of the user row. */
  function Admit(h: Handler, sig: Signal): Option<Handler> {
    match h.pc
    case Decode =>
      if !sig.Go? then None
      else if !Acceptable(h.req) then Some(h.(pc := SendError(INVALID_PARAMS)))
      else Some(h.(pc := Lookup))
    case Lookup =>
      if !sig.Found? then None
      else if sig.rec.None? then Some(h.(pc := SendError(AGENT_NOT_FOUND)))
      else if sig.rec.value.containerId == "" then Some(h.(pc := SendError(AGENT_NOT_RUNNING)))
      else Some(h.(pc := DrawUser, agentId := sig.rec.value.id, located := true))
    case DrawUser =>
      if !sig.Drawn? then None
      else
        var row := UserRow(h, sig.id, sig.now);
        Some(h.(pc := InsertUser(row), userRow := Some(row)))
    case InsertUser(row) =>
      if !sig.Inserted? then None
      else (match sig.res
        case Stored => Some(h.(pc := SendAck, won := true))
        case NameTaken(holder) => Some(h.(pc := ListReplies, met := Some(holder)))
        case Failed => Some(h.(pc := SendError(HISTORY_UNAVAILABLE))))
    case SendError(code) =>
      if !sig.Sent? then None else Some(AfterSend(h, sig.ok, ErrorResponse(code), Done))
    case _ => None
  }

  /** The run of the handler whose user row was stored. */
  function Serve(h: Handler, sig: Signal): Option<Handler> {
    match h.pc
    case SendAck =>
      if !sig.Sent? then None else Some(AfterSend(h, sig.ok, Ack(h.req.messageId), Inspect))
    case Inspect =>
      if !sig.Inspected? then None
      else if sig.out == NoClient then Some(h.(pc := DrawReply(Error, NoDocker)))
      else if sig.out != State("running") then Some(h.(pc := DrawReply(Error, NotRunningText(sig.out, h.req.name))))
      else Some(h.(pc := Exec))
    case Exec =>
      if !sig.ExecStarted? then None else Some(h.(pc := Executing, executed := true))
    case Executing =>
      if !sig.ExecEnded? then None
      else Some(h.(pc := DrawReply(ExecReply(sig.outcome).0, ExecReply(sig.outcome).1)))
    case DrawReply(role, text) =>
      if !sig.Drawn? then None
      else
        var row := ReplyRow(h, role, text, sig.id, sig.now, sig.newId);
        Some(h.(pc := InsertReply(row), tried := Some(row)))
    case InsertReply(row) =>
      if !sig.Inserted? then None
      else Some(h.(kept := sig.res == Stored,
                   pc := SendLast(if sig.res == Stored then ReplyChunk(h.req.name, row)
                                  else UnstoredChunk(h.req.name, sig.err))))
    case SendLast(chunk) =>
      if !sig.Sent? then None else Some(AfterSend(h, sig.ok, Note(chunk), Done))
    case _ => None
  }

  /** The run of a handler whose message_id was already taken. */
  function Repeat(h: Handler, sig: Signal): Option<Handler> {
    match h.pc
    case ListReplies =>
      if sig.Listed? then Some(h.(pc := SendDupAck, shown := Replies(sig.rows, h.req.messageId)))
      else if sig.ListFailed? then Some(h.(pc := SendError(HISTORY_UNAVAILABLE)))
      else None
    case SendDupAck =>
      if !sig.Sent? then None
      else Some(AfterSend(h, sig.ok, Ack(h.req.messageId), if h.shown == [] then Poll else Replay(0)))
    case Poll =>
      if sig.Listed? then Some(AfterListing(h, sig.rows))
      else if sig.ListFailed? || sig.TimedOut? then
        Some(h.(pc := SendLast(Chunk(h.req.name, Error, NoReply(sig.err), 0, true, ""))))
      else None
    case Replay(i) =>
      if !sig.Sent? || |h.shown| <= i then None
      else Some(AfterSend(h, sig.ok, Note(ReplayChunk(h.req.name, h.shown, i)),
                          if i + 1 == |h.shown| then Done else Replay(i + 1)))
    case _ => None
  }

  // The stretches of a run, two to each of the functions above.

  predicate Locating(pc: Pc) {
    pc.Decode? || pc.Lookup?
  }

  predicate Inserting(pc: Pc) {
    pc.DrawUser? || pc.InsertUser? || pc.SendError?
  }

  predicate Running(pc: Pc) {
    pc.SendAck? || pc.Inspect? || pc.Exec? || pc.Executing?
  }

  predicate Replying(pc: Pc) {
    pc.DrawReply? || pc.InsertReply? || pc.SendLast?
  }

  predicate Looking(pc: Pc) {
    pc.ListReplies? || pc.SendDupAck?
  }

  predicate Showing(pc: Pc) {
    pc.Poll? || pc.Replay?
  }

  /** One step of a run, or None where the signal does not fit the point it has reached. */
  function Advance(h: Handler, sig: Signal): Option<Handler> {
    match h.pc
    case Decode => Admit(h, sig)
    case Lookup => Admit(h, sig)
    case DrawUser => Admit(h, sig)
    case InsertUser(_) => Admit(h, sig)
    case SendError(_) => Admit(h, sig)
    case ListReplies => Repeat(h, sig)
    case SendDupAck => Repeat(h, sig)
    case Poll => Repeat(h, sig)
    case Replay(_) => Repeat(h, sig)
    case _ => Serve(h, sig)
  }

  /** Which points of a run change what; everything else stays. */
  ghost predicate Frame(h: Handler, g: Handler) {
    && g.req == h.req
    && (!h.pc.Lookup? ==> g.agentId == h.agentId && g.located == h.located)
    && (!h.pc.DrawUser? ==> g.userRow == h.userRow)
    && (!h.pc.InsertUser? ==> g.won == h.won && g.met == h.met)
    && (!h.pc.Exec? ==> g.executed == h.executed)
    && (!h.pc.DrawReply? ==> g.tried == h.tried)
    && (!h.pc.InsertReply? ==> g.kept == h.kept)
    && (!h.pc.ListReplies? && !h.pc.Poll? ==> g.shown == h.shown)
  }

  lemma AdvanceFrame(h: Handler, sig: Signal)
    requires Advance(h, sig).Some?
    ensures Frame(h, Advance(h, sig).value)
  {
    if Locating(h.pc) || Inserting(h.pc) {
      AdmitFrame(h, sig);
    } else if Looking(h.pc) || Showing(h.pc) {
      RepeatFrame(h, sig);
    } else {
      ServeFrame(h, sig);
    }
  }

  lemma AdmitFrame(h: Handler, sig: Signal)
    ensures Admit(h, sig).Some? ==> Frame(h, Admit(h, sig).value)
  {
    if Locating(h.pc) {
      LocatingFrame(h, sig);
    } else if Inserting(h.pc) {
      InsertingFrame(h, sig);
    }
  }

  lemma LocatingFrame(h: Handler, sig: Signal)
    requires Locating(h.pc)
    ensures Admit(h, sig).Some? ==> Frame(h, Admit(h, sig).value)
  {
  }

  lemma InsertingFrame(h: Handler, sig: Signal)
    requires Inserting(h.pc)
    ensures Admit(h, sig).Some? ==> Frame(h, Admit(h, sig).value)
  {
  }

  lemma ServeFrame(h: Handler, sig: Signal)
    ensures Serve(h, sig).Some? ==> Frame(h, Serve(h, sig).value)
  {
    if Running(h.pc) {
      RunningFrame(h, sig);
    } else if Replying(h.pc) {
      ReplyingFrame(h, sig);
    }
  }

  lemma RunningFrame(h: Handler, sig: Signal)
    requires Running(h.pc)
    ensures Serve(h, sig).Some? ==> Frame(h, Serve(h, sig).value)
  {
  }

  lemma ReplyingFrame(h: Handler, sig: Signal)
    requires Replying(h.pc)
    ensures Serve(h, sig).Some? ==> Frame(h, Serve(h, sig).value)
  {
  }

  lemma RepeatFrame(h: Handler, sig: Signal)
    ensures Repeat(h, sig).Some? ==> Frame(h, Repeat(h, sig).value)
  {
    if Looking(h.pc) {
      LookingFrame(h, sig);
    } else if Showing(h.pc) {
      ShowingFrame(h, sig);
    }
  }

  lemma LookingFrame(h: Handler, sig: Signal)
    requires Looking(h.pc)
    ensures Repeat(h, sig).Some? ==> Frame(h, Repeat(h, sig).value)
  {
  }

  lemma ShowingFrame(h: Handler, sig: Signal)
    requires Showing(h.pc)
    ensures Repeat(h, sig).Some? ==> Frame(h, Repeat(h, sig).value)
  {
  }

  // ---------- what the connection sees ----------

  ghost predicate Chunks(ms: seq<Msg>) {
    forall i :: 0 <= i < |ms| ==> ms[i].Note?
  }

  /** An ack followed by chunks none of which is final. */
  ghost predicate Streaming(ms: seq<Msg>, messageId: string) {
    && 0 < |ms| && ms[0] == Ack(messageId) && Chunks(ms[1..])
    && forall i :: 0 < i < |ms| ==> !ms[i].chunk.final
  }

  /** One error response, or an ack followed by chunks of which exactly the last is final. */
  ghost predicate Complete(ms: seq<Msg>, messageId: string) {
    || (|ms| == 1 && ms[0].ErrorResponse?)
    || (|ms| >= 2 && Streaming(ms[..|ms| - 1], messageId) && ms[|ms| - 1].Note? && ms[|ms| - 1].chunk.final)
  }

  /** What can be seen of a trace that was cut short. */
  ghost predicate Partial(ms: seq<Msg>, messageId: string) {
    ms == [] || Streaming(ms, messageId) || Complete(ms, messageId)
  }

  ghost predicate AnswersOf(rs: seq<Row>, agentId: nat, messageId: string) {
    forall i :: 0 <= i < |rs| ==> rs[i].agentId == agentId && rs[i].parentId == messageId && rs[i].role != User
  }

  /** The chunks sent are those of `shown`, or one chunk of the run's own that stands alone. */
  ghost predicate Tells(h: Handler) {
    && AnswersOf(h.shown, h.agentId, h.req.messageId)
    && (h.shown != [] ==> !h.won && h.located)
    && (h.sent != [] && h.sent[0].ErrorResponse? ==> h.shown == [])
    && forall i :: 0 < i < |h.sent| ==>
         && h.sent[i].Note? && h.located
         && if h.shown != [] then i <= |h.shown| && h.sent[i].chunk == ReplayChunk(h.req.name, h.shown, i - 1)
            else |h.sent| == 2 && Alone(h, h.sent[i].chunk)
  }

  ghost predicate Alone(h: Handler, c: Chunk) {
    c.name == h.req.name && c.sequence == 0 && c.final && (c.messageId == "" ==> c.role == Error)
  }

  /** What holds of a run by itself, at each point it can have reached. */
  ghost predicate LocalInv(h: Handler) {
    && Rows(h)
    && Tells(h)
    && (h.located ==> Acceptable(h.req))
    && (h.won ==> h.located && h.userRow.Some?)
    && (h.executed ==> h.won)
    && (h.tried.Some? ==> h.won)
    && match h.pc
       case Decode => h.sent == [] && h.shown == [] && !h.won && h.userRow.None? && !h.located
       case Lookup => h.sent == [] && h.shown == [] && !h.won && h.userRow.None? && !h.located && Acceptable(h.req)
       case DrawUser => h.sent == [] && h.shown == [] && !h.won && h.userRow.None? && h.located
       case InsertUser(row) => h.sent == [] && h.shown == [] && !h.won && h.located && h.userRow == Some(row)
       case SendError(_) => h.sent == [] && h.shown == [] && !h.won
       case SendAck => h.sent == [] && h.won && !h.executed && h.tried.None?
       case Inspect => h.sent == [Ack(h.req.messageId)] && h.won && !h.executed && h.tried.None?
       case Exec => h.sent == [Ack(h.req.messageId)] && h.won && !h.executed && h.tried.None?
       case Executing => h.sent == [Ack(h.req.messageId)] && h.won && h.tried.None?
       case DrawReply(role, _) => h.sent == [Ack(h.req.messageId)] && h.won && h.tried.None? && role != User
       case InsertReply(row) => h.sent == [Ack(h.req.messageId)] && h.won && h.tried == Some(row)
       case SendLast(c) => h.sent == [Ack(h.req.messageId)] && h.shown == [] && Alone(h, c) && h.located
       case ListReplies => h.sent == [] && h.shown == [] && !h.won && h.located
       case SendDupAck => h.sent == [] && !h.won && h.located
       case Poll => h.sent == [Ack(h.req.messageId)] && h.shown == [] && !h.won && h.located
       case Replay(i) => i < |h.shown| && |h.sent| == i + 1 && h.sent[0] == Ack(h.req.messageId)
       case Done => Complete(h.sent, h.req.messageId)
       case Broken => Partial(h.sent, h.req.messageId)
       case Dead => Partial(h.sent, h.req.messageId)
  }

  /** The rows a run draws are the ones its request calls for. */
  ghost predicate Rows(h: Handler) {
    && (h.userRow.Some? ==>
          var u := h.userRow.value;
          u == UserRow(h, u.id, u.timestamp) && h.located)
    && (h.tried.Some? ==>
          var r := h.tried.value;
          && h.userRow.Some? && h.userRow.value.id < r.id && h.userRow.value.timestamp <= r.timestamp
          && r == ReplyRow(h, r.role, r.content, r.id, r.timestamp, r.messageId)
          && r.role != User && r.messageId != "")
  }

  lemma {:induction false} RepliesHolds(rows: seq<Row>, agentId: nat, parentId: string)
    requires forall i :: 0 <= i < |rows| ==> rows[i].agentId == agentId
    ensures AnswersOf(Replies(rows, parentId), agentId, parentId)
    ensures forall r :: r in Replies(rows, parentId) <==> r in rows && r.parentId == parentId && r.role != User
    ensures Sorted(rows) ==> Sorted(Replies(rows, parentId))
  {
    if rows != [] {
      var rest := rows[1..];
      RepliesHolds(rest, agentId, parentId);
      assert rows == [rows[0]] + rest;
      if Sorted(rows) {
        forall r | r in Replies(rest, parentId) ensures Before(rows[0], r) {
          var i :| 0 <= i < |rest| && rest[i] == r;
          assert rows[i + 1] == r;
        }
      }
    }
  }

  /** A drawn id is larger, and a drawn time not earlier, than what the run drew before. */
  ghost predicate DrawsForward(h: Handler, sig: Signal) {
    && (sig.Drawn? ==>
          && sig.newId != ""
          && (h.userRow.Some? ==> h.userRow.value.id < sig.id && h.userRow.value.timestamp <= sig.now))
    && (sig.Listed? ==> forall i :: 0 <= i < |sig.rows| ==> sig.rows[i].agentId == h.agentId)
  }

  lemma AdmitHolds(h: Handler, sig: Signal)
    requires LocalInv(h) && Admit(h, sig).Some?
    ensures LocalInv(Admit(h, sig).value)
  {
    if Locating(h.pc) {
      LocatingHolds(h, sig);
    } else if Inserting(h.pc) {
      InsertingHolds(h, sig);
    }
  }

  lemma LocatingHolds(h: Handler, sig: Signal)
    requires Locating(h.pc)
    requires LocalInv(h) && Admit(h, sig).Some?
    ensures LocalInv(Admit(h, sig).value)
  {
  }

  lemma InsertingHolds(h: Handler, sig: Signal)
    requires Inserting(h.pc)
    requires LocalInv(h) && Admit(h, sig).Some?
    ensures LocalInv(Admit(h, sig).value)
  {
    if h.pc.DrawUser? {
      DrawUserHolds(h, sig);
    } else if h.pc.InsertUser? {
      InsertUserHolds(h, sig);
    }
  }

  lemma DrawUserHolds(h: Handler, sig: Signal)
    requires h.pc.DrawUser?
    requires LocalInv(h) && Admit(h, sig).Some?
    ensures LocalInv(Admit(h, sig).value)
  {
  }

  lemma InsertUserHolds(h: Handler, sig: Signal)
    requires h.pc.InsertUser?
    requires LocalInv(h) && Admit(h, sig).Some?
    ensures LocalInv(Admit(h, sig).value)
  {
  }

  /** Chunks sent from `shown` and not yet all of them: an ack and no final chunk. */
  lemma ReplayStreams(h: Handler)
    requires Tells(h) && h.sent != [] && h.sent[0] == Ack(h.req.messageId) && |h.sent| <= |h.shown|
    ensures Streaming(h.sent, h.req.messageId)
  {
  }

  lemma SendAckHolds(h: Handler, ok: bool, pc: Pc)
    requires LocalInv(h) && h.sent == []
    ensures Tells(AfterSend(h, ok, Ack(h.req.messageId), pc))
    ensures !ok ==> LocalInv(AfterSend(h, ok, Ack(h.req.messageId), pc))
  {
  }

  lemma SendLastHolds(h: Handler, ok: bool, chunk: Chunk)
    requires LocalInv(h) && h.pc == SendLast(chunk)
    ensures LocalInv(AfterSend(h, ok, Note(chunk), Done))
  {
    var ms := h.sent + [Note(chunk)];
    assert ms[..1] == h.sent;
    assert Streaming(h.sent, h.req.messageId);
  }

  lemma SendReplayHolds(h: Handler, ok: bool)
    requires LocalInv(h) && h.pc.Replay?
    ensures var i := h.pc.next;
            var pc := if i + 1 == |h.shown| then Done else Replay(i + 1);
            LocalInv(AfterSend(h, ok, Note(ReplayChunk(h.req.name, h.shown, i)), pc))
  {
    ReplayStreams(h);
    if ok { SendReplayTells(h); }
  }

  lemma SendReplayTells(h: Handler)
    requires LocalInv(h) && h.pc.Replay? && Streaming(h.sent, h.req.messageId)
    ensures var i := h.pc.next;
            var pc := if i + 1 == |h.shown| then Done else Replay(i + 1);
            LocalInv(AfterSend(h, true, Note(ReplayChunk(h.req.name, h.shown, i)), pc))
  {
    var i := h.pc.next;
    var ms := h.sent + [Note(ReplayChunk(h.req.name, h.shown, i))];
    MoreTold(h, ms);
    assert ms[..i + 1] == h.sent;
  }

  lemma MoreTold(h: Handler, ms: seq<Msg>)
    requires Tells(h) && h.sent != [] && h.sent[0].Ack? && h.shown != [] && |h.sent| <= |h.shown|
    requires ms == h.sent + [Note(ReplayChunk(h.req.name, h.shown, |h.sent| - 1))]
    ensures forall k :: 0 < k < |ms| ==> ms[k] == Note(ReplayChunk(h.req.name, h.shown, k - 1))
    ensures ms[0] == h.sent[0]
  {
    forall k | 0 < k < |ms| ensures ms[k] == Note(ReplayChunk(h.req.name, h.shown, k - 1)) {
      if k < |h.sent| { assert ms[k] == h.sent[k]; }
    }
  }

  lemma ServeHolds(h: Handler, sig: Signal)
    requires LocalInv(h) && Serve(h, sig).Some? && DrawsForward(h, sig)
    ensures LocalInv(Serve(h, sig).value)
  {
    if h.pc.SendAck? {
      SendAckHolds(h, sig.ok, Inspect);
    } else if Running(h.pc) {
      RunningHolds(h, sig);
    } else if h.pc.SendLast? {
      SendLastHolds(h, sig.ok, h.pc.chunk);
    } else {
      ReplyingHolds(h, sig);
    }
  }

  lemma RunningHolds(h: Handler, sig: Signal)
    requires Running(h.pc) && !h.pc.SendAck?
    requires LocalInv(h) && Serve(h, sig).Some?
    ensures LocalInv(Serve(h, sig).value)
  {
  }

  lemma ReplyingHolds(h: Handler, sig: Signal)
    requires Replying(h.pc) && !h.pc.SendLast?
    requires LocalInv(h) && Serve(h, sig).Some? && DrawsForward(h, sig)
    ensures LocalInv(Serve(h, sig).value)
  {
  }

  lemma RepeatHolds(h: Handler, sig: Signal)
    requires LocalInv(h) && Repeat(h, sig).Some? && DrawsForward(h, sig)
    ensures LocalInv(Repeat(h, sig).value)
  {
    if h.pc.SendDupAck? {
      SendAckHolds(h, sig.ok, if h.shown == [] then Poll else Replay(0));
    } else if h.pc.Replay? {
      SendReplayHolds(h, sig.ok);
    } else {
      ListeningHolds(h, sig);
    }
  }

  lemma ListeningHolds(h: Handler, sig: Signal)
    requires h.pc.ListReplies? || h.pc.Poll?
    requires LocalInv(h) && Repeat(h, sig).Some? && DrawsForward(h, sig)
    ensures LocalInv(Repeat(h, sig).value)
  {
    if sig.Listed? { RepliesHolds(sig.rows, h.agentId, h.req.messageId); }
  }

  lemma AdvanceHolds(h: Handler, sig: Signal)
    requires LocalInv(h) && Advance(h, sig).Some? && DrawsForward(h, sig)
    ensures LocalInv(Advance(h, sig).value)
  {
    match h.pc
    case Decode | Lookup | DrawUser | InsertUser(_) | SendError(_) => AdmitHolds(h, sig);
    case ListReplies | SendDupAck | Poll | Replay(_) => RepeatHolds(h, sig);
    case _ => ServeHolds(h, sig);
  }
}

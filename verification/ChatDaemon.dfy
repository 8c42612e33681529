/**
 ChatHandler.Handle as code: the control flow of internal/daemon/chat.go over a shared
 world. Before each of its operations any number of other runs may move, agents may come
 and go, rows may be appended and time may pass. Every operation is one step of the
 transition system, so what is proved of all runs holds for this code.
 */
module ChatDaemon {
  import opened Basics
  import opened ChatStore
  import opened ChatProtocol
  import opened ChatSystem
  import opened ChatTheorems
  import opened ChatAnswers

  class World {
    var sys: Sys
    ghost var run: seq<Action>  // how it came about

    ghost predicate Valid()
      reads this
    {
      Legal(INIT, run) && sys == After(INIT, run)
    }

    /** The run `pid` has reached `pc` and not moved since. */
    ghost predicate At(pid: nat, h: Handler)
      reads this
    {
      Valid() && pid in sys.handlers && sys.handlers[pid] == h
    }

    constructor ()
      ensures Valid() && sys == INIT
    {
      sys, run := INIT, [];
    }

    method Act(a: Action)
      requires Valid() && Enabled(sys, a)
      modifies this
      ensures Valid() && sys == Apply(old(sys), a)
    {
      ghost var before := run;
      sys := Apply(sys, a);
      run := run + [a];
      assert run[..|run| - 1] == before;
    }

    /** Everyone else moves, as often and in whatever order; the run `pid` does not. */
    method Interfere(pid: nat)
      requires Valid() && pid in sys.handlers && pid < sys.nextPid
      modifies this
      ensures At(pid, old(sys.handlers[pid])) && pid < sys.nextPid
    {
      var moves: nat := *;
      while moves > 0
        invariant At(pid, old(sys.handlers[pid])) && pid < sys.nextPid
      {
        var a: Action := *;
        if a != Crash && !(a.Step? && a.pid == pid) && Enabled(sys, a) {
          Act(a);
        }
        moves := moves - 1;
      }
    }

    /** The run `pid` takes the step `sig`. */
    method Take(pid: nat, sig: Signal, commits: bool)
      requires Valid() && pid in sys.handlers && pid < sys.nextPid && Enabled(sys, Step(pid, sig, commits))
      modifies this
      ensures At(pid, Advance(old(sys.handlers[pid]), sig).value) && pid < sys.nextPid
    {
      Act(Step(pid, sig, commits));
    }
  }

  /** A run about to do its next operation. */
  ghost predicate Ready(w: World, pid: nat, h: Handler)
    reads w
  {
    w.At(pid, h) && pid < w.sys.nextPid
  }

  // ---------- operations ----------

  method Decoded(w: World, pid: nat, ghost h: Handler)
    requires Ready(w, pid, h) && h.pc == Decode
    modifies w
    ensures Ready(w, pid, Advance(h, Go).value)
  {
    w.Interfere(pid);
    w.Take(pid, Go, false);
  }

  /** send: exactly the message the protocol has come to, on the caller's connection. */
  method Send(w: World, pid: nat, msg: Msg, ghost h: Handler) returns (ok: bool)
    requires Ready(w, pid, h) && Advance(h, Sent(true)).Some?
    requires Advance(h, Sent(true)).value.sent == h.sent + [msg]
    modifies w
    ensures Advance(h, Sent(ok)).Some? && Ready(w, pid, Advance(h, Sent(ok)).value)
  {
    w.Interfere(pid);
    ok := *;
    assert Advance(h, Sent(ok)).Some?;
    w.Take(pid, Sent(ok), false);
  }

  method GetAgent(w: World, pid: nat, name: string, ghost h: Handler) returns (rec: Option<AgentRec>)
    requires Ready(w, pid, h) && h.pc == Lookup && h.req.name == name
    modifies w
    ensures Ready(w, pid, Advance(h, Found(rec)).value)
  {
    w.Interfere(pid);
    var fails: bool := *;
    rec := if fails || name !in w.sys.store.agents then None else Some(w.sys.store.agents[name]);
    w.Take(pid, Found(rec), false);
  }

  /** store.NewID and time.Now. */
  method Draw(w: World, pid: nat, ghost h: Handler) returns (id: nat, now: nat, newId: string)
    requires Ready(w, pid, h) && (h.pc == DrawUser || h.pc.DrawReply?)
    modifies w
    ensures Ready(w, pid, Advance(h, Drawn(id, now, newId)).value)
  {
    w.Interfere(pid);
    newId := *;
    if newId == "" { newId := "1"; }
    id, now := w.sys.nextRow, w.sys.clock;
    w.Take(pid, Drawn(id, now, newId), false);
  }

  method InsertChatMessage(w: World, pid: nat, row: Row, ghost h: Handler) returns (res: InsertResult, err: string)
    requires Ready(w, pid, h) && IsInsert(h.pc) && h.pc.row == row
    modifies w
    ensures Ready(w, pid, Advance(h, Inserted(res, err)).value)
  {
    w.Interfere(pid);
    var fails: bool, loses: bool := *, *;
    err := *;
    var verdict := InsertVerdict(w.sys.store, row);
    res := if fails then Failed else verdict;
    var commits := res == Stored || (fails && loses && verdict == Stored);
    w.Take(pid, Inserted(res, err), commits);
  }

  lemma ListingAdvances(h: Handler, sig: Signal)
    requires (h.pc == ListReplies || h.pc == Poll) && (sig.Listed? || sig.ListFailed?)
    ensures Advance(h, sig).Some?
  {
  }

  method ListHistory(w: World, pid: nat, agentId: nat, ghost h: Handler) returns (rows: Option<seq<Row>>, err: string)
    requires Ready(w, pid, h) && h.agentId == agentId && (h.pc == ListReplies || h.pc == Poll)
    modifies w
    ensures Ready(w, pid, Advance(h, if rows.Some? then Listed(rows.value) else ListFailed(err)).value)
  {
    w.Interfere(pid);
    err := *;
    var fails: bool := *;
    rows := if fails then None else Some(ListChatHistory(w.sys.store, agentId, 0));
    var sig := if rows.Some? then Listed(rows.value) else ListFailed(err);
    ListingAdvances(h, sig);
    w.Take(pid, sig, false);
  }

  method InspectStatus(w: World, pid: nat, ghost h: Handler) returns (out: Inspection)
    requires Ready(w, pid, h) && h.pc == Inspect
    modifies w
    ensures Ready(w, pid, Advance(h, Inspected(out)).value)
  {
    w.Interfere(pid);
    out := *;
    w.Take(pid, Inspected(out), false);
  }

  /** ExecIn takes its time: others move while the command runs. */
  method ExecIn(w: World, pid: nat, ghost h: Handler) returns (res: ExecOutcome)
    requires Ready(w, pid, h) && h.pc == Exec
    modifies w
    ensures Ready(w, pid, Advance(Advance(h, ExecStarted).value, ExecEnded(res)).value)
  {
    w.Interfere(pid);
    w.Take(pid, ExecStarted, false);
    res := ExecOutput(w, pid, Advance(h, ExecStarted).value);
  }

  method ExecOutput(w: World, pid: nat, ghost h: Handler) returns (res: ExecOutcome)
    requires Ready(w, pid, h) && h.pc == Executing
    modifies w
    ensures Ready(w, pid, Advance(h, ExecEnded(res)).value)
  {
    w.Interfere(pid);
    res := *;
    w.Take(pid, ExecEnded(res), false);
  }

  method GiveUp(w: World, pid: nat, ghost h: Handler) returns (err: string)
    requires Ready(w, pid, h) && h.pc == Poll
    modifies w
    ensures Ready(w, pid, Advance(h, TimedOut(err)).value)
  {
    w.Interfere(pid);
    err := *;
    assert Advance(h, TimedOut(err)).Some?;
    w.Take(pid, TimedOut(err), false);
  }

  // ---------- the handler ----------

  /** A run that ended with a send that worked, or with one that failed. */
  ghost predicate Ended(w: World, pid: nat, req: Request, ok: bool)
    reads w
  {
    && w.Valid() && pid in w.sys.handlers && w.sys.handlers[pid].req == req
    && w.sys.handlers[pid].pc == if ok then Done else Broken
  }

  method SendErrorResponse(w: World, pid: nat, code: int, ghost h: Handler) returns (ok: bool)
    requires Ready(w, pid, h) && h.pc == SendError(code)
    modifies w
    ensures Ended(w, pid, h.req, ok)
  {
    ok := Send(w, pid, ErrorResponse(code), h);
  }

  method SendFinalChunk(w: World, pid: nat, chunk: Chunk, ghost h: Handler) returns (ok: bool)
    requires Ready(w, pid, h) && h.pc == SendLast(chunk)
    modifies w
    ensures Ended(w, pid, h.req, ok)
  {
    ok := Send(w, pid, Note(chunk), h);
  }

  /** persistReplyID and the chunk it changes when the reply cannot be stored. */
  method PersistReply(w: World, pid: nat, req: Request, agentId: nat, role: Role, text: Text, ghost h: Handler)
    returns (chunk: Chunk, ghost g: Handler)
    requires Ready(w, pid, h) && h.pc == DrawReply(role, text) && h.req == req && h.agentId == agentId
    modifies w
    ensures Ready(w, pid, g) && g.pc == SendLast(chunk) && g.req == req
  {
    chunk := Chunk(req.name, role, text, 0, true, "");
    var id, now, newId := Draw(w, pid, h);
    var row := Row(id, agentId, role, text, req.messageId, newId, 0, now);
    g := Advance(h, Drawn(id, now, newId)).value;
    chunk, g := InsertReplyRow(w, pid, row, chunk, g);
  }

  method InsertReplyRow(w: World, pid: nat, row: Row, chunk0: Chunk, ghost h: Handler)
    returns (chunk: Chunk, ghost g: Handler)
    requires Ready(w, pid, h) && h.pc == InsertReply(row)
    requires chunk0 == Chunk(h.req.name, row.role, row.content, 0, true, "")
    modifies w
    ensures Ready(w, pid, g) && g.pc == SendLast(chunk) && g.req == h.req
  {
    chunk, g := chunk0, h;
    var newId := row.messageId;
    var res, err := InsertChatMessage(w, pid, row, g);
    if res == Stored {
      chunk := chunk.(messageId := newId);
    } else {
      chunk := chunk.(role := Error, text := Unavailable(err), messageId := "");
    }
    g := Advance(g, Inserted(res, err)).value;
  }

  /** The exec and the reply made of its result. */
  method RunAgent(w: World, pid: nat, ghost h: Handler) returns (role: Role, text: Text, ghost g: Handler)
    requires Ready(w, pid, h) && h.pc == Exec
    modifies w
    ensures Ready(w, pid, g) && g.pc == DrawReply(role, text) && g.req == h.req && g.agentId == h.agentId
  {
    var res := ExecIn(w, pid, h);
    g := Advance(Advance(h, ExecStarted).value, ExecEnded(res)).value;
    role := Error;
    match res {
      case ExecFailed(err) => text := Said(err);
      case Exited(code, stdout, stderr) =>
        if code != 0 {
          var errText := stderr;
          if errText == "" { errText := stdout; }
          text := PiExited(code, errText);
        } else {
          var said := stdout;
          if said == "" { said := stderr; }
          role, text := ChatStore.Agent, Said(said);
        }
    }
  }

  /** The readiness check, and the exec if the container runs. */
  method CheckAndRun(w: World, pid: nat, name: string, ghost h: Handler)
    returns (role: Role, text: Text, ghost g: Handler)
    requires Ready(w, pid, h) && h.pc == Inspect && h.req.name == name
    modifies w
    ensures Ready(w, pid, g) && g.pc == DrawReply(role, text) && g.req == h.req && g.agentId == h.agentId
  {
    var out := InspectStatus(w, pid, h);
    g := Advance(h, Inspected(out)).value;
    if out == NoClient {
      role, text := Error, NoDocker;
    } else if out != State("running") {
      role, text := Error, NotRunning(if out.State? then out.status else "unknown", name);
    } else {
      role, text, g := RunAgent(w, pid, g);
    }
  }

  /** The part of Handle that follows a stored user row. */
  method Answer(w: World, pid: nat, req: Request, agentId: nat, ghost h: Handler) returns (ok: bool)
    requires Ready(w, pid, h) && h.pc == SendAck && h.req == req && h.agentId == agentId
    modifies w
    ensures Ended(w, pid, req, ok)
  {
    ok := Send(w, pid, Ack(req.messageId), h);
    ghost var g := Advance(h, Sent(ok)).value;
    if !ok { return; }
    var role, text;
    role, text, g := CheckAndRun(w, pid, req.name, g);
    var chunk;
    chunk, g := PersistReply(w, pid, req, agentId, role, text, g);
    ok := SendFinalChunk(w, pid, chunk, g);
  }

  /** One look at the stored replies: `over` when the wait ends with it. */
  method PollOnce(w: World, pid: nat, req: Request, agentId: nat, ghost h: Handler)
    returns (over: bool, replies: seq<Row>, err: string, ghost g: Handler)
    requires Ready(w, pid, h) && h.pc == Poll && h.req == req && h.agentId == agentId
    modifies w
    ensures Ready(w, pid, g) && g.req == req && g.agentId == agentId
    ensures if replies != [] then over && g.pc == Replay(0) && g.shown == replies
            else if over then g.pc == SendLast(Chunk(req.name, Error, NoReply(err), 0, true, ""))
            else g.pc == Poll
  {
    var rows;
    rows, err := ListHistory(w, pid, agentId, h);
    if rows.None? {
      g := Advance(h, ListFailed(err)).value;
      over, replies := true, [];
    } else {
      g := Advance(h, Listed(rows.value)).value;
      replies := Replies(rows.value, req.messageId);
      over := replies != [];
    }
  }

  /** waitForPersistedReplies: polls until there are replies, a failure, or no time left. */
  method WaitForReplies(w: World, pid: nat, req: Request, agentId: nat, polls: nat, ghost h: Handler)
    returns (replies: seq<Row>, err: string, ghost g: Handler)
    requires Ready(w, pid, h) && h.pc == Poll && h.req == req && h.agentId == agentId
    modifies w
    ensures Ready(w, pid, g) && g.req == req
    ensures if replies == [] then g.pc == SendLast(Chunk(req.name, Error, NoReply(err), 0, true, ""))
            else g.pc == Replay(0) && g.shown == replies
  {
    g := h;
    for i := 0 to polls
      invariant Ready(w, pid, g) && g.pc == Poll && g.req == req && g.agentId == agentId
    {
      var over;
      over, replies, err, g := PollOnce(w, pid, req, agentId, g);
      if over { return; }
    }
    replies := [];
    err := GiveUp(w, pid, g);
    g := Advance(g, TimedOut(err)).value;
  }

  method FindReplies(w: World, pid: nat, messageId: string, agentId: nat, ghost h: Handler)
    returns (replies: Option<seq<Row>>, ghost g: Handler)
    requires Ready(w, pid, h) && h.pc == ListReplies && h.agentId == agentId && h.req.messageId == messageId
    modifies w
    ensures Ready(w, pid, g) && g.req == h.req && g.agentId == agentId && g.sent == h.sent
    ensures if replies.None? then g.pc == SendError(HISTORY_UNAVAILABLE)
            else g.pc == SendDupAck && g.shown == replies.value
  {
    var rows, err := ListHistory(w, pid, agentId, h);
    if rows.None? {
      g := Advance(h, ListFailed(err)).value;
      replies := None;
    } else {
      g := Advance(h, Listed(rows.value)).value;
      replies := Some(Replies(rows.value, messageId));
    }
  }

  method AckDuplicate(w: World, pid: nat, messageId: string, ghost h: Handler) returns (ok: bool, ghost g: Handler)
    requires Ready(w, pid, h) && h.pc == SendDupAck && h.req.messageId == messageId
    modifies w
    ensures Ready(w, pid, g) && g.req == h.req && g.agentId == h.agentId && g.shown == h.shown
    ensures g.pc == if !ok then Broken else if h.shown == [] then Poll else Replay(0)
  {
    ok := Send(w, pid, Ack(messageId), h);
    g := Advance(h, Sent(ok)).value;
  }

  /** replayDuplicateChat */
  method ReplayDuplicate(w: World, pid: nat, req: Request, agentId: nat, polls: nat, ghost h: Handler)
    returns (ok: bool)
    requires Ready(w, pid, h) && h.pc == ListReplies && h.req == req && h.agentId == agentId
    modifies w
    ensures Ended(w, pid, req, ok)
  {
    var found;
    ghost var g;
    found, g := FindReplies(w, pid, req.messageId, agentId, h);
    if found.None? {
      ok := SendErrorResponse(w, pid, HISTORY_UNAVAILABLE, g);
      return;
    }
    var replies := found.value;
    ok, g := AckDuplicate(w, pid, req.messageId, g);
    if !ok { return; }
    if replies == [] {
      var why;
      replies, why, g := WaitForReplies(w, pid, req, agentId, polls, g);
      if replies == [] {
        ok := SendFinalChunk(w, pid, Chunk(req.name, Error, NoReply(why), 0, true, ""), g);
        return;
      }
    }
    ok := SendReplies(w, pid, req, replies, g);
  }

  method SendReply(w: World, pid: nat, chunk: Chunk, i: nat, ghost h: Handler) returns (ok: bool, ghost g: Handler)
    requires Ready(w, pid, h) && h.pc == Replay(i) && i < |h.shown| && chunk == ReplayChunk(h.req.name, h.shown, i)
    modifies w
    ensures Ready(w, pid, g) && g.req == h.req && g.shown == h.shown
    ensures g.pc == if !ok then Broken else if i + 1 == |h.shown| then Done else Replay(i + 1)
  {
    ok := Send(w, pid, Note(chunk), h);
    g := Advance(h, Sent(ok)).value;
  }

  method SendReplies(w: World, pid: nat, req: Request, replies: seq<Row>, ghost h: Handler) returns (ok: bool)
    requires Ready(w, pid, h) && h.pc == Replay(0) && h.req == req && h.shown == replies && replies != []
    modifies w
    ensures Ended(w, pid, req, ok)
  {
    ghost var g := h;
    ok := true;
    for i := 0 to |replies|
      invariant ok && Ready(w, pid, g) && g.req == req && g.shown == replies
      invariant g.pc == if i == |replies| then Done else Replay(i)
    {
      var row := replies[i];
      var chunk := Chunk(req.name, row.role, row.content, row.sequence, i == |replies| - 1, row.messageId);
      ok, g := SendReply(w, pid, chunk, i, g);
      if !ok { return; }
    }
  }

  /**
   Handle: ends with its last send, whatever the others do, and if its sends worked it
   has sent a complete answer, and the one that what it was told calls for.
   */
  method Handle(w: World, pid: nat, req: Request, polls: nat) returns (ok: bool)
    requires Ready(w, pid, Start(req))
    modifies w
    ensures Ended(w, pid, req, ok)
    ensures ok ==> Complete(w.sys.handlers[pid].sent, req.messageId)
    ensures ok ==> Answers(NotesOf(w.run, pid), w.sys.handlers[pid])
  {
    ok := Process(w, pid, req, polls);
    TraceHasOneShape(w.run, pid);
    if ok { AnswerFollowsNotes(w.run, pid); }
  }

  method Process(w: World, pid: nat, req: Request, polls: nat) returns (ok: bool)
    requires Ready(w, pid, Start(req))
    modifies w
    ensures Ended(w, pid, req, ok)
  {
    ghost var h := Start(req);
    Decoded(w, pid, h);
    h := Advance(h, Go).value;
    if !req.decodes || req.name == "" || req.content == "" || req.messageId == "" {
      ok := SendErrorResponse(w, pid, INVALID_PARAMS, h);
      return;
    }
    var rec := GetAgent(w, pid, req.name, h);
    h := Advance(h, Found(rec)).value;
    if rec.None? {
      ok := SendErrorResponse(w, pid, AGENT_NOT_FOUND, h);
      return;
    }
    if rec.value.containerId == "" {
      ok := SendErrorResponse(w, pid, AGENT_NOT_RUNNING, h);
      return;
    }
    ok := Accept(w, pid, req, rec.value.id, polls, h);
  }

  /** Handle from the insert of the user row on. */
  method Accept(w: World, pid: nat, req: Request, agentId: nat, polls: nat, ghost h: Handler) returns (ok: bool)
    requires Ready(w, pid, h) && h.pc == DrawUser && h.req == req && h.agentId == agentId
    modifies w
    ensures Ended(w, pid, req, ok)
  {
    var id, now, newId := Draw(w, pid, h);
    var row := Row(id, agentId, User, Said(req.content), req.parentId, req.messageId, 0, now);
    ghost var g := Advance(h, Drawn(id, now, newId)).value;
    var res, err := InsertChatMessage(w, pid, row, g);
    g := Advance(g, Inserted(res, err)).value;
    match res {
      case NameTaken(_) => ok := ReplayDuplicate(w, pid, req, agentId, polls, g);
      case Failed => ok := SendErrorResponse(w, pid, HISTORY_UNAVAILABLE, g);
      case Stored => ok := Answer(w, pid, req, agentId, g);
    }
  }
}

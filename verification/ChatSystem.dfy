/**
 Any number of chat handlers over one database, with history appends, agent creation,
 update and deletion, crashes of the daemon and the passing of time in between.

 The handlers share nothing but the database. A restart needs no step of its own: the
 database is what it was and new requests may arrive.
 */
module ChatSystem {
  import opened Basics
  import opened ChatStore
  import opened ChatProtocol

  /** The agent row and the message_id: what an exec is for. */
  type Key = (nat, string)

  function KeyOf(row: Row): Key {
    (row.agentId, row.messageId)
  }

  /** Who wrote a row: the run of a handler, or agent.chat.history.append. */
  datatype Writer = Handled(pid: nat) | Appended

  datatype Claim = Claim(row: Row, writer: Writer)

  /**
   `claims` keeps every row ever stored, `execs` every exec ever started and `names`
   the name every agent id was created under; the daemon itself does not have them.
   */
  datatype Sys = Sys(
    store: Store,
    handlers: map<nat, Handler>,
    claims: map<Key, Claim>,
    execs: multiset<Key>,
    names: map<nat, string>,
    nextPid: nat,
    nextRow: nat,
    nextAgent: nat,
    clock: nat)

  const INIT := Sys(Store(map[], []), map[], map[], multiset{}, map[], 0, 0, 0, 0)

  datatype Action =
    | Step(pid: nat, sig: Signal, commits: bool)
    | Arrive(req: Request)
    | CreateAgent(name: string, containerId: string)
    | UpdateAgent(name: string, containerId: string)
    | RemoveAgent(name: string)
    | Append(name: string, role: Role, content: string, parentId: string, messageId: string, sequence: int)
    | Crash
    | Tick

  predicate IsInsert(pc: Pc) {
    pc.InsertUser? || pc.InsertReply?
  }

  /** The signals the database, the clock and the id source can give a run at this moment. */
  predicate Allowed(s: Sys, h: Handler, sig: Signal, commits: bool) {
    match sig
    case Found(rec) =>
      !commits && (rec == None || (h.req.name in s.store.agents && rec == Some(s.store.agents[h.req.name])))
    case Drawn(id, now, newId) => !commits && id == s.nextRow && now == s.clock && newId != ""
    case Inserted(res, _) => IsInsert(h.pc) && InsertAllowed(s.store, h.pc.row, res, commits)
    case Listed(rows) => !commits && rows == ListChatHistory(s.store, h.agentId, 0)
    case _ => !commits
  }

  function AppendedRow(s: Sys, a: Action): Row
    requires a.Append? && a.name in s.store.agents
  {
    Row(s.nextRow, s.store.agents[a.name].id, a.role, Said(a.content), a.parentId, a.messageId, a.sequence, s.clock)
  }

  predicate Enabled(s: Sys, a: Action) {
    match a
    case Step(pid, sig, commits) =>
      && pid in s.handlers && Advance(s.handlers[pid], sig).Some? && Allowed(s, s.handlers[pid], sig, commits)
    case Arrive(_) => true
    case CreateAgent(name, _) => name !in s.store.agents
    case UpdateAgent(name, _) => name in s.store.agents
    case RemoveAgent(name) => name in s.store.agents
    case Append(name, _, content, _, messageId, _) =>
      && content != "" && messageId != "" && name in s.store.agents
      && InsertVerdict(s.store, AppendedRow(s, a)) == Stored
    case Crash => true
    case Tick => true
  }

  /** Stores a row. */
  function Commit(s: Sys, row: Row, writer: Writer): Sys {
    s.(store := Insert(s.store, row), claims := s.claims[KeyOf(row) := Claim(row, writer)])
  }

  /** What a handler's signal does to everything but the handler. */
  function Effect(s: Sys, pid: nat, sig: Signal, commits: bool): Sys
    requires pid in s.handlers && Allowed(s, s.handlers[pid], sig, commits)
  {
    match sig
    case Inserted(_, _) => if commits then Commit(s, s.handlers[pid].pc.row, Handled(pid)) else s
    case Drawn(_, _, _) => s.(nextRow := s.nextRow + 1)
    case ExecStarted => s.(execs := s.execs + multiset{(s.handlers[pid].agentId, s.handlers[pid].req.messageId)})
    case _ => s
  }

  /** A crash ends every run; what was sent stays sent. */
  function Killed(h: Handler): Handler {
    if h.pc == Done || h.pc == Broken then h else h.(pc := Dead)
  }

  function Apply(s: Sys, a: Action): Sys
    requires Enabled(s, a)
  {
    match a
    case Step(pid, sig, commits) =>
      Effect(s, pid, sig, commits).(handlers := s.handlers[pid := Advance(s.handlers[pid], sig).value])
    case Arrive(req) => s.(handlers := s.handlers[s.nextPid := Start(req)], nextPid := s.nextPid + 1)
    case CreateAgent(name, containerId) =>
      s.(store := s.store.(agents := s.store.agents[name := AgentRec(s.nextAgent, containerId)]),
         names := s.names[s.nextAgent := name],
         nextAgent := s.nextAgent + 1)
    case UpdateAgent(name, containerId) =>
      s.(store := s.store.(agents := s.store.agents[name := s.store.agents[name].(containerId := containerId)]))
    case RemoveAgent(name) => s.(store := DeleteAgent(s.store, name))
    case Append(_, _, _, _, _, _) => Commit(s, AppendedRow(s, a), Appended).(nextRow := s.nextRow + 1)
    case Crash => s.(handlers := map pid | pid in s.handlers :: Killed(s.handlers[pid]))
    case Tick => s.(clock := s.clock + 1)
  }

  // ---------- runs ----------

  /** From `s` the actions can be taken one after the other. */
  predicate Legal(s: Sys, acts: seq<Action>)
    decreases |acts|, 0
  {
    acts == [] || (Legal(s, acts[..|acts| - 1]) && Enabled(After(s, acts[..|acts| - 1]), acts[|acts| - 1]))
  }

  function After(s: Sys, acts: seq<Action>): Sys
    requires Legal(s, acts)
    decreases |acts|, 1
  {
    if acts == [] then s else Apply(After(s, acts[..|acts| - 1]), acts[|acts| - 1])
  }

  // ---------- the invariant ----------

  ghost predicate AgentsInv(s: Sys) {
    && (forall name :: name in s.store.agents ==>
          var id := s.store.agents[name].id;
          id in s.names && s.names[id] == name)
    && forall id :: id in s.names ==> id < s.nextAgent
  }

  /** The table holds the claims of the agents that still exist, and nothing else. */
  ghost predicate RowsInv(s: Sys) {
    && Distinct(s.store.rows)
    && (forall r :: r in s.store.rows ==>
          KeyOf(r) in s.claims && s.claims[KeyOf(r)].row == r && Live(s.store, r.agentId))
    && (forall k :: k in s.claims ==>
          var r := s.claims[k].row;
          KeyOf(r) == k && r.messageId != "" && r.agentId < s.nextAgent && r.id < s.nextRow && r.timestamp <= s.clock
          && (r in s.store.rows || !Live(s.store, r.agentId)))
  }

  ghost predicate Known(claims: map<Key, Claim>, messageId: string) {
    exists k :: k in claims && k.1 == messageId
  }

  /** A chunk that carries a message_id shows a stored row. */
  ghost predicate Shown(claims: map<Key, Claim>, h: Handler, c: Chunk) {
    c.messageId != "" ==>
      && (h.agentId, c.messageId) in claims
      && var r := claims[(h.agentId, c.messageId)].row;
         r.role == c.role && r.content == c.text && r.sequence == c.sequence
         && r.parentId == h.req.messageId && r.role != User
  }

  ghost predicate AllStored(claims: map<Key, Claim>, rs: seq<Row>) {
    forall i :: 0 <= i < |rs| ==> KeyOf(rs[i]) in claims && claims[KeyOf(rs[i])].row == rs[i]
  }

  ghost predicate AllShown(claims: map<Key, Claim>, h: Handler) {
    forall i :: 0 <= i < |h.sent| && h.sent[i].Note? ==> Shown(claims, h, h.sent[i].chunk)
  }

  ghost predicate IsRepeat(pc: Pc) {
    pc.ListReplies? || pc.SendDupAck? || pc.Poll? || pc.Replay?
  }

  /** What ties one run to the rest of the system. Everything in it survives growth of the rest. */
  ghost predicate Tied(s: Sys, pid: nat, h: Handler) {
    && (h.located ==> h.agentId in s.names && s.names[h.agentId] == h.req.name)
    && (h.userRow.Some? ==> h.userRow.value.id < s.nextRow && h.userRow.value.timestamp <= s.clock)
    && (h.tried.Some? ==> h.tried.value.id < s.nextRow && h.tried.value.timestamp <= s.clock)
    && (h.won ==>
          && h.userRow.Some?
          && (h.agentId, h.req.messageId) in s.claims
          && s.claims[(h.agentId, h.req.messageId)] == Claim(h.userRow.value, Handled(pid)))
    && (IsRepeat(h.pc) || Ack(h.req.messageId) in h.sent ==> Known(s.claims, h.req.messageId))
    && AllShown(s.claims, h)
    && (h.pc.SendLast? ==> Shown(s.claims, h, h.pc.chunk))
    && AllStored(s.claims, h.shown) && Sorted(h.shown)
  }

  ghost predicate HandlersInv(s: Sys) {
    forall pid :: pid in s.handlers ==> pid < s.nextPid && LocalInv(s.handlers[pid]) && Tied(s, pid, s.handlers[pid])
  }

  /** A row a handler wrote is its user row, or its one reply. */
  ghost predicate WrittenBy(h: Handler, r: Row) {
    if r.role == User then h.userRow == Some(r) else h.tried == Some(r)
  }

  ghost predicate WritersInv(s: Sys) {
    forall k :: k in s.claims && s.claims[k].writer.Handled? ==>
      s.claims[k].writer.pid in s.handlers && WrittenBy(s.handlers[s.claims[k].writer.pid], s.claims[k].row)
  }

  /** An exec was started by the run that stored the user row, and by it once. */
  ghost predicate ExecsInv(s: Sys) {
    forall k :: k in s.execs ==> s.execs[k] == 1 && ExecKnown(s, k)
  }

  ghost predicate ExecKnown(s: Sys, k: Key) {
    && k in s.claims && s.claims[k].writer.Handled?
    && var pid := s.claims[k].writer.pid;
       pid in s.handlers && s.handlers[pid].executed && (s.handlers[pid].agentId, s.handlers[pid].req.messageId) == k
  }

  ghost predicate Inv(s: Sys) {
    AgentsInv(s) && RowsInv(s) && HandlersInv(s) && WritersInv(s) && ExecsInv(s)
  }

  /** `t` knows everything `s` knows. */
  ghost predicate Grows(s: Sys, t: Sys) {
    && (forall k :: k in s.claims ==> k in t.claims && t.claims[k] == s.claims[k])
    && (forall i :: i in s.names ==> i in t.names && t.names[i] == s.names[i])
    && s.nextRow <= t.nextRow && s.clock <= t.clock && s.nextPid <= t.nextPid && s.nextAgent <= t.nextAgent
  }

  lemma TiedStays(s: Sys, t: Sys, pid: nat, h: Handler)
    requires Grows(s, t) && Tied(s, pid, h)
    ensures Tied(t, pid, h)
  {
    if Known(s.claims, h.req.messageId) {
      var k :| k in s.claims && k.1 == h.req.messageId;
      assert k in t.claims;
    }
  }

  // ---------- preservation ----------

  lemma StorableIsNew(st: Store, row: Row)
    requires InsertVerdict(st, row) == Stored
    ensures Live(st, row.agentId)
    ensures forall r :: r in st.rows ==> r.messageId != row.messageId && r.id != row.id
  {
    forall r | r in st.rows ensures r.messageId != row.messageId && r.id != row.id {
      var i :| 0 <= i < |st.rows| && st.rows[i] == r;
    }
  }

  /** A row that may be stored has a key that was never claimed before: agents do not come back. */
  lemma CommitKeepsRows(s: Sys, row: Row, writer: Writer)
    requires AgentsInv(s) && RowsInv(s) && InsertVerdict(s.store, row) == Stored
    requires row.id < s.nextRow && row.timestamp <= s.clock && row.messageId != ""
    ensures KeyOf(row) !in s.claims
    ensures AgentsInv(Commit(s, row, writer)) && RowsInv(Commit(s, row, writer))
    ensures Grows(s, Commit(s, row, writer))
  {
    StorableIsNew(s.store, row);
    assert KeyOf(row) in s.claims ==> s.claims[KeyOf(row)].row.messageId == row.messageId;
    assert KeyOf(row) !in s.claims;
    var t := Commit(s, row, writer);
    forall r ensures r in t.store.rows <==> r == row || r in s.store.rows {
    }
    MoreDistinct(s.store.rows, row);
    forall id ensures Live(t.store, id) <==> Live(s.store, id) {
      SameAgents(s.store, t.store, id);
    }
    var name :| name in s.store.agents && s.store.agents[name].id == row.agentId;
    assert row.agentId < s.nextAgent;
  }

  lemma MoreDistinct(rows: seq<Row>, row: Row)
    requires Distinct(rows) && forall r :: r in rows ==> r.messageId != row.messageId && r.id != row.id
    ensures Distinct(rows + [row])
  {
    var more := rows + [row];
    forall i, j | 0 <= i < j < |more| ensures more[i].id != more[j].id && more[i].messageId != more[j].messageId {
      assert more[i] in rows;
    }
  }

  lemma SameAgents(st: Store, st': Store, id: nat)
    requires st.agents == st'.agents
    ensures Live(st, id) <==> Live(st', id)
  {
  }

  /** The row a run is about to insert was drawn earlier. */
  lemma InsertedRowFits(s: Sys, pid: nat, h: Handler)
    requires LocalInv(h) && Tied(s, pid, h) && IsInsert(h.pc)
    ensures h.pc.row.id < s.nextRow && h.pc.row.timestamp <= s.clock && h.pc.row.messageId != ""
  {
  }

  lemma EffectKeepsRows(s: Sys, pid: nat, sig: Signal, commits: bool)
    requires Inv(s) && Enabled(s, Step(pid, sig, commits))
    ensures var t := Effect(s, pid, sig, commits);
            AgentsInv(t) && RowsInv(t) && Grows(s, t) && t.nextPid == s.nextPid && t.handlers == s.handlers
    ensures commits ==> KeyOf(s.handlers[pid].pc.row) !in s.claims
  {
    if commits {
      var row := s.handlers[pid].pc.row;
      InsertedRowFits(s, pid, s.handlers[pid]);
      CommitKeepsRows(s, row, Handled(pid));
      assert Effect(s, pid, sig, commits) == Commit(s, row, Handled(pid));
    }
  }

  /** What a run has drawn, won and done stays as it is. */
  lemma AdvanceRemembers(h: Handler, sig: Signal)
    requires LocalInv(h) && Advance(h, sig).Some?
    ensures Remembers(h, Advance(h, sig).value)
  {
    var g := Advance(h, sig).value;
    AdvanceFrame(h, sig);
    if h.pc.Exec? { ExecRemembers(h, sig); }
    FramedRemembers(h, g);
  }

  ghost predicate Remembers(h: Handler, g: Handler) {
    && g.req == h.req
    && (h.located ==> g.located && g.agentId == h.agentId)
    && (h.userRow.Some? ==> g.userRow == h.userRow)
    && (h.tried.Some? ==> g.tried == h.tried)
    && (h.won ==> g.won) && (h.executed ==> g.executed)
    && (h.shown != [] ==> g.shown == h.shown)
  }

  lemma FramedRemembers(h: Handler, g: Handler)
    requires LocalInv(h) && Frame(h, g) && (h.pc.Exec? ==> g.executed)
    ensures Remembers(h, g)
  {
  }

  lemma ExecRemembers(h: Handler, sig: Signal)
    requires h.pc.Exec? && Advance(h, sig).Some?
    ensures Advance(h, sig).value.executed
  {
  }

  /** Whatever makes an insert report a taken message_id is a stored row. */
  lemma TakenIsKnown(s: Sys, row: Row)
    requires RowsInv(s) && InsertVerdict(s.store, row).NameTaken?
    ensures Holds(s.claims, InsertVerdict(s.store, row).holder, row.messageId)
  {
    assert InsertVerdict(s.store, row).holder in s.store.rows;
  }

  /** `holder` was stored and has this message_id. */
  ghost predicate Holds(claims: map<Key, Claim>, holder: Row, messageId: string) {
    KeyOf(holder) in claims && claims[KeyOf(holder)].row == holder && holder.messageId == messageId
  }

  /** The replies found in a listing are stored rows, in list order. */
  lemma RepliesAreStored(s: Sys, agentId: nat, messageId: string)
    requires RowsInv(s)
    ensures var rows := ListChatHistory(s.store, agentId, 0);
            && (forall i :: 0 <= i < |rows| ==> rows[i].agentId == agentId)
            && AllStored(s.claims, Replies(rows, messageId)) && Sorted(Replies(rows, messageId))
  {
    var rows := ListChatHistory(s.store, agentId, 0);
    SortedOfHolds(s.store.rows, agentId);
    forall i | 0 <= i < |rows| ensures rows[i].agentId == agentId {
      assert rows[i] in rows;
    }
    RepliesHolds(rows, agentId, messageId);
    forall i | 0 <= i < |Replies(rows, messageId)|
      ensures var r := Replies(rows, messageId)[i]; KeyOf(r) in s.claims && s.claims[KeyOf(r)].row == r
    {
      assert Replies(rows, messageId)[i] in Replies(rows, messageId);
      assert Replies(rows, messageId)[i] in s.store.rows;
    }
  }

  lemma SignalFits(s: Sys, pid: nat, sig: Signal, commits: bool)
    requires Inv(s) && Enabled(s, Step(pid, sig, commits))
    ensures DrawsForward(s.handlers[pid], sig)
  {
    if sig.Listed? { RepliesAreStored(s, s.handlers[pid].agentId, ""); }
  }

  /** One more message keeps AllShown if it is no chunk or shows a stored row. */
  lemma SendShown(claims: map<Key, Claim>, h: Handler, g: Handler, msg: Msg)
    requires AllShown(claims, h) && g.sent == h.sent + [msg] && g.agentId == h.agentId && g.req == h.req
    requires msg.Note? ==> Shown(claims, h, msg.chunk)
    ensures AllShown(claims, g)
  {
    forall i | 0 <= i < |g.sent| && g.sent[i].Note? ensures Shown(claims, g, g.sent[i].chunk) {
      if i < |h.sent| { assert g.sent[i] == h.sent[i]; }
    }
  }

  /** A send that shows only stored rows keeps a run tied; one that fails just ends it. */
  lemma SendTied(s: Sys, pid: nat, h: Handler, ok: bool, msg: Msg, pc: Pc)
    requires Tied(s, pid, h)
    requires msg.Note? ==> Shown(s.claims, h, msg.chunk)
    requires msg == Ack(h.req.messageId) || IsRepeat(pc) ==> Known(s.claims, h.req.messageId)
    requires !pc.SendLast?
    ensures Tied(s, pid, AfterSend(h, ok, msg, pc))
  {
    if ok { SendShown(s.claims, h, AfterSend(h, ok, msg, pc), msg); }
  }

  /** What the rest of the system, after the effect of a signal, owes the run that got it. */
  ghost predicate Answered(t: Sys, pid: nat, h: Handler, sig: Signal) {
    match sig
    case Found(rec) => rec.Some? ==> rec.value.id in t.names && t.names[rec.value.id] == h.req.name
    case Drawn(id, now, _) => id < t.nextRow && now <= t.clock
    case Inserted(res, _) =>
      && IsInsert(h.pc)
      && (res == Stored ==> KeyOf(h.pc.row) in t.claims && t.claims[KeyOf(h.pc.row)] == Claim(h.pc.row, Handled(pid)))
      && (res.NameTaken? ==> Holds(t.claims, res.holder, h.pc.row.messageId))
    case Listed(rows) =>
      var rs := Replies(rows, h.req.messageId);
      AllStored(t.claims, rs) && Sorted(rs)
    case _ => true
  }

  lemma SignalAnswered(s: Sys, pid: nat, sig: Signal, commits: bool)
    requires AgentsInv(s) && RowsInv(s) && pid in s.handlers && Allowed(s, s.handlers[pid], sig, commits)
    ensures Answered(Effect(s, pid, sig, commits), pid, s.handlers[pid], sig)
  {
    if sig.Inserted? && sig.res.NameTaken? { TakenIsKnown(s, s.handlers[pid].pc.row); }
    if sig.Listed? { RepliesAreStored(s, s.handlers[pid].agentId, s.handlers[pid].req.messageId); }
  }

  lemma AdmitTied(t: Sys, pid: nat, h: Handler, sig: Signal)
    requires LocalInv(h) && Tied(t, pid, h) && Admit(h, sig).Some? && Answered(t, pid, h, sig)
    ensures Tied(t, pid, Admit(h, sig).value)
  {
    if sig.Sent? { SendTied(t, pid, h, sig.ok, ErrorResponse(h.pc.code), Done); }
  }

  lemma ServeTied(t: Sys, pid: nat, h: Handler, sig: Signal)
    requires LocalInv(h) && Tied(t, pid, h) && Serve(h, sig).Some? && Answered(t, pid, h, sig)
    ensures Tied(t, pid, Serve(h, sig).value)
  {
    if h.pc.SendAck? {
      assert (h.agentId, h.req.messageId) in t.claims;
      SendTied(t, pid, h, sig.ok, Ack(h.req.messageId), Inspect);
    } else if Running(h.pc) {
      RunningTied(t, pid, h, sig);
    } else if h.pc.SendLast? {
      SendTied(t, pid, h, sig.ok, Note(h.pc.chunk), Done);
    } else {
      ReplyingTied(t, pid, h, sig);
    }
  }

  lemma RunningTied(t: Sys, pid: nat, h: Handler, sig: Signal)
    requires Running(h.pc) && !h.pc.SendAck? && LocalInv(h) && Tied(t, pid, h) && Serve(h, sig).Some?
    ensures Tied(t, pid, Serve(h, sig).value)
  {
  }

  lemma ReplyingTied(t: Sys, pid: nat, h: Handler, sig: Signal)
    requires Replying(h.pc) && !h.pc.SendLast?
    requires LocalInv(h) && Tied(t, pid, h) && Serve(h, sig).Some? && Answered(t, pid, h, sig)
    ensures Tied(t, pid, Serve(h, sig).value)
  {
  }

  lemma RepeatTied(t: Sys, pid: nat, h: Handler, sig: Signal)
    requires LocalInv(h) && Tied(t, pid, h) && Repeat(h, sig).Some? && Answered(t, pid, h, sig)
    ensures Tied(t, pid, Repeat(h, sig).value)
  {
    match h.pc
    case SendDupAck =>
      SendTied(t, pid, h, sig.ok, Ack(h.req.messageId), if h.shown == [] then Poll else Replay(0));
    case Replay(i) =>
      assert KeyOf(h.shown[i]) in t.claims;
      var pc := if i + 1 == |h.shown| then Done else Replay(i + 1);
      SendTied(t, pid, h, sig.ok, Note(ReplayChunk(h.req.name, h.shown, i)), pc);
    case _ =>
  }

  lemma SelfTied(t: Sys, pid: nat, h: Handler, sig: Signal)
    requires LocalInv(h) && Tied(t, pid, h) && Advance(h, sig).Some? && Answered(t, pid, h, sig)
    ensures Tied(t, pid, Advance(h, sig).value)
  {
    if Locating(h.pc) || Inserting(h.pc) {
      AdmitTied(t, pid, h, sig);
    } else if Looking(h.pc) || Showing(h.pc) {
      RepeatTied(t, pid, h, sig);
    } else {
      ServeTied(t, pid, h, sig);
    }
  }

  lemma StepKeepsHandlers(s: Sys, pid: nat, sig: Signal, commits: bool)
    requires Inv(s) && Enabled(s, Step(pid, sig, commits))
    ensures HandlersInv(Apply(s, Step(pid, sig, commits)))
  {
    var u := Effect(s, pid, sig, commits);
    EffectKeepsRows(s, pid, sig, commits);
    StepKeepsSelf(s, pid, sig, commits);
    MovedHandlers(s, u, pid, Advance(s.handlers[pid], sig).value);
  }

  lemma StepKeepsSelf(s: Sys, pid: nat, sig: Signal, commits: bool)
    requires Inv(s) && Enabled(s, Step(pid, sig, commits))
    ensures var u, g := Effect(s, pid, sig, commits), Advance(s.handlers[pid], sig).value;
            LocalInv(g) && Tied(u, pid, g)
  {
    var u := Effect(s, pid, sig, commits);
    EffectKeepsRows(s, pid, sig, commits);
    SignalFits(s, pid, sig, commits);
    SignalAnswered(s, pid, sig, commits);
    AdvanceHolds(s.handlers[pid], sig);
    TiedStays(s, u, pid, s.handlers[pid]);
    SelfTied(u, pid, s.handlers[pid], sig);
  }

  /** One run has moved, the rest of the system has grown. */
  lemma MovedHandlers(s: Sys, u: Sys, pid: nat, g: Handler)
    requires HandlersInv(s) && Grows(s, u) && u.handlers == s.handlers && u.nextPid == s.nextPid
    requires pid in s.handlers && LocalInv(g) && Tied(u, pid, g)
    ensures HandlersInv(u.(handlers := s.handlers[pid := g]))
  {
    var t := u.(handlers := s.handlers[pid := g]);
    forall q | q in t.handlers ensures q < t.nextPid && LocalInv(t.handlers[q]) && Tied(t, q, t.handlers[q]) {
      if q == pid {
        TiedStays(u, t, pid, g);
      } else {
        TiedStays(s, t, q, s.handlers[q]);
      }
    }
  }

  /** A committing insert writes the user row of the run, or its reply. */
  lemma CommitIsWritten(h: Handler, sig: Signal)
    requires LocalInv(h) && IsInsert(h.pc) && Advance(h, sig).Some?
    ensures WrittenBy(Advance(h, sig).value, h.pc.row)
  {
  }

  lemma StepKeepsWriters(s: Sys, t: Sys, pid: nat, sig: Signal, row: Option<Row>)
    requires WritersInv(s) && pid in s.handlers && LocalInv(s.handlers[pid]) && Advance(s.handlers[pid], sig).Some?
    requires t.handlers == s.handlers[pid := Advance(s.handlers[pid], sig).value]
    requires match row
             case None => t.claims == s.claims
             case Some(r) => IsInsert(s.handlers[pid].pc) && r == s.handlers[pid].pc.row
                             && t.claims == s.claims[KeyOf(r) := Claim(r, Handled(pid))]
    ensures WritersInv(t)
  {
    AdvanceRemembers(s.handlers[pid], sig);
    if row.Some? { CommitIsWritten(s.handlers[pid], sig); }
    forall k | k in t.claims && t.claims[k].writer.Handled?
      ensures t.claims[k].writer.pid in t.handlers && WrittenBy(t.handlers[t.claims[k].writer.pid], t.claims[k].row)
    {
      if row.Some? && k == KeyOf(row.value) {
      } else {
        assert k in s.claims && s.claims[k] == t.claims[k];
      }
    }
  }

  /** Exec is reached by the run that stored the user row, and left for good. */
  lemma ExecIsFirst(h: Handler, sig: Signal)
    requires LocalInv(h) && sig.ExecStarted? && Advance(h, sig).Some?
    ensures h.won && !h.executed && Advance(h, sig).value.executed
  {
  }

  lemma StepKeepsExecs(s: Sys, t: Sys, pid: nat, sig: Signal)
    requires ExecsInv(s) && Grows(s, t)
    requires pid in s.handlers && LocalInv(s.handlers[pid]) && Tied(s, pid, s.handlers[pid])
    requires Advance(s.handlers[pid], sig).Some?
    requires t.handlers == s.handlers[pid := Advance(s.handlers[pid], sig).value]
    requires var h := s.handlers[pid];
             t.execs == if sig.ExecStarted? then s.execs + multiset{(h.agentId, h.req.messageId)} else s.execs
    ensures ExecsInv(t)
  {
    var h := s.handlers[pid];
    AdvanceRemembers(h, sig);
    ExecsStay(s, t, pid, Advance(h, sig).value);
    if sig.ExecStarted? {
      ExecIsFirst(h, sig);
      NewExec(s, t, pid);
    }
  }

  /** What is known of an exec stays known. */
  lemma ExecsStay(s: Sys, t: Sys, pid: nat, g: Handler)
    requires Grows(s, t) && pid in s.handlers && LocalInv(s.handlers[pid])
    requires t.handlers == s.handlers[pid := g] && Remembers(s.handlers[pid], g)
    ensures forall k :: ExecKnown(s, k) ==> ExecKnown(t, k)
  {
  }

  lemma NewExec(s: Sys, t: Sys, pid: nat)
    requires ExecsInv(s) && Grows(s, t) && pid in s.handlers && pid in t.handlers
    requires var h, g := s.handlers[pid], t.handlers[pid];
             && Tied(s, pid, h) && h.won && !h.executed && g.executed && g.agentId == h.agentId && g.req == h.req
    ensures var key := (s.handlers[pid].agentId, s.handlers[pid].req.messageId);
            s.execs[key] == 0 && ExecKnown(t, key)
  {
    var key := (s.handlers[pid].agentId, s.handlers[pid].req.messageId);
    assert s.claims[key].writer == Handled(pid);
    assert key in s.execs ==> ExecKnown(s, key);
  }

  /** The effect of a signal, field by field. */
  lemma EffectShape(s: Sys, pid: nat, sig: Signal, commits: bool)
    requires pid in s.handlers && Allowed(s, s.handlers[pid], sig, commits)
    ensures var t, h := Effect(s, pid, sig, commits), s.handlers[pid];
            && t.handlers == s.handlers
            && t.execs == (if sig.ExecStarted? then s.execs + multiset{(h.agentId, h.req.messageId)} else s.execs)
            && t.claims == (if commits then s.claims[KeyOf(h.pc.row) := Claim(h.pc.row, Handled(pid))] else s.claims)
            && (commits ==> IsInsert(h.pc))
  {
  }

  lemma StepKeeps(s: Sys, pid: nat, sig: Signal, commits: bool)
    requires Inv(s) && Enabled(s, Step(pid, sig, commits))
    ensures Inv(Apply(s, Step(pid, sig, commits))) && Grows(s, Apply(s, Step(pid, sig, commits)))
  {
    var u := Effect(s, pid, sig, commits);
    var t := Apply(s, Step(pid, sig, commits));
    assert AgentsInv(t) && RowsInv(t) && Grows(s, t) by {
      EffectKeepsRows(s, pid, sig, commits);
    }
    EffectShape(s, pid, sig, commits);
    assert HandlersInv(t) by { StepKeepsHandlers(s, pid, sig, commits); }
    assert WritersInv(t) by {
      StepKeepsWriters(s, t, pid, sig, if commits then Some(s.handlers[pid].pc.row) else None);
    }
    assert ExecsInv(t) by { StepKeepsExecs(s, t, pid, sig); }
  }

  // ---------- the other actions ----------

  /** Where no run moves, the runs and what they did stay in order. */
  lemma RunsUntouched(s: Sys, t: Sys)
    requires HandlersInv(s) && WritersInv(s) && ExecsInv(s) && Grows(s, t)
    requires t.handlers == s.handlers && t.execs == s.execs
    requires forall k :: k in t.claims && t.claims[k].writer.Handled? ==> k in s.claims && t.claims[k] == s.claims[k]
    ensures HandlersInv(t) && WritersInv(t) && ExecsInv(t)
  {
    forall pid | pid in t.handlers ensures Tied(t, pid, t.handlers[pid]) {
      TiedStays(s, t, pid, s.handlers[pid]);
    }
  }

  lemma ArriveKeeps(s: Sys, req: Request)
    requires Inv(s)
    ensures Inv(Apply(s, Arrive(req))) && Grows(s, Apply(s, Arrive(req)))
  {
    ArriveKeepsHandlers(s, req);
    ArriveKeepsWriters(s, req);
  }

  lemma ArriveKeepsWriters(s: Sys, req: Request)
    requires HandlersInv(s) && WritersInv(s) && ExecsInv(s)
    ensures WritersInv(Apply(s, Arrive(req))) && ExecsInv(Apply(s, Arrive(req)))
  {
    var t := Apply(s, Arrive(req));
    assert s.nextPid !in s.handlers;
    assert forall pid :: pid in s.handlers ==> pid in t.handlers && t.handlers[pid] == s.handlers[pid];
    assert forall k :: ExecKnown(s, k) ==> ExecKnown(t, k);
  }

  lemma ArriveKeepsHandlers(s: Sys, req: Request)
    requires HandlersInv(s)
    ensures HandlersInv(Apply(s, Arrive(req)))
  {
    var t := Apply(s, Arrive(req));
    forall pid | pid in t.handlers
      ensures pid < t.nextPid && LocalInv(t.handlers[pid]) && Tied(t, pid, t.handlers[pid])
    {
      if pid in s.handlers { TiedStays(s, t, pid, s.handlers[pid]); }
    }
  }

  lemma KilledHolds(h: Handler)
    requires LocalInv(h)
    ensures LocalInv(Killed(h))
  {
    if h.sent == [Ack(h.req.messageId)] { assert Streaming(h.sent, h.req.messageId); }
    PartialSoFar(h);
  }

  lemma PartialSoFar(h: Handler)
    requires LocalInv(h)
    ensures Partial(h.sent, h.req.messageId)
  {
    if h.pc.Replay? { ReplayStreams(h); }
  }

  lemma KilledTied(t: Sys, pid: nat, h: Handler)
    requires Tied(t, pid, h)
    ensures Tied(t, pid, Killed(h))
  {
  }

  ghost predicate KilledFrom(s: Sys, t: Sys) {
    && t.handlers.Keys == s.handlers.Keys
    && forall pid :: pid in s.handlers ==> t.handlers[pid] == Killed(s.handlers[pid])
  }

  lemma CrashKeepsHandlers(s: Sys, t: Sys)
    requires HandlersInv(s) && KilledFrom(s, t) && Grows(s, t)
    ensures HandlersInv(t)
  {
    forall pid | pid in t.handlers
      ensures pid < t.nextPid && LocalInv(t.handlers[pid]) && Tied(t, pid, t.handlers[pid])
    {
      KilledHolds(s.handlers[pid]);
      KilledTied(s, pid, s.handlers[pid]);
      TiedStays(s, t, pid, Killed(s.handlers[pid]));
    }
  }

  lemma CrashKeepsDeeds(s: Sys, t: Sys)
    requires WritersInv(s) && ExecsInv(s) && KilledFrom(s, t) && t.claims == s.claims && t.execs == s.execs
    ensures WritersInv(t) && ExecsInv(t)
  {
  }

  lemma CrashKeeps(s: Sys)
    requires Inv(s)
    ensures Inv(Apply(s, Crash)) && Grows(s, Apply(s, Crash))
  {
    var t := Apply(s, Crash);
    assert HandlersInv(t) by { CrashKeepsHandlers(s, t); }
    assert WritersInv(t) && ExecsInv(t) by { CrashKeepsDeeds(s, t); }
  }

  lemma AppendKeeps(s: Sys, a: Action)
    requires Inv(s) && a.Append? && Enabled(s, a)
    ensures Inv(Apply(s, a)) && Grows(s, Apply(s, a))
  {
    var row := AppendedRow(s, a);
    var u := s.(nextRow := s.nextRow + 1);
    CommitKeepsRows(u, row, Appended);
    assert Apply(s, a) == Commit(u, row, Appended);
    RunsUntouched(s, Apply(s, a));
  }

  lemma CreateKeeps(s: Sys, name: string, containerId: string)
    requires Inv(s) && name !in s.store.agents
    ensures Inv(Apply(s, CreateAgent(name, containerId))) && Grows(s, Apply(s, CreateAgent(name, containerId)))
  {
    var t := Apply(s, CreateAgent(name, containerId));
    assert AgentsInv(t) && RowsInv(t) by { CreateKeepsRows(s, name, containerId); }
    RunsUntouched(s, t);
  }

  lemma CreateKeepsRows(s: Sys, name: string, containerId: string)
    requires AgentsInv(s) && RowsInv(s) && name !in s.store.agents
    ensures AgentsInv(Apply(s, CreateAgent(name, containerId))) && RowsInv(Apply(s, CreateAgent(name, containerId)))
  {
    var t := Apply(s, CreateAgent(name, containerId));
    forall id | Live(s.store, id) ensures Live(t.store, id) {
      var n :| n in s.store.agents && s.store.agents[n].id == id;
      assert n in t.store.agents;
    }
    forall id | Live(t.store, id) && id != s.nextAgent ensures Live(s.store, id) {
      var n :| n in t.store.agents && t.store.agents[n].id == id;
      assert n in s.store.agents;
    }
  }

  lemma UpdateKeeps(s: Sys, name: string, containerId: string)
    requires Inv(s) && name in s.store.agents
    ensures Inv(Apply(s, UpdateAgent(name, containerId))) && Grows(s, Apply(s, UpdateAgent(name, containerId)))
  {
    var t := Apply(s, UpdateAgent(name, containerId));
    forall id ensures Live(s.store, id) <==> Live(t.store, id) {
      if Live(s.store, id) {
        var n :| n in s.store.agents && s.store.agents[n].id == id;
        assert n in t.store.agents && t.store.agents[n].id == id;
      }
      if Live(t.store, id) {
        var n :| n in t.store.agents && t.store.agents[n].id == id;
        assert n in s.store.agents && s.store.agents[n].id == id;
      }
    }
    RunsUntouched(s, t);
  }

  /** Deleting an agent takes its rows with it, and its id is gone for good. */
  lemma RemoveKeeps(s: Sys, name: string)
    requires Inv(s) && name in s.store.agents
    ensures Inv(Apply(s, RemoveAgent(name))) && Grows(s, Apply(s, RemoveAgent(name)))
  {
    var t := Apply(s, RemoveAgent(name));
    var gone := s.store.agents[name].id;
    WithoutHolds(s.store.rows, gone);
    forall id ensures Live(t.store, id) <==> Live(s.store, id) && id != gone {
      if Live(s.store, id) {
        var n :| n in s.store.agents && s.store.agents[n].id == id;
        if id != gone { assert n in t.store.agents; }
      }
      if Live(t.store, id) {
        var n :| n in t.store.agents && t.store.agents[n].id == id;
        assert n in s.store.agents && n != name;
      }
    }
    RunsUntouched(s, t);
  }

  /** Every action keeps the invariant, and nothing that was stored is ever unknown again. */
  lemma ActionKeeps(s: Sys, a: Action)
    requires Inv(s) && Enabled(s, a)
    ensures Inv(Apply(s, a)) && Grows(s, Apply(s, a))
  {
    match a
    case Step(pid, sig, commits) => StepKeeps(s, pid, sig, commits);
    case Arrive(req) => ArriveKeeps(s, req);
    case CreateAgent(name, containerId) => CreateKeeps(s, name, containerId);
    case UpdateAgent(name, containerId) => UpdateKeeps(s, name, containerId);
    case RemoveAgent(name) => RemoveKeeps(s, name);
    case Append(_, _, _, _, _, _) => AppendKeeps(s, a);
    case Crash => CrashKeeps(s);
    case Tick => RunsUntouched(s, Apply(s, Tick));
  }

  /** The invariant holds in every state of every run. */
  lemma {:induction false} RunKeeps(s: Sys, acts: seq<Action>)
    requires Inv(s) && Legal(s, acts)
    ensures Inv(After(s, acts)) && Grows(s, After(s, acts))
    decreases |acts|
  {
    if acts != [] {
      RunKeeps(s, acts[..|acts| - 1]);
      ActionKeeps(After(s, acts[..|acts| - 1]), acts[|acts| - 1]);
    }
  }
}

/**
 Runs that show where the promises of the chat protocol end: a reply appended from outside,
 a reply stored but reported as lost, and a message_id that another agent's history holds.
 */
module ChatWitnesses {
  import opened Basics
  import opened ChatStore
  import opened ChatProtocol
  import opened ChatSystem
  import opened ChatTheorems
  import opened ChatReplies

  lemma Then(acts: seq<Action>, a: Action) returns (more: seq<Action>)
    requires Legal(INIT, acts) && Enabled(Reached(acts), a)
    ensures Legal(INIT, more) && Reached(more) == Apply(Reached(acts), a)
  {
    more := acts + [a];
    assert more[..|more| - 1] == acts;
  }

  /** From `s` to `t` only the run `pid` has moved, and it has stored nothing. */
  ghost predicate OnlyMoved(s: Sys, t: Sys, pid: nat) {
    && t.store == s.store && t.claims == s.claims && t.clock == s.clock
    && s.nextRow <= t.nextRow && s.nextPid <= t.nextPid
    && forall q :: q in s.handlers && q != pid ==> q in t.handlers && t.handlers[q] == s.handlers[q]
  }

  /** Signals that change nothing but the run that gets them. */
  predicate Quiet(st: Store, h: Handler, sig: Signal) {
    match sig
    case Found(rec) => rec == None || (h.req.name in st.agents && rec == Some(st.agents[h.req.name]))
    case Listed(rows) => rows == ListChatHistory(st, h.agentId, 0)
    case Drawn(_, _, _) => false
    case Inserted(_, _) => false
    case ExecStarted => false
    case _ => true
  }

  predicate Script(st: Store, h: Handler, sigs: seq<Signal>)
    decreases |sigs|
  {
    sigs == []
    || (Quiet(st, h, sigs[0]) && Advance(h, sigs[0]).Some? && Script(st, Advance(h, sigs[0]).value, sigs[1..]))
  }

  function Played(st: Store, h: Handler, sigs: seq<Signal>): Handler
    requires Script(st, h, sigs)
    decreases |sigs|
  {
    if sigs == [] then h else Played(st, Advance(h, sigs[0]).value, sigs[1..])
  }

  lemma QuietStep(acts: seq<Action>, pid: nat, sig: Signal) returns (more: seq<Action>)
    requires Legal(INIT, acts) && pid in Reached(acts).handlers
    requires Quiet(Reached(acts).store, Reached(acts).handlers[pid], sig)
    requires Advance(Reached(acts).handlers[pid], sig).Some?
    ensures Legal(INIT, more)
    ensures var s := Reached(acts);
            Reached(more) == s.(handlers := s.handlers[pid := Advance(s.handlers[pid], sig).value])
  {
    more := Then(acts, Step(pid, sig, false));
  }

  /** A run can go through a script of such signals, and nothing else changes. */
  lemma {:induction false} Plays(acts: seq<Action>, pid: nat, sigs: seq<Signal>) returns (more: seq<Action>)
    requires Legal(INIT, acts) && pid in Reached(acts).handlers
    requires Script(Reached(acts).store, Reached(acts).handlers[pid], sigs)
    ensures Legal(INIT, more)
    ensures var s := Reached(acts);
            Reached(more) == s.(handlers := s.handlers[pid := Played(s.store, s.handlers[pid], sigs)])
    decreases |sigs|
  {
    var s := Reached(acts);
    if sigs == [] {
      more := acts;
      assert s.handlers[pid := s.handlers[pid]] == s.handlers;
    } else {
      var first := QuietStep(acts, pid, sigs[0]);
      var h := Advance(s.handlers[pid], sigs[0]).value;
      more := Plays(first, pid, sigs[1..]);
      Overwrites(s.handlers, pid, h, Played(s.store, h, sigs[1..]));
    }
  }

  lemma Overwrites(m: map<nat, Handler>, pid: nat, h: Handler, g: Handler)
    ensures m[pid := h][pid := g] == m[pid := g]
  {
  }

  lemma OneSignal(st: Store, h: Handler, a: Signal)
    requires Quiet(st, h, a) && Advance(h, a).Some?
    ensures Script(st, h, [a]) && Played(st, h, [a]) == Advance(h, a).value
  {
    var rest := [a][1..];
    assert rest == [];
    assert Played(st, h, [a]) == Played(st, Advance(h, a).value, rest);
  }

  lemma TwoSignals(st: Store, h: Handler, a: Signal, b: Signal)
    requires Quiet(st, h, a) && Advance(h, a).Some?
    requires Quiet(st, Advance(h, a).value, b) && Advance(Advance(h, a).value, b).Some?
    ensures Script(st, h, [a, b]) && Played(st, h, [a, b]) == Advance(Advance(h, a).value, b).value
  {
    assert [a, b][1..] == [b];
    var g := Advance(h, a).value;
    OneSignal(st, g, b);
    assert Played(st, h, [a, b]) == Played(st, g, [b]);
  }

  lemma ThreeSignals(st: Store, h: Handler, a: Signal, b: Signal, c: Signal)
    requires Quiet(st, h, a) && Advance(h, a).Some?
    requires var g := Advance(h, a).value; Script(st, g, [b, c])
    ensures Script(st, h, [a, b, c]) && Played(st, h, [a, b, c]) == Played(st, Advance(h, a).value, [b, c])
  {
    assert [a, b, c][1..] == [b, c];
  }

  // ---------- a request up to its insert ----------

  /** A request of a known agent can come to the point where its row is to be inserted. */
  lemma Asks(acts: seq<Action>, req: Request) returns (more: seq<Action>)
    requires Legal(INIT, acts) && Acceptable(req)
    requires req.name in Reached(acts).store.agents && Reached(acts).store.agents[req.name].containerId != ""
    ensures Legal(INIT, more)
    ensures var s, t, pid := Reached(acts), Reached(more), Reached(acts).nextPid;
            && OnlyMoved(s, t, pid) && t.nextRow == s.nextRow + 1 && t.nextPid == pid + 1 && pid in t.handlers
            && t.handlers[pid] == Asking(req, s.store.agents[req.name].id, s.nextRow, s.clock)
  {
    var s, pid := Reached(acts), Reached(acts).nextPid;
    var h := Start(req);
    more := Then(acts, Arrive(req));
    var found := Found(Some(s.store.agents[req.name]));
    TwoSignals(s.store, h, Go, found);
    more := Plays(more, pid, [Go, found]);
    more := Then(more, Step(pid, Drawn(s.nextRow, s.clock, "x"), false));
  }

  function Asking(req: Request, agentId: nat, id: nat, now: nat): Handler {
    var row := Row(id, agentId, User, Said(req.content), req.parentId, req.messageId, 0, now);
    Start(req).(pc := InsertUser(row), agentId := agentId, located := true, userRow := Some(row))
  }

  // ---------- the run that loses ----------

  lemma Loses(acts: seq<Action>, pid: nat) returns (more: seq<Action>)
    requires Legal(INIT, acts) && pid in Reached(acts).handlers && Reached(acts).handlers[pid].pc.InsertUser?
    requires HolderOf(Reached(acts).store.rows, Reached(acts).handlers[pid].pc.row.messageId).Some?
    ensures Legal(INIT, more)
    ensures var s, h := Reached(acts), Reached(acts).handlers[pid];
            var met := HolderOf(s.store.rows, h.pc.row.messageId);
            Reached(more) == s.(handlers := s.handlers[pid := h.(pc := ListReplies, met := met)])
  {
    var s, h := Reached(acts), Reached(acts).handlers[pid];
    var met := HolderOf(s.store.rows, h.pc.row.messageId);
    more := Then(acts, Step(pid, Inserted(NameTaken(met.value), ""), false));
  }

  /** It finds one reply, and sends that after its ack. */
  lemma HearsOne(acts: seq<Action>, pid: nat, reply: Row) returns (more: seq<Action>)
    requires Legal(INIT, acts) && pid in Reached(acts).handlers
    requires Reached(acts).handlers[pid].pc == ListReplies && Reached(acts).handlers[pid].sent == []
    requires var s, h := Reached(acts), Reached(acts).handlers[pid];
             Replies(ListChatHistory(s.store, h.agentId, 0), h.req.messageId) == [reply]
    ensures Legal(INIT, more)
    ensures var s, h := Reached(acts), Reached(acts).handlers[pid];
            Reached(more) == s.(handlers := s.handlers[pid := h.(pc := Done, shown := [reply],
              sent := [Ack(h.req.messageId), Note(ReplayChunk(h.req.name, [reply], 0))])])
  {
    var s, h := Reached(acts), Reached(acts).handlers[pid];
    var rows := ListChatHistory(s.store, h.agentId, 0);
    OneIsHeard(s.store, h, rows, reply);
    more := Plays(acts, pid, [Listed(rows), Sent(true), Sent(true)]);
  }

  lemma OneIsHeard(st: Store, h: Handler, rows: seq<Row>, reply: Row)
    requires h.pc == ListReplies && h.sent == [] && rows == ListChatHistory(st, h.agentId, 0)
    requires Replies(rows, h.req.messageId) == [reply]
    ensures Script(st, h, [Listed(rows), Sent(true), Sent(true)])
    ensures Played(st, h, [Listed(rows), Sent(true), Sent(true)]) == h.(pc := Done, shown := [reply],
              sent := [Ack(h.req.messageId), Note(ReplayChunk(h.req.name, [reply], 0))])
  {
    var g := h.(pc := SendDupAck, shown := [reply]);
    assert Advance(h, Listed(rows)) == Some(g);
    OneIsSent(st, g, reply);
    ThreeSignals(st, h, Listed(rows), Sent(true), Sent(true));
  }

  lemma OneIsSent(st: Store, g: Handler, reply: Row)
    requires g.pc == SendDupAck && g.sent == [] && g.shown == [reply]
    ensures Script(st, g, [Sent(true), Sent(true)])
    ensures Played(st, g, [Sent(true), Sent(true)])
            == g.(pc := Done, sent := [Ack(g.req.messageId), Note(ReplayChunk(g.req.name, [reply], 0))])
  {
    var h := g.(pc := Replay(0), sent := [Ack(g.req.messageId)]);
    assert [] + [Ack(g.req.messageId)] == [Ack(g.req.messageId)];
    assert Advance(g, Sent(true)) == Some(h);
    TwoSignals(st, g, Sent(true), Sent(true));
  }

  /** It finds none, and acknowledges all the same. */
  lemma HearsNone(acts: seq<Action>, pid: nat) returns (more: seq<Action>)
    requires Legal(INIT, acts) && pid in Reached(acts).handlers
    requires Reached(acts).handlers[pid].pc == ListReplies && Reached(acts).handlers[pid].sent == []
    requires var s, h := Reached(acts), Reached(acts).handlers[pid];
             Replies(ListChatHistory(s.store, h.agentId, 0), h.req.messageId) == []
    ensures Legal(INIT, more)
    ensures var s, h := Reached(acts), Reached(acts).handlers[pid];
            Reached(more) == s.(handlers := s.handlers[pid :=
              h.(pc := Poll, shown := [], sent := [Ack(h.req.messageId)])])
  {
    var s, h := Reached(acts), Reached(acts).handlers[pid];
    var rows := ListChatHistory(s.store, h.agentId, 0);
    var g := h.(pc := SendDupAck, shown := []);
    assert Advance(h, Listed(rows)) == Some(g);
    assert [] + [Ack(h.req.messageId)] == [Ack(h.req.messageId)];
    assert Advance(g, Sent(true)) == Some(g.(pc := Poll, sent := [Ack(h.req.messageId)]));
    TwoSignals(s.store, h, Listed(rows), Sent(true));
    more := Plays(acts, pid, [Listed(rows), Sent(true)]);
  }

  // ---------- the run that wins ----------

  lemma Stores(acts: seq<Action>, pid: nat, sig: Signal) returns (more: seq<Action>)
    requires Legal(INIT, acts) && pid in Reached(acts).handlers && IsInsert(Reached(acts).handlers[pid].pc)
    requires InsertVerdict(Reached(acts).store, Reached(acts).handlers[pid].pc.row) == Stored
    requires sig.Inserted? && !sig.res.NameTaken? && Advance(Reached(acts).handlers[pid], sig).Some?
    ensures Legal(INIT, more)
    ensures var s, h := Reached(acts), Reached(acts).handlers[pid];
            Reached(more) == Commit(s, h.pc.row, Handled(pid)).(handlers := s.handlers[pid := Advance(h, sig).value])
  {
    more := Then(acts, Step(pid, sig, true));
  }

  /** It stores its message, acknowledges and finds no Docker client. */
  lemma Wins(acts: seq<Action>, pid: nat) returns (more: seq<Action>)
    requires Legal(INIT, acts) && pid in Reached(acts).handlers
    requires Reached(acts).handlers[pid].pc.InsertUser? && Reached(acts).handlers[pid].sent == []
    requires InsertVerdict(Reached(acts).store, Reached(acts).handlers[pid].pc.row) == Stored
    ensures Legal(INIT, more)
    ensures var s, h := Reached(acts), Reached(acts).handlers[pid];
            Reached(more) == Commit(s, h.pc.row, Handled(pid)).(handlers :=
              s.handlers[pid := h.(pc := DrawReply(Error, NoDocker), won := true, sent := [Ack(h.req.messageId)])])
  {
    var s, h := Reached(acts), Reached(acts).handlers[pid];
    more := Stores(acts, pid, Inserted(Stored, ""));
    var g := h.(pc := SendAck, won := true);
    var st := Reached(more).store;
    GreetsAndLooks(st, g);
    more := Plays(more, pid, [Sent(true), Inspected(NoClient)]);
    Overwrites(s.handlers, pid, g, Played(st, g, [Sent(true), Inspected(NoClient)]));
  }

  lemma GreetsAndLooks(st: Store, g: Handler)
    requires g.pc == SendAck && g.sent == []
    ensures Script(st, g, [Sent(true), Inspected(NoClient)])
    ensures Played(st, g, [Sent(true), Inspected(NoClient)])
            == g.(pc := DrawReply(Error, NoDocker), sent := [Ack(g.req.messageId)])
  {
    assert [] + [Ack(g.req.messageId)] == [Ack(g.req.messageId)];
    assert Advance(g, Sent(true)) == Some(g.(pc := Inspect, sent := [Ack(g.req.messageId)]));
    TwoSignals(st, g, Sent(true), Inspected(NoClient));
  }

  lemma Draws(acts: seq<Action>, pid: nat, newId: string) returns (more: seq<Action>)
    requires Legal(INIT, acts) && pid in Reached(acts).handlers && newId != ""
    requires Reached(acts).handlers[pid].pc == DrawReply(Error, NoDocker)
    ensures Legal(INIT, more)
    ensures var s, h := Reached(acts), Reached(acts).handlers[pid];
            var reply := ReplyRow(h, Error, NoDocker, s.nextRow, s.clock, newId);
            Reached(more) == s.(nextRow := s.nextRow + 1,
              handlers := s.handlers[pid := h.(pc := InsertReply(reply), tried := Some(reply))])
  {
    var s := Reached(acts);
    more := Then(acts, Step(pid, Drawn(s.nextRow, s.clock, newId), false));
  }

  /** Its reply is stored; `reported` tells whether the database says so. */
  lemma Concludes(acts: seq<Action>, pid: nat, reported: bool) returns (more: seq<Action>)
    requires Legal(INIT, acts) && pid in Reached(acts).handlers
    requires var h := Reached(acts).handlers[pid]; h.pc.InsertReply? && h.sent == [Ack(h.req.messageId)]
    requires InsertVerdict(Reached(acts).store, Reached(acts).handlers[pid].pc.row) == Stored
    ensures Legal(INIT, more)
    ensures var s, h := Reached(acts), Reached(acts).handlers[pid];
            Reached(more) == Commit(s, h.pc.row, Handled(pid)).(handlers :=
              s.handlers[pid := h.(pc := Done, kept := reported,
                                   sent := [Ack(h.req.messageId), Note(LastChunk(h, reported))])])
  {
    var s, h := Reached(acts), Reached(acts).handlers[pid];
    var sig := Inserted(if reported then Stored else Failed, "disk I/O error");
    var g := h.(pc := SendLast(LastChunk(h, reported)), kept := reported);
    ConcludesWith(h, sig, g, reported);
    more := Stores(acts, pid, sig);
    more := QuietStep(more, pid, Sent(true));
    Overwrites(s.handlers, pid, g, Advance(g, Sent(true)).value);
  }

  lemma ConcludesWith(h: Handler, sig: Signal, g: Handler, reported: bool)
    requires h.pc.InsertReply? && h.sent == [Ack(h.req.messageId)]
    requires sig == Inserted(if reported then Stored else Failed, "disk I/O error")
    requires g == h.(pc := SendLast(LastChunk(h, reported)), kept := reported)
    ensures Advance(h, sig) == Some(g)
    ensures Advance(g, Sent(true))
            == Some(g.(pc := Done, sent := [Ack(h.req.messageId), Note(LastChunk(h, reported))]))
  {
    assert h.sent + [Note(LastChunk(h, reported))] == [Ack(h.req.messageId), Note(LastChunk(h, reported))];
  }

  function LastChunk(h: Handler, reported: bool): Chunk
    requires h.pc.InsertReply?
  {
    if reported then ReplyChunk(h.req.name, h.pc.row) else UnstoredChunk(h.req.name, "disk I/O error")
  }

  // ---------- what is found ----------

  /** Where one row alone answers a message, that row is what a listing gives. */
  lemma OneAnswer(st: Store, agentId: nat, messageId: string, reply: Row)
    requires Distinct(st.rows) && reply in st.rows
    requires forall r :: r in st.rows ==>
      (r.agentId == agentId && r.parentId == messageId && r.role != User <==> r == reply)
    ensures Replies(ListChatHistory(st, agentId, 0), messageId) == [reply]
  {
    var rows := ListChatHistory(st, agentId, 0);
    SortedOfHolds(st.rows, agentId);
    forall i | 0 <= i < |rows| ensures rows[i].agentId == agentId { assert rows[i] in rows; }
    RepliesHolds(rows, agentId, messageId);
    var found := Replies(rows, messageId);
    assert reply in found;
    forall i | 0 <= i < |found| ensures found[i] == reply { assert found[i] in found; }
    SortedAlike(found, reply);
  }

  lemma NoAnswer(st: Store, agentId: nat, messageId: string)
    requires Distinct(st.rows) && forall r :: r in st.rows ==> r.agentId != agentId
    ensures Replies(ListChatHistory(st, agentId, 0), messageId) == []
  {
    FirstIsIn(ListChatHistory(st, agentId, 0));
    SortedOfHolds(st.rows, agentId);
    assert ListChatHistory(st, agentId, 0) == [];
  }

  lemma FirstIsIn(rows: seq<Row>)
    ensures rows == [] || rows[0] in rows
  {
  }

  // ---------- the runs ----------

  function Hello(name: string): Request {
    Request(true, name, "hello", "", "M")
  }

  /** One agent, and its first message on the way to be stored. */
  lemma OneAgentAsked() returns (acts: seq<Action>)
    ensures Legal(INIT, acts)
    ensures var s := Reached(acts);
            && s.store == Store(map["a" := AgentRec(0, "c")], []) && s.claims == map[]
            && s.nextRow == 1 && s.nextPid == 1 && s.clock == 0
            && 0 in s.handlers && s.handlers[0] == Asking(Hello("a"), 0, 0, 0)
  {
    acts := Then([], CreateAgent("a", "c"));
    acts := Asks(acts, Hello("a"));
  }

  const MESSAGE := Row(0, 0, User, Said("hello"), "", "M", 0, 0)
  const REPLY := Row(1, 0, Error, NoDocker, "M", "R", 0, 0)
  const FORGED := Row(2, 0, ChatStore.Agent, Said("forged"), "M", "N", 0, 0)

  /** The run that stored its message, about to store its reply. */
  const ORIGINAL := Asking(Hello("a"), 0, 0, 0).(
    pc := InsertReply(REPLY), won := true, tried := Some(REPLY), sent := [Ack("M")])

  ghost predicate OnlyAgent(s: Sys, rows: seq<Row>) {
    s.store == Store(map["a" := AgentRec(0, "c")], rows)
  }

  lemma AgentLives(s: Sys, rows: seq<Row>)
    requires OnlyAgent(s, rows)
    ensures Live(s.store, 0)
  {
    assert "a" in s.store.agents && s.store.agents["a"].id == 0;
  }

  lemma ReplyDrawn() returns (acts: seq<Action>)
    ensures Legal(INIT, acts)
    ensures var s := Reached(acts);
            && OnlyAgent(s, [MESSAGE]) && s.claims == map[(0, "M") := Claim(MESSAGE, Handled(0))]
            && s.nextRow == 2 && s.nextPid == 1 && s.clock == 0
            && 0 in s.handlers && s.handlers[0] == ORIGINAL
  {
    acts := OneAgentAsked();
    AgentLives(Reached(acts), []);
    assert Asking(Hello("a"), 0, 0, 0).pc.row == MESSAGE;
    acts := Wins(acts, 0);
    assert [] + [MESSAGE] == [MESSAGE];
    acts := Draws(acts, 0, "R");
  }

  /** A second request with the message_id of the first, come to its insert and lost. */
  lemma AskedAgain(acts: seq<Action>, rows: seq<Row>) returns (more: seq<Action>)
    requires Legal(INIT, acts) && OnlyAgent(Reached(acts), rows) && rows != [] && rows[0] == MESSAGE
    requires Reached(acts).nextPid == 1 && 0 in Reached(acts).handlers
    ensures Legal(INIT, more)
    ensures var s, t := Reached(acts), Reached(more);
            && OnlyMoved(s, t, 1) && t.handlers[0] == s.handlers[0] && 1 in t.handlers
            && t.handlers[1].pc == ListReplies && t.handlers[1].sent == [] && t.handlers[1].agentId == 0
            && t.handlers[1].req == Hello("a")
  {
    more := Asks(acts, Hello("a"));
    more := Loses(more, 1);
  }

  /** It is shown the one reply there is. */
  lemma ShownOne(acts: seq<Action>, reply: Row) returns (more: seq<Action>)
    requires Legal(INIT, acts) && OnlyAgent(Reached(acts), [MESSAGE, reply]) && (reply == REPLY || reply == FORGED)
    requires Reached(acts).nextPid == 1 && 0 in Reached(acts).handlers
    ensures Legal(INIT, more)
    ensures var s, t := Reached(acts), Reached(more);
            && OnlyMoved(s, t, 1) && t.handlers[0] == s.handlers[0] && 1 in t.handlers
            && t.handlers[1].pc == Done && t.handlers[1].shown == [reply] && t.handlers[1].agentId == 0
            && t.handlers[1].req == Hello("a")
  {
    more := AskedAgain(acts, [MESSAGE, reply]);
    more := HearsTheAnswer(more, reply);
  }

  lemma HearsTheAnswer(acts: seq<Action>, reply: Row) returns (more: seq<Action>)
    requires Legal(INIT, acts) && Reached(acts).store.rows == [MESSAGE, reply] && (reply == REPLY || reply == FORGED)
    requires 1 in Reached(acts).handlers && Reached(acts).handlers[1].pc == ListReplies
    requires var h := Reached(acts).handlers[1]; h.sent == [] && h.agentId == 0 && h.req == Hello("a")
    ensures Legal(INIT, more)
    ensures var s, t, h := Reached(acts), Reached(more), Reached(acts).handlers[1];
            && t == s.(handlers := t.handlers) && 1 in t.handlers
            && t.handlers == s.handlers[1 := t.handlers[1]]
            && t.handlers[1].pc == Done && t.handlers[1].shown == [reply] && t.handlers[1].agentId == 0
            && t.handlers[1].req == h.req
  {
    RunRecalls(acts);
    AnswerToMessage(Reached(acts).store, reply);
    more := HearsOne(acts, 1, reply);
  }

  lemma AnswerToMessage(st: Store, reply: Row)
    requires Distinct(st.rows) && st.rows == [MESSAGE, reply] && (reply == REPLY || reply == FORGED)
    ensures Replies(ListChatHistory(st, 0, 0), "M") == [reply]
  {
    assert reply in st.rows;
    OneAnswer(st, 0, "M", reply);
  }

  /**
   The reply was stored, but the database reported the insert as failed: the original is
   sent an error without an id, and a duplicate the stored reply.
   */
  lemma UnreportedReplyDiffers() returns (acts: seq<Action>, p: nat, q: nat)
    ensures Legal(INIT, acts) && OriginalAndDuplicate(Reached(acts), p, q)
    ensures var s := Reached(acts);
            && NoAppendedReply(s, s.handlers[p].agentId, s.handlers[p].req.messageId)
            && !s.handlers[p].kept && s.handlers[q].sent != s.handlers[p].sent
  {
    p, q := 0, 1;
    acts := ReplyDrawn();
    AgentLives(Reached(acts), [MESSAGE]);
    acts := Concludes(acts, 0, false);
    assert [MESSAGE] + [REPLY] == [MESSAGE, REPLY];
    var s := Reached(acts);
    assert s.claims == map[(0, "M") := Claim(MESSAGE, Handled(0)), (0, "R") := Claim(REPLY, Handled(0))];
    acts := ShownOne(acts, REPLY);
    ReplayIsTransparent(acts, p, q);
  }

  /**
   A reply appended from outside before the original has stored its own: a duplicate finds
   one reply and sends that, and the original then sends another.
   */
  lemma AppendedReplyDiffers() returns (acts: seq<Action>, p: nat, q: nat)
    ensures Legal(INIT, acts) && OriginalAndDuplicate(Reached(acts), p, q)
    ensures var s := Reached(acts);
            && s.handlers[p].kept && |s.handlers[q].shown| == 1
            && !AllHandled(s.claims, s.handlers[q].shown) && s.handlers[q].sent != s.handlers[p].sent
  {
    p, q := 0, 1;
    acts := ForgedReplyShown();
    AgentLives(Reached(acts), [MESSAGE, FORGED]);
    acts := Concludes(acts, 0, true);
    assert Reached(acts).claims[KeyOf(FORGED)].writer == Appended;
    ReplayMatchesOriginal(acts, p, q);
  }

  lemma ForgedReplyShown() returns (acts: seq<Action>)
    ensures Legal(INIT, acts)
    ensures var s := Reached(acts);
            && OnlyAgent(s, [MESSAGE, FORGED])
            && KeyOf(FORGED) in s.claims && s.claims[KeyOf(FORGED)].writer == Appended
            && 0 in s.handlers && s.handlers[0] == ORIGINAL
            && 1 in s.handlers && s.handlers[1].pc == Done && s.handlers[1].shown == [FORGED]
            && s.handlers[1].agentId == 0 && s.handlers[1].req == Hello("a")
  {
    acts := ReplyDrawn();
    AgentLives(Reached(acts), [MESSAGE]);
    acts := Then(acts, Append("a", ChatStore.Agent, "forged", "M", "N", 0));
    assert [MESSAGE] + [FORGED] == [MESSAGE, FORGED];
    acts := ShownOne(acts, FORGED);
  }

  /** message_id is taken by another agent's history: the sender is acknowledged, and has no message stored. */
  lemma AckWithoutMessage() returns (acts: seq<Action>, pid: nat)
    ensures Legal(INIT, acts) && pid in Reached(acts).handlers
    ensures var s, h := Reached(acts), Reached(acts).handlers[pid];
            && h.sent == [Ack(h.req.messageId)]
            && (h.agentId, h.req.messageId) !in s.claims && !OwnMessage(s.store, h.agentId, h.req.messageId)
  {
    pid := 0;
    acts := TwoAgents();
    acts := Asks(acts, Hello("b"));
    acts := Loses(acts, 0);
    var s := Reached(acts);
    RunRecalls(acts);
    NoAnswer(s.store, 1, "M");
    acts := HearsNone(acts, 0);
  }

  lemma TwoAgents() returns (acts: seq<Action>)
    ensures Legal(INIT, acts)
    ensures var s := Reached(acts);
            && s.store == Store(map["a" := AgentRec(0, "c"), "b" := AgentRec(1, "d")], [MESSAGE])
            && s.claims.Keys == {(0, "M")} && s.nextPid == 0 && s.handlers == map[]
  {
    acts := Then([], CreateAgent("a", "c"));
    acts := Then(acts, CreateAgent("b", "d"));
    var s := Reached(acts);
    assert "a" in s.store.agents && s.store.agents["a"].id == 0;
    assert Live(s.store, 0);
    acts := Then(acts, Append("a", User, "hello", "", "M", 0));
    assert [] + [MESSAGE] == [MESSAGE];
  }
}

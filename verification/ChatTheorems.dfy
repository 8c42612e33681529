/**
 What the chat send protocol promises, over every run of the system.
 */
module ChatTheorems {
  import opened Basics
  import opened ChatStore
  import opened ChatProtocol
  import opened ChatSystem

  lemma InitHolds()
    ensures Inv(INIT)
  {
  }

  /** The state after a run of the system from an empty database. */
  function Reached(acts: seq<Action>): Sys
    requires Legal(INIT, acts)
  {
    After(INIT, acts)
  }

  /**
   An exec is started at most once for an agent row and a message_id, and only after
   the user message is stored, by the run that stored it.
   */
  lemma AtMostOneExec(acts: seq<Action>, key: Key)
    requires Legal(INIT, acts)
    ensures var s := Reached(acts);
            && s.execs[key] <= 1
            && (key in s.execs ==>
                  && key in s.claims && s.claims[key].row.role == User
                  && s.claims[key].writer.Handled? && s.claims[key].writer.pid in s.handlers
                  && s.handlers[s.claims[key].writer.pid].executed)
  {
    InitHolds();
    RunKeeps(INIT, acts);
    var s := Reached(acts);
    if key in s.execs {
      var pid := s.claims[key].writer.pid;
      assert LocalInv(s.handlers[pid]) && Tied(s, pid, s.handlers[pid]);
    }
  }

  /** No agent.chat.history.append has stored a reply to this message. */
  ghost predicate NoAppendedReply(s: Sys, agentId: nat, messageId: string) {
    forall k :: k in s.claims && IsReply(s, k, agentId, messageId) ==> s.claims[k].writer.Handled?
  }

  ghost predicate IsReply(s: Sys, k: Key, agentId: nat, messageId: string)
    requires k in s.claims
  {
    var r := s.claims[k].row;
    r.agentId == agentId && r.parentId == messageId && r.role != User
  }

  /** The run that wrote a reply is the run that stored its user message. */
  lemma ReplyComesFromWinner(s: Sys, k: Key, agentId: nat, messageId: string)
    requires Inv(s) && k in s.claims && IsReply(s, k, agentId, messageId) && s.claims[k].writer.Handled?
    ensures (agentId, messageId) in s.claims && s.claims[(agentId, messageId)].writer == s.claims[k].writer
    ensures s.claims[k].writer.pid in s.handlers && s.handlers[s.claims[k].writer.pid].tried == Some(s.claims[k].row)
    ensures s.claims[k].row.sequence == 0
  {
    var pid := s.claims[k].writer.pid;
    assert WrittenBy(s.handlers[pid], s.claims[k].row);
    assert LocalInv(s.handlers[pid]) && Tied(s, pid, s.handlers[pid]);
  }

  /** A message has at most one stored reply when only chat handlers write replies. */
  lemma OneReply(acts: seq<Action>, agentId: nat, messageId: string, k: Key, l: Key)
    requires Legal(INIT, acts) && NoAppendedReply(Reached(acts), agentId, messageId)
    requires k in Reached(acts).claims && IsReply(Reached(acts), k, agentId, messageId)
    requires l in Reached(acts).claims && IsReply(Reached(acts), l, agentId, messageId)
    ensures k == l
  {
    InitHolds();
    RunKeeps(INIT, acts);
    ReplyComesFromWinner(Reached(acts), k, agentId, messageId);
    ReplyComesFromWinner(Reached(acts), l, agentId, messageId);
  }

  /** A run that found stored replies found exactly one. */
  lemma ShowsOne(s: Sys, pid: nat)
    requires Inv(s) && pid in s.handlers
    requires NoAppendedReply(s, s.handlers[pid].agentId, s.handlers[pid].req.messageId)
    ensures |s.handlers[pid].shown| <= 1
  {
    var h := s.handlers[pid];
    assert LocalInv(h) && Tied(s, pid, h);
    if |h.shown| > 1 {
      assert Before(h.shown[0], h.shown[1]);
      ReplyComesFromWinner(s, KeyOf(h.shown[0]), h.agentId, h.req.messageId);
      ReplyComesFromWinner(s, KeyOf(h.shown[1]), h.agentId, h.req.messageId);
      assert false;
    }
  }

  /** A chunk with a message_id is the whole answer, and is read off the stored reply. */
  lemma ChunkIsReply(s: Sys, pid: nat, i: nat)
    requires Inv(s) && pid in s.handlers && i < |s.handlers[pid].sent|
    requires s.handlers[pid].sent[i].Note? && s.handlers[pid].sent[i].chunk.messageId != ""
    requires NoAppendedReply(s, s.handlers[pid].agentId, s.handlers[pid].req.messageId)
    ensures var h := s.handlers[pid];
            var c := h.sent[i].chunk;
            && h.sent == [Ack(h.req.messageId), Note(c)]
            && (h.agentId, c.messageId) in s.claims
            && var r := s.claims[(h.agentId, c.messageId)].row;
               && IsReply(s, (h.agentId, c.messageId), h.agentId, h.req.messageId)
               && c == Chunk(s.names[h.agentId], r.role, r.content, 0, true, r.messageId)
  {
    var h := s.handlers[pid];
    var c := h.sent[i].chunk;
    ChunkIsStored(s, pid, i);
    ReplyComesFromWinner(s, (h.agentId, c.messageId), h.agentId, h.req.messageId);
    ShowsOne(s, pid);
    PartialTrace(h);
    OneChunk(h, i);
  }

  lemma OneChunk(h: Handler, i: nat)
    requires Tells(h) && |h.shown| <= 1
    requires 0 < i < |h.sent| && h.sent[0] == Ack(h.req.messageId)
    ensures h.sent[i].Note? && h.sent == [Ack(h.req.messageId), h.sent[i]]
    ensures h.sent[i].chunk.name == h.req.name && h.sent[i].chunk.final
  {
    assert h.sent[|h.sent| - 1].Note?;
  }

  /** A chunk with a message_id shows a stored reply to the message. */
  lemma ChunkIsStored(s: Sys, pid: nat, i: nat)
    requires RowsInv(s) && pid in s.handlers && i < |s.handlers[pid].sent|
    requires LocalInv(s.handlers[pid]) && Tied(s, pid, s.handlers[pid])
    requires s.handlers[pid].sent[i].Note? && s.handlers[pid].sent[i].chunk.messageId != ""
    ensures var h := s.handlers[pid];
            var c := h.sent[i].chunk;
            && (h.agentId, c.messageId) in s.claims
            && var r := s.claims[(h.agentId, c.messageId)].row;
               && IsReply(s, (h.agentId, c.messageId), h.agentId, h.req.messageId)
               && r.messageId == c.messageId && r.role == c.role && r.content == c.text && r.sequence == c.sequence
  {
    assert Shown(s.claims, s.handlers[pid], s.handlers[pid].sent[i].chunk);
  }

  /** Whatever a run has sent so far is a prefix of a complete answer. */
  lemma PartialTrace(h: Handler)
    requires LocalInv(h)
    ensures Partial(h.sent, h.req.messageId)
    ensures forall i :: 0 <= i < |h.sent| && h.sent[i].Note? ==> 0 < i && h.sent[0] == Ack(h.req.messageId) && h.located
  {
    PartialSoFar(h);
  }

  /**
   Where only handlers write replies, any two runs for the same agent and message that send
   a stored reply send the same single chunk, whether they wrote it, found it or waited for it.
   */
  lemma StoredReplyIsSentAlike(acts: seq<Action>, p: nat, q: nat, c: Chunk, d: Chunk)
    requires Legal(INIT, acts)
    requires var s := Reached(acts);
             && p in s.handlers && q in s.handlers
             && s.handlers[p].agentId == s.handlers[q].agentId
             && s.handlers[p].req.messageId == s.handlers[q].req.messageId
             && Note(c) in s.handlers[p].sent && c.messageId != ""
             && Note(d) in s.handlers[q].sent && d.messageId != ""
             && NoAppendedReply(s, s.handlers[p].agentId, s.handlers[p].req.messageId)
    ensures var s := Reached(acts);
            && c == d
            && s.handlers[p].sent == s.handlers[q].sent == [Ack(s.handlers[p].req.messageId), Note(c)]
  {
    InitHolds();
    RunKeeps(INIT, acts);
    var s := Reached(acts);
    var i :| 0 <= i < |s.handlers[p].sent| && s.handlers[p].sent[i] == Note(c);
    var j :| 0 <= j < |s.handlers[q].sent| && s.handlers[q].sent[j] == Note(d);
    ChunkIsReply(s, p, i);
    ChunkIsReply(s, q, j);
    var agentId, messageId := s.handlers[p].agentId, s.handlers[p].req.messageId;
    OneReply(acts, agentId, messageId, (agentId, c.messageId), (agentId, d.messageId));
  }

  /**
   A duplicate that found replies and finished has sent all it found, one chunk each.
   */
  lemma ReplayShowsWhatIsStored(acts: seq<Action>, pid: nat)
    requires Legal(INIT, acts) && pid in Reached(acts).handlers
    requires Reached(acts).handlers[pid].pc == Done && Reached(acts).handlers[pid].shown != []
    ensures var h := Reached(acts).handlers[pid];
            && |h.sent| == |h.shown| + 1 && h.sent[0] == Ack(h.req.messageId)
            && forall i :: 0 <= i < |h.shown| ==> h.sent[i + 1] == Note(ReplayChunk(h.req.name, h.shown, i))
  {
    InitHolds();
    RunKeeps(INIT, acts);
    var h := Reached(acts).handlers[pid];
    assert LocalInv(h);
    ReplayEnds(h);
  }

  lemma ReplayEnds(h: Handler)
    requires Tells(h) && Complete(h.sent, h.req.messageId) && h.shown != []
    ensures |h.sent| == |h.shown| + 1 && h.sent[0] == Ack(h.req.messageId)
    ensures forall i :: 0 <= i < |h.shown| ==> h.sent[i + 1] == Note(ReplayChunk(h.req.name, h.shown, i))
  {
    var last := |h.sent| - 1;
    assert h.sent[last].chunk == ReplayChunk(h.req.name, h.shown, last - 1);
    assert h.sent[..last][0] == h.sent[0];
  }

  /**
   Persisted before visible: an ack means a row with that message_id is stored, for the
   winner its own; a chunk with a message_id means a stored row with its role and text
   that answers the message; a chunk without one is an error. Whose row an ack stands for
   is said in ChatReplies.
   */
  lemma VisibleIsStored(acts: seq<Action>, pid: nat)
    requires Legal(INIT, acts) && pid in Reached(acts).handlers
    ensures var s := Reached(acts);
            var h := s.handlers[pid];
            && (Ack(h.req.messageId) in h.sent ==> Known(s.claims, h.req.messageId))
            && (h.won ==>
                  (h.agentId, h.req.messageId) in s.claims
                  && var u := s.claims[(h.agentId, h.req.messageId)].row;
                     u == UserRow(h, u.id, u.timestamp))
            && forall c :: Note(c) in h.sent ==>
                 if c.messageId == "" then c.role == Error
                 else
                   && (h.agentId, c.messageId) in s.claims
                   && var r := s.claims[(h.agentId, c.messageId)].row;
                      r.role == c.role && r.content == c.text && r.parentId == h.req.messageId
  {
    InitHolds();
    RunKeeps(INIT, acts);
    var s := Reached(acts);
    var h := s.handlers[pid];
    assert LocalInv(h) && Tied(s, pid, h);
    forall c | Note(c) in h.sent ensures Shown(s.claims, h, c) && (c.messageId == "" ==> c.role == Error) {
      var i :| 0 <= i < |h.sent| && h.sent[i] == Note(c);
      PartialTrace(h);
      assert Shown(s.claims, h, h.sent[i].chunk);
      if h.shown != [] { assert KeyOf(h.shown[i - 1]) in s.claims; }
    }
  }

  // ---------- traces ----------

  predicate Finished(pc: Pc) {
    pc == Done || pc == Broken || pc == Dead
  }

  /** How far a run is from its end; only Replay needs the second component. */
  function Stage(pc: Pc): nat {
    match pc
    case Decode => 12
    case Lookup => 11
    case DrawUser => 10
    case InsertUser(_) => 9
    case SendAck => 8
    case ListReplies => 8
    case Inspect => 7
    case SendDupAck => 7
    case Exec => 6
    case Poll => 6
    case Executing => 5
    case DrawReply(_, _) => 4
    case InsertReply(_) => 3
    case Replay(_) => 2
    case SendLast(_) => 2
    case SendError(_) => 1
    case _ => 0
  }

  function Left(h: Handler): int {
    match h.pc
    case Replay(i) => |h.shown| - i
    case _ => 0
  }

  ghost predicate Nearer(h: Handler, g: Handler) {
    || Stage(g.pc) < Stage(h.pc)
    || (Stage(g.pc) == Stage(h.pc) && 0 <= Left(g) < Left(h))
    || (h.pc == Poll && g.pc == Poll)
  }

  lemma AdmitNearer(h: Handler, sig: Signal)
    ensures Admit(h, sig).Some? ==> Nearer(h, Admit(h, sig).value)
  {
    if Locating(h.pc) {
      LocatingNearer(h, sig);
    } else if Inserting(h.pc) {
      InsertingNearer(h, sig);
    }
  }

  lemma LocatingNearer(h: Handler, sig: Signal)
    requires Locating(h.pc)
    ensures Admit(h, sig).Some? ==> Nearer(h, Admit(h, sig).value)
  {
  }

  lemma InsertingNearer(h: Handler, sig: Signal)
    requires Inserting(h.pc)
    ensures Admit(h, sig).Some? ==> Nearer(h, Admit(h, sig).value)
  {
  }

  lemma ServeNearer(h: Handler, sig: Signal)
    ensures Serve(h, sig).Some? ==> Nearer(h, Serve(h, sig).value)
  {
    if Running(h.pc) {
      RunningNearer(h, sig);
    } else if Replying(h.pc) {
      ReplyingNearer(h, sig);
    }
  }

  lemma RunningNearer(h: Handler, sig: Signal)
    requires Running(h.pc)
    ensures Serve(h, sig).Some? ==> Nearer(h, Serve(h, sig).value)
  {
  }

  lemma ReplyingNearer(h: Handler, sig: Signal)
    requires Replying(h.pc)
    ensures Serve(h, sig).Some? ==> Nearer(h, Serve(h, sig).value)
  {
  }

  lemma RepeatNearer(h: Handler, sig: Signal)
    ensures Repeat(h, sig).Some? ==> Nearer(h, Repeat(h, sig).value)
  {
    if Looking(h.pc) {
      LookingNearer(h, sig);
    } else if Showing(h.pc) {
      ShowingNearer(h, sig);
    }
  }

  lemma LookingNearer(h: Handler, sig: Signal)
    requires Looking(h.pc)
    ensures Repeat(h, sig).Some? ==> Nearer(h, Repeat(h, sig).value)
  {
  }

  lemma ShowingNearer(h: Handler, sig: Signal)
    requires Showing(h.pc)
    ensures Repeat(h, sig).Some? ==> Nearer(h, Repeat(h, sig).value)
  {
  }

  /** Every step but a fruitless poll brings a run nearer to its end. */
  lemma StepsApproachEnd(h: Handler, sig: Signal)
    requires Advance(h, sig).Some?
    ensures Nearer(h, Advance(h, sig).value)
  {
    match h.pc
    case Decode | Lookup | DrawUser | InsertUser(_) | SendError(_) => AdmitNearer(h, sig);
    case ListReplies | SendDupAck | Poll | Replay(_) => RepeatNearer(h, sig);
    case _ => ServeNearer(h, sig);
  }

  /** A run that has not finished can always take some step: nothing another run does blocks it. */
  lemma NeverStuck(s: Sys, pid: nat) returns (sig: Signal, commits: bool)
    requires Inv(s) && pid in s.handlers && !Finished(s.handlers[pid].pc)
    ensures Enabled(s, Step(pid, sig, commits))
    ensures sig != Sent(false) && !(s.handlers[pid].pc == Poll && sig.Listed?)
  {
    sig, commits := NextSignal(s.handlers[pid].pc, s.nextRow, s.clock), false;
    NextSignalAdvances(s.handlers[pid], s.nextRow, s.clock);
  }

  /** Something that can happen to a run at `pc` without a send failing. */
  function NextSignal(pc: Pc, row: nat, clock: nat): Signal {
    match pc
    case Decode => Go
    case Lookup => Found(None)
    case DrawUser => Drawn(row, clock, "1")
    case DrawReply(_, _) => Drawn(row, clock, "1")
    case InsertUser(_) => Inserted(Failed, "")
    case InsertReply(_) => Inserted(Failed, "")
    case Inspect => Inspected(NoClient)
    case Exec => ExecStarted
    case Executing => ExecEnded(ExecFailed(""))
    case ListReplies => ListFailed("")
    case Poll => TimedOut("")
    case _ => Sent(true)
  }

  lemma NextSignalAdvances(h: Handler, row: nat, clock: nat)
    requires LocalInv(h) && !Finished(h.pc)
    ensures Advance(h, NextSignal(h.pc, row, clock)).Some?
  {
  }

  /**
   Traces have one shape: a finished run whose sends worked and that no crash cut off
   has sent one error response, or an ack and then chunks of which exactly the last is
   final. Any other run has sent a prefix of that.
   */
  lemma TraceHasOneShape(acts: seq<Action>, pid: nat)
    requires Legal(INIT, acts) && pid in Reached(acts).handlers
    ensures var h := Reached(acts).handlers[pid];
            && Partial(h.sent, h.req.messageId)
            && (h.pc == Done ==> Complete(h.sent, h.req.messageId))
            && (Finished(h.pc) && Smooth(acts) ==> h.pc == Done)
  {
    InitHolds();
    RunKeeps(INIT, acts);
    PartialTrace(Reached(acts).handlers[pid]);
    if Smooth(acts) { SmoothRunsEndWell(acts, pid); }
  }

  /** No send fails and the daemon does not crash. */
  predicate Smooth(acts: seq<Action>) {
    forall i :: 0 <= i < |acts| ==> acts[i] != Crash && !(acts[i].Step? && acts[i].sig == Sent(false))
  }

  lemma SmoothStep(h: Handler, sig: Signal)
    requires Advance(h, sig).Some? && sig != Sent(false)
    ensures Advance(h, sig).value.pc != Broken && Advance(h, sig).value.pc != Dead
  {
    if Locating(h.pc) || Inserting(h.pc) {
      SmoothAdmit(h, sig);
    } else if Looking(h.pc) || Showing(h.pc) {
      SmoothRepeat(h, sig);
    } else {
      SmoothServe(h, sig);
    }
  }

  lemma SmoothAdmit(h: Handler, sig: Signal)
    requires sig != Sent(false)
    ensures Admit(h, sig).Some? ==> Admit(h, sig).value.pc != Broken && Admit(h, sig).value.pc != Dead
  {
  }

  lemma SmoothRepeat(h: Handler, sig: Signal)
    requires sig != Sent(false)
    ensures Repeat(h, sig).Some? ==> Repeat(h, sig).value.pc != Broken && Repeat(h, sig).value.pc != Dead
  {
  }

  lemma SmoothServe(h: Handler, sig: Signal)
    requires sig != Sent(false)
    ensures Serve(h, sig).Some? ==> Serve(h, sig).value.pc != Broken && Serve(h, sig).value.pc != Dead
  {
    if Running(h.pc) {
      RunningSmooth(h, sig);
    } else if Replying(h.pc) {
      ReplyingSmooth(h, sig);
    }
  }

  lemma RunningSmooth(h: Handler, sig: Signal)
    requires Running(h.pc)
    requires sig != Sent(false)
    ensures Serve(h, sig).Some? ==> Serve(h, sig).value.pc != Broken && Serve(h, sig).value.pc != Dead
  {
  }

  lemma ReplyingSmooth(h: Handler, sig: Signal)
    requires Replying(h.pc)
    requires sig != Sent(false)
    ensures Serve(h, sig).Some? ==> Serve(h, sig).value.pc != Broken && Serve(h, sig).value.pc != Dead
  {
  }

  lemma {:induction false} SmoothRunsEndWell(acts: seq<Action>, pid: nat)
    requires Legal(INIT, acts) && Smooth(acts) && pid in Reached(acts).handlers
    ensures Reached(acts).handlers[pid].pc != Broken && Reached(acts).handlers[pid].pc != Dead
    decreases |acts|
  {
    if acts != [] {
      var init, a := acts[..|acts| - 1], acts[|acts| - 1];
      if pid in Reached(init).handlers { SmoothRunsEndWell(init, pid); }
      if a.Step? && a.pid == pid { SmoothStep(Reached(init).handlers[pid], a.sig); }
    }
  }

  // ---------- the order of the history ----------

  /** A user row lists before its reply. */
  lemma UserListsBeforeReply(acts: seq<Action>, pid: nat) returns (i: nat, j: nat)
    requires Legal(INIT, acts) && pid in Reached(acts).handlers
    requires var s, h := Reached(acts), Reached(acts).handlers[pid];
             && h.won && h.tried.Some? && h.userRow.Some?
             && h.userRow.value in s.store.rows && h.tried.value in s.store.rows
    ensures var s, h := Reached(acts), Reached(acts).handlers[pid];
            var rows := ListChatHistory(s.store, h.agentId, 0);
            i < j < |rows| && rows[i] == h.userRow.value && rows[j] == h.tried.value
  {
    InitHolds();
    RunKeeps(INIT, acts);
    var s, h := Reached(acts), Reached(acts).handlers[pid];
    assert LocalInv(h);
    i, j := ListedInOrder(s.store, h.agentId, h.userRow.value, h.tried.value);
  }

  /** `h` drew nothing before the ids and the clock stood at `row` and `now`. */
  ghost predicate DrewSince(h: Handler, row: nat, now: nat) {
    && (h.userRow.Some? ==>
          row <= h.userRow.value.id && now <= h.userRow.value.timestamp && h.userRow.value.sequence == 0)
    && (h.tried.Some? ==> row <= h.tried.value.id && now <= h.tried.value.timestamp && h.tried.value.sequence == 0)
  }

  lemma StepDrawsSince(h: Handler, sig: Signal, row: nat, now: nat)
    requires Advance(h, sig).Some? && DrewSince(h, row, now) && (sig.Drawn? ==> row <= sig.id && now <= sig.now)
    ensures DrewSince(Advance(h, sig).value, row, now)
  {
    AdvanceFrame(h, sig);
    if h.pc.DrawUser? || h.pc.DrawReply? { DrawsLate(h, sig, row, now); }
  }

  lemma DrawsLate(h: Handler, sig: Signal, row: nat, now: nat)
    requires h.pc.DrawUser? || h.pc.DrawReply?
    requires Advance(h, sig).Some? && DrewSince(h, row, now) && (sig.Drawn? ==> row <= sig.id && now <= sig.now)
    ensures DrewSince(Advance(h, sig).value, row, now)
  {
  }

  lemma ActionDrawsSince(t: Sys, a: Action, pid: nat, row: nat, now: nat)
    requires Enabled(t, a) && row <= t.nextRow && now <= t.clock && pid in Apply(t, a).handlers
    requires pid in t.handlers ==> DrewSince(t.handlers[pid], row, now)
    ensures DrewSince(Apply(t, a).handlers[pid], row, now)
  {
    if a.Step? && a.pid == pid { StepDrawsSince(t.handlers[pid], a.sig, row, now); }
  }

  /** A run that arrives after `s` draws only ids and times from `s` on. */
  lemma {:induction false} LateRunsDrawLate(s: Sys, acts: seq<Action>, pid: nat)
    requires Inv(s) && Legal(s, acts) && s.nextPid <= pid
    ensures pid in After(s, acts).handlers ==> DrewSince(After(s, acts).handlers[pid], s.nextRow, s.clock)
    decreases |acts|
  {
    if acts != [] {
      var init, a := acts[..|acts| - 1], acts[|acts| - 1];
      var t := After(s, init);
      LateRunsDrawLate(s, init, pid);
      assert Grows(s, t) by { RunKeeps(s, init); }
      if pid in Apply(t, a).handlers { ActionDrawsSince(t, a, pid, s.nextRow, s.clock); }
    }
  }

  /**
   Turns list in order: what a run had drawn when a later request arrived lists before
   everything the later run writes for the same agent.
   */
  lemma TurnsListInOrder(before: seq<Action>, later: seq<Action>, p: nat, q: nat, a: Row, b: Row)
    returns (i: nat, j: nat)
    requires Legal(INIT, before) && Legal(Reached(before), later)
    requires p in Reached(before).handlers && Reached(before).nextPid <= q
    requires q in After(Reached(before), later).handlers
    requires Reached(before).handlers[p].userRow == Some(a) || Reached(before).handlers[p].tried == Some(a)
    requires var h := After(Reached(before), later).handlers[q];
             h.userRow == Some(b) || h.tried == Some(b)
    requires a.agentId == b.agentId
    requires a in After(Reached(before), later).store.rows && b in After(Reached(before), later).store.rows
    ensures var rows := ListChatHistory(After(Reached(before), later).store, a.agentId, 0);
            i < j < |rows| && rows[i] == a && rows[j] == b
  {
    InitHolds();
    RunKeeps(INIT, before);
    var s := Reached(before);
    RunKeeps(s, later);
    LateRunsDrawLate(s, later, q);
    assert LocalInv(s.handlers[p]) && Tied(s, p, s.handlers[p]);
    assert Before(a, b);
    i, j := ListedInOrder(After(s, later).store, a.agentId, a, b);
  }
}

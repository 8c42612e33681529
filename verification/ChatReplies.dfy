/**
 What a duplicate is shown against what the original was sent, and whose message an ack
 stands for. Both turn on what the database answered: to the insert of the reply, and to
 the insert of the message.
 */
module ChatReplies {
  import opened Basics
  import opened ChatStore
  import opened ChatProtocol
  import opened ChatSystem
  import opened ChatTheorems

  // ---------- what a run remembers of its inserts ----------

  /** The chunk of a run that stored the message: its reply if that was kept, else one without an id. */
  ghost predicate Rightly(h: Handler, c: Chunk) {
    if h.kept then h.tried.Some? && c == ReplyChunk(h.req.name, h.tried.value) else c.messageId == ""
  }

  ghost predicate SaysRightly(h: Handler) {
    && (h.sent != [] ==> h.sent[0] == Ack(h.req.messageId))
    && (forall i :: 0 < i < |h.sent| ==> h.sent[i].Note? && Rightly(h, h.sent[i].chunk))
    && (h.pc.SendLast? ==> Rightly(h, h.pc.chunk))
  }

  /** The insert of the message is still to come. */
  predicate Early(pc: Pc) {
    pc.Decode? || pc.Lookup? || pc.DrawUser? || pc.InsertUser?
  }

  /** The run that lost met a stored row with its message_id. */
  ghost predicate Met(claims: map<Key, Claim>, h: Handler) {
    && (h.met.Some? ==> !h.won && Holds(claims, h.met.value, h.req.messageId))
    && (Early(h.pc) ==> h.met.None? && !h.won)
    && (IsRepeat(h.pc) ==> h.met.Some?)
    && (h.pc.SendLast? ==> h.won || h.met.Some?)
    && (h.sent != [] && h.sent[0].Ack? ==> h.won || h.met.Some?)
  }

  /** A reply whose insert was answered well is stored, in the name of the run. */
  ghost predicate Kept(claims: map<Key, Claim>, pid: nat, h: Handler) {
    h.kept ==>
      && h.won && h.tried.Some? && KeyOf(h.tried.value) in claims
      && claims[KeyOf(h.tried.value)] == Claim(h.tried.value, Handled(pid))
  }

  ghost predicate Recalls(claims: map<Key, Claim>, pid: nat, h: Handler) {
    Met(claims, h) && Kept(claims, pid, h) && (h.won ==> SaysRightly(h))
  }

  ghost predicate AllRecall(s: Sys) {
    forall pid :: pid in s.handlers ==> Recalls(s.claims, pid, s.handlers[pid])
  }

  lemma AdmitMeets(claims: map<Key, Claim>, h: Handler, sig: Signal)
    requires LocalInv(h) && Met(claims, h) && Admit(h, sig).Some?
    requires sig.Inserted? && sig.res.NameTaken? && IsInsert(h.pc) ==> Holds(claims, sig.res.holder, h.pc.row.messageId)
    ensures Met(claims, Admit(h, sig).value)
  {
    if Locating(h.pc) {
      LocatingMeets(claims, h, sig);
    } else if Inserting(h.pc) {
      InsertingMeets(claims, h, sig);
    }
  }

  lemma LocatingMeets(claims: map<Key, Claim>, h: Handler, sig: Signal)
    requires Locating(h.pc)
    requires LocalInv(h) && Met(claims, h) && Admit(h, sig).Some?
    requires sig.Inserted? && sig.res.NameTaken? && IsInsert(h.pc) ==> Holds(claims, sig.res.holder, h.pc.row.messageId)
    ensures Met(claims, Admit(h, sig).value)
  {
  }

  lemma InsertingMeets(claims: map<Key, Claim>, h: Handler, sig: Signal)
    requires Inserting(h.pc)
    requires LocalInv(h) && Met(claims, h) && Admit(h, sig).Some?
    requires sig.Inserted? && sig.res.NameTaken? && IsInsert(h.pc) ==> Holds(claims, sig.res.holder, h.pc.row.messageId)
    ensures Met(claims, Admit(h, sig).value)
  {
  }

  lemma ServeMeets(claims: map<Key, Claim>, h: Handler, sig: Signal)
    requires LocalInv(h) && Met(claims, h) && Serve(h, sig).Some?
    ensures Met(claims, Serve(h, sig).value)
  {
    if Running(h.pc) {
      RunningMeets(claims, h, sig);
    } else if Replying(h.pc) {
      ReplyingMeets(claims, h, sig);
    }
  }

  lemma RunningMeets(claims: map<Key, Claim>, h: Handler, sig: Signal)
    requires Running(h.pc)
    requires LocalInv(h) && Met(claims, h) && Serve(h, sig).Some?
    ensures Met(claims, Serve(h, sig).value)
  {
  }

  lemma ReplyingMeets(claims: map<Key, Claim>, h: Handler, sig: Signal)
    requires Replying(h.pc)
    requires LocalInv(h) && Met(claims, h) && Serve(h, sig).Some?
    ensures Met(claims, Serve(h, sig).value)
  {
  }

  lemma RepeatMeets(claims: map<Key, Claim>, h: Handler, sig: Signal)
    requires LocalInv(h) && Met(claims, h) && Repeat(h, sig).Some?
    ensures Met(claims, Repeat(h, sig).value)
  {
    if Looking(h.pc) {
      LookingMeets(claims, h, sig);
    } else if Showing(h.pc) {
      ShowingMeets(claims, h, sig);
    }
  }

  lemma LookingMeets(claims: map<Key, Claim>, h: Handler, sig: Signal)
    requires Looking(h.pc)
    requires LocalInv(h) && Met(claims, h) && Repeat(h, sig).Some?
    ensures Met(claims, Repeat(h, sig).value)
  {
  }

  lemma ShowingMeets(claims: map<Key, Claim>, h: Handler, sig: Signal)
    requires Showing(h.pc)
    requires LocalInv(h) && Met(claims, h) && Repeat(h, sig).Some?
    ensures Met(claims, Repeat(h, sig).value)
  {
  }

  lemma AdvanceKeeps(claims: map<Key, Claim>, pid: nat, h: Handler, sig: Signal)
    requires LocalInv(h) && Kept(claims, pid, h) && Advance(h, sig).Some?
    requires sig.Inserted? && sig.res == Stored && IsInsert(h.pc) ==>
      KeyOf(h.pc.row) in claims && claims[KeyOf(h.pc.row)] == Claim(h.pc.row, Handled(pid))
    ensures Kept(claims, pid, Advance(h, sig).value)
  {
    AdvanceFrame(h, sig);
    if h.pc.InsertReply? {
      InsertReplyKeeps(h, sig);
    } else {
      FrameKeeps(claims, pid, h, Advance(h, sig).value);
    }
  }

  lemma FrameKeeps(claims: map<Key, Claim>, pid: nat, h: Handler, g: Handler)
    requires LocalInv(h) && Kept(claims, pid, h) && Frame(h, g) && !h.pc.InsertReply?
    ensures Kept(claims, pid, g)
  {
  }

  lemma InsertReplyKeeps(h: Handler, sig: Signal)
    requires LocalInv(h) && h.pc.InsertReply? && Advance(h, sig).Some?
    ensures sig.Inserted? && h.tried == Some(h.pc.row) && Advance(h, sig).value.kept == (sig.res == Stored)
  {
  }

  lemma SendsRightly(h: Handler, ok: bool, msg: Msg, pc: Pc)
    requires SaysRightly(h) && !pc.SendLast?
    requires if h.sent == [] then msg == Ack(h.req.messageId) else msg.Note? && Rightly(h, msg.chunk)
    ensures SaysRightly(AfterSend(h, ok, msg, pc))
  {
    var g := AfterSend(h, ok, msg, pc);
    forall i | 0 < i < |g.sent| ensures g.sent[i].Note? && Rightly(g, g.sent[i].chunk) {
      if i < |h.sent| { assert g.sent[i] == h.sent[i]; }
    }
  }

  lemma ServeSaysRightly(h: Handler, sig: Signal)
    requires LocalInv(h) && h.won && SaysRightly(h) && Serve(h, sig).Some?
    ensures SaysRightly(Serve(h, sig).value)
  {
    match h.pc
    case SendAck => SendsRightly(h, sig.ok, Ack(h.req.messageId), Inspect);
    case SendLast(chunk) => SendsRightly(h, sig.ok, Note(chunk), Done);
    case _ =>
  }

  /** The run that stored the message has left the other branches for good. */
  lemma WinnerServes(h: Handler, sig: Signal)
    requires LocalInv(h) && Advance(h, sig).Some? && Advance(h, sig).value.won
    ensures if h.won then Serve(h, sig) == Advance(h, sig)
            else Advance(h, sig).value.pc == SendAck && Advance(h, sig).value.sent == []
  {
  }

  lemma AdvanceSaysRightly(h: Handler, sig: Signal)
    requires LocalInv(h) && Advance(h, sig).Some? && Advance(h, sig).value.won
    requires h.won ==> SaysRightly(h)
    ensures SaysRightly(Advance(h, sig).value)
  {
    WinnerServes(h, sig);
    if h.won { ServeSaysRightly(h, sig); }
  }

  lemma AdvanceMeets(claims: map<Key, Claim>, h: Handler, sig: Signal)
    requires LocalInv(h) && Met(claims, h) && Advance(h, sig).Some?
    requires sig.Inserted? && sig.res.NameTaken? && IsInsert(h.pc) ==> Holds(claims, sig.res.holder, h.pc.row.messageId)
    ensures Met(claims, Advance(h, sig).value)
  {
    match h.pc
    case Decode | Lookup | DrawUser | InsertUser(_) | SendError(_) => AdmitMeets(claims, h, sig);
    case ListReplies | SendDupAck | Poll | Replay(_) => RepeatMeets(claims, h, sig);
    case _ => ServeMeets(claims, h, sig);
  }

  lemma RecallsStays(s: Sys, t: Sys, pid: nat, h: Handler)
    requires Grows(s, t) && Recalls(s.claims, pid, h)
    ensures Recalls(t.claims, pid, h)
  {
  }

  lemma StepRecalls(s: Sys, pid: nat, sig: Signal, commits: bool)
    requires Inv(s) && AllRecall(s) && Enabled(s, Step(pid, sig, commits))
    ensures AllRecall(Apply(s, Step(pid, sig, commits)))
  {
    var u := Effect(s, pid, sig, commits);
    var t := Apply(s, Step(pid, sig, commits));
    var h := s.handlers[pid];
    EffectKeepsRows(s, pid, sig, commits);
    SignalAnswered(s, pid, sig, commits);
    RecallsStays(s, u, pid, h);
    AdvanceMeets(u.claims, h, sig);
    AdvanceKeeps(u.claims, pid, h, sig);
    if Advance(h, sig).value.won { AdvanceSaysRightly(h, sig); }
    forall q | q in t.handlers ensures Recalls(t.claims, q, t.handlers[q]) {
      if q != pid { RecallsStays(s, u, q, s.handlers[q]); }
    }
  }

  lemma KilledRecalls(claims: map<Key, Claim>, pid: nat, h: Handler)
    requires Recalls(claims, pid, h)
    ensures Recalls(claims, pid, Killed(h))
  {
  }

  lemma ActionRecalls(s: Sys, a: Action)
    requires Inv(s) && AllRecall(s) && Enabled(s, a)
    ensures AllRecall(Apply(s, a))
  {
    if a.Step? {
      StepRecalls(s, a.pid, a.sig, a.commits);
    } else {
      var t := Apply(s, a);
      ActionKeeps(s, a);
      forall pid | pid in t.handlers ensures Recalls(t.claims, pid, t.handlers[pid]) {
        if pid in s.handlers {
          RecallsStays(s, t, pid, s.handlers[pid]);
          KilledRecalls(t.claims, pid, s.handlers[pid]);
        }
      }
    }
  }

  lemma {:induction false} RunRecalls(acts: seq<Action>)
    requires Legal(INIT, acts)
    ensures Inv(Reached(acts)) && AllRecall(Reached(acts))
    decreases |acts|
  {
    InitHolds();
    if acts != [] {
      RunRecalls(acts[..|acts| - 1]);
      ActionKeeps(Reached(acts[..|acts| - 1]), acts[|acts| - 1]);
      ActionRecalls(Reached(acts[..|acts| - 1]), acts[|acts| - 1]);
    }
  }

  // ---------- what duplicates are shown ----------

  /** Only handlers wrote these rows. */
  ghost predicate AllHandled(claims: map<Key, Claim>, rows: seq<Row>) {
    forall i :: 0 <= i < |rows| ==> KeyOf(rows[i]) in claims && claims[KeyOf(rows[i])].writer.Handled?
  }

  /** Two runs of one message, the one that stored it and one that found replies, both at their end. */
  ghost predicate OriginalAndDuplicate(s: Sys, p: nat, q: nat) {
    && p in s.handlers && q in s.handlers
    && s.handlers[p].agentId == s.handlers[q].agentId
    && s.handlers[p].req.messageId == s.handlers[q].req.messageId
    && s.handlers[p].pc == Done && s.handlers[p].won
    && s.handlers[q].pc == Done && s.handlers[q].shown != []
  }

  /** The original has sent its ack and one chunk, the reply it stored or one without an id. */
  lemma OriginalSaid(h: Handler)
    requires LocalInv(h) && h.pc == Done && h.won && SaysRightly(h)
    ensures |h.sent| == 2 && h.sent[0] == Ack(h.req.messageId) && h.sent[1].Note? && Rightly(h, h.sent[1].chunk)
  {
  }

  /** Replies that handlers wrote are the one reply of the run that stored the message. */
  lemma HandledReplyIsOriginal(s: Sys, p: nat, q: nat)
    requires Inv(s) && OriginalAndDuplicate(s, p, q) && AllHandled(s.claims, s.handlers[q].shown)
    ensures s.handlers[p].tried.Some? && s.handlers[q].shown == [s.handlers[p].tried.value]
    ensures s.handlers[p].tried.value.sequence == 0 && s.handlers[p].tried.value.messageId != ""
    ensures s.handlers[p].req.name == s.handlers[q].req.name
  {
    var g, h := s.handlers[p], s.handlers[q];
    assert Tied(s, p, g) && LocalInv(h) && Tied(s, q, h);
    assert s.claims[(g.agentId, g.req.messageId)].writer == Handled(p);
    forall i | 0 <= i < |h.shown| ensures g.tried == Some(h.shown[i]) {
      ReplyComesFromWinner(s, KeyOf(h.shown[i]), h.agentId, h.req.messageId);
    }
    ReplyComesFromWinner(s, KeyOf(h.shown[0]), h.agentId, h.req.messageId);
    SortedAlike(h.shown, g.tried.value);
  }

  lemma SortedAlike(rows: seq<Row>, row: Row)
    requires Sorted(rows) && rows != [] && forall i :: 0 <= i < |rows| ==> rows[i] == row
    ensures rows == [row]
  {
    assert |rows| > 1 ==> Before(rows[0], rows[1]);
  }

  /** A duplicate that sent what the original sent found the row that the original kept. */
  lemma SameChunkIsKept(s: Sys, p: nat, q: nat)
    requires Inv(s) && AllRecall(s) && OriginalAndDuplicate(s, p, q)
    requires s.handlers[q].sent == s.handlers[p].sent
    ensures s.handlers[p].kept && AllHandled(s.claims, s.handlers[q].shown)
  {
    var g, h := s.handlers[p], s.handlers[q];
    assert LocalInv(g) && Recalls(s.claims, p, g) && LocalInv(h) && Tied(s, q, h);
    OriginalSaid(g);
    ReplayEnds(h);
    var row := h.shown[0];
    assert KeyOf(row) in s.claims && s.claims[KeyOf(row)].row == row;
    assert h.sent[1] == Note(ReplayChunk(h.req.name, h.shown, 0));
    assert g.sent[1].chunk.messageId == row.messageId != "";
  }

  /**
   A duplicate that found replies sends what the original sent exactly when the original's
   insert of its reply was answered well and nobody but handlers wrote what the duplicate
   found. An insert that is reported as failed may have stored the reply all the same, and
   agent.chat.history.append may store others.
   */
  lemma ReplayMatchesOriginal(acts: seq<Action>, p: nat, q: nat)
    requires Legal(INIT, acts) && OriginalAndDuplicate(Reached(acts), p, q)
    ensures var s := Reached(acts);
            s.handlers[q].sent == s.handlers[p].sent
            <==> s.handlers[p].kept && AllHandled(s.claims, s.handlers[q].shown)
  {
    RunRecalls(acts);
    var s := Reached(acts);
    var g, h := s.handlers[p], s.handlers[q];
    if h.sent == g.sent {
      SameChunkIsKept(s, p, q);
    }
    if g.kept && AllHandled(s.claims, h.shown) {
      KeptIsSame(s, p, q);
    }
  }

  /** A duplicate that found only what handlers wrote sent what the original kept and sent. */
  lemma KeptIsSame(s: Sys, p: nat, q: nat)
    requires Inv(s) && AllRecall(s) && OriginalAndDuplicate(s, p, q)
    requires s.handlers[p].kept && AllHandled(s.claims, s.handlers[q].shown)
    ensures s.handlers[q].sent == s.handlers[p].sent
  {
    var g, h := s.handlers[p], s.handlers[q];
    assert LocalInv(g) && Recalls(s.claims, p, g) && LocalInv(h);
    HandledReplyIsOriginal(s, p, q);
    OriginalSaid(g);
    ReplayEnds(h);
    SameTwo(g, h);
  }

  lemma SameTwo(g: Handler, h: Handler)
    requires |g.sent| == 2 == |h.sent| && g.sent[0] == h.sent[0]
    requires g.kept && g.tried.Some? && h.shown == [g.tried.value]
    requires g.req.name == h.req.name && g.tried.value.sequence == 0
    requires g.sent[1] == Note(ReplyChunk(g.req.name, g.tried.value))
    requires h.sent[1] == Note(ReplayChunk(h.req.name, h.shown, 0))
    ensures h.sent == g.sent
  {
    assert h.sent == [h.sent[0], h.sent[1]] && g.sent == [g.sent[0], g.sent[1]];
  }

  /**
   Replay is transparent where only handlers write replies: exactly when the original's
   insert of its reply was answered well.
   */
  lemma ReplayIsTransparent(acts: seq<Action>, p: nat, q: nat)
    requires Legal(INIT, acts) && OriginalAndDuplicate(Reached(acts), p, q)
    requires var s := Reached(acts); NoAppendedReply(s, s.handlers[p].agentId, s.handlers[p].req.messageId)
    ensures var s := Reached(acts);
            s.handlers[q].sent == s.handlers[p].sent <==> s.handlers[p].kept
  {
    RunRecalls(acts);
    ReplayMatchesOriginal(acts, p, q);
    FoundAreHandled(Reached(acts), p, q);
  }

  lemma FoundAreHandled(s: Sys, p: nat, q: nat)
    requires Inv(s) && OriginalAndDuplicate(s, p, q)
    requires NoAppendedReply(s, s.handlers[p].agentId, s.handlers[p].req.messageId)
    ensures AllHandled(s.claims, s.handlers[q].shown)
  {
    var h := s.handlers[q];
    assert LocalInv(h) && Tied(s, q, h);
    forall i | 0 <= i < |h.shown| ensures KeyOf(h.shown[i]) in s.claims && s.claims[KeyOf(h.shown[i])].writer.Handled? {
      assert IsReply(s, KeyOf(h.shown[i]), h.agentId, h.req.messageId);
    }
  }

  // ---------- whose message an ack stands for ----------

  /** The agent's own history holds a user row with this message_id. */
  ghost predicate OwnMessage(st: Store, agentId: nat, messageId: string) {
    exists r :: r in st.rows && r.agentId == agentId && r.messageId == messageId && r.role == User
  }

  /** The row the run met is a user row of its own agent. */
  ghost predicate MetOwn(h: Handler) {
    h.met.Some? && h.met.value.role == User && h.met.value.agentId == h.agentId
  }

  lemma HolderIsOnly(st: Store, row: Row, agentId: nat)
    requires Distinct(st.rows) && InsertVerdict(st, row).NameTaken?
    ensures var holder := InsertVerdict(st, row).holder;
            OwnMessage(st, agentId, row.messageId) <==> holder.role == User && holder.agentId == agentId
  {
    var holder := InsertVerdict(st, row).holder;
    if OwnMessage(st, agentId, row.messageId) {
      var r :| r in st.rows && r.agentId == agentId && r.messageId == row.messageId && r.role == User;
      var i :| 0 <= i < |st.rows| && st.rows[i] == r;
      var j :| 0 <= j < |st.rows| && st.rows[j] == holder;
      assert i == j;
    }
  }

  /** Just after the insert of a message was answered, the history holds it exactly when the answer says so. */
  lemma InsertSettles(s: Sys, pid: nat, sig: Signal, commits: bool)
    requires Inv(s) && Enabled(s, Step(pid, sig, commits)) && s.handlers[pid].pc.InsertUser? && sig.res != Failed
    requires s.handlers[pid].met.None? && !s.handlers[pid].won
    ensures var t := Apply(s, Step(pid, sig, commits));
            var h := t.handlers[pid];
            && (h.won || h.met.Some?)
            && (OwnMessage(t.store, h.agentId, h.req.messageId) <==> h.won || MetOwn(h))
  {
    var t := Apply(s, Step(pid, sig, commits));
    var h := s.handlers[pid];
    assert LocalInv(h);
    if sig.res == Stored {
      assert h.pc.row in t.store.rows;
    } else {
      HolderIsOnly(s.store, h.pc.row, h.agentId);
    }
  }

  /** An answer once given is never revised. */
  lemma AnswerStays(s: Sys, a: Action, pid: nat)
    requires Enabled(s, a) && pid in s.handlers && pid < s.nextPid
    requires LocalInv(s.handlers[pid]) && Met(s.claims, s.handlers[pid])
    requires s.handlers[pid].won || s.handlers[pid].met.Some?
    ensures pid in Apply(s, a).handlers && SameAnswer(s.handlers[pid], Apply(s, a).handlers[pid])
  {
    if a.Step? && a.pid == pid {
      MetStays(s.handlers[pid], a.sig);
      OwnStep(s, a);
    } else {
      OthersLeave(s, a, pid);
    }
  }

  ghost predicate SameAnswer(h: Handler, g: Handler) {
    g.won == h.won && g.met == h.met && g.agentId == h.agentId && g.req == h.req
  }

  lemma OwnStep(s: Sys, a: Action)
    requires Enabled(s, a) && a.Step?
    ensures a.pid in Apply(s, a).handlers
    ensures Apply(s, a).handlers[a.pid] == Advance(s.handlers[a.pid], a.sig).value
  {
  }

  /** What is not a step of a run leaves it, or kills it. */
  lemma OthersLeave(s: Sys, a: Action, pid: nat)
    requires Enabled(s, a) && pid in s.handlers && pid < s.nextPid && !(a.Step? && a.pid == pid)
    ensures pid in Apply(s, a).handlers
    ensures Apply(s, a).handlers[pid] == s.handlers[pid] || Apply(s, a).handlers[pid] == Killed(s.handlers[pid])
  {
  }

  lemma MetStays(h: Handler, sig: Signal)
    requires LocalInv(h) && Advance(h, sig).Some? && (h.won || h.met.Some?)
    requires Early(h.pc) ==> h.met.None? && !h.won
    ensures SameAnswer(h, Advance(h, sig).value)
  {
    AdvanceFrame(h, sig);
  }

  /** Where in the run its message's insert was answered. */
  ghost predicate AnsweredAt(acts: seq<Action>, n: nat, pid: nat)
    requires Legal(INIT, acts)
  {
    && n < |acts| && Legal(INIT, acts[..n]) && Legal(INIT, acts[..n + 1])
    && pid in Reached(acts[..n]).handlers && Reached(acts[..n]).handlers[pid].pc.InsertUser?
    && Reached(acts[..n]).handlers[pid].sent == []
  }

  ghost predicate Settled(s: Sys, pid: nat) {
    pid in s.handlers && (s.handlers[pid].won || s.handlers[pid].met.Some?)
  }

  /** A run is settled by the answer to the insert of its message, and by nothing else. */
  lemma SettledByInsert(s: Sys, a: Action, pid: nat)
    requires Inv(s) && Enabled(s, a) && !Settled(s, pid) && Settled(Apply(s, a), pid)
    ensures a.Step? && a.pid == pid && pid in s.handlers
    ensures s.handlers[pid].pc.InsertUser? && a.sig.res != Failed && s.handlers[pid].sent == []
  {
    if pid in s.handlers {
      assert LocalInv(s.handlers[pid]);
      if a.Step? && a.pid == pid {
        SettledByAdmit(s.handlers[pid], a.sig);
      } else {
        OthersLeave(s, a, pid);
      }
    }
  }

  lemma SettledByAdmit(h: Handler, sig: Signal)
    requires LocalInv(h) && Advance(h, sig).Some? && !h.won && h.met.None?
    requires Advance(h, sig).value.won || Advance(h, sig).value.met.Some?
    ensures h.pc.InsertUser? && sig.res != Failed && h.sent == []
  {
  }

  /** At step `n` the insert of the message was answered, and the history held it exactly when the answer says so. */
  ghost predicate SettledAt(acts: seq<Action>, n: nat, pid: nat, h: Handler)
    requires Legal(INIT, acts)
  {
    && AnsweredAt(acts, n, pid)
    && (OwnMessage(Reached(acts[..n + 1]).store, h.agentId, h.req.messageId) <==> h.won || MetOwn(h))
  }

  lemma SettledNow(acts: seq<Action>, pid: nat)
    requires acts != [] && Legal(INIT, acts)
    requires !Settled(Reached(acts[..|acts| - 1]), pid) && Settled(Reached(acts), pid)
    ensures SettledAt(acts, |acts| - 1, pid, Reached(acts).handlers[pid])
  {
    var n, a := |acts| - 1, acts[|acts| - 1];
    var s := Reached(acts[..n]);
    RunRecalls(acts[..n]);
    assert acts[..n + 1] == acts;
    SettledByInsert(s, a, pid);
    assert Recalls(s.claims, pid, s.handlers[pid]);
    InsertSettles(s, pid, a.sig, a.commits);
  }

  lemma SettledEarlier(acts: seq<Action>, n: nat, pid: nat)
    requires acts != [] && Legal(INIT, acts)
    requires Settled(Reached(acts[..|acts| - 1]), pid)
    requires SettledAt(acts[..|acts| - 1], n, pid, Reached(acts[..|acts| - 1]).handlers[pid])
    ensures pid in Reached(acts).handlers && SettledAt(acts, n, pid, Reached(acts).handlers[pid])
  {
    SettledStays(acts, pid);
    SettledAtLater(acts, n, pid, Reached(acts[..|acts| - 1]).handlers[pid], Reached(acts).handlers[pid]);
  }

  lemma SettledStays(acts: seq<Action>, pid: nat)
    requires acts != [] && Legal(INIT, acts) && Settled(Reached(acts[..|acts| - 1]), pid)
    ensures pid in Reached(acts).handlers
    ensures SameAnswer(Reached(acts[..|acts| - 1]).handlers[pid], Reached(acts).handlers[pid])
  {
    var most := acts[..|acts| - 1];
    RunRecalls(most);
    assert Recalls(Reached(most).claims, pid, Reached(most).handlers[pid]);
    AnswerStays(Reached(most), acts[|acts| - 1], pid);
  }

  /** A moment of a run is a moment of every longer run. */
  lemma SettledAtLater(acts: seq<Action>, n: nat, pid: nat, h: Handler, g: Handler)
    requires acts != [] && Legal(INIT, acts) && SameAnswer(h, g)
    requires SettledAt(acts[..|acts| - 1], n, pid, h)
    ensures SettledAt(acts, n, pid, g)
  {
    var most := acts[..|acts| - 1];
    assert acts[..n] == most[..n] && acts[..n + 1] == most[..n + 1];
  }

  /** The moment at which a settled run was settled, and what its agent's history held then. */
  lemma {:induction false} SettledWhen(acts: seq<Action>, pid: nat) returns (n: nat)
    requires Legal(INIT, acts) && Settled(Reached(acts), pid)
    ensures SettledAt(acts, n, pid, Reached(acts).handlers[pid])
    decreases |acts|
  {
    NothingSettledYet(acts, pid);
    n := |acts| - 1;
    if Settled(Reached(acts[..n]), pid) {
      n := SettledWhen(acts[..|acts| - 1], pid);
      SettledEarlier(acts, n, pid);
    } else {
      SettledNow(acts, pid);
    }
  }

  lemma NothingSettledYet(acts: seq<Action>, pid: nat)
    requires Legal(INIT, acts) && Settled(Reached(acts), pid)
    ensures acts != [] && Legal(INIT, acts[..|acts| - 1])
  {
  }

  /**
   Stored before acknowledged: before a run sent its ack, the insert of its message was
   answered, and at that moment the agent's own history held the message exactly when the
   run had stored it or the row it met is a user row of the same agent. message_id is unique
   over all agents, so the row it met may be another agent's, or no message at all.
   */
  lemma AckMeansMessage(acts: seq<Action>, pid: nat) returns (n: nat)
    requires Legal(INIT, acts) && pid in Reached(acts).handlers
    requires Ack(Reached(acts).handlers[pid].req.messageId) in Reached(acts).handlers[pid].sent
    ensures AnsweredAt(acts, n, pid)
    ensures var h := Reached(acts).handlers[pid];
            && (h.won || h.met.Some?)
            && (h.met.Some? ==> Holds(Reached(acts).claims, h.met.value, h.req.messageId))
            && (OwnMessage(Reached(acts[..n + 1]).store, h.agentId, h.req.messageId) <==> h.won || MetOwn(h))
  {
    RunRecalls(acts);
    var h := Reached(acts).handlers[pid];
    AckIsFirst(h);
    assert Met(Reached(acts).claims, h);
    n := SettledWhen(acts, pid);
  }

  lemma AckIsFirst(h: Handler)
    requires Tells(h) && Ack(h.req.messageId) in h.sent
    ensures h.sent[0].Ack?
  {
  }
}

/**
 What a chat handler answers, told by what it was told: the signals of the database, of
 Docker and of its clock, with no reference to its steps.
 */
module ChatAnswers {
  import opened Basics
  import opened ChatStore
  import opened ChatProtocol
  import opened ChatSystem
  import opened ChatTheorems

  /**
   What a run has been told: the agent, the answers to its inserts, the state of the
   container, that the exec began and how it ended, the last listing, and why it got no more.
   */
  datatype Notes = Notes(
    found: Option<Option<AgentRec>>,
    inserts: seq<(InsertResult, string)>,
    inspected: Option<Inspection>,
    started: bool,
    ended: Option<ExecOutcome>,
    listed: Option<seq<Row>>,
    failed: Option<string>)

  const EMPTY := Notes(None, [], None, false, None, None, None)

  function Noted(n: Notes, sig: Signal): Notes {
    match sig
    case Found(rec) => n.(found := Some(rec))
    case Inserted(res, err) => n.(inserts := n.inserts + [(res, err)])
    case Inspected(out) => n.(inspected := Some(out))
    case ExecStarted => n.(started := true)
    case ExecEnded(outcome) => n.(ended := Some(outcome))
    case Listed(rows) => n.(listed := Some(rows))
    case ListFailed(err) => n.(failed := Some(err))
    case TimedOut(err) => n.(failed := Some(err))
    case _ => n
  }

  /** What the run `pid` was told in the course of `acts`. */
  function NotesOf(acts: seq<Action>, pid: nat): Notes {
    if acts == [] then EMPTY
    else
      var n, a := NotesOf(acts[..|acts| - 1], pid), acts[|acts| - 1];
      if a.Step? && a.pid == pid then Noted(n, a.sig) else n
  }

  // ---------- the answer to what was told ----------

  /** Role and text of the reply, from the state of the container and the end of the exec. */
  ghost predicate ReplyIs(n: Notes, name: string, role: Role, text: Text) {
    match n.inspected
    case None => false
    case Some(NoClient) => !n.started && role == Error && text == NoDocker
    case Some(InspectFailed) => !n.started && role == Error && text == NotRunning("unknown", name)
    case Some(State(status)) =>
      if status != "running" then !n.started && role == Error && text == NotRunning(status, name)
      else n.started && n.ended.Some? && Outcome(n.ended.value, role, text)
  }

  /** A failed exec and an exit code are errors; stderr stands in for an empty stdout, and the other way round. */
  ghost predicate Outcome(outcome: ExecOutcome, role: Role, text: Text) {
    match outcome
    case ExecFailed(err) => role == Error && text == Said(err)
    case Exited(code, stdout, stderr) =>
      && (code == 0 && stdout != "" ==> role == ChatStore.Agent && text == Said(stdout))
      && (code == 0 && stdout == "" ==> role == ChatStore.Agent && text == Said(stderr))
      && (code != 0 && stderr != "" ==> role == Error && text == PiExited(code, stderr))
      && (code != 0 && stderr == "" ==> role == Error && text == PiExited(code, stdout))
  }

  ghost predicate Malformed(req: Request) {
    !req.decodes || req.name == "" || req.content == "" || req.messageId == ""
  }

  /** The agent was found and has a container. */
  ghost predicate Located(n: Notes) {
    n.found.Some? && n.found.value.Some? && n.found.value.value.containerId != ""
  }

  /** Why there is only an error response, and which. */
  ghost predicate Refused(n: Notes, req: Request, code: int) {
    if Malformed(req) then code == -32602
    else if n.found == Some(None) then code == -32001
    else if !Located(n) then n.found.Some? && code == -32002
    else |n.inserts| == 1 && code == -32008 && (n.inserts[0].0 == Failed || LostUnlisted(n))
  }

  ghost predicate LostUnlisted(n: Notes) {
    |n.inserts| == 1 && n.inserts[0].0.NameTaken? && n.listed.None? && n.failed.Some?
  }

  ghost predicate Won(n: Notes, req: Request) {
    !Malformed(req) && Located(n) && |n.inserts| >= 1 && n.inserts[0].0 == Stored
  }

  ghost predicate Lost(n: Notes, req: Request) {
    !Malformed(req) && Located(n) && |n.inserts| == 1 && n.inserts[0].0.NameTaken?
  }

  /** The chunk of the run that stored the message: its reply, or that it could not be kept. */
  ghost predicate FinalChunk(n: Notes, h: Handler, c: Chunk) {
    && |n.inserts| == 2 && h.tried.Some?
    && ReplyIs(n, h.req.name, h.tried.value.role, h.tried.value.content)
    && (n.inserts[1].0 == Stored ==>
          c == Chunk(h.req.name, h.tried.value.role, h.tried.value.content, 0, true, h.tried.value.messageId))
    && (n.inserts[1].0 != Stored ==> c == Chunk(h.req.name, Error, Unavailable(n.inserts[1].1), 0, true, ""))
  }

  /** `shown` are the answers to the message among the rows, in the order of the listing. */
  ghost predicate AnswersIn(rows: seq<Row>, messageId: string, shown: seq<Row>) {
    && (forall r :: r in shown <==> r in rows && r.parentId == messageId && r.role != User)
    && (Sorted(rows) ==> Sorted(shown))
  }

  /** The chunk of a run that lost and never saw an answer. */
  ghost predicate GivesUp(n: Notes, req: Request, c: Chunk) {
    && n.listed.Some? && AnswersIn(n.listed.value, req.messageId, []) && n.failed.Some?
    && c == Chunk(req.name, Error, NoReply(n.failed.value), 0, true, "")
  }

  /** All that a finished run has sent. */
  ghost predicate Answers(n: Notes, h: Handler) {
    || (|h.sent| == 1 && h.sent[0].ErrorResponse? && Refused(n, h.req, h.sent[0].code))
    || (|h.sent| == 2 && h.sent[0] == Ack(h.req.messageId) && h.sent[1].Note?
        && Won(n, h.req) && FinalChunk(n, h, h.sent[1].chunk))
    || (|h.sent| == 2 && h.sent[0] == Ack(h.req.messageId) && h.sent[1].Note?
        && Lost(n, h.req) && GivesUp(n, h.req, h.sent[1].chunk))
    || (Lost(n, h.req) && n.listed.Some? && h.shown != [] && AnswersIn(n.listed.value, h.req.messageId, h.shown)
        && Shows(h))
  }

  /** An ack, and every row found as a chunk. */
  ghost predicate Shows(h: Handler) {
    && |h.sent| == |h.shown| + 1 && h.sent[0] == Ack(h.req.messageId)
    && forall i :: 0 <= i < |h.shown| ==>
         var r := h.shown[i];
         h.sent[i + 1] == Note(Chunk(h.req.name, r.role, r.content, r.sequence, i == |h.shown| - 1, r.messageId))
  }

  // ---------- the notebook of a run ----------

  /** What a run has been told by the time it has reached its point. */
  ghost predicate Notebook(n: Notes, h: Handler) {
    && (h.executed <==> n.started)
    && (n.started ==> n.inspected == Some(State("running")))
    && (h.located ==> Located(n) && n.found.value.value.id == h.agentId)
    && match h.pc
       case Decode => n == EMPTY
       case Lookup => n == EMPTY && !Malformed(h.req)
       case DrawUser => n == EMPTY.(found := n.found) && Located(n) && !Malformed(h.req)
       case InsertUser(_) => n == EMPTY.(found := n.found) && Located(n) && !Malformed(h.req)
       case SendError(code) => Refused(n, h.req, code)
       case SendAck => Beginning(n, h) && n.inspected.None?
       case Inspect => Beginning(n, h) && n.inspected.None?
       case Exec => Beginning(n, h) && n.inspected == Some(State("running")) && !n.started
       case Executing => Beginning(n, h) && n.inspected == Some(State("running")) && n.started
       case DrawReply(role, text) => Won(n, h.req) && |n.inserts| == 1 && ReplyIs(n, h.req.name, role, text)
       case InsertReply(row) =>
         Won(n, h.req) && |n.inserts| == 1 && h.tried == Some(row) && ReplyIs(n, h.req.name, row.role, row.content)
       case SendLast(c) =>
         if h.won then Won(n, h.req) && FinalChunk(n, h, c) else Lost(n, h.req) && GivesUp(n, h.req, c)
       case ListReplies => Lost(n, h.req) && n.listed.None? && n.failed.None?
       case SendDupAck =>
         Lost(n, h.req) && n.failed.None? && n.listed.Some? && AnswersIn(n.listed.value, h.req.messageId, h.shown)
       case Poll =>
         Lost(n, h.req) && n.failed.None? && n.listed.Some? && AnswersIn(n.listed.value, h.req.messageId, [])
       case Replay(_) =>
         && Lost(n, h.req) && n.listed.Some? && h.shown != []
         && AnswersIn(n.listed.value, h.req.messageId, h.shown)
       case Done => Answers(n, h)
       case _ => true
  }

  ghost predicate Beginning(n: Notes, h: Handler) {
    Won(n, h.req) && |n.inserts| == 1 && n.ended.None?
  }

  lemma LocatingNotes(n: Notes, h: Handler, sig: Signal)
    requires Locating(h.pc) && LocalInv(h) && Notebook(n, h) && Admit(h, sig).Some?
    ensures Notebook(Noted(n, sig), Admit(h, sig).value)
  {
  }

  lemma InsertingNotes(n: Notes, h: Handler, sig: Signal)
    requires Inserting(h.pc) && LocalInv(h) && Notebook(n, h) && Admit(h, sig).Some?
    ensures Notebook(Noted(n, sig), Admit(h, sig).value)
  {
    if h.pc.InsertUser? {
      InsertUserNotes(n, h, sig);
    } else if h.pc.SendError? {
      SendErrorNotes(n, h, sig);
    }
  }

  lemma SendErrorNotes(n: Notes, h: Handler, sig: Signal)
    requires h.pc.SendError? && LocalInv(h) && Notebook(n, h) && Admit(h, sig).Some?
    ensures Notebook(Noted(n, sig), Admit(h, sig).value)
  {
    assert Noted(n, sig) == n;
    if sig.ok {
      assert Admit(h, sig).value.sent == [ErrorResponse(h.pc.code)];
    }
  }

  lemma InsertUserNotes(n: Notes, h: Handler, sig: Signal)
    requires h.pc.InsertUser? && LocalInv(h) && Notebook(n, h) && Admit(h, sig).Some?
    ensures Notebook(Noted(n, sig), Admit(h, sig).value)
  {
  }

  lemma RunningNotes(n: Notes, h: Handler, sig: Signal)
    requires Running(h.pc) && LocalInv(h) && Notebook(n, h) && Serve(h, sig).Some?
    ensures Notebook(Noted(n, sig), Serve(h, sig).value)
  {
    if h.pc.Inspect? {
      InspectNotes(n, h, sig);
    } else if h.pc.Executing? {
      ExecNotes(n, h, sig);
    }
  }

  lemma InspectNotes(n: Notes, h: Handler, sig: Signal)
    requires h.pc.Inspect? && LocalInv(h) && Notebook(n, h) && Serve(h, sig).Some?
    ensures Notebook(Noted(n, sig), Serve(h, sig).value)
  {
  }

  lemma ExecNotes(n: Notes, h: Handler, sig: Signal)
    requires h.pc.Executing? && LocalInv(h) && Notebook(n, h) && Serve(h, sig).Some?
    ensures Notebook(Noted(n, sig), Serve(h, sig).value)
  {
  }

  lemma ReplyingNotes(n: Notes, h: Handler, sig: Signal)
    requires Replying(h.pc) && LocalInv(h) && Notebook(n, h) && Serve(h, sig).Some?
    ensures Notebook(Noted(n, sig), Serve(h, sig).value)
  {
    if h.pc.DrawReply? {
      DrawReplyNotes(n, h, sig);
    } else if h.pc.InsertReply? {
      InsertReplyNotes(n, h, sig);
    } else {
      SendLastNotes(n, h, sig);
    }
  }

  lemma DrawReplyNotes(n: Notes, h: Handler, sig: Signal)
    requires h.pc.DrawReply? && LocalInv(h) && Notebook(n, h) && Serve(h, sig).Some?
    ensures Notebook(Noted(n, sig), Serve(h, sig).value)
  {
  }

  lemma InsertReplyNotes(n: Notes, h: Handler, sig: Signal)
    requires h.pc.InsertReply? && LocalInv(h) && Notebook(n, h) && Serve(h, sig).Some?
    ensures Notebook(Noted(n, sig), Serve(h, sig).value)
  {
  }

  lemma SendLastNotes(n: Notes, h: Handler, sig: Signal)
    requires h.pc.SendLast? && LocalInv(h) && Notebook(n, h) && Serve(h, sig).Some?
    ensures Notebook(Noted(n, sig), Serve(h, sig).value)
  {
    var g := Serve(h, sig).value;
    assert Noted(n, sig) == n;
    if sig.ok {
      assert g.sent == [Ack(h.req.messageId), Note(h.pc.chunk)];
      LastAnswers(n, h, g);
    }
  }

  lemma LastAnswers(n: Notes, h: Handler, g: Handler)
    requires h.pc.SendLast? && Notebook(n, h)
    requires g == h.(pc := Done, sent := [Ack(h.req.messageId), Note(h.pc.chunk)])
    ensures Answers(n, g)
  {
    assert g.sent[1] == Note(h.pc.chunk);
  }

  lemma LookingNotes(n: Notes, h: Handler, sig: Signal)
    requires Looking(h.pc) && LocalInv(h) && Notebook(n, h) && Repeat(h, sig).Some? && DrawsForward(h, sig)
    ensures Notebook(Noted(n, sig), Repeat(h, sig).value)
  {
    if h.pc.ListReplies? {
      ListRepliesNotes(n, h, sig);
    } else {
      DupAckNotes(n, h, sig);
    }
  }

  lemma DupAckNotes(n: Notes, h: Handler, sig: Signal)
    requires h.pc.SendDupAck? && LocalInv(h) && Notebook(n, h) && Repeat(h, sig).Some?
    ensures Notebook(Noted(n, sig), Repeat(h, sig).value)
  {
  }

  lemma ListRepliesNotes(n: Notes, h: Handler, sig: Signal)
    requires h.pc.ListReplies? && LocalInv(h) && Notebook(n, h) && Repeat(h, sig).Some? && DrawsForward(h, sig)
    ensures Notebook(Noted(n, sig), Repeat(h, sig).value)
  {
    if sig.Listed? { RepliesHolds(sig.rows, h.agentId, h.req.messageId); }
  }

  lemma ShowingNotes(n: Notes, h: Handler, sig: Signal)
    requires Showing(h.pc) && LocalInv(h) && Notebook(n, h) && Repeat(h, sig).Some? && DrawsForward(h, sig)
    ensures Notebook(Noted(n, sig), Repeat(h, sig).value)
  {
    if h.pc.Poll? {
      PollNotes(n, h, sig);
    } else {
      ReplayNotes(n, h, sig);
    }
  }

  lemma PollNotes(n: Notes, h: Handler, sig: Signal)
    requires h.pc.Poll? && LocalInv(h) && Notebook(n, h) && Repeat(h, sig).Some? && DrawsForward(h, sig)
    ensures Notebook(Noted(n, sig), Repeat(h, sig).value)
  {
    if sig.Listed? { RepliesHolds(sig.rows, h.agentId, h.req.messageId); }
  }

  lemma ReplayNotes(n: Notes, h: Handler, sig: Signal)
    requires h.pc.Replay? && LocalInv(h) && Notebook(n, h) && Repeat(h, sig).Some?
    ensures Notebook(Noted(n, sig), Repeat(h, sig).value)
  {
    var g := Repeat(h, sig).value;
    SendReplayHolds(h, sig.ok);
    if g.pc == Done {
      ReplayEnds(g);
    }
  }

  lemma AdvanceNotes(n: Notes, h: Handler, sig: Signal)
    requires LocalInv(h) && Notebook(n, h) && Advance(h, sig).Some? && DrawsForward(h, sig)
    ensures Notebook(Noted(n, sig), Advance(h, sig).value)
  {
    AdvanceIs(h, sig);
    if Locating(h.pc) || Inserting(h.pc) {
      AdmitNotes(n, h, sig);
    } else if Looking(h.pc) || Showing(h.pc) {
      RepeatNotes(n, h, sig);
    } else {
      ServeNotes(n, h, sig);
    }
  }

  lemma AdvanceIs(h: Handler, sig: Signal)
    ensures Locating(h.pc) || Inserting(h.pc) ==> Advance(h, sig) == Admit(h, sig)
    ensures Looking(h.pc) || Showing(h.pc) ==> Advance(h, sig) == Repeat(h, sig)
    ensures !Locating(h.pc) && !Inserting(h.pc) && !Looking(h.pc) && !Showing(h.pc) ==>
              Advance(h, sig) == Serve(h, sig)
  {
  }

  lemma AdmitNotes(n: Notes, h: Handler, sig: Signal)
    requires LocalInv(h) && Notebook(n, h) && Admit(h, sig).Some?
    ensures Notebook(Noted(n, sig), Admit(h, sig).value)
  {
    if Locating(h.pc) {
      LocatingNotes(n, h, sig);
    } else {
      InsertingNotes(n, h, sig);
    }
  }

  lemma ServeNotes(n: Notes, h: Handler, sig: Signal)
    requires LocalInv(h) && Notebook(n, h) && Serve(h, sig).Some?
    ensures Notebook(Noted(n, sig), Serve(h, sig).value)
  {
    if Running(h.pc) {
      RunningNotes(n, h, sig);
    } else {
      ReplyingNotes(n, h, sig);
    }
  }

  lemma RepeatNotes(n: Notes, h: Handler, sig: Signal)
    requires LocalInv(h) && Notebook(n, h) && Repeat(h, sig).Some? && DrawsForward(h, sig)
    ensures Notebook(Noted(n, sig), Repeat(h, sig).value)
  {
    if Looking(h.pc) {
      LookingNotes(n, h, sig);
    } else {
      ShowingNotes(n, h, sig);
    }
  }

  // ---------- over runs ----------

  /** The notebooks of all runs are in order, and those to come are empty. */
  ghost predicate AllNoted(acts: seq<Action>)
    requires Legal(INIT, acts)
  {
    forall pid: nat ::
      if pid in Reached(acts).handlers then Notebook(NotesOf(acts, pid), Reached(acts).handlers[pid])
      else NotesOf(acts, pid) == EMPTY
  }

  lemma {:induction false} RunNotes(acts: seq<Action>)
    requires Legal(INIT, acts)
    ensures AllNoted(acts)
    decreases |acts|
  {
    if acts != [] {
      var most, a := acts[..|acts| - 1], acts[|acts| - 1];
      RunNotes(most);
      InitHolds();
      RunKeeps(INIT, most);
      forall pid: nat
        ensures if pid in Reached(acts).handlers then Notebook(NotesOf(acts, pid), Reached(acts).handlers[pid])
                else NotesOf(acts, pid) == EMPTY
      {
        StepNoted(Reached(most), a, NotesOf(most, pid), pid);
      }
    }
  }

  lemma StepNoted(s: Sys, a: Action, n: Notes, pid: nat)
    requires Inv(s) && Enabled(s, a)
    requires if pid in s.handlers then Notebook(n, s.handlers[pid]) else n == EMPTY
    ensures var m := if a.Step? && a.pid == pid then Noted(n, a.sig) else n;
            if pid in Apply(s, a).handlers then Notebook(m, Apply(s, a).handlers[pid]) else m == EMPTY
  {
    if a.Step? && a.pid == pid {
      OwnStepNoted(s, a, n);
    } else {
      OthersStay(s, a, pid);
      if pid in s.handlers && a == Crash {
        KilledNotes(n, s.handlers[pid]);
      } else if pid !in s.handlers && a.Arrive? && pid == s.nextPid {
        StartNotes(a.req);
      }
    }
  }

  lemma OthersStay(s: Sys, a: Action, pid: nat)
    requires Inv(s) && Enabled(s, a) && !(a.Step? && a.pid == pid)
    ensures pid in s.handlers ==>
              && pid in Apply(s, a).handlers
              && Apply(s, a).handlers[pid] == if a == Crash then Killed(s.handlers[pid]) else s.handlers[pid]
    ensures pid !in s.handlers && pid in Apply(s, a).handlers ==>
              a.Arrive? && pid == s.nextPid && Apply(s, a).handlers[pid] == Start(a.req)
  {
  }

  lemma OwnStepNoted(s: Sys, a: Action, n: Notes)
    requires Inv(s) && a.Step? && Enabled(s, a) && Notebook(n, s.handlers[a.pid])
    ensures Notebook(Noted(n, a.sig), Apply(s, a).handlers[a.pid])
  {
    SignalFits(s, a.pid, a.sig, a.commits);
    AdvanceNotes(n, s.handlers[a.pid], a.sig);
  }

  lemma KilledNotes(n: Notes, h: Handler)
    requires Notebook(n, h)
    ensures Notebook(n, Killed(h))
  {
  }

  lemma StartNotes(req: Request)
    ensures Notebook(EMPTY, Start(req))
  {
  }

  /**
   What a finished run has sent follows from what it was told: the error response and its
   code, or after the ack the reply that the state of the container and the end of the exec
   call for, or the rows that were found, or that there is no answer to be had.
   */
  lemma AnswerFollowsNotes(acts: seq<Action>, pid: nat)
    requires Legal(INIT, acts) && pid in Reached(acts).handlers && Reached(acts).handlers[pid].pc == Done
    ensures Answers(NotesOf(acts, pid), Reached(acts).handlers[pid])
  {
    RunNotes(acts);
  }

  /** An exec is started only by a run whose own look at the container found it running. */
  lemma ExecOnlyIfRunning(acts: seq<Action>, key: Key)
    requires Legal(INIT, acts) && key in Reached(acts).execs
    ensures key in Reached(acts).claims && Reached(acts).claims[key].writer.Handled?
    ensures var n := NotesOf(acts, Reached(acts).claims[key].writer.pid);
            n.started && n.inspected == Some(State("running")) && Located(n) && n.found.value.value.id == key.0
  {
    InitHolds();
    RunKeeps(INIT, acts);
    RunNotes(acts);
    var s := Reached(acts);
    assert ExecKnown(s, key);
    var pid := s.claims[key].writer.pid;
    assert Notebook(NotesOf(acts, pid), s.handlers[pid]) && LocalInv(s.handlers[pid]);
  }

  /** Step `n` of the run was the agent.chat.history.append that wrote the row. */
  ghost predicate AppendedAt(acts: seq<Action>, n: nat, r: Row) {
    && n < |acts| && Legal(INIT, acts[..n]) && acts[n].Append?
    && var s, a := Reached(acts[..n]), acts[n];
       && a.name in s.store.agents && a.content != "" && a.messageId != ""
       && r == Row(s.nextRow, s.store.agents[a.name].id, a.role, Said(a.content), a.parentId, a.messageId,
                   a.sequence, s.clock)
  }

  ghost predicate WasAppended(acts: seq<Action>, r: Row) {
    exists n: nat :: AppendedAt(acts, n, r)
  }

  lemma AppendedStays(acts: seq<Action>, a: Action, r: Row)
    requires WasAppended(acts, r)
    ensures WasAppended(acts + [a], r)
  {
    var n: nat :| AppendedAt(acts, n, r);
    assert (acts + [a])[..n] == acts[..n];
    assert AppendedAt(acts + [a], n, r);
  }

  /** A step claims at most one key, and none but an append claims one for it. */
  lemma NewAppended(s: Sys, a: Action, k: Key)
    requires Enabled(s, a) && k in Apply(s, a).claims && Apply(s, a).claims[k].writer == Appended
    ensures (k in s.claims && Apply(s, a).claims[k] == s.claims[k])
            || (a.Append? && Apply(s, a).claims[k].row == AppendedRow(s, a))
  {
  }

  /** A row that no handler wrote is, field by field, what agent.chat.history.append was given. */
  lemma {:induction false} AppendedRowsAreGiven(acts: seq<Action>, k: Key)
    requires Legal(INIT, acts) && k in Reached(acts).claims && Reached(acts).claims[k].writer == Appended
    ensures WasAppended(acts, Reached(acts).claims[k].row)
    decreases |acts|
  {
    if acts != [] {
      var most, a := acts[..|acts| - 1], acts[|acts| - 1];
      assert acts == most + [a];
      var s, r := Reached(most), Reached(acts).claims[k].row;
      NewAppended(s, a, k);
      if k in s.claims && Reached(acts).claims[k] == s.claims[k] {
        AppendedRowsAreGiven(most, k);
        AppendedStays(most, a, r);
      } else {
        assert AppendedAt(acts, |most|, r);
      }
    }
  }

  /** The rows of a run hold what was asked and what was answered, field by field. */
  lemma RowsHoldTheTurn(acts: seq<Action>, pid: nat)
    requires Legal(INIT, acts) && pid in Reached(acts).handlers
    ensures var h := Reached(acts).handlers[pid];
            && (h.userRow.Some? ==>
                  var u := h.userRow.value;
                  && u.agentId == h.agentId && u.role == User && u.content == Said(h.req.content)
                  && u.parentId == h.req.parentId && u.messageId == h.req.messageId && u.sequence == 0)
            && (h.tried.Some? ==>
                  var r := h.tried.value;
                  && r.agentId == h.agentId && r.role != User && r.parentId == h.req.messageId
                  && r.messageId != "" && r.sequence == 0)
  {
    InitHolds();
    RunKeeps(INIT, acts);
    assert LocalInv(Reached(acts).handlers[pid]);
  }
}

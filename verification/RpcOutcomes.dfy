/**
 What calls come back with: a response whenever one arrives, no response only for a cause,
 and when nothing fails one response for every caller.
 */
module RpcOutcomes {
  import opened Basics
  import opened RpcPairing

  // ---------- failures have a cause ----------

  /** The encoder or the connection was no good, or the write went wrong. */
  predicate CannotSend(s: Sys, f: SendFault) {
    f != Sends || !s.connected || s.link.None? || s.link.value.encFailed
  }

  /** The decoder was no good, or what was read was of no use. */
  predicate CannotRead(s: Sys, f: RecvFault) {
    f != Arrives || s.link.None? || s.link.value.decFailed
  }

  /** Step `n` of the run ended the call of `me` for want of a connection, a write, a read or a welcome. */
  ghost predicate Setback(acts: seq<Action>, n: nat, me: nat) {
    && n < |acts| && Legal(acts[..n])
    && var s := After(acts[..n]);
       match acts[n]
       case Dial(i, reachable) => i == me && !s.connected && !reachable
       case Greet(i, f) => i == me && CannotSend(s, f)
       case Welcome(i, f) =>
         i == me && (CannotRead(s, f) || s.link.value.toClient == [] || s.link.value.toClient[0].error)
       case Send(i, f) => i == me && CannotSend(s, f)
       case Receive(i, f) => i == me && CannotRead(s, f)
       case _ => false
  }

  // ---------- responses are returned ----------

  /** A response that arrives ends the call it answers, and is what that call returns. */
  lemma ArrivalIsReturned(s: Sys, i: nat)
    requires Inv(s) && Enabled(s, Receive(i, Arrives)) && !s.link.value.decFailed
    ensures var t, resp := Apply(s, Receive(i, Arrives)), s.link.value.toClient[0];
            && i !in t.callers && t.results == s.results + [Outcome(s.callers[i].req, resp)]
            && resp.to == s.callers[i].req && resp.id == s.callers[i].req.id
  {
    DecodedIsMine(s, Arrives);
  }

  /** Nothing else is returned. */
  lemma OnlyArrivalsAreReturned(s: Sys, a: Action)
    requires Enabled(s, a) && !(a.Receive? && a.got == Arrives && !s.link.value.decFailed)
    ensures Apply(s, a).results == s.results
  {
  }

  // ---------- responses are the daemon's ----------

  /** Step `n` of the run was the daemon's answer to `resp.to`, and `resp` is that answer. */
  ghost predicate WrittenAt(acts: seq<Action>, n: nat, resp: Response) {
    && n < |acts| && Legal(acts[..n]) && acts[n].Reply? && acts[n].write in {Sends, WriteFails(true)}
    && var s := After(acts[..n]);
       && s.link.Some? && (s.link.value.server.Greets? || s.link.value.server.Busy?)
       && resp.to == s.link.value.server.req && resp.id == resp.to.id && resp.payload == acts[n].payload
       && (resp.error <==> !acts[n].accepts || (s.link.value.server.Greets? && !resp.to.greeting))
  }

  ghost predicate Written(acts: seq<Action>, resp: Response) {
    exists n: nat :: WrittenAt(acts, n, resp)
  }

  lemma WrittenStays(acts: seq<Action>, a: Action, resp: Response)
    requires Written(acts, resp)
    ensures Written(acts + [a], resp)
  {
    var n: nat :| WrittenAt(acts, n, resp);
    assert (acts + [a])[..n] == acts[..n];
    assert WrittenAt(acts + [a], n, resp);
  }

  lemma ReplyIsWritten(acts: seq<Action>, a: Action, resp: Response)
    requires Legal(acts) && Enabled(After(acts), a) && a.Reply?
    requires var l := After(acts).link.value;
             resp in Apply(After(acts), a).link.value.toClient && resp !in l.toClient
    ensures Written(acts + [a], resp)
  {
    assert (acts + [a])[..|acts|] == acts;
    assert WrittenAt(acts + [a], |acts|, resp);
  }

  /** Responses under way after a step were so before it, or the daemon has just written them. */
  lemma NewResponses(s: Sys, a: Action, resp: Response)
    requires Enabled(s, a) && Apply(s, a).link.Some? && resp in Apply(s, a).link.value.toClient
    ensures a.Reply? || (s.link.Some? && resp in s.link.value.toClient)
  {
  }

  lemma ReturnedWasUnderWay(s: Sys, a: Action, n: nat)
    requires Enabled(s, a) && |s.results| <= n < |Apply(s, a).results|
    ensures s.link.Some? && Apply(s, a).results[n].resp in s.link.value.toClient
  {
  }

  lemma ResultsStay(s: Sys, a: Action)
    requires Enabled(s, a)
    ensures s.results <= Apply(s, a).results
  {
  }

  /** Whatever a call returns, the daemon wrote: its payload, and whether it is an error. */
  lemma {:induction false} AnswersAreTheDaemons(acts: seq<Action>)
    requires Legal(acts)
    ensures forall n :: 0 <= n < |After(acts).results| ==> Written(acts, After(acts).results[n].resp)
    ensures After(acts).link.Some? ==> forall r :: r in After(acts).link.value.toClient ==> Written(acts, r)
    decreases |acts|
  {
    if acts != [] {
      var most, a := acts[..|acts| - 1], acts[|acts| - 1];
      assert acts == most + [a];
      AnswersAreTheDaemons(most);
      var s := After(most);
      var t := Apply(s, a);
      ResultsStay(s, a);
      forall n | 0 <= n < |t.results| ensures Written(acts, t.results[n].resp) {
        if n >= |s.results| { ReturnedWasUnderWay(s, a, n); }
        WrittenStays(most, a, t.results[n].resp);
      }
      if t.link.Some? {
        forall r | r in t.link.value.toClient ensures Written(acts, r) {
          NewResponses(s, a, r);
          if s.link.Some? && r in s.link.value.toClient {
            WrittenStays(most, a, r);
          } else {
            ReplyIsWritten(most, a, r);
          }
        }
      }
    }
  }

  // ---------- one failure is for good ----------

  /** A request could not be written, or nothing could be read of its response. */
  predicate Breaks(a: Action) {
    (a.Send? && a.sent.WriteFails?) || (a.Receive? && a.got == ReadFails)
  }

  lemma BreakFails(s: Sys, a: Action)
    requires Inv(s) && Enabled(s, a) && Breaks(a) && s.connected
    ensures Failing(Apply(s, a))
  {
  }

  /** From the first failed write or read on, until someone calls Close, no call returns a response. */
  lemma BrokenUntilClosed(acts: seq<Action>, n: nat)
    requires Legal(acts) && n < |acts| && Legal(acts[..n]) && After(acts[..n]).connected && Breaks(acts[n])
    requires forall i :: n < i < |acts| ==> acts[i] != Close
    ensures Legal(acts[..n + 1]) && After(acts).connected && After(acts).results == After(acts[..n + 1]).results
  {
    PrefixIsLegal(acts, n + 1);
    assert acts[..n + 1][..n] == acts[..n];
    RunKeeps(acts[..n]);
    BreakFails(After(acts[..n]), acts[n]);
    OnlyCloseHelps(acts, n + 1);
  }

  lemma {:induction false} PrefixIsLegal(acts: seq<Action>, n: nat)
    requires Legal(acts) && n <= |acts|
    ensures Legal(acts[..n])
    decreases |acts|
  {
    if n == |acts| {
      assert acts[..n] == acts;
    } else {
      PrefixIsLegal(acts[..|acts| - 1], n);
      assert acts[..|acts| - 1][..n] == acts[..n];
    }
  }

  // ---------- no call without a handshake ----------

  /** Step `k` of the run made a new connection. */
  ghost predicate Connects(acts: seq<Action>, k: nat) {
    && k < |acts| && Legal(acts[..k]) && acts[k].Dial? && acts[k].reachable && !After(acts[..k]).connected
  }

  ghost predicate OnThisConnection(acts: seq<Action>, m: nat) {
    forall k :: m < k < |acts| ==> !Connects(acts, k)
  }

  /** Step `m` of the run was the daemon's consent to a handshake. */
  ghost predicate AcceptedAt(acts: seq<Action>, m: nat) {
    && m < |acts| && Legal(acts[..m]) && acts[m].Reply? && acts[m].accepts && acts[m].write == Sends
    && var s := After(acts[..m]);
       s.link.Some? && s.link.value.server.Greets? && s.link.value.server.req.greeting
  }

  /** Step `m` of the run was the client's reading of a consent. */
  ghost predicate WelcomedAt(acts: seq<Action>, m: nat) {
    && m < |acts| && Legal(acts[..m]) && acts[m].Welcome?
    && var s := After(acts[..m]);
       !CannotRead(s, acts[m].got) && s.link.value.toClient != [] && !s.link.value.toClient[0].error
  }

  ghost predicate Accepted(acts: seq<Action>) {
    exists m: nat :: AcceptedAt(acts, m) && OnThisConnection(acts, m)
  }

  ghost predicate Welcomed(acts: seq<Action>) {
    exists m: nat :: WelcomedAt(acts, m) && OnThisConnection(acts, m)
  }

  predicate Shaking(s: Sys) {
    && s.lock.Some? && s.lock.value in s.callers
    && (s.callers[s.lock.value].Greeting? || s.callers[s.lock.value].Greeted?)
  }

  lemma AcceptedStays(acts: seq<Action>, a: Action)
    requires Legal(acts) && !(a.Dial? && a.reachable && !After(acts).connected) && Accepted(acts)
    ensures Accepted(acts + [a])
  {
    var m: nat :| AcceptedAt(acts, m) && OnThisConnection(acts, m);
    assert (acts + [a])[..m] == acts[..m];
    ConnectionStays(acts, a, m);
    assert AcceptedAt(acts + [a], m);
  }

  lemma WelcomedStays(acts: seq<Action>, a: Action)
    requires Legal(acts) && !(a.Dial? && a.reachable && !After(acts).connected) && Welcomed(acts)
    ensures Welcomed(acts + [a])
  {
    var m: nat :| WelcomedAt(acts, m) && OnThisConnection(acts, m);
    assert (acts + [a])[..m] == acts[..m];
    ConnectionStays(acts, a, m);
    assert WelcomedAt(acts + [a], m);
  }

  lemma ConnectionStays(acts: seq<Action>, a: Action, m: nat)
    requires Legal(acts) && !(a.Dial? && a.reachable && !After(acts).connected)
    requires m < |acts| && OnThisConnection(acts, m)
    ensures OnThisConnection(acts + [a], m)
  {
    forall k | m < k < |acts + [a]| ensures !Connects(acts + [a], k) {
      if k < |acts| {
        assert (acts + [a])[..k] == acts[..k];
        assert !Connects(acts, k);
      } else {
        assert (acts + [a])[..k] == acts;
      }
    }
  }

  lemma LastStep(acts: seq<Action>, a: Action)
    requires Legal(acts) && Enabled(After(acts), a)
    ensures AcceptedAt(acts + [a], |acts|) ==> Accepted(acts + [a])
    ensures WelcomedAt(acts + [a], |acts|) ==> Welcomed(acts + [a])
    ensures (acts + [a])[..|acts|] == acts
  {
  }

  /** Where the daemon serves calls it has before, or has just now accepted. */
  lemma ServingStep(s: Sys, a: Action)
    requires Enabled(s, a) && Apply(s, a).link.Some?
    requires Apply(s, a).link.value.server.Ready? || Apply(s, a).link.value.server.Busy?
    ensures || (s.link.Some? && (s.link.value.server.Ready? || s.link.value.server.Busy?))
            || (s.link.Some? && s.link.value.server.Greets? && s.link.value.server.req.greeting
                && a.Reply? && a.accepts && a.write == Sends)
    ensures !(a.Dial? && a.reachable && !s.connected)
  {
  }

  lemma CallingStep(s: Sys, a: Action)
    requires Inv(s) && Enabled(s, a) && Apply(s, a).connected && !Shaking(Apply(s, a))
    ensures || (s.connected && !Shaking(s))
            || (a.Welcome? && !CannotRead(s, a.got) && s.link.value.toClient != [] && !s.link.value.toClient[0].error)
    ensures !(a.Dial? && a.reachable && !s.connected)
  {
  }

  /**
   No call goes out on a connection before the client has read that its handshake was
   accepted, and none is served before the daemon has accepted it.
   */
  lemma {:induction false} HandshakeIsAccepted(acts: seq<Action>)
    requires Legal(acts)
    ensures var s := After(acts);
            && (s.link.Some? && (s.link.value.server.Ready? || s.link.value.server.Busy?) ==> Accepted(acts))
            && (s.connected && !Shaking(s) ==> Welcomed(acts))
    decreases |acts|
  {
    if acts != [] {
      var most, a := acts[..|acts| - 1], acts[|acts| - 1];
      var s, t := After(most), After(acts);
      HandshakeIsAccepted(most);
      RunKeeps(most);
      assert acts == most + [a];
      LastStep(most, a);
      if t.link.Some? && (t.link.value.server.Ready? || t.link.value.server.Busy?) {
        ServingStep(s, a);
        if Accepted(most) { AcceptedStays(most, a); } else { assert AcceptedAt(acts, |most|); }
      }
      if t.connected && !Shaking(t) {
        CallingStep(s, a);
        if Welcomed(most) { WelcomedStays(most, a); } else { assert WelcomedAt(acts, |most|); }
      }
    }
  }

  // ---------- when nothing fails ----------

  function BodyOf(c: Caller): string {
    match c
    case Dialling(body) => body
    case Greeting(body) => body
    case Greeted(body, _) => body
    case Calling(body) => body
    case Locked(body) => body
    case Awaiting(req) => req.body
  }

  /** Nothing has failed: whoever is past dialling has a connection that works, and was welcome on it. */
  ghost predicate Healthy(s: Sys) {
    && (s.connected ==> s.link.Some? && s.link.value.server != Gone
                        && !s.link.value.encFailed && !s.link.value.decFailed
                        && forall r :: r in s.link.value.toClient && r.to.greeting ==> !r.error)
    && (forall i: nat :: i in s.callers && !s.callers[i].Dialling? ==> s.connected)
    && (forall i: nat :: i in s.callers && s.callers[i].Greeted? ==> s.callers[i].req.greeting)
  }

  /** A step of a run in which nothing fails and the daemon accepts handshakes. */
  ghost predicate GoesWell(s: Sys, a: Action) {
    && Enabled(s, a) && Smooth(s, a)
    && (a.Reply? && s.link.value.server.req.greeting ==> a.accepts)
  }

  lemma HealthyStays(s: Sys, a: Action)
    requires Inv(s) && Mannerly(s) && Healthy(s) && (GoesWell(s, a) || (a.Enter? && Enabled(s, a)))
    ensures Healthy(Apply(s, a))
  {
    match a
    case Enter(_, _) =>
    case Dial(_, _) =>
    case Acquire(_) =>
    case Greet(_, _) => SendingStaysHealthy(s, a);
    case Send(_, _) => SendingStaysHealthy(s, a);
    case Welcome(_, _) => WelcomeStaysHealthy(s, a);
    case Receive(_, _) => ReceiveStaysHealthy(s, a);
    case Take => ServingStaysHealthy(s, a);
    case Reply(_, _, _) => ServingStaysHealthy(s, a);
  }

  lemma SendingStaysHealthy(s: Sys, a: Action)
    requires Inv(s) && Healthy(s) && GoesWell(s, a) && (a.Greet? || a.Send?)
    ensures Healthy(Apply(s, a))
  {
    assert s.connected;
  }

  lemma WelcomeStaysHealthy(s: Sys, a: Action)
    requires Inv(s) && Healthy(s) && GoesWell(s, a) && a.Welcome?
    ensures Healthy(Apply(s, a)) && a.caller in Apply(s, a).callers
  {
    var l := s.link.value;
    assert s.connected && a.got == Arrives && l.toClient != [];
    DecodedFlows(l);
    assert s.lock == Some(a.caller) && Expected(s) == [s.callers[a.caller].req];
    assert InFlight(l)[0] == l.toClient[0].to;
    assert l.toClient[0] in l.toClient && !l.toClient[0].error;
  }

  lemma ReceiveStaysHealthy(s: Sys, a: Action)
    requires Inv(s) && Healthy(s) && GoesWell(s, a) && a.Receive?
    ensures Healthy(Apply(s, a)) && a.got == Arrives && !s.link.value.decFailed
  {
    assert s.connected;
  }

  lemma ServingStaysHealthy(s: Sys, a: Action)
    requires Inv(s) && Mannerly(s) && Healthy(s) && GoesWell(s, a) && (a.Take? || a.Reply?)
    ensures Healthy(Apply(s, a))
  {
    var t := Apply(s, a);
    if a.Reply? && t.connected {
      var l := s.link.value;
      forall r | r in t.link.value.toClient && r.to.greeting ensures !r.error {
        if r !in l.toClient { assert r == t.link.value.toClient[|l.toClient|]; }
      }
    }
  }

  /** In the whole run nothing failed, no one closed the client, and the daemon accepted every handshake. */
  ghost predicate WellSoFar(acts: seq<Action>)
    requires Legal(acts)
  {
    acts == []
    || (WellSoFar(acts[..|acts| - 1])
        && (acts[|acts| - 1].Enter? || GoesWell(After(acts[..|acts| - 1]), acts[|acts| - 1])))
  }

  lemma {:induction false} WellRunsAreHealthy(acts: seq<Action>)
    requires Legal(acts) && WellSoFar(acts)
    ensures Inv(After(acts)) && Mannerly(After(acts)) && Healthy(After(acts))
    decreases |acts|
  {
    RunKeeps(acts);
    HandshakeComesFirst(acts);
    if acts != [] {
      var most := acts[..|acts| - 1];
      WellRunsAreHealthy(most);
      HealthyStays(After(most), acts[|acts| - 1]);
    }
  }

  /** Everything goes well from `s` on. */
  ghost predicate AllWell(s: Sys, more: seq<Action>)
    decreases |more|
  {
    more == [] || (GoesWell(s, more[0]) && AllWell(Apply(s, more[0]), more[1..]))
  }

  lemma {:induction false} WellGoesOn(s: Sys, more: seq<Action>)
    requires AllWell(s, more)
    ensures GoesOn(s, more)
    decreases |more|
  {
    if more != [] { WellGoesOn(Apply(s, more[0]), more[1..]); }
  }

  /** A step that goes well takes no one out of a call but by its answer. */
  lemma StepAnswers(s: Sys, a: Action, i: nat)
    requires Inv(s) && Mannerly(s) && Healthy(s) && GoesWell(s, a) && i in s.callers
    ensures i in Apply(s, a).callers && !(a.Receive? && a.caller == i) ==>
              BodyOf(Apply(s, a).callers[i]) == BodyOf(s.callers[i])
    ensures i !in Apply(s, a).callers <==> a == Receive(i, Arrives)
  {
    if a.Welcome? {
      WelcomeStaysHealthy(s, a);
    } else if a.Receive? {
      ReceiveStaysHealthy(s, a);
    }
  }

  lemma CallersStay(s: Sys, a: Action)
    requires Enabled(s, a) && Smooth(s, a)
    ensures Apply(s, a).callers.Keys <= s.callers.Keys
  {
  }

  /** `got` gives each caller a result of its own after the first `from`: the answer to a request with its body. */
  ghost predicate Answers(got: map<nat, nat>, callers: map<nat, Caller>, from: nat, results: seq<Outcome>) {
    && got.Keys == callers.Keys
    && (forall i :: i in got ==> from <= got[i] < |results| && results[got[i]].req.body == BodyOf(callers[i]))
    && (forall i, j :: i in got && j in got && i != j ==> got[i] != got[j])
  }

  lemma OneStepBack(s: Sys, a: Action, rest: map<nat, nat>, results: seq<Outcome>) returns (got: map<nat, nat>)
    requires Inv(s) && Mannerly(s) && Healthy(s) && GoesWell(s, a)
    requires Apply(s, a).results <= results && Answers(rest, Apply(s, a).callers, |Apply(s, a).results|, results)
    ensures Answers(got, s.callers, |s.results|, results)
  {
    if a.Receive? {
      got := OneArrivalBack(s, a, rest, results);
    } else {
      got := rest;
      SameCallers(s, a);
    }
  }

  lemma SameCallers(s: Sys, a: Action)
    requires Inv(s) && Mannerly(s) && Healthy(s) && GoesWell(s, a) && !a.Receive?
    ensures var t := Apply(s, a);
            && t.callers.Keys == s.callers.Keys && t.results == s.results
            && forall i :: i in s.callers ==> BodyOf(t.callers[i]) == BodyOf(s.callers[i])
  {
    CallersStay(s, a);
    OnlyArrivalsAreReturned(s, a);
    var t := Apply(s, a);
    forall i | i in s.callers ensures i in t.callers && BodyOf(t.callers[i]) == BodyOf(s.callers[i]) {
      StepAnswers(s, a, i);
    }
  }

  lemma OneArrivalBack(s: Sys, a: Action, rest: map<nat, nat>, results: seq<Outcome>) returns (got: map<nat, nat>)
    requires Inv(s) && Healthy(s) && GoesWell(s, a) && a.Receive?
    requires Apply(s, a).results <= results && Answers(rest, Apply(s, a).callers, |Apply(s, a).results|, results)
    ensures Answers(got, s.callers, |s.results|, results)
  {
    var t := Apply(s, a);
    ReceiveStaysHealthy(s, a);
    ArrivalIsReturned(s, a.caller);
    assert t.callers == s.callers - {a.caller};
    got := rest[a.caller := |s.results|];
    assert results[|s.results|] == t.results[|s.results|];
  }

  /**
   When nothing fails and no new call comes, it ends, and by then every caller has had a
   response of its own: to a request with its body, and no two callers the same.
   */
  lemma {:induction false} EveryCallIsAnswered(s: Sys, more: seq<Action>) returns (got: map<nat, nat>)
    requires Inv(s) && Mannerly(s) && Healthy(s) && AllWell(s, more)
    requires GoesOn(s, more) && !CanMove(Onward(s, more))
    ensures Onward(s, more).callers == map[] && s.results <= Onward(s, more).results
    ensures Answers(got, s.callers, |s.results|, Onward(s, more).results)
    decreases |more|
  {
    CallsEnd(s, more);
    got := map[];
    if more != [] {
      var a := more[0];
      StepKeeps(s, a);
      StepKeepsManners(s, a);
      HealthyStays(s, a);
      ResultsStay(s, a);
      got := EveryCallIsAnswered(Apply(s, a), more[1..]);
      got := OneStepBack(s, a, got, Onward(s, more).results);
    }
  }
}

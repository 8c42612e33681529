/**
 Dial, handshakeLocked, call and Close as code, over a client whose other callers, whose
 daemon and whose network move between any two of its operations.
 */
module RpcClient {
  import opened Basics
  import opened RpcPairing
  import opened RpcOutcomes

  /** `Waiting`: for the lock or for the daemon, and not yet back. */
  datatype Progress = Done | Failed | Waiting

  datatype CallResult = Returned(resp: Response) | NoResponse | Underway

  class RPCClient {
    var sys: Sys
    ghost var run: seq<Action>

    ghost predicate Valid()
      reads this
    {
      Legal(run) && sys == After(run)
    }

    /** The caller `me` is at `c` and has not moved since. */
    ghost predicate At(me: nat, c: Caller)
      reads this
    {
      Valid() && me in sys.callers && sys.callers[me] == c
    }

    /** Since `start` the call of `me` has met with a failure. */
    ghost predicate Hindered(me: nat, start: nat)
      reads this
    {
      exists n: nat :: start <= n && Setback(run, n, me)
    }

    constructor ()
      ensures Valid() && sys == INIT
    {
      sys, run := INIT, [];
    }

    method Act(a: Action)
      requires Valid() && Enabled(sys, a)
      modifies this
      ensures Valid() && sys == Apply(old(sys), a) && run == old(run) + [a]
    {
      ghost var before := run;
      sys := Apply(sys, a);
      run := run + [a];
      assert run[..|run| - 1] == before;
    }

    /** Everyone but the caller `me` moves, daemon and network included. */
    method Interfere(me: nat)
      requires Valid()
      modifies this
      ensures Valid() && old(run) <= run && (me in sys.callers <==> me in old(sys.callers))
      ensures me in sys.callers ==> sys.callers[me] == old(sys.callers[me])
    {
      var moves: nat := *;
      while moves > 0
        invariant Valid() && old(run) <= run && (me in sys.callers <==> me in old(sys.callers))
        invariant me in sys.callers ==> sys.callers[me] == old(sys.callers[me])
      {
        var a: Action := *;
        if Enabled(sys, a) && Mover(a) != Some(me) {
          OthersStay(sys, a, me);
          Act(a);
        }
        moves := moves - 1;
      }
    }

    /** Dial: with the lock, connect and shake hands unless that is done already. */
    method Dial(me: nat, body: string) returns (r: Progress)
      requires At(me, Dialling(body))
      modifies this
      ensures Valid() && old(run) <= run
      ensures r == Done ==> At(me, Calling(body))
      ensures r == Failed <==> me !in sys.callers
      ensures r == Failed ==> Hindered(me, |old(run)|)
    {
      Interfere(me);
      if sys.lock.Some? {
        return Waiting;
      }
      var reachable: bool := *;
      var connected := sys.connected;
      ghost var before := run;
      Act(Action.Dial(me, reachable));
      assert run[..|before|] == before;
      if connected {
        return Done;
      }
      if !reachable {
        assert Setback(run, |before|, me);
        return Failed;
      }
      r := HandshakeLocked(me, body);
    }

    method HandshakeLocked(me: nat, body: string) returns (r: Progress)
      requires At(me, Greeting(body))
      modifies this
      ensures Valid() && old(run) <= run
      ensures r == Done ==> At(me, Calling(body))
      ensures r == Failed <==> me !in sys.callers
      ensures r == Failed ==> Hindered(me, |old(run)|)
    {
      Interfere(me);
      RunKeeps(run);
      var sent: SendFault := *;
      var fine := Encodes(sys.link.value, sys.connected, sent);
      ghost var before := run;
      Act(Greet(me, sent));
      if !fine {
        assert run[..|before|] == before;
        assert Setback(run, |before|, me);
        return Failed;
      }
      r := ReadWelcome(me, body, Request(After(before).nextID + 1, true, ""));
    }

    /** The end of the handshake: its response is read. */
    method ReadWelcome(me: nat, body: string, ghost req: Request) returns (r: Progress)
      requires At(me, Greeted(body, req))
      modifies this
      ensures Valid() && old(run) <= run
      ensures r == Done ==> At(me, Calling(body))
      ensures r == Failed <==> me !in sys.callers
      ensures r == Failed ==> Hindered(me, |old(run)|)
    {
      Interfere(me);
      RunKeeps(run);
      var got: RecvFault := *;
      if !CanDecode(sys.link.value, got) {
        return Waiting;
      }
      var resp := Decoded(sys.link.value, got);
      ghost var before := run;
      Act(Welcome(me, got));
      assert run[..|before|] == before;
      assert Setback(run, |before|, me) <== resp.None? || resp.value.error;
      r := if resp.Some? && !resp.value.error then Done else Failed;
    }

    /**
     call: what comes back, whenever something does, is what the daemon wrote in answer to
     this very request. Nothing comes back only if the daemon could not be reached, a
     handshake or the request could not be sent, or no welcome or no response could be read.
     */
    method Call(me: nat, body: string) returns (r: CallResult)
      requires Valid() && me !in sys.callers
      modifies this
      ensures Valid() && old(run) <= run
      ensures r.Returned? || r == NoResponse ==> me !in sys.callers
      ensures r == NoResponse ==> Hindered(me, |old(run)|)
      ensures r.Returned? ==>
        && r.resp.to.body == body && !r.resp.to.greeting && r.resp.id == r.resp.to.id
        && sys.results != [] && sys.results[|sys.results| - 1] == Outcome(r.resp.to, r.resp)
      ensures r.Returned? ==> Written(run, r.resp)
    {
      Act(Enter(me, body));
      var dialled := Dial(me, body);
      if dialled != Done {
        return if dialled == Failed then NoResponse else Underway;
      }
      Interfere(me);
      if sys.lock.Some? {
        return Underway;
      }
      Act(Acquire(me));
      r := Exchange(me, body);
      AnswersAreTheDaemons(run);
    }

    /** The part of call under its own lock. */
    method Exchange(me: nat, body: string) returns (r: CallResult)
      requires At(me, Locked(body))
      modifies this
      ensures Valid() && old(run) <= run
      ensures r.Returned? || r == NoResponse ==> me !in sys.callers
      ensures r == NoResponse ==> Hindered(me, |old(run)|)
      ensures r.Returned? ==>
        && r.resp.to.body == body && !r.resp.to.greeting && r.resp.id == r.resp.to.id
        && sys.results != [] && sys.results[|sys.results| - 1] == Outcome(r.resp.to, r.resp)
    {
      Interfere(me);
      RunKeeps(run);
      var req := Request(sys.nextID + 1, false, body);
      var sent: SendFault := *;
      var fine := Encodes(sys.link.value, sys.connected, sent);
      ghost var before := run;
      Act(Send(me, sent));
      if !fine {
        assert run[..|before|] == before;
        assert Setback(run, |before|, me);
        return NoResponse;
      }
      r := ReadResponse(me, req);
    }

    /** The response to what was sent, if it can be read. */
    method ReadResponse(me: nat, req: Request) returns (r: CallResult)
      requires At(me, Awaiting(req))
      modifies this
      ensures Valid() && old(run) <= run
      ensures r.Returned? || r == NoResponse ==> me !in sys.callers
      ensures r == NoResponse ==> Hindered(me, |old(run)|)
      ensures r.Returned? ==>
        && r.resp.to == req && r.resp.id == req.id
        && sys.results != [] && sys.results[|sys.results| - 1] == Outcome(req, r.resp)
    {
      Interfere(me);
      RunKeeps(run);
      var got: RecvFault := *;
      if !CanDecode(sys.link.value, got) {
        return Underway;
      }
      var resp := Decoded(sys.link.value, got);
      DecodedIsMine(sys, got);
      ghost var before := run;
      Act(Receive(me, got));
      assert run[..|before|] == before;
      assert Setback(run, |before|, me) <== resp.None?;
      r := if resp.Some? then Returned(resp.value) else NoResponse;
    }

    /** Close. */
    method Close() returns (done: bool)
      requires Valid()
      modifies this
      ensures Valid() && (done ==> !sys.connected)
    {
      done := sys.lock.None?;
      if done {
        Act(Action.Close);
      }
    }
  }

  function Mover(a: Action): Option<nat> {
    match a
    case Enter(i, _) => Some(i)
    case Dial(i, _) => Some(i)
    case Greet(i, _) => Some(i)
    case Welcome(i, _) => Some(i)
    case Acquire(i) => Some(i)
    case Send(i, _) => Some(i)
    case Receive(i, _) => Some(i)
    case _ => None
  }

  lemma OthersStay(s: Sys, a: Action, me: nat)
    requires Enabled(s, a) && Mover(a) != Some(me)
    ensures me in Apply(s, a).callers <==> me in s.callers
    ensures me in s.callers ==> Apply(s, a).callers[me] == s.callers[me]
  {
  }
}

/**
 internal/client/rpc.go, ChatSend: the client's side of one chat exchange, reading what
 the handler wrote on the dedicated connection.
 */
module ChatClient {
  import opened ChatProtocol

  /** `broken` when the stream ended before a final chunk. */
  datatype Outcome = NoAnswer | Rejected(code: int) | Streamed(events: seq<Chunk>, broken: bool)

  /** The chunks among some envelopes. */
  function ChunksOf(ms: seq<Msg>): seq<Chunk> {
    if ms == [] then []
    else ChunksOf(ms[..|ms| - 1]) + if ms[|ms| - 1].Note? then [ms[|ms| - 1].chunk] else []
  }

  /** No chunk among them is final. */
  ghost predicate Unfinished(ms: seq<Msg>) {
    forall i :: 0 <= i < |ms| && ms[i].Note? ==> !ms[i].chunk.final
  }

  /** The client stopped after `n` envelopes having delivered `out`. */
  ghost predicate StoppedAt(wire: seq<Msg>, out: Outcome, n: nat) {
    && n <= |wire|
    && match out
       case NoAnswer => wire == []
       case Rejected(code) => n == 1 && wire[0] == ErrorResponse(code)
       case Streamed(events, broken) =>
         && 0 < n && !wire[0].ErrorResponse? && events == ChunksOf(wire[1..n])
         && if broken then n == |wire| && Unfinished(wire[1..])
            else 1 < n && wire[n - 1].Note? && wire[n - 1].chunk.final && Unfinished(wire[1..n - 1])
  }

  /** Reads the ack, then delivers chunks until a final one; `n` envelopes are read in all. */
  method ChatSend(wire: seq<Msg>) returns (out: Outcome, n: nat)
    ensures StoppedAt(wire, out, n)
  {
    if wire == [] { return NoAnswer, 0; }
    if wire[0].ErrorResponse? { return Rejected(wire[0].code), 1; }
    var events: seq<Chunk> := [];
    n := 1;
    while n < |wire|
      invariant 1 <= n <= |wire|
      invariant events == ChunksOf(wire[1..n]) && Unfinished(wire[1..n])
    {
      var env := wire[n];
      assert wire[1..n + 1] == wire[1..n] + [env];
      n := n + 1;
      if env.Note? {
        events := events + [env.chunk];
        if env.chunk.final {
          assert wire[1..n - 1] == wire[1..n][..n - 2];
          return Streamed(events, false), n;
        }
      }
    }
    assert wire[1..|wire|] == wire[1..];
    out := Streamed(events, true);
  }

  /**
   On the trace of a finished handler the client delivers the error, or every chunk in
   order up to the final one, and leaves nothing unread. On a trace cut short it delivers
   what there is and reports that the stream broke.
   */
  lemma ClientReadsAnswer(wire: seq<Msg>, messageId: string, out: Outcome, n: nat)
    requires Partial(wire, messageId) && StoppedAt(wire, out, n)
    ensures n == |wire|
    ensures Complete(wire, messageId) ==>
      out == if wire[0].ErrorResponse? then Rejected(wire[0].code) else Streamed(ChunksOf(wire[1..]), false)
    ensures Streaming(wire, messageId) ==> out == Streamed(ChunksOf(wire[1..]), true)
    ensures wire == [] ==> out == NoAnswer
    ensures out.Streamed? ==>
      |out.events| == |wire| - 1 && forall i :: 0 < i < |wire| ==> wire[i] == Note(out.events[i - 1])
  {
    if out.Streamed? {
      var last := |wire| - 1;
      if Complete(wire, messageId) {
        assert wire[1..][last - 1] == wire[last];
        forall k | 0 < k < last ensures wire[k].Note? && !wire[k].chunk.final {
          assert wire[..last][k] == wire[k] && wire[..last][1..][k - 1] == wire[k];
        }
      }
      assert wire[1..|wire|] == wire[1..];
      OnlyChunks(wire, messageId);
      ChunksInOrder(wire[1..]);
    }
  }

  lemma OnlyChunks(wire: seq<Msg>, messageId: string)
    requires Partial(wire, messageId) && wire != [] && !wire[0].ErrorResponse?
    ensures Chunks(wire[1..])
  {
    if Complete(wire, messageId) {
      var last := |wire| - 1;
      forall k | 0 < k < last ensures wire[k].Note? {
        assert wire[..last][1..][k - 1] == wire[k];
      }
    }
  }

  lemma {:induction false} ChunksInOrder(ms: seq<Msg>)
    requires Chunks(ms)
    ensures |ChunksOf(ms)| == |ms| && forall i :: 0 <= i < |ms| ==> ms[i] == Note(ChunksOf(ms)[i])
  {
    if ms != [] { ChunksInOrder(ms[..|ms| - 1]); }
  }
}

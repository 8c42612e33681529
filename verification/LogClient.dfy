/**
 internal/client/rpc.go, LogsStream: what the client makes of the notes of one log
 stream. The end of the connection and agent.log.done look alike to its caller.
 */
module LogClient {
  import opened Basics
  import opened LogPipeline
  import opened LogTheorems

  /** Delivers lines until the stream ends; `n` notes are read in all. */
  method LogsStream(wire: seq<Note>) returns (lines: seq<string>, err: Option<string>, n: nat)
    ensures n <= |wire| && lines == Sent(wire[..n])
    ensures OnlyLines(wire) ==> n == |wire| && err == None
    ensures |wire| > 0 && OnlyLines(wire[..|wire| - 1]) && !wire[|wire| - 1].Line? ==>
      n == |wire| && err == if wire[|wire| - 1].ErrorNote? then Some(wire[|wire| - 1].err) else None
  {
    lines, err, n := [], None, 0;
    while n < |wire|
      invariant n <= |wire| && lines == Sent(wire[..n]) && err == None
      invariant forall i :: 0 <= i < n ==> wire[i].Line?
    {
      var note := wire[n];
      assert wire[..n + 1] == wire[..n] + [note];
      SentOneMore(wire[..n], note);
      n := n + 1;
      match note {
        case Line(text) => lines := lines + [text];
        case DoneNote =>
          assert n < |wire| ==> wire[..|wire| - 1][n - 1] == note;
          return;
        case ErrorNote(e) =>
          assert n < |wire| ==> wire[..|wire| - 1][n - 1] == note;
          err := Some(e);
          return;
      }
    }
  }
}

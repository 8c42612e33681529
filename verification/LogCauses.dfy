/**
 Where the ending of a log stream comes from: the answer to the second look at the agent,
 and the errors that Docker and the scanner gave, over every run.
 */
module LogCauses {
  import opened Basics
  import opened LogPipeline

  /** The agent could not be read, or Docker or the scanner gave this error. */
  ghost predicate Cause(acts: seq<Action>, err: string) {
    Look(LookupFailed(err)) in acts || Open(Some(err)) in acts || ScanEnd(Some(err)) in acts
  }

  ghost predicate NoCause(acts: seq<Action>) {
    forall err: string :: !Cause(acts, err)
  }

  /** Every error on its way, and the one the client was told, has a cause. */
  ghost predicate Caused(acts: seq<Action>, s: Pipe) {
    && (s.producer.Failing? ==> Cause(acts, s.producer.err))
    && (forall err :: err in s.dockerErrs.buf ==> Cause(acts, err))
    && (Left(s.streamer) && s.streamer.err.Some? ==>
          Cause(acts, s.streamer.err.value) || (s.cancelled && s.streamer.err.value == "context canceled"))
    && (forall err :: err in s.errCh.buf ==> Cause(acts, err))
    && (forall err :: ErrorNote(err) in s.wire ==> Cause(acts, err))
  }

  /** What the look at the agent led to. */
  ghost predicate LookedUp(acts: seq<Action>, s: Pipe) {
    && (s.streamer == Starting ==> forall res :: Look(res) !in acts)
    && (s.producer != NotStarted ==> Look(Follow) in acts)
    && (forall res :: Look(res) in acts ==> LedTo(s, res))
    && (s.streamer == Starting || exists res :: Look(res) in acts)
  }

  ghost predicate LedTo(s: Pipe, res: Lookup) {
    match res
    case Follow => s.producer != NotStarted
    case NoContainer => s.producer == NotStarted && Left(s.streamer) && s.streamer.err == None
    case LookupFailed(err) => s.producer == NotStarted && Left(s.streamer) && s.streamer.err == Some(err)
  }

  /** LogsFollow has met an error if there was one. */
  ghost predicate Met(acts: seq<Action>, s: Pipe) {
    forall err: string :: Open(Some(err)) in acts || ScanEnd(Some(err)) in acts ==> s.failed
  }

  lemma CauseStays(acts: seq<Action>, a: Action)
    ensures forall err :: Cause(acts, err) ==> Cause(acts + [a], err)
  {
  }

  lemma ProducerCaused(acts: seq<Action>, s: Pipe, a: Action)
    requires Caused(acts, s) && ProducerEnabled(s, a)
    ensures Caused(acts + [a], ApplyProducer(s, a))
  {
    CauseStays(acts, a);
    assert a in acts + [a];
    ProducerLeavesRest(s, a);
    ProducerTells(s, a);
  }

  lemma ProducerTells(s: Pipe, a: Action)
    requires ProducerEnabled(s, a)
    ensures var t := ApplyProducer(s, a);
            && (t.producer.Failing? ==>
                  t.producer == s.producer || a == Open(Some(t.producer.err)) || a == ScanEnd(Some(t.producer.err)))
            && forall err :: err in t.dockerErrs.buf ==> err in s.dockerErrs.buf || s.producer == Failing(err)
  {
  }

  lemma StreamerCaused(acts: seq<Action>, s: Pipe, a: Action)
    requires Caused(acts, s) && StreamerEnabled(s, a)
    ensures Caused(acts + [a], ApplyStreamer(s, a))
  {
    CauseStays(acts, a);
    assert a in acts + [a];
  }

  lemma HandlerCaused(acts: seq<Action>, s: Pipe, a: Action)
    requires Caused(acts, s) && HandlerEnabled(s, a)
    ensures Caused(acts + [a], ApplyHandler(s, a))
  {
    CauseStays(acts, a);
    HandlerLeavesRest(s, a);
    HandlerTells(s, a);
  }

  lemma HandlerTells(s: Pipe, a: Action)
    requires HandlerEnabled(s, a)
    ensures forall err :: err in ApplyHandler(s, a).errCh.buf ==> err in s.errCh.buf
    ensures forall err :: ErrorNote(err) in ApplyHandler(s, a).wire ==> ErrorNote(err) in s.wire || err in s.errCh.buf
  {
  }

  lemma StepCaused(acts: seq<Action>, s: Pipe, a: Action)
    requires Caused(acts, s) && Enabled(s, a)
    ensures Caused(acts + [a], Apply(s, a))
  {
    if ProducerEnabled(s, a) {
      ProducerCaused(acts, s, a);
    } else if StreamerEnabled(s, a) {
      StreamerCaused(acts, s, a);
    } else if HandlerEnabled(s, a) {
      HandlerCaused(acts, s, a);
    } else {
      CauseStays(acts, a);
    }
  }

  lemma ProducerLookedUp(acts: seq<Action>, s: Pipe, a: Action)
    requires LookedUp(acts, s) && ProducerEnabled(s, a)
    ensures LookedUp(acts + [a], ApplyProducer(s, a))
  {
    assert s.producer != NotStarted && ApplyProducer(s, a).producer != NotStarted;
    assert ApplyProducer(s, a).streamer == s.streamer;
  }

  lemma StreamerLookedUp(acts: seq<Action>, s: Pipe, a: Action)
    requires LookedUp(acts, s) && StreamerEnabled(s, a)
    ensures LookedUp(acts + [a], ApplyStreamer(s, a))
  {
  }

  lemma HandlerLookedUp(acts: seq<Action>, s: Pipe, a: Action)
    requires LookedUp(acts, s) && HandlerEnabled(s, a)
    ensures LookedUp(acts + [a], ApplyHandler(s, a))
  {
    HandlerLeavesRest(s, a);
  }

  lemma StepLookedUp(acts: seq<Action>, s: Pipe, a: Action)
    requires LookedUp(acts, s) && Enabled(s, a)
    ensures LookedUp(acts + [a], Apply(s, a))
  {
    if ProducerEnabled(s, a) {
      ProducerLookedUp(acts, s, a);
    } else if StreamerEnabled(s, a) {
      StreamerLookedUp(acts, s, a);
    } else if HandlerEnabled(s, a) {
      HandlerLookedUp(acts, s, a);
    }
  }

  lemma StepMet(acts: seq<Action>, s: Pipe, a: Action)
    requires Met(acts, s) && Enabled(s, a)
    ensures Met(acts + [a], Apply(s, a))
  {
    FailureStays(s, a);
  }

  lemma FailureStays(s: Pipe, a: Action)
    requires Enabled(s, a)
    ensures s.failed || (a.Open? && a.err.Some?) || (a.ScanEnd? && a.err.Some?) ==> Apply(s, a).failed
  {
  }

  lemma {:induction false} RunCaused(container: seq<string>, acts: seq<Action>)
    requires Legal(Begin(container), acts)
    ensures Caused(acts, After(Begin(container), acts))
    ensures LookedUp(acts, After(Begin(container), acts))
    ensures Met(acts, After(Begin(container), acts))
    decreases |acts|
  {
    if acts != [] {
      var most, a := acts[..|acts| - 1], acts[|acts| - 1];
      RunCaused(container, most);
      var s := After(Begin(container), most);
      assert acts == most + [a];
      StepCaused(most, s, a);
      StepLookedUp(most, s, a);
      StepMet(most, s, a);
    }
  }

  /** The client is told only of an error that the database, Docker or the scanner gave. */
  lemma ErrorsHaveACause(container: seq<string>, acts: seq<Action>, err: string)
    requires Legal(Begin(container), acts) && ErrorNote(err) in After(Begin(container), acts).wire
    ensures Cause(acts, err)
  {
    RunCaused(container, acts);
  }

  /**
   While the context lives, agent.log.done is not said of a stream that met an error: not
   when the agent could not be read again, and not when Docker or the scanner failed.
   */
  lemma DoneHasNoCause(container: seq<string>, acts: seq<Action>)
    requires Legal(Begin(container), acts)
    requires DoneNote in After(Begin(container), acts).wire && !After(Begin(container), acts).cancelled
    ensures NoCause(acts)
    ensures Look(NoContainer) in acts <==> After(Begin(container), acts).producer == NotStarted
    ensures Look(Follow) in acts <==> After(Begin(container), acts).producer != NotStarted
  {
    BeginHolds(container);
    RunKeeps(Begin(container), acts, container);
    RunCaused(container, acts);
    var s := After(Begin(container), acts);
    assert ProducerInv(s) && StreamerInv(s) && HandlerInv(s);
    StoppedWell(acts, s);
  }

  lemma StoppedWell(acts: seq<Action>, s: Pipe)
    requires ProducerInv(s) && StreamerInv(s) && HandlerInv(s) && LookedUp(acts, s) && Met(acts, s)
    requires DoneNote in s.wire && !s.cancelled
    ensures NoCause(acts)
    ensures Look(NoContainer) in acts <==> s.producer == NotStarted
    ensures Look(Follow) in acts <==> s.producer != NotStarted
  {
    SaidDone(s);
    ReturnedWell(acts, s);
  }

  lemma SaidDone(s: Pipe)
    requires StreamerInv(s) && HandlerInv(s) && DoneNote in s.wire && !s.cancelled
    ensures s.streamer.Over? && s.streamer.err.None?
  {
    var i :| 0 <= i < |s.wire| && s.wire[i] == DoneNote;
    assert s.handler == Stopped(SentDone);
  }

  /** Where Stream has returned no error, none was given to it. */
  lemma ReturnedWell(acts: seq<Action>, s: Pipe)
    requires ProducerInv(s) && StreamerInv(s) && LookedUp(acts, s) && Met(acts, s)
    requires Left(s.streamer) && s.streamer.err.None?
    ensures NoCause(acts)
    ensures Look(NoContainer) in acts <==> s.producer == NotStarted
    ensures Look(Follow) in acts <==> s.producer != NotStarted
  {
    assert PassedOn(s) && !s.failed;
    if s.producer == NotStarted {
      var res :| Look(res) in acts;
      assert LedTo(s, res);
    }
    assert forall err :: Look(LookupFailed(err)) in acts ==> LedTo(s, LookupFailed(err));
  }
}

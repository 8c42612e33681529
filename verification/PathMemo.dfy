/**
 The process-wide memo of the allow-root (internal/paths/policy.go): any number of callers
 look keys up at once, and the file system may change between any two of their steps.
 */
module PathMemo {
  import opened Basics
  import opened PathResolve
  import opened PathPolicy

  /** Where a caller of canonicalizeAllowRoot is. */
  datatype Caller =
    | Loading(key: string)
    | Missed(key: string)
    | Resolved(key: string, value: string)

  datatype Answer = Answer(key: string, result: RootResult)

  datatype State = State(
    fs: FileSystem,
    cache: map<string, string>,
    callers: map<nat, Caller>,
    answers: seq<Answer>)  // what callers were told, in order

  datatype Action =
    | Change(fs: FileSystem)
    | Enter(caller: nat, key: string)
    | Load(caller: nat)
    | Resolve(caller: nat)
    | LoadOrStore(caller: nat)

  function Start(fs: FileSystem): State {
    State(fs, map[], map[], [])
  }

  predicate Enabled(s: State, a: Action) {
    match a
    case Change(_) => true
    case Enter(i, _) => i !in s.callers
    case Load(i) => i in s.callers && s.callers[i].Loading?
    case Resolve(i) => i in s.callers && s.callers[i].Missed?
    case LoadOrStore(i) => i in s.callers && s.callers[i].Resolved?
  }

  /** The caller that moves, if it is one. */
  function Mover(a: Action): Option<nat> {
    match a
    case Change(_) => None
    case Enter(i, _) => Some(i)
    case Load(i) => Some(i)
    case Resolve(i) => Some(i)
    case LoadOrStore(i) => Some(i)
  }

  function Return(s: State, i: nat, answer: Answer): State {
    s.(callers := s.callers - {i}, answers := s.answers + [answer])
  }

  /** sync.Map.LoadOrStore: a value already there wins. */
  function Stored(cache: map<string, string>, key: string, value: string): map<string, string> {
    if key in cache then cache else cache[key := value]
  }

  function Apply(host: Host, s: State, a: Action): State
    requires Enabled(s, a)
  {
    match a
    case Change(fs) => s.(fs := fs)
    case Enter(i, key) => s.(callers := s.callers[i := Loading(key)])
    case Load(i) =>
      var key := s.callers[i].key;
      if key in s.cache then Return(s, i, Answer(key, Root(s.cache[key])))
      else s.(callers := s.callers[i := Missed(key)])
    case Resolve(i) =>
      var key := s.callers[i].key;
      (match RootOf(host.(fs := s.fs), key)
       case RootBad(why) => Return(s, i, Answer(key, RootBad(why)))
       case Root(path) => s.(callers := s.callers[i := Resolved(key, path)]))
    case LoadOrStore(i) =>
      var key := s.callers[i].key;
      var cache := Stored(s.cache, key, s.callers[i].value);
      Return(s.(cache := cache), i, Answer(key, Root(cache[key])))
  }

  ghost predicate Legal(host: Host, s: State, acts: seq<Action>)
    decreases |acts|, 0
  {
    acts == [] ||
    (Legal(host, s, acts[..|acts| - 1])
     && Enabled(After(host, s, acts[..|acts| - 1]), acts[|acts| - 1]))
  }

  ghost function After(host: Host, s: State, acts: seq<Action>): State
    requires Legal(host, s, acts)
    decreases |acts|, 1
  {
    if acts == [] then s else Apply(host, After(host, s, acts[..|acts| - 1]), acts[|acts| - 1])
  }

  // ---------- what every step keeps ----------

  /** What callers were told is what is in the memo. */
  ghost predicate Agreed(s: State) {
    forall n :: 0 <= n < |s.answers| && s.answers[n].result.Root? ==>
      s.answers[n].key in s.cache && s.cache[s.answers[n].key] == s.answers[n].result.path
  }

  ghost predicate Grown(before: map<string, string>, after: map<string, string>) {
    forall k :: k in before ==> k in after && after[k] == before[k]
  }

  lemma StepGrows(host: Host, s: State, a: Action)
    requires Enabled(s, a)
    ensures Grown(s.cache, Apply(host, s, a).cache) && s.answers <= Apply(host, s, a).answers
  {
  }

  lemma StepFiles(host: Host, s: State, a: Action)
    requires Enabled(s, a)
    ensures !a.Change? ==> Apply(host, s, a).fs == s.fs
  {
  }

  lemma StepAgrees(host: Host, s: State, a: Action)
    requires Enabled(s, a) && Agreed(s)
    ensures Agreed(Apply(host, s, a))
  {
    StepGrows(host, s, a);
    var t := Apply(host, s, a);
    forall n | 0 <= n < |t.answers| && t.answers[n].result.Root?
      ensures t.answers[n].key in t.cache && t.cache[t.answers[n].key] == t.answers[n].result.path
    {
      if n < |s.answers| { assert t.answers[n] == s.answers[n]; }
    }
  }

  lemma {:induction false} RunAgrees(host: Host, fs: FileSystem, acts: seq<Action>)
    requires Legal(host, Start(fs), acts)
    ensures Agreed(After(host, Start(fs), acts))
    decreases |acts|
  {
    if acts != [] {
      RunAgrees(host, fs, acts[..|acts| - 1]);
      StepAgrees(host, After(host, Start(fs), acts[..|acts| - 1]), acts[|acts| - 1]);
    }
  }

  /** An entry, once stored, never changes and never goes. */
  lemma {:induction false} EntriesNeverChange(host: Host, s: State, acts: seq<Action>, n: nat)
    requires Legal(host, s, acts) && n <= |acts|
    ensures Legal(host, s, acts[..n])
    ensures Grown(After(host, s, acts[..n]).cache, After(host, s, acts).cache)
    decreases |acts|
  {
    if n == |acts| {
      assert acts[..n] == acts;
    } else {
      var most := acts[..|acts| - 1];
      EntriesNeverChange(host, s, most, n);
      assert most[..n] == acts[..n];
      StepGrows(host, After(host, s, most), acts[|acts| - 1]);
    }
  }

  /** Whatever the files did meanwhile, everyone who was told a root for a key was told the same one. */
  lemma EveryoneIsToldTheSame(host: Host, fs: FileSystem, acts: seq<Action>, i: nat, j: nat)
    requires Legal(host, Start(fs), acts)
    ensures var answers := After(host, Start(fs), acts).answers;
            i < |answers| && j < |answers| && answers[i].key == answers[j].key
            && answers[i].result.Root? && answers[j].result.Root?
            ==> answers[i].result == answers[j].result
  {
    RunAgrees(host, fs, acts);
  }

  // ---------- where entries come from ----------

  /** At some moment of the run the key did resolve to this. */
  ghost predicate Once(host: Host, fs: FileSystem, acts: seq<Action>, key: string, value: string) {
    exists n: nat :: n <= |acts| && ResolvedAt(host, fs, acts, n, key, value)
  }

  ghost predicate ResolvedAt(host: Host, fs: FileSystem, acts: seq<Action>, n: nat, key: string, value: string) {
    && n <= |acts|
    && Legal(host, Start(fs), acts[..n])
    && RootOf(host.(fs := After(host, Start(fs), acts[..n]).fs), key) == Root(value)
  }

  lemma OnceStays(host: Host, fs: FileSystem, acts: seq<Action>, key: string, value: string)
    requires acts != [] && Legal(host, Start(fs), acts)
    ensures Legal(host, Start(fs), acts[..|acts| - 1])
    ensures Once(host, fs, acts[..|acts| - 1], key, value) ==> Once(host, fs, acts, key, value)
  {
    var most := acts[..|acts| - 1];
    if Once(host, fs, most, key, value) {
      var n: nat :| n <= |most| && ResolvedAt(host, fs, most, n, key, value);
      assert most[..n] == acts[..n];
      assert ResolvedAt(host, fs, acts, n, key, value);
    }
  }

  lemma NowIsOnce(host: Host, fs: FileSystem, acts: seq<Action>, key: string, value: string)
    requires Legal(host, Start(fs), acts)
    requires RootOf(host.(fs := After(host, Start(fs), acts).fs), key) == Root(value)
    ensures Once(host, fs, acts, key, value)
  {
    assert acts[..|acts|] == acts;
    assert ResolvedAt(host, fs, acts, |acts|, key, value);
  }

  /** A step stores only what a caller carried, and a caller carries only what it just resolved. */
  lemma StepOrigins(host: Host, s: State, a: Action)
    requires Enabled(s, a)
    ensures var t := Apply(host, s, a);
            && (forall k :: k in t.cache ==>
                  (k in s.cache && s.cache[k] == t.cache[k])
                  || (a.LoadOrStore? && s.callers[a.caller] == Resolved(k, t.cache[k])))
            && (forall i: nat :: i in t.callers && t.callers[i].Resolved? ==>
                  (i in s.callers && s.callers[i] == t.callers[i])
                  || RootOf(host.(fs := s.fs), t.callers[i].key) == Root(t.callers[i].value))
  {
  }

  ghost predicate AllOnce(host: Host, fs: FileSystem, acts: seq<Action>, s: State) {
    && (forall k :: k in s.cache ==> Once(host, fs, acts, k, s.cache[k]))
    && (forall i: nat :: i in s.callers && s.callers[i].Resolved? ==>
          Once(host, fs, acts, s.callers[i].key, s.callers[i].value))
  }

  /** Failures never enter the memo: every entry is what its key did resolve to at some moment. */
  lemma {:induction false} EntriesWereResolved(host: Host, fs: FileSystem, acts: seq<Action>)
    requires Legal(host, Start(fs), acts)
    ensures AllOnce(host, fs, acts, After(host, Start(fs), acts))
    decreases |acts|
  {
    if acts != [] {
      var most, a := acts[..|acts| - 1], acts[|acts| - 1];
      var s, t := After(host, Start(fs), most), After(host, Start(fs), acts);
      EntriesWereResolved(host, fs, most);
      forall k | k in t.cache ensures Once(host, fs, acts, k, t.cache[k]) {
        StoredWasResolved(host, fs, acts, k);
      }
      forall i: nat | i in t.callers && t.callers[i].Resolved?
        ensures Once(host, fs, acts, t.callers[i].key, t.callers[i].value)
      {
        CarriedWasResolved(host, fs, acts, i);
      }
    }
  }

  lemma StoredWasResolved(host: Host, fs: FileSystem, acts: seq<Action>, k: string)
    requires acts != [] && Legal(host, Start(fs), acts)
    requires k in After(host, Start(fs), acts).cache
    requires AllOnce(host, fs, acts[..|acts| - 1], After(host, Start(fs), acts[..|acts| - 1]))
    ensures Once(host, fs, acts, k, After(host, Start(fs), acts).cache[k])
  {
    var s, t := After(host, Start(fs), acts[..|acts| - 1]), After(host, Start(fs), acts);
    StepOrigins(host, s, acts[|acts| - 1]);
    OnceStays(host, fs, acts, k, t.cache[k]);
  }

  lemma CarriedWasResolved(host: Host, fs: FileSystem, acts: seq<Action>, i: nat)
    requires acts != [] && Legal(host, Start(fs), acts)
    requires var t := After(host, Start(fs), acts); i in t.callers && t.callers[i].Resolved?
    requires AllOnce(host, fs, acts[..|acts| - 1], After(host, Start(fs), acts[..|acts| - 1]))
    ensures var c := After(host, Start(fs), acts).callers[i]; Once(host, fs, acts, c.key, c.value)
  {
    var most, a := acts[..|acts| - 1], acts[|acts| - 1];
    var s, t := After(host, Start(fs), most), After(host, Start(fs), acts);
    var c := t.callers[i];
    StepOrigins(host, s, a);
    OnceStays(host, fs, acts, c.key, c.value);
    if RootOf(host.(fs := s.fs), c.key) == Root(c.value) {
      NowIsOnce(host, fs, most, c.key, c.value);
    }
  }

  // ---------- files that do not change ----------

  ghost predicate Calm(acts: seq<Action>) {
    forall n :: 0 <= n < |acts| ==> !acts[n].Change?
  }

  /** Memo, callers and answers are what resolving afresh gives. */
  ghost predicate Fresh(host: Host, s: State) {
    && (forall k :: k in s.cache ==> RootOf(host.(fs := s.fs), k) == Root(s.cache[k]))
    && (forall i: nat :: i in s.callers && s.callers[i].Resolved? ==>
          RootOf(host.(fs := s.fs), s.callers[i].key) == Root(s.callers[i].value))
  }

  ghost predicate AnswersFresh(host: Host, s: State) {
    forall n :: 0 <= n < |s.answers| ==> s.answers[n].result == RootOf(host.(fs := s.fs), s.answers[n].key)
  }

  lemma StepStaysFresh(host: Host, s: State, a: Action)
    requires Enabled(s, a) && !a.Change? && Fresh(host, s)
    ensures Apply(host, s, a).fs == s.fs && Fresh(host, Apply(host, s, a))
  {
    StepOrigins(host, s, a);
  }

  lemma StepAnswersFresh(host: Host, s: State, a: Action)
    requires Enabled(s, a) && !a.Change? && Fresh(host, s) && AnswersFresh(host, s)
    ensures AnswersFresh(host, Apply(host, s, a))
  {
    var t := Apply(host, s, a);
    forall n | 0 <= n < |t.answers|
      ensures t.answers[n].result == RootOf(host.(fs := t.fs), t.answers[n].key)
    {
      if n < |s.answers| { assert t.answers[n] == s.answers[n]; }
    }
  }

  /** While the files stay as they are, no caller can tell the memo from resolving afresh. */
  lemma {:induction false} MemoIsTransparent(host: Host, fs: FileSystem, acts: seq<Action>)
    requires Legal(host, Start(fs), acts) && Calm(acts)
    ensures var s := After(host, Start(fs), acts);
            s.fs == fs && Fresh(host, s) && AnswersFresh(host, s)
    decreases |acts|
  {
    if acts != [] {
      var most, a := acts[..|acts| - 1], acts[|acts| - 1];
      MemoIsTransparent(host, fs, most);
      StepStaysFresh(host, After(host, Start(fs), most), a);
      StepAnswersFresh(host, After(host, Start(fs), most), a);
    }
  }

  /** Validate with whatever root some caller was told gives Validate without the memo. */
  lemma ToldRootsJudgeAlike(host: Host, fs: FileSystem, acts: seq<Action>, n: nat, policy: Policy, raw: string)
    requires Legal(host, Start(fs), acts) && Calm(acts)
    requires n < |After(host, Start(fs), acts).answers|
    requires After(host, Start(fs), acts).answers[n].key == policy.allowRoot
    ensures var h := host.(fs := fs);
            Conclude(Screen(h, policy, raw), policy, After(host, Start(fs), acts).answers[n].result)
            == Judge(h, policy, raw)
  {
    MemoIsTransparent(host, fs, acts);
  }

  /**
   Once files change the memo may lag: whatever the key resolved to, and whatever the files
   are now, there is a run in which the last caller is told the old value.
   */
  lemma MemoOutlivesChange(host: Host, key: string, before: FileSystem, after: FileSystem, value: string)
    returns (acts: seq<Action>)
    requires RootOf(host.(fs := before), key) == Root(value)
    ensures Legal(host, Start(before), acts)
    ensures var s := After(host, Start(before), acts);
            s.fs == after && s.answers != [] && s.answers[|s.answers| - 1] == Answer(key, Root(value))
  {
    var s := Start(before);
    acts := FirstLookup(host, key, before, value);
    acts := Then(host, s, acts, Change(after));
    acts := Then(host, s, acts, Enter(0, key));
    acts := Then(host, s, acts, Load(0));
  }

  lemma FirstLookup(host: Host, key: string, fs: FileSystem, value: string) returns (acts: seq<Action>)
    requires RootOf(host.(fs := fs), key) == Root(value)
    ensures Legal(host, Start(fs), acts)
    ensures After(host, Start(fs), acts) == State(fs, map[key := value], map[], [Answer(key, Root(value))])
  {
    var s := Start(fs);
    acts := [];
    acts := Then(host, s, acts, Enter(0, key));
    acts := Then(host, s, acts, Load(0));
    acts := Then(host, s, acts, Resolve(0));
    acts := Then(host, s, acts, LoadOrStore(0));
  }

  lemma Then(host: Host, s: State, acts: seq<Action>, a: Action) returns (more: seq<Action>)
    requires Legal(host, s, acts) && Enabled(After(host, s, acts), a)
    ensures Legal(host, s, more) && After(host, s, more) == Apply(host, After(host, s, acts), a)
  {
    more := acts + [a];
    assert more[..|acts|] == acts;
  }
}

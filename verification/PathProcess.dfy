/**
 The path policy as code: the loops of checkForbiddenRunes and of the denylist, the memo
 lookup, Validate and OpenSafe, in a process whose other callers move in between.
 */
module PathProcess {
  import opened Basics
  import opened PathStrings
  import opened PathResolve
  import opened PathTrails
  import opened PathPolicy
  import opened PathMemo

  method CheckForbiddenRunes(raw: string) returns (r: Option<Reason>)
    ensures r == FirstBadByte(raw, 0)
    ensures r.None? <==> NoBadByte(raw)
  {
    FirstBadByteIsFirst(raw, 0);
    var i := 0;
    while i < |raw|
      invariant i <= |raw|
      invariant FirstBadByte(raw, 0) == FirstBadByte(raw, i)
    {
      var c := raw[i];
      if c == '\0' {
        return Some(BadByte(Nul, i));
      }
      if c == '\n' || c == '\r' {
        return Some(BadByte(Newline, i));
      }
      if c < ' ' && c != '\t' {
        return Some(BadByte(Control, i));
      }
      i := i + 1;
    }
    r := None;
  }

  method CheckDenylist(canonical: string, denylist: seq<string>) returns (r: Option<Reason>)
    ensures r == FirstDenial(canonical, denylist)
  {
    var i := 0;
    assert denylist[i..] == denylist;
    while i < |denylist|
      invariant i <= |denylist|
      invariant FirstDenial(canonical, denylist) == FirstDenial(canonical, denylist[i..])
    {
      var entry := denylist[i];
      if PathEqualFold(canonical, entry) {
        return Some(OnDenylist(entry));
      }
      if IsUnderFold(canonical, entry) {
        return Some(UnderDenylist(entry));
      }
      assert denylist[i..][1..] == denylist[i + 1..];
      i := i + 1;
    }
    r := None;
  }

  datatype Opened = Opened(fd: nat, canonical: string) | NotOpened

  class Process {
    const host: Host  // its normal form and working directory; the files are in `sys`
    ghost const fs0: FileSystem
    const calm: bool  // nobody changes the files
    var sys: State
    ghost var run: seq<Action>
    var held: map<nat, seq<string>>  // descriptors held open, and on which directory

    ghost predicate Valid()
      reads this
    {
      && Legal(host, Start(fs0), run) && sys == After(host, Start(fs0), run)
      && (calm ==> Calm(run))
    }

    constructor (host: Host, calm: bool)
      ensures Valid() && sys == Start(host.fs) && held == map[]
      ensures this.host == host && this.calm == calm && fs0 == host.fs
    {
      this.host, this.calm, fs0 := host, calm, host.fs;
      sys, run, held := Start(host.fs), [], map[];
    }

    /** The host as it is now. */
    function Now(): Host
      reads this
    {
      host.(fs := sys.fs)
    }

    method Act(a: Action)
      requires Valid() && Enabled(sys, a) && (calm ==> !a.Change?)
      modifies this`sys, this`run
      ensures Valid() && sys == Apply(host, old(sys), a)
      ensures Grown(old(sys.cache), sys.cache) && (calm ==> sys.fs == old(sys.fs))
    {
      ghost var before := run;
      StepGrows(host, sys, a);
      sys := Apply(host, sys, a);
      run := run + [a];
      assert run[..|run| - 1] == before;
    }

    /** Other callers move, and unless it is calm or `still` files change; the caller `me` does not move. */
    method Interfere(me: nat, still: bool)
      requires Valid()
      modifies this`sys, this`run
      ensures Valid() && Grown(old(sys.cache), sys.cache) && (calm || still ==> sys.fs == old(sys.fs))
      ensures me in sys.callers <==> me in old(sys.callers)
      ensures me in sys.callers ==> sys.callers[me] == old(sys.callers[me])
    {
      var moves: nat := *;
      while moves > 0
        invariant Valid() && Grown(old(sys.cache), sys.cache) && (calm || still ==> sys.fs == old(sys.fs))
        invariant me in sys.callers <==> me in old(sys.callers)
        invariant me in sys.callers ==> sys.callers[me] == old(sys.callers[me])
      {
        var a: Action := *;
        if Enabled(sys, a) && Mover(a) != Some(me) && (calm || still ==> !a.Change?) {
          StepFiles(host, sys, a);
          Act(a);
        }
        moves := moves - 1;
      }
    }

    /** canonicalizeAllowRoot. */
    method CanonicalizeAllowRoot(me: nat, key: string, still: bool) returns (r: RootResult)
      requires Valid() && me !in sys.callers
      modifies this`sys, this`run
      ensures Valid() && Grown(old(sys.cache), sys.cache) && (calm || still ==> sys.fs == old(sys.fs))
      ensures me !in sys.callers
      ensures key in old(sys.cache) ==> r == Root(old(sys.cache)[key])
      ensures r.Root? ==> key in sys.cache && sys.cache[key] == r.path
      ensures calm ==> r == RootOf(host.(fs := fs0), key)
      ensures calm ==> forall p :: r == Root(p) <==> RootIs(host.(fs := fs0), key, p)
    {
      RootOfIs(host.(fs := fs0), key);
      Interfere(me, still);
      Act(Enter(me, key));
      Interfere(me, still);
      var hit := if key in sys.cache then Some(sys.cache[key]) else None;
      CalmIsFresh(this);
      Act(Load(me));
      if hit.Some? {
        return Root(hit.value);
      }
      r := ResolveAndStore(me, key, still);
    }

    /** The part of canonicalizeAllowRoot that follows a miss. */
    method ResolveAndStore(me: nat, key: string, still: bool) returns (r: RootResult)
      requires Valid() && me in sys.callers && sys.callers[me] == Missed(key)
      modifies this`sys, this`run
      ensures Valid() && Grown(old(sys.cache), sys.cache) && (calm || still ==> sys.fs == old(sys.fs))
      ensures me !in sys.callers
      ensures r.Root? ==> key in sys.cache && sys.cache[key] == r.path
      ensures calm ==> r == RootOf(host.(fs := fs0), key)
    {
      Interfere(me, still);
      r := RootOf(Now(), key);
      CalmIsFresh(this);
      Act(Resolve(me));
      if r.Root? {
        Interfere(me, still);
        CalmIsFresh(this);
        r := Root(Stored(sys.cache, key, r.path)[key]);
        Act(LoadOrStore(me));
      }
    }

    /** Validate; `seen` is the file system the path was resolved in, `root` what the allow-root came to. */
    method Validate(me: nat, policy: Policy, raw: string, still: bool)
      returns (v: Verdict, ghost seen: FileSystem, ghost root: RootResult)
      requires Valid() && me !in sys.callers
      modifies this`sys, this`run
      ensures Valid() && Grown(old(sys.cache), sys.cache) && (calm || still ==> sys.fs == old(sys.fs))
      ensures me !in sys.callers
      ensures v == Conclude(Screen(host.(fs := seen), policy, raw), policy, root)
      ensures v.Allowed? && !policy.allowTrust ==>
        policy.allowRoot in sys.cache && root == Root(sys.cache[policy.allowRoot])
      ensures root.Root? ==> IsAbs(root.path)
      ensures still ==> seen == sys.fs
      ensures calm ==> v == Judge(host.(fs := fs0), policy, raw)
      ensures AllAbsolute(policy.denylist) && v.Allowed? ==>
        && WellSpelled(host, raw)
        && Resolves(seen, Clean(host.nfc(raw)), v.path)
        && PermittedUnder(policy, root, Comps(v.path))
      ensures calm && AllAbsolute(policy.denylist) ==>
        forall c :: v == Allowed(c) <==> Acceptable(host.(fs := fs0), policy, raw, c)
    {
      v, seen, root := Pipeline(me, policy, raw, still);
      if AllAbsolute(policy.denylist) {
        if v.Allowed? { AcceptedUnderRoot(host.(fs := seen), policy, raw, root, v.path); }
        if calm {
          forall c ensures Judge(host.(fs := fs0), policy, raw) == Allowed(c)
                           <==> Acceptable(host.(fs := fs0), policy, raw, c) {
            AcceptedExactly(host.(fs := fs0), policy, raw, c);
          }
        }
      }
    }

    /** The steps of Validate. */
    method Pipeline(me: nat, policy: Policy, raw: string, still: bool)
      returns (v: Verdict, ghost seen: FileSystem, ghost root: RootResult)
      requires Valid() && me !in sys.callers
      modifies this`sys, this`run
      ensures Valid() && Grown(old(sys.cache), sys.cache) && (calm || still ==> sys.fs == old(sys.fs))
      ensures me !in sys.callers
      ensures v == Conclude(Screen(host.(fs := seen), policy, raw), policy, root)
      ensures v.Allowed? && !policy.allowTrust ==>
        policy.allowRoot in sys.cache && root == Root(sys.cache[policy.allowRoot])
      ensures root.Root? ==> IsAbs(root.path)
      ensures still ==> seen == sys.fs
      ensures calm ==> v == Judge(host.(fs := fs0), policy, raw)
    {
      Interfere(me, still);
      seen := sys.fs;
      root := RootOf(Now(), policy.allowRoot);
      RootIsAbsolute(Now(), policy.allowRoot);
      CalmIsFresh(this);
      v := ScreenPath(policy, raw);
      if v.Forbidden? || policy.allowTrust {
        return;
      }
      if policy.allowRoot == "" {
        return Forbidden(NoRoot), seen, root;
      }
      var rootCanon := CanonicalizeAllowRoot(me, policy.allowRoot, still);
      root := rootCanon;
      MemoIsAbsolute(this);
      v := Containment(v.path, rootCanon);
    }

    /** The part of Validate that asks only about the path. */
    method ScreenPath(policy: Policy, raw: string) returns (v: Verdict)
      ensures v == Screen(Now(), policy, raw)
    {
      if Blank(raw) {
        return Forbidden(Empty);
      }
      var bad := CheckForbiddenRunes(raw);
      if bad.Some? {
        return Forbidden(bad.value);
      }
      var nfc := host.nfc(raw);
      if !IsAbs(nfc) {
        return Forbidden(Relative);
      }
      var cleaned := Clean(Clean(nfc));
      if |cleaned| > MAX_PATH_LEN {
        return Forbidden(TooLong(|cleaned|));
      }
      var resolved := EvalSymlinks(sys.fs, cleaned);
      if resolved.None? {
        return Forbidden(Unresolved);
      }
      var canonical := resolved.value;
      if IsDockerDesktopSocket(canonical) {
        return Forbidden(DockerSocket);
      }
      var denied := CheckDenylist(canonical, policy.denylist);
      v := if denied.Some? then Forbidden(denied.value) else Allowed(canonical);
    }

    /** What the kernel says the descriptor is open on; elsewhere by now, if files were moved. */
    method CanonicalFromFd(fd: nat, still: bool) returns (r: Option<string>)
      requires fd in held
      ensures r.Some? && (calm || still) ==> r.value == Render(held[fd])
    {
      var fails: bool, moved: string := *, *;
      if fails {
        r := None;
      } else {
        r := Some(if calm || still then Render(held[fd]) else moved);
      }
    }

    /**
     OpenSafe: open, ask the handle for its path, validate that. A descriptor stays open
     only with a path that the policy accepted after the open. If files are `still` from
     the open on, then whatever they did before, that path is the name of the very directory
     held open, and the directory is permitted under the root the memo holds.
     */
    method OpenSafe(me: nat, path: string, policy: Policy, budget: nat, still: bool)
      returns (r: Opened, ghost name: string, ghost seen: FileSystem, ghost root: RootResult)
      requires Valid() && me !in sys.callers && budget <= MAX_LINKS
      modifies this
      ensures Valid() && me !in sys.callers && (calm ==> sys.fs == old(sys.fs))
      ensures r.NotOpened? ==> held == old(held)
      ensures r.Opened? ==> r.fd !in old(held) && r.fd in held && held == old(held)[r.fd := held[r.fd]]
      ensures r.Opened? ==>
        && Conclude(Screen(host.(fs := seen), policy, name), policy, root) == Allowed(r.canonical)
        && (policy.allowTrust
            || (policy.allowRoot in sys.cache && root == Root(sys.cache[policy.allowRoot])))
      ensures r.Opened? && still && AllAbsolute(policy.denylist) && host.nfc(name) == name ==>
        && r.canonical == name == Render(held[r.fd])
        && PermittedUnder(policy, root, held[r.fd])
        && (Fresh(host, sys) ==> Permitted(Now(), policy, held[r.fd]))
      ensures r.Opened? && calm ==>
        && OpenDir(fs0, path, budget) == Some(held[r.fd])
        && name == Render(held[r.fd])
        && Judge(host.(fs := fs0), policy, name) == Allowed(r.canonical)
    {
      Interfere(me, false);
      seen, root, name := sys.fs, RootBad(NoRoot), path;
      CalmIsFresh(this);
      var dir := OpenDir(sys.fs, path, budget);
      var fd: nat := *;
      if dir.None? || fd in held {
        return NotOpened, name, seen, root;
      }
      held := held[fd := dir.value];
      ghost var atOpen := sys.fs;
      Interfere(me, still);
      var canonical := CanonicalFromFd(fd, still);
      if canonical.None? {
        Close(fd, old(held));
        return NotOpened, name, seen, root;
      }
      name := canonical.value;
      var v;
      v, seen, root := Validate(me, policy, canonical.value, still);
      if v.Forbidden? {
        Close(fd, old(held));
        return NotOpened, name, seen, root;
      }
      r := Opened(fd, v.path);
      if still && AllAbsolute(policy.denylist) && host.nfc(name) == name {
        assert seen == atOpen;
        NormalHandleIsJudged(host.(fs := atOpen), policy, path, root, budget);
        PermittedIs(Now(), policy, dir.value);
      }
    }

    /** What AgentCreate does with a workspace: validate it, open it, and mount what that gave. */
    method OpenWorkspace(me: nat, workspace: string, policy: Policy, budget: nat) returns (r: Opened)
      requires Valid() && me !in sys.callers && budget <= MAX_LINKS
      modifies this
      ensures Valid() && me !in sys.callers
      ensures r.NotOpened? ==> held == old(held)
      ensures r.Opened? && calm ==>
        var h := host.(fs := fs0);
        && Judge(h, policy, workspace).Allowed?
        && var c := Judge(h, policy, workspace).path;
        && r.fd in held && held[r.fd] == Comps(c) && DirAt(fs0, Comps(c))
        && (host.nfc(c) == c ==> r.canonical == c)
    {
      ghost var seen, root, name;
      var v;
      v, seen, root := Validate(me, policy, workspace, false);
      if v.Forbidden? {
        return NotOpened;
      }
      r, name, seen, root := OpenSafe(me, v.path, policy, budget, false);
      if r.Opened? && calm {
        OpenedAsAccepted(host.(fs := fs0), policy, workspace, budget);
        SameNameAgain(host.(fs := fs0), policy, workspace);
      }
    }

    method Close(fd: nat, ghost before: map<nat, seq<string>>)
      requires fd in held && fd !in before && held == before[fd := held[fd]]
      modifies this`held
      ensures held == before
    {
      held := held - {fd};
    }
  }

  /** What the memo holds is an absolute path. */
  lemma MemoIsAbsolute(p: Process)
    requires p.Valid()
    ensures forall k :: k in p.sys.cache ==> IsAbs(p.sys.cache[k])
  {
    EntriesWereResolved(p.host, p.fs0, p.run);
    forall k | k in p.sys.cache ensures IsAbs(p.sys.cache[k]) {
      assert Once(p.host, p.fs0, p.run, k, p.sys.cache[k]);
      var n: nat :| n <= |p.run| && ResolvedAt(p.host, p.fs0, p.run, n, k, p.sys.cache[k]);
      RootIsAbsolute(p.host.(fs := After(p.host, Start(p.fs0), p.run[..n]).fs), k);
    }
  }

  /** In a calm process the memo and what callers carry are fresh. */
  lemma CalmIsFresh(p: Process)
    requires p.Valid()
    ensures p.calm ==> p.sys.fs == p.fs0 && Fresh(p.host, p.sys)
  {
    if p.calm {
      MemoIsTransparent(p.host, p.fs0, p.run);
    }
  }
}

/**
 The workspace path policy of internal/paths/policy.go: what Policy.Validate answers,
 which paths it accepts, and that an accepted path is accepted again as it is.
 */
module PathPolicy {
  import opened Basics
  import opened PathStrings
  import opened PathResolve
  import opened PathTrails

  const MAX_PATH_LEN := 4096

  datatype Policy = Policy(allowRoot: string, denylist: seq<string>, allowTrust: bool)

  datatype ByteFault = Nul | Newline | Control

  datatype Reason =
    | Empty
    | BadByte(fault: ByteFault, at: nat)
    | Relative
    | TooLong(length: nat)
    | Unresolved
    | DockerSocket
    | OnDenylist(entry: string)
    | UnderDenylist(entry: string)
    | NoRoot
    | NoWorkingDir
    | RootUnresolved
    | OutsideRoot(root: string)

  datatype Verdict = Allowed(path: string) | Forbidden(why: Reason)

  type Absolute = p: string | IsAbs(p) witness "/"

  /** What the process sees: its normal form for Unicode text, its working directory, its files. */
  datatype Host = Host(nfc: string -> string, cwd: Option<Absolute>, fs: FileSystem)

  const DEFAULT_DENYLIST: seq<string> := [
    "/var/run/docker.sock", "/run/docker.sock", "/", "/etc", "/usr", "/var", "/bin", "/sbin",
    "/root", "/private/etc", "/private/var", "/private/tmp", "/Volumes", "/Library",
    "/Applications", "/opt"
  ]

  // ---------- the screens ----------

  predicate Blank(s: string) {
    forall i :: 0 <= i < |s| ==> IsSpace(s[i])
  }

  predicate Forbids(c: char) {
    c < ' ' && c != '\t'
  }

  predicate NoBadByte(s: string) {
    forall i :: 0 <= i < |s| ==> !Forbids(s[i])
  }

  function FaultOf(c: char): ByteFault {
    if c == '\0' then Nul else if c == '\n' || c == '\r' then Newline else Control
  }

  function FirstBadByte(s: string, i: nat): Option<Reason>
    requires i <= |s|
    decreases |s| - i
  {
    if i == |s| then None
    else if Forbids(s[i]) then Some(BadByte(FaultOf(s[i]), i))
    else FirstBadByte(s, i + 1)
  }

  predicate Contains(s: string, t: string) {
    |t| <= |s| && (s[..|t|] == t || Contains(s[1..], t))
  }

  predicate IsDockerDesktopSocket(canonical: string) {
    var lower, socket := Fold(canonical), "docker-raw.sock";
    && Contains(lower, "/library/containers/com.docker.docker/")
    && |socket| <= |lower| && lower[|lower| - |socket|..] == socket
  }

  function FirstDenial(canonical: string, denylist: seq<string>): Option<Reason> {
    if denylist == [] then None
    else if PathEqualFold(canonical, denylist[0]) then Some(OnDenylist(denylist[0]))
    else if IsUnderFold(canonical, denylist[0]) then Some(UnderDenylist(denylist[0]))
    else FirstDenial(canonical, denylist[1..])
  }

  /** filepath.Abs; there may be no working directory to ask. */
  function AbsOf(cwd: Option<Absolute>, p: string): Option<string> {
    if IsAbs(p) then Some(Clean(p))
    else match cwd
      case None => None
      case Some(d) => Some(Clean(d + "/" + p))
  }

  datatype RootResult = Root(path: string) | RootBad(why: Reason)

  /** The allow-root resolved afresh. */
  function RootOf(host: Host, allowRoot: string): RootResult {
    match AbsOf(host.cwd, host.nfc(allowRoot))
    case None => RootBad(NoWorkingDir)
    case Some(path) =>
      match EvalSymlinks(host.fs, Clean(path))
      case None => RootBad(RootUnresolved)
      case Some(root) => Root(root)
  }

  /** Everything before the file system is looked at. */
  function Spelling(host: Host, raw: string): Verdict {
    if Blank(raw) then Forbidden(Empty)
    else
      var bad := FirstBadByte(raw, 0);
      if bad.Some? then Forbidden(bad.value)
      else if !IsAbs(host.nfc(raw)) then Forbidden(Relative)
      else
        var cleaned := Clean(Clean(host.nfc(raw)));
        if |cleaned| > MAX_PATH_LEN then Forbidden(TooLong(|cleaned|)) else Allowed(cleaned)
  }

  /** Resolution, the socket and the denylist. */
  function Resolution(fs: FileSystem, denylist: seq<string>, cleaned: string): Verdict {
    match EvalSymlinks(fs, cleaned)
    case None => Forbidden(Unresolved)
    case Some(canonical) =>
      if IsDockerDesktopSocket(canonical) then Forbidden(DockerSocket)
      else
        match FirstDenial(canonical, denylist)
        case Some(why) => Forbidden(why)
        case None => Allowed(canonical)
  }

  function Screen(host: Host, policy: Policy, raw: string): Verdict {
    match Spelling(host, raw)
    case Forbidden(why) => Forbidden(why)
    case Allowed(cleaned) => Resolution(host.fs, policy.denylist, cleaned)
  }

  function Containment(canonical: string, root: RootResult): Verdict {
    match root
    case RootBad(why) => Forbidden(why)
    case Root(path) => if IsRootOrUnderFold(canonical, path) then Allowed(canonical) else Forbidden(OutsideRoot(path))
  }

  /** The verdict on a screened path, `root` being what the allow-root was resolved to. */
  function Conclude(screened: Verdict, policy: Policy, root: RootResult): Verdict {
    match screened
    case Forbidden(why) => Forbidden(why)
    case Allowed(canonical) =>
      if policy.allowTrust then Allowed(canonical)
      else if policy.allowRoot == "" then Forbidden(NoRoot)
      else Containment(canonical, root)
  }

  /** Policy.Validate without the memo: the allow-root is resolved for this very call. */
  function Judge(host: Host, policy: Policy, raw: string): Verdict {
    Conclude(Screen(host, policy, raw), policy, RootOf(host, policy.allowRoot))
  }

  // ---------- the policy, on components ----------

  /** An entry covers itself and what lies below it; "/" covers only itself. */
  ghost predicate Covers(entry: seq<string>, path: seq<string>) {
    FoldPrefix(entry, path) && (entry == [] ==> path == [])
  }

  ghost predicate AllAbsolute(denylist: seq<string>) {
    forall i :: 0 <= i < |denylist| ==> IsAbs(denylist[i])
  }

  ghost predicate Uncovered(denylist: seq<string>, path: seq<string>) {
    forall i :: 0 <= i < |denylist| ==> !Covers(Comps(denylist[i]), path)
  }

  /** Under the allow-root, or trusted to be elsewhere. */
  ghost predicate Inside(policy: Policy, root: RootResult, path: seq<string>) {
    policy.allowTrust || (policy.allowRoot != "" && root.Root? && FoldPrefix(Comps(root.path), path))
  }

  /** What the policy wants of a place in the file system, `root` being what the allow-root came to. */
  ghost predicate PermittedUnder(policy: Policy, root: RootResult, path: seq<string>) {
    && !IsDockerDesktopSocket(Render(path))
    && Uncovered(policy.denylist, path)
    && Inside(policy, root, path)
  }

  /** `root` is the clean name of the place the allow-root leads to, from the working directory if it is relative. */
  ghost predicate RootIs(host: Host, allowRoot: string, root: string) {
    var n := host.nfc(allowRoot);
    && (IsAbs(n) || host.cwd.Some?)
    && Resolves(host.fs, Clean(if IsAbs(n) then n else host.cwd.value + "/" + n), root)
  }

  /** Permitted, the allow-root being the place it leads to now. */
  ghost predicate Permitted(host: Host, policy: Policy, path: seq<string>) {
    && !IsDockerDesktopSocket(Render(path))
    && Uncovered(policy.denylist, path)
    && (policy.allowTrust
        || (policy.allowRoot != ""
            && exists root :: RootIs(host, policy.allowRoot, root) && FoldPrefix(Comps(root), path)))
  }

  /** What is asked of the text itself. */
  ghost predicate WellSpelled(host: Host, raw: string) {
    && (exists i :: 0 <= i < |raw| && !IsSpace(raw[i]))
    && (forall i :: 0 <= i < |raw| ==> ' ' <= raw[i] || raw[i] == '\t')
    && IsAbs(host.nfc(raw)) && |Clean(host.nfc(raw))| <= 4096
  }

  /** The path may be used, under the name `c`. */
  ghost predicate Acceptable(host: Host, policy: Policy, raw: string, c: string) {
    WellSpelled(host, raw) && Resolves(host.fs, Clean(host.nfc(raw)), c) && Permitted(host, policy, Comps(c))
  }

  lemma RootOfIs(host: Host, allowRoot: string)
    ensures forall p :: RootOf(host, allowRoot) == Root(p) <==> RootIs(host, allowRoot, p)
    ensures RootOf(host, allowRoot) == RootBad(NoWorkingDir) <==> !IsAbs(host.nfc(allowRoot)) && host.cwd.None?
    ensures RootOf(host, allowRoot).RootBad? ==> RootOf(host, allowRoot).why in {NoWorkingDir, RootUnresolved}
  {
    var n := host.nfc(allowRoot);
    if IsAbs(n) || host.cwd.Some? {
      var full := if IsAbs(n) then n else host.cwd.value + "/" + n;
      CleanAbs(full);
      forall p ensures EvalSymlinks(host.fs, Clean(full)) == Some(p) <==> Resolves(host.fs, Clean(full), p) {
        EvalSymlinksResolves(host.fs, Clean(full), p);
      }
    }
  }

  lemma PermittedIs(host: Host, policy: Policy, path: seq<string>)
    ensures Permitted(host, policy, path) <==> PermittedUnder(policy, RootOf(host, policy.allowRoot), path)
  {
    RootOfIs(host, policy.allowRoot);
    var root := RootOf(host, policy.allowRoot);
    if root.Root? { assert RootIs(host, policy.allowRoot, root.path); }
  }

  lemma {:induction false} ContainsIff(s: string, t: string)
    ensures Contains(s, t) <==> exists i :: 0 <= i <= |s| - |t| && s[i..][..|t|] == t
  {
    if |t| <= |s| {
      assert s[0..] == s;
      if s[..|t|] != t {
        ContainsIff(s[1..], t);
        forall i | 1 <= i <= |s| ensures s[i..] == s[1..][i - 1..] {
        }
      }
    }
  }

  /** The Docker Desktop socket, case aside: below such a directory, by such a name. */
  lemma SocketIff(p: string)
    ensures IsDockerDesktopSocket(p)
            <==> && (exists i :: 0 <= i <= |p| - 38
                       && EqualFold(p[i..][..38], "/Library/Containers/com.docker.docker/"))
                 && 15 <= |p| && EqualFold(p[|p| - 15..], "docker-raw.sock")
  {
    var dir := "/library/containers/com.docker.docker/";
    ContainsIff(Fold(p), dir);
    forall i | 0 <= i <= |p| - 38 ensures Fold(p[i..][..38]) == Fold(p)[i..][..38] {
    }
    FoldOfConstants();
  }

  lemma FoldOfConstants()
    ensures Fold("/Library/Containers/com.docker.docker/") == "/library/containers/com.docker.docker/"
    ensures Fold("docker-raw.sock") == "docker-raw.sock"
  {
  }

  ghost predicate IsFault(fault: ByteFault, c: char) {
    match fault
    case Nul => c == '\0'
    case Newline => c in "\n\r"
    case Control => c < ' ' && c !in "\0\n\r\t"
  }

  lemma {:induction false} FirstBadByteIsFirst(s: string, i: nat)
    requires i <= |s|
    ensures var r := FirstBadByte(s, i);
            && (r.None? <==> forall k :: i <= k < |s| ==> ' ' <= s[k] || s[k] == '\t')
            && (r.Some? ==>
                  && r.value.BadByte? && i <= r.value.at < |s| && IsFault(r.value.fault, s[r.value.at])
                  && forall k :: i <= k < r.value.at ==> ' ' <= s[k] || s[k] == '\t')
    decreases |s| - i
  {
    if i < |s| && !Forbids(s[i]) {
      FirstBadByteIsFirst(s, i + 1);
    }
  }

  lemma SpellingIsWellSpelled(host: Host, raw: string)
    ensures Spelling(host, raw).Allowed? <==> WellSpelled(host, raw)
    ensures Spelling(host, raw).Allowed? ==> Spelling(host, raw).path == Clean(host.nfc(raw))
  {
    FirstBadByteIsFirst(raw, 0);
    if IsAbs(host.nfc(raw)) {
      CleanAbs(host.nfc(raw));
    }
  }

  /** The denylist loop refuses exactly what some entry covers. */
  lemma {:induction false} DenylistIsCoverage(canonical: string, denylist: seq<string>)
    requires IsAbs(canonical) && AllAbsolute(denylist)
    ensures FirstDenial(canonical, denylist).None? <==> Uncovered(denylist, Comps(canonical))
  {
    if denylist != [] {
      var entry, rest := denylist[0], denylist[1..];
      DenylistIsCoverage(canonical, rest);
      EntryCovers(canonical, entry);
      assert Uncovered(denylist, Comps(canonical)) ==> Uncovered(rest, Comps(canonical)) by {
        assert forall i :: 0 <= i < |rest| ==> rest[i] == denylist[i + 1];
      }
      assert Uncovered(rest, Comps(canonical)) && !Covers(Comps(entry), Comps(canonical))
             ==> Uncovered(denylist, Comps(canonical)) by {
        assert forall i :: 0 < i < |denylist| ==> denylist[i] == rest[i - 1];
      }
    }
  }

  /** A refusal names the first entry that covers the path, and tells the entry itself from what is below it. */
  lemma DenialNamesFirst(canonical: string, denylist: seq<string>, i: nat)
    requires IsAbs(canonical) && AllAbsolute(denylist) && i < |denylist|
    requires Covers(Comps(denylist[i]), Comps(canonical))
    requires forall j :: 0 <= j < i ==> !Covers(Comps(denylist[j]), Comps(canonical))
    ensures FirstDenial(canonical, denylist) == Some(
      if |Comps(denylist[i])| == |Comps(canonical)| then OnDenylist(denylist[i]) else UnderDenylist(denylist[i]))
  {
    DenialSkips(canonical, denylist, i);
    DenialAt(canonical, denylist[i..]);
  }

  lemma {:induction false} DenialSkips(canonical: string, denylist: seq<string>, i: nat)
    requires IsAbs(canonical) && AllAbsolute(denylist) && i <= |denylist|
    requires forall j :: 0 <= j < i ==> !Covers(Comps(denylist[j]), Comps(canonical))
    ensures FirstDenial(canonical, denylist) == FirstDenial(canonical, denylist[i..])
  {
    if i == 0 {
      assert denylist[0..] == denylist;
    } else {
      var rest := denylist[1..];
      assert !Covers(Comps(denylist[0]), Comps(canonical));
      assert forall j :: 0 <= j < |rest| ==> rest[j] == denylist[j + 1];
      DenialPasses(canonical, denylist);
      DenialSkips(canonical, rest, i - 1);
      assert rest[i - 1..] == denylist[i..];
    }
  }

  lemma DenialPasses(canonical: string, denylist: seq<string>)
    requires IsAbs(canonical) && denylist != [] && IsAbs(denylist[0])
    requires !Covers(Comps(denylist[0]), Comps(canonical))
    ensures FirstDenial(canonical, denylist) == FirstDenial(canonical, denylist[1..])
  {
    DenialAt(canonical, denylist);
  }

  lemma DenialAt(canonical: string, denylist: seq<string>)
    requires IsAbs(canonical) && denylist != [] && IsAbs(denylist[0])
    ensures var entry := denylist[0];
            FirstDenial(canonical, denylist) ==
              if !Covers(Comps(entry), Comps(canonical)) then FirstDenial(canonical, denylist[1..])
              else if |Comps(entry)| == |Comps(canonical)| then Some(OnDenylist(entry))
              else Some(UnderDenylist(entry))
  {
    EntryCovers(canonical, denylist[0]);
    PathEqualFoldIsEqualComps(canonical, denylist[0]);
  }

  lemma EntryCovers(canonical: string, entry: string)
    requires IsAbs(canonical) && IsAbs(entry)
    ensures PathEqualFold(canonical, entry) || IsUnderFold(canonical, entry)
            <==> Covers(Comps(entry), Comps(canonical))
  {
    PathEqualFoldIsEqualComps(canonical, entry);
    UnderFoldIsStrictContainment(canonical, entry);
  }

  lemma ResolutionIsUncovered(fs: FileSystem, denylist: seq<string>, cleaned: string, c: string)
    requires AllAbsolute(denylist)
    ensures Resolution(fs, denylist, cleaned) == Allowed(c)
            <==> EvalSymlinks(fs, cleaned) == Some(c) && !IsDockerDesktopSocket(c) && Uncovered(denylist, Comps(c))
  {
    if EvalSymlinks(fs, cleaned) == Some(c) {
      EvalSymlinksFixes(fs, cleaned);
      DenylistIsCoverage(c, denylist);
    }
  }

  lemma RootIsAbsolute(host: Host, allowRoot: string)
    ensures RootOf(host, allowRoot).Root? ==> IsAbs(RootOf(host, allowRoot).path)
  {
    var path := AbsOf(host.cwd, host.nfc(allowRoot));
    if path.Some? && EvalSymlinks(host.fs, Clean(path.value)).Some? {
      EvalSymlinksFixes(host.fs, Clean(path.value));
    }
  }

  lemma ContainmentIsInside(policy: Policy, root: RootResult, c: string)
    requires IsAbs(c) && policy.allowRoot != "" && !policy.allowTrust && (root.Root? ==> IsAbs(root.path))
    ensures Containment(c, root) == Allowed(c) <==> Inside(policy, root, Comps(c))
  {
    if root.Root? {
      RootOrUnderFoldIsContainment(c, root.path);
    }
  }

  lemma ScreenedIsCanonical(host: Host, policy: Policy, raw: string)
    requires Screen(host, policy, raw).Allowed?
    ensures var c := Screen(host, policy, raw).path;
            && EvalSymlinks(host.fs, Clean(host.nfc(raw))) == Some(c)
            && IsAbs(c) && Clean(c) == c && LinkFree(host.fs, Comps(c))
            && EvalSymlinks(host.fs, c) == Some(c)
  {
    SpellingIsWellSpelled(host, raw);
    EvalSymlinksFixes(host.fs, Clean(host.nfc(raw)));
  }

  /**
   What Validate accepts, and as what, once the allow-root has come to `root`: a well-spelled
   text whose clean form resolves to a place permitted under it; and nothing else.
   */
  lemma AcceptedUnderRoot(host: Host, policy: Policy, raw: string, root: RootResult, c: string)
    requires AllAbsolute(policy.denylist) && (root.Root? ==> IsAbs(root.path))
    ensures Conclude(Screen(host, policy, raw), policy, root) == Allowed(c)
            <==> && WellSpelled(host, raw)
                 && Resolves(host.fs, Clean(host.nfc(raw)), c)
                 && PermittedUnder(policy, root, Comps(c))
  {
    SpellingIsWellSpelled(host, raw);
    var cleaned := Clean(host.nfc(raw));
    EvalSymlinksResolves(host.fs, cleaned, c);
    ResolutionIsUncovered(host.fs, policy.denylist, cleaned, c);
    if EvalSymlinks(host.fs, cleaned) == Some(c) {
      EvalSymlinksFixes(host.fs, cleaned);
      RenderBack(c);
      if policy.allowRoot != "" && !policy.allowTrust {
        ContainmentIsInside(policy, root, c);
      }
    }
  }

  /** Validate without the memo accepts exactly the well-spelled texts that lead to a permitted place. */
  lemma AcceptedExactly(host: Host, policy: Policy, raw: string, c: string)
    requires AllAbsolute(policy.denylist)
    ensures Judge(host, policy, raw) == Allowed(c) <==> Acceptable(host, policy, raw, c)
  {
    RootIsAbsolute(host, policy.allowRoot);
    PermittedIs(host, policy, Comps(c));
    AcceptedUnderRoot(host, policy, raw, RootOf(host, policy.allowRoot), c);
  }

  lemma RenderBack(c: string)
    requires IsAbs(c) && Clean(c) == c
    ensures Render(Comps(c)) == c
  {
    CleanAbs(c);
  }

  /** An accepted path is clean, absolute, without links, and permitted where it stands. */
  lemma AcceptedIsSound(host: Host, policy: Policy, raw: string)
    requires AllAbsolute(policy.denylist) && Judge(host, policy, raw).Allowed?
    ensures var c := Judge(host, policy, raw).path;
            IsAbs(c) && Clean(c) == c && LinkFree(host.fs, Comps(c)) && Permitted(host, policy, Comps(c))
  {
    AcceptedExactly(host, policy, raw, Judge(host, policy, raw).path);
    ResolvedIsLinkFree(host.fs, Clean(host.nfc(raw)), Judge(host, policy, raw).path);
  }

  // ---------- refusals ----------

  /** The place the path leads to, past the first `stage` of the socket, the denylist and the allow-root. */
  ghost predicate Standing(host: Host, policy: Policy, raw: string, c: string, stage: nat) {
    && WellSpelled(host, raw) && Resolves(host.fs, Clean(host.nfc(raw)), c)
    && (stage >= 1 ==> !IsDockerDesktopSocket(c))
    && (stage >= 2 ==> Uncovered(policy.denylist, Comps(c)))
    && (stage >= 3 ==> !policy.allowTrust && policy.allowRoot != "")
  }

  /** What a refusal says of the path: the first of the rules it breaks. */
  ghost predicate RefusedFor(host: Host, policy: Policy, raw: string, why: Reason) {
    match why
    case Empty => forall i :: 0 <= i < |raw| ==> IsSpace(raw[i])
    case BadByte(fault, at) =>
      && at < |raw| && IsFault(fault, raw[at]) && !Blank(raw)
      && forall k :: 0 <= k < at ==> ' ' <= raw[k] || raw[k] == '\t'
    case Relative => !Blank(raw) && NoBadByte(raw) && !IsAbs(host.nfc(raw))
    case TooLong(n) =>
      !Blank(raw) && NoBadByte(raw) && IsAbs(host.nfc(raw)) && n == |Clean(host.nfc(raw))| && 4096 < n
    case Unresolved => WellSpelled(host, raw) && forall c :: !Resolves(host.fs, Clean(host.nfc(raw)), c)
    case DockerSocket => exists c :: Standing(host, policy, raw, c, 0) && IsDockerDesktopSocket(c)
    case OnDenylist(entry) =>
      exists c :: Standing(host, policy, raw, c, 1) && Denied(policy.denylist, c, entry)
                  && |Comps(entry)| == |Comps(c)|
    case UnderDenylist(entry) =>
      exists c :: Standing(host, policy, raw, c, 1) && Denied(policy.denylist, c, entry)
                  && |Comps(entry)| < |Comps(c)|
    case NoRoot => (exists c :: Standing(host, policy, raw, c, 2)) && !policy.allowTrust && policy.allowRoot == ""
    case NoWorkingDir =>
      (exists c :: Standing(host, policy, raw, c, 3)) && !IsAbs(host.nfc(policy.allowRoot)) && host.cwd.None?
    case RootUnresolved =>
      && (exists c :: Standing(host, policy, raw, c, 3)) && (IsAbs(host.nfc(policy.allowRoot)) || host.cwd.Some?)
      && forall p :: !RootIs(host, policy.allowRoot, p)
    case OutsideRoot(root) =>
      exists c :: Standing(host, policy, raw, c, 3) && RootIs(host, policy.allowRoot, root)
                  && !FoldPrefix(Comps(root), Comps(c))
  }

  /** The entry is the first of the list that covers the path. */
  ghost predicate Denied(denylist: seq<string>, c: string, entry: string) {
    exists i :: 0 <= i < |denylist| && denylist[i] == entry && Covers(Comps(entry), Comps(c))
                && Uncovered(denylist[..i], Comps(c))
  }

  /** The checks come in a fixed order, and a refusal is for the first that fails. */
  lemma RefusalsAreForCause(host: Host, policy: Policy, raw: string)
    requires AllAbsolute(policy.denylist) && Judge(host, policy, raw).Forbidden?
    ensures RefusedFor(host, policy, raw, Judge(host, policy, raw).why)
  {
    var spelled := Spelling(host, raw);
    SpellingIsWellSpelled(host, raw);
    if spelled.Forbidden? {
      MisspelledForCause(host, policy, raw);
    } else {
      var resolved := Resolution(host.fs, policy.denylist, spelled.path);
      if resolved.Forbidden? {
        UnresolvedForCause(host, policy, raw);
      } else {
        OutsideForCause(host, policy, raw, resolved.path);
      }
    }
  }

  lemma MisspelledForCause(host: Host, policy: Policy, raw: string)
    requires Spelling(host, raw).Forbidden?
    ensures RefusedFor(host, policy, raw, Spelling(host, raw).why)
  {
    FirstBadByteIsFirst(raw, 0);
    if IsAbs(host.nfc(raw)) { CleanAbs(host.nfc(raw)); }
  }

  lemma UnresolvedForCause(host: Host, policy: Policy, raw: string)
    requires AllAbsolute(policy.denylist) && WellSpelled(host, raw)
    requires Resolution(host.fs, policy.denylist, Clean(host.nfc(raw))).Forbidden?
    ensures RefusedFor(host, policy, raw, Resolution(host.fs, policy.denylist, Clean(host.nfc(raw))).why)
  {
    var cleaned := Clean(host.nfc(raw));
    match EvalSymlinks(host.fs, cleaned)
    case None =>
      forall c ensures !Resolves(host.fs, cleaned, c) {
        EvalSymlinksResolves(host.fs, cleaned, c);
      }
    case Some(c) =>
      EvalSymlinksResolves(host.fs, cleaned, c);
      assert Standing(host, policy, raw, c, 0);
      if !IsDockerDesktopSocket(c) {
        assert Standing(host, policy, raw, c, 1);
        DeniedForCause(c, policy.denylist);
      }
  }

  lemma {:induction false} DeniedForCause(c: string, denylist: seq<string>)
    requires IsAbs(c) && AllAbsolute(denylist) && FirstDenial(c, denylist).Some?
    ensures var why := FirstDenial(c, denylist).value;
            && (why.OnDenylist? || why.UnderDenylist?)
            && Denied(denylist, c, why.entry)
            && if why.OnDenylist? then |Comps(why.entry)| == |Comps(c)| else |Comps(why.entry)| < |Comps(c)|
  {
    DenialAt(c, denylist);
    if Covers(Comps(denylist[0]), Comps(c)) {
      assert Uncovered(denylist[..0], Comps(c));
    } else {
      var rest := denylist[1..];
      DeniedForCause(c, rest);
      var entry := FirstDenial(c, rest).value.entry;
      var i :| 0 <= i < |rest| && rest[i] == entry && Covers(Comps(entry), Comps(c)) && Uncovered(rest[..i], Comps(c));
      assert denylist[i + 1] == entry;
      UncoveredMore(denylist, i, Comps(c));
    }
  }

  lemma UncoveredMore(denylist: seq<string>, i: nat, path: seq<string>)
    requires i < |denylist| && !Covers(Comps(denylist[0]), path) && Uncovered(denylist[1..][..i], path)
    ensures Uncovered(denylist[..i + 1], path)
  {
    var first := denylist[..i + 1];
    forall k | 0 <= k < |first| ensures !Covers(Comps(first[k]), path) {
      if k > 0 { assert denylist[1..][..i][k - 1] == denylist[k]; }
    }
  }

  lemma OutsideForCause(host: Host, policy: Policy, raw: string, c: string)
    requires AllAbsolute(policy.denylist) && WellSpelled(host, raw)
    requires Resolution(host.fs, policy.denylist, Clean(host.nfc(raw))) == Allowed(c)
    requires Conclude(Allowed(c), policy, RootOf(host, policy.allowRoot)).Forbidden?
    ensures RefusedFor(host, policy, raw, Conclude(Allowed(c), policy, RootOf(host, policy.allowRoot)).why)
  {
    var root := RootOf(host, policy.allowRoot);
    EvalSymlinksResolves(host.fs, Clean(host.nfc(raw)), c);
    ResolutionIsUncovered(host.fs, policy.denylist, Clean(host.nfc(raw)), c);
    assert Standing(host, policy, raw, c, 2);
    RootOfIs(host, policy.allowRoot);
    if policy.allowRoot != "" {
      assert Standing(host, policy, raw, c, 3);
      if root.Root? {
        RootIsAbsolute(host, policy.allowRoot);
        RootOrUnderFoldIsContainment(c, root.path);
      }
    }
  }

  // ---------- validating again ----------

  /**
   Validating what was accepted accepts it as it is exactly when its normal form is well
   spelled and resolves to it: whatever the text may hold is looked at before links are
   followed, and so is its normal form.
   */
  lemma AcceptedAgain(host: Host, policy: Policy, raw: string)
    requires Judge(host, policy, raw).Allowed?
    ensures var c := Judge(host, policy, raw).path;
            Judge(host, policy, c) == Allowed(c)
            <==> WellSpelled(host, c) && Resolves(host.fs, Clean(host.nfc(c)), c)
  {
    var c := Judge(host, policy, raw).path;
    var root := RootOf(host, policy.allowRoot);
    SpellingIsWellSpelled(host, raw);
    SpellingIsWellSpelled(host, c);
    EvalSymlinksResolves(host.fs, Clean(host.nfc(c)), c);
    ResolvesAlike(host.fs, policy.denylist, Clean(host.nfc(raw)), Clean(host.nfc(c)), c);
    SameConclusion(Screen(host, policy, c), policy, root, c);
  }

  lemma ResolvesAlike(fs: FileSystem, denylist: seq<string>, cleaned: string, again: string, c: string)
    requires Resolution(fs, denylist, cleaned) == Allowed(c)
    ensures Resolution(fs, denylist, again) == Allowed(c) <==> EvalSymlinks(fs, again) == Some(c)
  {
  }

  /** Where one screening led to acceptance, another does exactly if it has the same outcome. */
  lemma SameConclusion(screened: Verdict, policy: Policy, root: RootResult, c: string)
    requires Conclude(Allowed(c), policy, root) == Allowed(c)
    ensures Conclude(screened, policy, root) == Allowed(c) <==> screened == Allowed(c)
  {
  }

  /** For a path in normal form: exactly when it holds no forbidden byte and is not too long. */
  lemma NormalPathAcceptedAgain(host: Host, policy: Policy, raw: string)
    requires Judge(host, policy, raw).Allowed?
    ensures var c := Judge(host, policy, raw).path;
            host.nfc(c) == c ==>
              (Judge(host, policy, c) == Allowed(c) <==> NoBadByte(c) && |c| <= MAX_PATH_LEN)
  {
    var c := Judge(host, policy, raw).path;
    assert Screen(host, policy, raw) == Allowed(c);
    ScreenedIsCanonical(host, policy, raw);
    AcceptedAgain(host, policy, raw);
    EvalSymlinksResolves(host.fs, c, c);
    assert !Blank(c) by { assert !IsSpace(c[0]); }
  }

  /** If it is accepted again at all, then under the same name. */
  lemma SameNameAgain(host: Host, policy: Policy, raw: string)
    requires Judge(host, policy, raw).Allowed?
    ensures var c := Judge(host, policy, raw).path;
            host.nfc(c) == c && Judge(host, policy, c).Allowed? ==> Judge(host, policy, c).path == c
  {
    var c := Judge(host, policy, raw).path;
    JudgedIsResolved(host, policy, raw);
    if host.nfc(c) == c && Judge(host, policy, c).Allowed? {
      JudgedIsResolved(host, policy, c);
    }
  }

  lemma JudgedIsResolved(host: Host, policy: Policy, raw: string)
    requires Judge(host, policy, raw).Allowed?
    ensures var c := Judge(host, policy, raw).path;
            && EvalSymlinks(host.fs, Clean(host.nfc(raw))) == Some(c)
            && Clean(c) == c && EvalSymlinks(host.fs, c) == Some(c)
  {
    ScreenedIsCanonical(host, policy, raw);
  }

  /** A link may lead to a name that could not have been asked for. */
  lemma AcceptedOnlyOnce() returns (host: Host, policy: Policy, raw: string)
    ensures host.nfc(raw) == raw && host.nfc("/\n") == "/\n"
    ensures Judge(host, policy, raw) == Allowed("/\n")
    ensures Judge(host, policy, "/\n") == Forbidden(BadByte(Newline, 1))
  {
    var fs: FileSystem := map[["w"] := Link("\n"), ["\n"] := Dir];
    host, policy, raw := Host((s: string) => s, None, fs), Policy("", [], true), "/w";
    LinkToNewline(fs);
    assert AllPlain(["w"]) && AllPlain(["\n"]);
    assert Tail(["w"]) == "/w" && Tail(["\n"]) == "/\n";
    RenderClean(["w"]);
    assert Spelling(host, "/w") == Allowed("/w") by {
      SpellingIsWellSpelled(host, "/w");
      assert !Blank("/w") by { assert !IsSpace("/w"[0]); }
    }
    NewlineIsRefused(host, policy);
  }

  lemma NewlineIsRefused(host: Host, policy: Policy)
    ensures Judge(host, policy, "/\n") == Forbidden(BadByte(Newline, 1))
  {
    assert !Blank("/\n") by { assert !IsSpace("/\n"[0]); }
    assert FirstBadByte("/\n", 1) == Some(BadByte(Newline, 1));
  }

  lemma LinkToNewline(fs: FileSystem)
    requires fs == map[["w"] := Link("\n"), ["\n"] := Dir]
    ensures EvalSymlinks(fs, "/w") == Some("/\n")
  {
    SplitTail(["w"]);
    SplitLast("\n");
    assert Tail(["w"]) == "/w" && Tail(["\n"]) == "/\n";
    assert [""] + ["w"] == ["", "w"];
    assert Walk(fs, [], ["", "w"], 0) == Walk(fs, [], ["w"], 0);
    assert [] + ["w"] == ["w"] && [] + ["\n"] == ["\n"];
    assert Walk(fs, [], ["w"], 0) == Walk(fs, [], ["\n"] + [], 1);
    assert ["\n"] + [] == ["\n"];
    assert Walk(fs, [], ["\n"], 1) == Walk(fs, ["\n"], [], 1);
  }

  // ---------- opening what was accepted ----------

  predicate DirAt(fs: FileSystem, cs: seq<string>) {
    cs == [] || (cs in fs && fs[cs] == Dir)
  }

  /**
   open with O_DIRECTORY and O_NOFOLLOW: links on the way are followed, `budget` of them
   at most, but the last name must itself be a directory.
   */
  function OpenDir(fs: FileSystem, path: string, budget: nat): Option<seq<string>>
    requires budget <= MAX_LINKS
  {
    var pieces := Split(path);
    var way, last := pieces[..|pieces| - 1], pieces[|pieces| - 1];
    if Plain(last) then
      match Walk(fs, [], way, MAX_LINKS - budget)
      case None => None
      case Some(dir) => if DirAt(fs, dir) && DirAt(fs, dir + [last]) then Some(dir + [last]) else None
    else
      match Walk(fs, [], pieces, MAX_LINKS - budget)
      case None => None
      case Some(dir) => if DirAt(fs, dir) then Some(dir) else None
  }

  /**
   What opens is the directory itself: the names before the last lead to the one it is in,
   with `budget` links at most, and the last is its own.
   */
  lemma OpensByName(fs: FileSystem, path: string, way: seq<string>, last: string, budget: nat, dir: seq<string>)
    requires budget <= 255 && Split(path) == way + [last] && Plain(last)
    ensures OpenDir(fs, path, budget) == Some(dir + [last])
            <==> DirAt(fs, dir) && DirAt(fs, dir + [last]) && Reaches(fs, Spot([], way, 255 - budget), dir)
  {
    WalkIsReach(fs, Spot([], way, 255 - budget), dir);
    OpensBelow(fs, path, way, last, budget, dir);
  }

  /** Nothing else opens: what does bears the last name. */
  lemma OpensItsName(fs: FileSystem, path: string, way: seq<string>, last: string, budget: nat)
    requires budget <= 255 && Split(path) == way + [last] && Plain(last) && OpenDir(fs, path, budget).Some?
    ensures var d := OpenDir(fs, path, budget).value; d != [] && d == d[..|d| - 1] + [last]
  {
    OpenWalks(fs, path, way, last, budget);
    NamedBelow(Walk(fs, [], way, 255 - budget).value, [], last);
  }

  lemma OpensBelow(fs: FileSystem, path: string, way: seq<string>, last: string, budget: nat, dir: seq<string>)
    requires budget <= 255 && Split(path) == way + [last] && Plain(last)
    ensures OpenDir(fs, path, budget) == Some(dir + [last])
            <==> DirAt(fs, dir) && DirAt(fs, dir + [last]) && Walk(fs, [], way, 255 - budget) == Some(dir)
  {
    OpenWalks(fs, path, way, last, budget);
    var parent := Walk(fs, [], way, 255 - budget);
    if parent.Some? { NamedBelow(parent.value, dir, last); }
  }

  lemma OpenWalks(fs: FileSystem, path: string, way: seq<string>, last: string, budget: nat)
    requires budget <= 255 && Split(path) == way + [last] && Plain(last)
    ensures var parent := Walk(fs, [], way, 255 - budget);
            OpenDir(fs, path, budget)
            == if parent.Some? && DirAt(fs, parent.value) && DirAt(fs, parent.value + [last])
               then Some(parent.value + [last]) else None
  {
    assert (way + [last])[..|way|] == way;
    assert (way + [last])[|way|] == last;
  }

  lemma NamedBelow(a: seq<string>, b: seq<string>, last: string)
    ensures a + [last] == b + [last] <==> a == b
    ensures (a + [last])[..|a|] == a
  {
    assert (a + [last])[..|a|] == a && (b + [last])[..|b|] == b;
  }

  /** A path that ends in dots or in a slash is followed to its end. */
  lemma OpensFollowed(fs: FileSystem, path: string, pieces: seq<string>, budget: nat, dir: seq<string>)
    requires budget <= 255 && Split(path) == pieces && !Plain(pieces[|pieces| - 1])
    ensures OpenDir(fs, path, budget) == Some(dir)
            <==> DirAt(fs, dir) && Reaches(fs, Spot([], pieces, 255 - budget), dir)
  {
    WalkIsReach(fs, Spot([], pieces, 255 - budget), dir);
    OpensWhatIsWalked(fs, path, budget, dir);
  }

  lemma OpensWhatIsWalked(fs: FileSystem, path: string, budget: nat, dir: seq<string>)
    requires budget <= 255 && !Plain(Split(path)[|Split(path)| - 1])
    ensures OpenDir(fs, path, budget) == Some(dir)
            <==> DirAt(fs, dir) && Walk(fs, [], Split(path), 255 - budget) == Some(dir)
  {
    OpenWalksOn(fs, path, budget);
  }

  lemma OpenWalksOn(fs: FileSystem, path: string, budget: nat)
    requires budget <= 255 && !Plain(Split(path)[|Split(path)| - 1])
    ensures var dir := Walk(fs, [], Split(path), 255 - budget);
            OpenDir(fs, path, budget) == if dir.Some? && DirAt(fs, dir.value) then dir else None
  {
  }

  lemma OpenedIsDirectory(fs: FileSystem, path: string, budget: nat)
    requires budget <= MAX_LINKS
    ensures var r := OpenDir(fs, path, budget); r.Some? ==> LinkFree(fs, r.value) && DirAt(fs, r.value)
  {
    var pieces := Split(path);
    var way, last := pieces[..|pieces| - 1], pieces[|pieces| - 1];
    if Plain(last) {
      WalkIsLinkFree(fs, [], way, MAX_LINKS - budget);
      var dir := Walk(fs, [], way, MAX_LINKS - budget);
      if dir.Some? && DirAt(fs, dir.value) && DirAt(fs, dir.value + [last]) {
        OpenedBelow(fs, dir.value, last);
      }
    } else {
      WalkIsLinkFree(fs, [], pieces, MAX_LINKS - budget);
    }
  }

  lemma OpenedBelow(fs: FileSystem, dir: seq<string>, last: string)
    requires LinkFree(fs, dir) && DirAt(fs, dir) && Plain(last) && DirAt(fs, dir + [last])
    ensures LinkFree(fs, dir + [last])
  {
    assert dir[..|dir|] == dir;
    OneMoreDir(fs, dir, last);
    var here := dir + [last];
    assert AllDirs(fs, here);
  }

  /** A path without links opens as itself when it is a directory, and not at all when it is not. */
  lemma LinkFreeOpens(fs: FileSystem, cs: seq<string>, budget: nat)
    requires budget <= MAX_LINKS && LinkFree(fs, cs)
    ensures OpenDir(fs, Render(cs), budget) == if DirAt(fs, cs) then Some(cs) else None
  {
    if cs == [] {
      RootOpens(fs, budget);
    } else {
      var dir, last := cs[..|cs| - 1], cs[|cs| - 1];
      SplitTail(cs);
      assert [""] + cs == [""] + dir + [last] && dir + [last] == cs;
      WalkToParent(fs, cs, MAX_LINKS - budget);
      OpenBelow(fs, Render(cs), [""] + dir, dir, last, budget);
    }
  }

  lemma OpenBelow(fs: FileSystem, path: string, way: seq<string>, dir: seq<string>, last: string, budget: nat)
    requires budget <= MAX_LINKS && Split(path) == way + [last] && Plain(last)
    requires Walk(fs, [], way, MAX_LINKS - budget) == Some(dir) && DirAt(fs, dir)
    ensures OpenDir(fs, path, budget) == if DirAt(fs, dir + [last]) then Some(dir + [last]) else None
  {
    assert (way + [last])[..|way|] == way;
  }

  lemma RootOpens(fs: FileSystem, budget: nat)
    requires budget <= MAX_LINKS
    ensures OpenDir(fs, "/", budget) == Some([])
  {
    assert Split("/") == ["", ""];
    assert ["", ""][1..] == [""] && [""][1..] == [];
    assert Walk(fs, [], ["", ""], MAX_LINKS - budget) == Walk(fs, [], [""], MAX_LINKS - budget);
  }

  lemma WalkToParent(fs: FileSystem, cs: seq<string>, links: nat)
    requires links <= MAX_LINKS && LinkFree(fs, cs) && cs != []
    ensures var dir := cs[..|cs| - 1]; Walk(fs, [], [""] + dir, links) == Some(dir) && DirAt(fs, dir)
  {
    var dir := cs[..|cs| - 1];
    assert forall k :: 0 <= k <= |dir| ==> dir[..k] == cs[..k];
    assert LinkFree(fs, dir);
    assert ([""] + dir)[1..] == dir && [] + dir == dir;
    WalkKeepsLinkFree(fs, [], dir, links);
  }

  /**
   Validate, then open, then validate what the handle says: on files that do not change,
   a directory comes back under the very name that was accepted.
   */
  lemma OpenedAsAccepted(host: Host, policy: Policy, raw: string, budget: nat)
    requires budget <= MAX_LINKS && Judge(host, policy, raw).Allowed?
    ensures var c := Judge(host, policy, raw).path;
            && LinkFree(host.fs, Comps(c))
            && OpenDir(host.fs, c, budget) == (if DirAt(host.fs, Comps(c)) then Some(Comps(c)) else None)
            && Render(Comps(c)) == c
  {
    ScreenedIsCanonical(host, policy, raw);
    var c := Judge(host, policy, raw).path;
    RenderBack(c);
    LinkFreeOpens(host.fs, Comps(c), budget);
  }

  /**
   Whatever was swapped in before the open: the name taken from the handle is accepted as
   itself exactly if the directory held open is itself permitted, its name is well spelled
   and its normal form still leads to it.
   */
  lemma HandleIsWhatIsJudged(host: Host, policy: Policy, path: string, root: RootResult, budget: nat)
    requires budget <= MAX_LINKS && AllAbsolute(policy.denylist) && (root.Root? ==> IsAbs(root.path))
    requires OpenDir(host.fs, path, budget).Some?
    ensures var cs := OpenDir(host.fs, path, budget).value;
            var name := Render(cs);
            Conclude(Screen(host, policy, name), policy, root) == Allowed(name)
            <==> && WellSpelled(host, name) && Resolves(host.fs, Clean(host.nfc(name)), name)
                 && PermittedUnder(policy, root, cs)
  {
    var cs := OpenDir(host.fs, path, budget).value;
    OpenedIsDirectory(host.fs, path, budget);
    RenderClean(cs);
    AcceptedUnderRoot(host, policy, Render(cs), root, Render(cs));
  }

  /** A name in normal form that is accepted is accepted as itself, and the directory held open is permitted. */
  lemma NormalHandleIsJudged(host: Host, policy: Policy, path: string, root: RootResult, budget: nat)
    requires budget <= MAX_LINKS && AllAbsolute(policy.denylist) && (root.Root? ==> IsAbs(root.path))
    requires OpenDir(host.fs, path, budget).Some?
    ensures var cs := OpenDir(host.fs, path, budget).value;
            var v := Conclude(Screen(host, policy, Render(cs)), policy, root);
            host.nfc(Render(cs)) == Render(cs) ==>
              && (v.Allowed? ==> v.path == Render(cs))
              && (v.Allowed?
                  <==> NoBadByte(Render(cs)) && |Render(cs)| <= MAX_PATH_LEN && PermittedUnder(policy, root, cs))
  {
    var cs := OpenDir(host.fs, path, budget).value;
    var name := Render(cs);
    OpenedIsDirectory(host.fs, path, budget);
    HandleIsWhatIsJudged(host, policy, path, root, budget);
    RenderClean(cs);
    LinkFreeStays(host.fs, cs);
    EvalSymlinksResolves(host.fs, name, name);
    assert !Blank(name) by { assert !IsSpace(name[0]); }
    var v := Conclude(Screen(host, policy, name), policy, root);
    if v.Allowed? {
      AcceptedUnderRoot(host, policy, name, root, v.path);
    }
  }
}

/**
 What the default denylist of internal/paths/policy.go keeps out, and what it lets be a
 parent of a denied place.
 */
module PathDefaults {
  import opened Basics
  import opened PathStrings
  import opened PathResolve
  import opened PathTrails
  import opened PathPolicy

  lemma DefaultsAreAbsolute()
    ensures AllAbsolute(DEFAULT_DENYLIST) && DEFAULT_DENYLIST[2] == "/"
  {
  }

  /** The default denylist keeps every accepted path, trusted or not, out of all its entries, the root included. */
  lemma DefaultsKeepOut(host: Host, policy: Policy, raw: string)
    requires policy.denylist == DEFAULT_DENYLIST && Judge(host, policy, raw).Allowed?
    ensures var c := Judge(host, policy, raw).path;
            c != "/" && forall i :: 0 <= i < |DEFAULT_DENYLIST| ==> !Covers(Comps(DEFAULT_DENYLIST[i]), Comps(c))
  {
    DefaultsAreAbsolute();
    AcceptedIsSound(host, policy, raw);
    var c := Judge(host, policy, raw).path;
    assert Uncovered(policy.denylist, Comps(c));
    assert !Covers(Comps(DEFAULT_DENYLIST[2]), Comps(c));
  }

  // ---------- the entries, component by component ----------

  lemma OneName(p: string, a: string)
    requires Plain(a) && p == "/" + a
    ensures Comps(p) == [a]
  {
    assert Tail([a]) == "/" + a + "" && "/" + a + "" == "/" + a;
    RenderClean([a]);
  }

  lemma TwoNames(p: string, a: string, b: string)
    requires Plain(a) && Plain(b) && p == "/" + a + "/" + b
    ensures Comps(p) == [a, b]
  {
    assert [a, b][1..] == [b];
    assert Tail([b]) == "/" + b + "" && "/" + b + "" == "/" + b;
    assert Tail([a, b]) == "/" + a + ("/" + b);
    Associates("/" + a, "/", b);
    RenderClean([a, b]);
  }

  lemma ThreeNames(p: string, a: string, b: string, c: string)
    requires Plain(a) && Plain(b) && Plain(c) && p == "/" + a + "/" + b + "/" + c
    ensures Comps(p) == [a, b, c]
  {
    var bc := "/" + b + "/" + c;
    assert [a, b, c][1..] == [b, c] && [b, c][1..] == [c];
    assert Tail([c]) == "/" + c + "" && "/" + c + "" == "/" + c;
    assert Tail([b, c]) == "/" + b + ("/" + c);
    Associates("/" + b, "/", c);
    assert Tail([a, b, c]) == "/" + a + bc;
    assert "/" + a + bc == p;
    RenderClean([a, b, c]);
  }

  lemma VarSocketPlace()
    ensures Comps(DEFAULT_DENYLIST[0]) == ["var", "run", "docker.sock"]
  {
    ThreeNames(DEFAULT_DENYLIST[0], "var", "run", "docker.sock");
  }

  lemma RunSocketPlace()
    ensures Comps(DEFAULT_DENYLIST[1]) == ["run", "docker.sock"]
  {
    TwoNames(DEFAULT_DENYLIST[1], "run", "docker.sock");
  }

  lemma SlashPlace()
    ensures Comps(DEFAULT_DENYLIST[2]) == []
  {
    RenderClean([]);
  }

  lemma EtcPlace()
    ensures Comps(DEFAULT_DENYLIST[3]) == ["etc"]
  {
    OneName(DEFAULT_DENYLIST[3], "etc");
  }

  lemma UsrPlace()
    ensures Comps(DEFAULT_DENYLIST[4]) == ["usr"]
  {
    OneName(DEFAULT_DENYLIST[4], "usr");
  }

  lemma VarPlace()
    ensures Comps(DEFAULT_DENYLIST[5]) == ["var"]
  {
    OneName(DEFAULT_DENYLIST[5], "var");
  }

  lemma BinPlace()
    ensures Comps(DEFAULT_DENYLIST[6]) == ["bin"]
  {
    OneName(DEFAULT_DENYLIST[6], "bin");
  }

  lemma SbinPlace()
    ensures Comps(DEFAULT_DENYLIST[7]) == ["sbin"]
  {
    OneName(DEFAULT_DENYLIST[7], "sbin");
  }

  lemma RootPlace()
    ensures Comps(DEFAULT_DENYLIST[8]) == ["root"]
  {
    OneName(DEFAULT_DENYLIST[8], "root");
  }

  lemma PrivateEtcPlace()
    ensures Comps(DEFAULT_DENYLIST[9]) == ["private", "etc"]
  {
    TwoNames(DEFAULT_DENYLIST[9], "private", "etc");
  }

  lemma PrivateVarPlace()
    ensures Comps(DEFAULT_DENYLIST[10]) == ["private", "var"]
  {
    TwoNames(DEFAULT_DENYLIST[10], "private", "var");
  }

  lemma PrivateTmpPlace()
    ensures Comps(DEFAULT_DENYLIST[11]) == ["private", "tmp"]
  {
    TwoNames(DEFAULT_DENYLIST[11], "private", "tmp");
  }

  lemma VolumesPlace()
    ensures Comps(DEFAULT_DENYLIST[12]) == ["Volumes"]
  {
    OneName(DEFAULT_DENYLIST[12], "Volumes");
  }

  lemma LibraryPlace()
    ensures Comps(DEFAULT_DENYLIST[13]) == ["Library"]
  {
    OneName(DEFAULT_DENYLIST[13], "Library");
  }

  lemma ApplicationsPlace()
    ensures Comps(DEFAULT_DENYLIST[14]) == ["Applications"]
  {
    OneName(DEFAULT_DENYLIST[14], "Applications");
  }

  lemma OptPlace()
    ensures Comps(DEFAULT_DENYLIST[15]) == ["opt"]
  {
    OneName(DEFAULT_DENYLIST[15], "opt");
  }

  // ---------- parents of denied places ----------

  /** The place is strictly below the path, case aside. */
  ghost predicate Below(place: seq<string>, path: seq<string>) {
    FoldPrefix(path, place) && |path| < |place|
  }

  /** The path is a directory of this name in the root, case aside. */
  ghost predicate Named(path: seq<string>, name: string) {
    |path| == 1 && EqualFold(path[0], name)
  }

  lemma TwoBelow(place: seq<string>, a: string, b: string, path: seq<string>)
    requires place == [a, b]
    ensures path != [] && Below(place, path) <==> Named(path, a)
  {
  }

  lemma NoneBelow(place: seq<string>, path: seq<string>)
    requires |place| <= 1 && path != []
    ensures !Below(place, path)
  {
  }

  lemma FirstName(place: seq<string>, a: string, path: seq<string>)
    requires place != [] && place[0] == a && path != [] && Below(place, path)
    ensures FoldPrefix([a], path)
  {
    assert EqualFold(path[0], place[0]);
  }

  lemma EtcUnderPrivateBelow(path: seq<string>)
    ensures path != [] && Below(Comps(DEFAULT_DENYLIST[9]), path) <==> Named(path, "private")
    ensures |Comps(DEFAULT_DENYLIST[9])| == 2
  {
    PrivateEtcPlace();
    TwoBelow(Comps(DEFAULT_DENYLIST[9]), "private", "etc", path);
  }

  lemma VarUnderPrivateBelow(path: seq<string>)
    ensures path != [] && Below(Comps(DEFAULT_DENYLIST[10]), path) <==> Named(path, "private")
    ensures |Comps(DEFAULT_DENYLIST[10])| == 2
  {
    PrivateVarPlace();
    TwoBelow(Comps(DEFAULT_DENYLIST[10]), "private", "var", path);
  }

  lemma TmpUnderPrivateBelow(path: seq<string>)
    ensures path != [] && Below(Comps(DEFAULT_DENYLIST[11]), path) <==> Named(path, "private")
    ensures |Comps(DEFAULT_DENYLIST[11])| == 2
  {
    PrivateTmpPlace();
    TwoBelow(Comps(DEFAULT_DENYLIST[11]), "private", "tmp", path);
  }

  lemma RunBelow(path: seq<string>)
    ensures path != [] && Below(Comps(DEFAULT_DENYLIST[1]), path) <==> Named(path, "run")
  {
    RunSocketPlace();
    TwoBelow(Comps(DEFAULT_DENYLIST[1]), "run", "docker.sock", path);
  }

  /** The place of the other socket is below only what /var covers. */
  lemma VarBelow(path: seq<string>)
    requires path != [] && !Covers(Comps(DEFAULT_DENYLIST[5]), path)
    ensures !Below(Comps(DEFAULT_DENYLIST[0]), path)
  {
    VarSocketPlace();
    VarPlace();
    if Below(Comps(DEFAULT_DENYLIST[0]), path) {
      FirstName(Comps(DEFAULT_DENYLIST[0]), "var", path);
    }
  }

  lemma ShortPlace(i: nat)
    requires 2 <= i < 9 || 12 <= i < 16
    ensures |Comps(DEFAULT_DENYLIST[i])| <= 1
  {
    if i == 2 {
      SlashPlace();
    } else if i == 3 {
      EtcPlace();
    } else if i == 4 {
      UsrPlace();
    } else if i == 5 {
      VarPlace();
    } else if i == 6 {
      BinPlace();
    } else if i == 7 {
      SbinPlace();
    } else if i == 8 {
      RootPlace();
    } else if i == 12 {
      VolumesPlace();
    } else if i == 13 {
      LibraryPlace();
    } else if i == 14 {
      ApplicationsPlace();
    } else {
      OptPlace();
    }
  }

  /** Which default entry can be below a path that none of them covers. */
  lemma OnlyTwoParents(path: seq<string>, i: nat)
    requires i < |DEFAULT_DENYLIST| && Below(Comps(DEFAULT_DENYLIST[i]), path)
    requires path != [] && !Covers(Comps(DEFAULT_DENYLIST[5]), path)
    ensures Named(path, "run") || Named(path, "private")
  {
    if i == 0 {
      VarBelow(path);
    } else if i == 1 {
      RunBelow(path);
    } else if i == 9 {
      EtcUnderPrivateBelow(path);
    } else if i == 10 {
      VarUnderPrivateBelow(path);
    } else if i == 11 {
      TmpUnderPrivateBelow(path);
    } else {
      ShortPlace(i);
      NoneBelow(Comps(DEFAULT_DENYLIST[i]), path);
    }
  }

  /**
   An accepted path is never in a denied place, but a denied place may be in it: with the
   default denylist exactly if the path is /run or /private, however they are spelled.
   */
  lemma DeniedBelowIff(host: Host, policy: Policy, raw: string)
    requires policy.denylist == DEFAULT_DENYLIST && Judge(host, policy, raw).Allowed?
    ensures var path := Comps(Judge(host, policy, raw).path);
            (exists i :: 0 <= i < |DEFAULT_DENYLIST| && Below(Comps(DEFAULT_DENYLIST[i]), path))
            <==> Named(path, "run") || Named(path, "private")
  {
    var path := Comps(Judge(host, policy, raw).path);
    DefaultsKeepOut(host, policy, raw);
    NotTheRoot(path);
    RunBelow(path);
    EtcUnderPrivateBelow(path);
    if i: nat :| i < |DEFAULT_DENYLIST| && Below(Comps(DEFAULT_DENYLIST[i]), path) {
      OnlyTwoParents(path, i);
    }
  }

  lemma NotTheRoot(path: seq<string>)
    requires !Covers(Comps(DEFAULT_DENYLIST[2]), path)
    ensures path != []
  {
    SlashPlace();
  }

  // ---------- the case of the socket ----------

  /** An entry of another name, or of more than one, does not cover a directory of the root. */
  lemma OtherName(place: seq<string>, path: seq<string>)
    requires |path| == 1 && (|place| > 1 || place == [] || !EqualFold(place[0], path[0]))
    ensures !Covers(place, path)
  {
  }

  lemma FoldDiffers(a: string, b: string)
    requires |a| != |b| || (a != "" && FoldChar(a[0]) != FoldChar(b[0]))
    ensures !EqualFold(a, b)
  {
    if |a| == |b| {
      assert Fold(a)[0] != Fold(b)[0];
    }
  }

  /** Nothing in the default denylist covers /run. */
  lemma RunIsUncovered()
    ensures Uncovered(DEFAULT_DENYLIST, ["run"])
  {
    forall i | 0 <= i < |DEFAULT_DENYLIST| ensures !Covers(Comps(DEFAULT_DENYLIST[i]), ["run"]) {
      RunIsNot(i);
    }
  }

  lemma RunIsNot(i: nat)
    requires i < |DEFAULT_DENYLIST|
    ensures !Covers(Comps(DEFAULT_DENYLIST[i]), ["run"])
  {
    if i == 0 {
      VarSocketPlace();
    } else if i == 1 {
      RunSocketPlace();
    } else if i == 9 {
      EtcUnderPrivateBelow(["run"]);
    } else if i == 10 {
      VarUnderPrivateBelow(["run"]);
    } else if i == 11 {
      TmpUnderPrivateBelow(["run"]);
    } else {
      ShortIsNotRun(i);
    }
    OtherName(Comps(DEFAULT_DENYLIST[i]), ["run"]);
  }

  lemma ShortIsNotRun(i: nat)
    requires 2 <= i < 9 || 12 <= i < 16
    ensures var place := Comps(DEFAULT_DENYLIST[i]); place == [] || !EqualFold(place[0], "run")
  {
    if i == 2 {
      SlashPlace();
    } else if i == 3 {
      EtcPlace();
      FoldDiffers("etc", "run");
    } else if i == 4 {
      UsrPlace();
      FoldDiffers("usr", "run");
    } else if i == 5 {
      VarPlace();
      FoldDiffers("var", "run");
    } else if i == 6 {
      BinPlace();
      FoldDiffers("bin", "run");
    } else if i == 7 {
      SbinPlace();
      FoldDiffers("sbin", "run");
    } else if i == 8 {
      RootPlace();
      FoldDiffers("root", "run");
    } else if i == 12 {
      VolumesPlace();
      FoldDiffers("Volumes", "run");
    } else if i == 13 {
      LibraryPlace();
      FoldDiffers("Library", "run");
    } else if i == 14 {
      ApplicationsPlace();
      FoldDiffers("Applications", "run");
    } else {
      OptPlace();
      FoldDiffers("opt", "run");
    }
  }

  /** A trusted /run is accepted, and the Docker socket is in it. */
  lemma AcceptedHoldsSocket() returns (host: Host, policy: Policy)
    ensures policy.denylist == DEFAULT_DENYLIST
    ensures Judge(host, policy, "/run") == Allowed("/run")
    ensures Below(Comps(DEFAULT_DENYLIST[1]), Comps("/run"))
  {
    var fs: FileSystem := map[["run"] := Dir];
    host, policy := Host((s: string) => s, None, fs), Policy("", DEFAULT_DENYLIST, true);
    RunIsRendered();
    RunIsUncovered();
    DefaultsAreAbsolute();
    assert ["run"][..1] == ["run"];
    assert LinkFree(fs, ["run"]);
    LinkFreeStays(fs, ["run"]);
    EvalSymlinksResolves(fs, "/run", "/run");
    RunIsWellSpelled(host);
    PermittedIs(host, policy, ["run"]);
    assert PermittedUnder(policy, RootOf(host, ""), ["run"]);
    assert Acceptable(host, policy, "/run", "/run");
    AcceptedExactly(host, policy, "/run", "/run");
    RunBelow(["run"]);
  }

  lemma RunIsWellSpelled(host: Host)
    requires host.nfc("/run") == "/run"
    ensures WellSpelled(host, "/run")
  {
    RunIsRendered();
    assert !IsSpace("/run"[0]);
  }

  lemma RunIsRendered()
    ensures AllPlain(["run"]) && Render(["run"]) == "/run" && Clean("/run") == "/run" && Comps("/run") == ["run"]
  {
    assert Tail(["run"]) == "/run";
    RenderClean(["run"]);
  }
}

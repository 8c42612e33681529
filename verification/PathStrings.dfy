/**
 Slash-separated paths: splitting, filepath.Clean, and the case-folding comparisons of
 internal/paths/policy.go. A char stands for one byte; folding is that of ASCII letters.
 */
module PathStrings {
  import opened Basics

  predicate IsAbs(p: string) {
    p != "" && p[0] == '/'
  }

  /** The pieces between slashes, empty ones included. */
  function Split(s: string): (r: seq<string>)
    ensures |r| > 0
    ensures forall i :: 0 <= i < |r| ==> '/' !in r[i]
  {
    if s == "" then [""]
    else
      var rest := Split(s[1..]);
      if s[0] == '/' then [""] + rest else [[s[0]] + rest[0]] + rest[1..]
  }

  function Join(pieces: seq<string>): string {
    if pieces == [] then "" else pieces[0] + if |pieces| == 1 then "" else "/" + Join(pieces[1..])
  }

  /** Putting the slashes back gives the text again. */
  lemma {:induction false} SplitJoins(s: string)
    ensures Join(Split(s)) == s
  {
    if s != "" {
      SplitJoins(s[1..]);
      var rest := Split(s[1..]);
      if s[0] == '/' {
        assert ([""] + rest)[1..] == rest;
        assert s == "/" + s[1..];
      } else {
        var first := [s[0]] + rest[0];
        assert ([first] + rest[1..])[1..] == rest[1..];
        assert s == [s[0]] + s[1..];
        if |rest| > 1 { Associates([s[0]], rest[0], "/" + Join(rest[1..])); }
      }
    }
  }

  /** A component of a clean path. */
  predicate Plain(c: string) {
    c != "" && c != "." && c != ".." && '/' !in c
  }

  ghost predicate AllPlain(cs: seq<string>) {
    forall i :: 0 <= i < |cs| ==> Plain(cs[i])
  }

  /** The lexical rules of filepath.Clean, piece by piece. */
  function CleanComps(acc: seq<string>, pieces: seq<string>, rooted: bool): seq<string>
    decreases |pieces|
  {
    if pieces == [] then acc
    else
      var c := pieces[0];
      var next :=
        if c == "" || c == "." then acc
        else if c == ".." then
          if acc != [] && acc[|acc| - 1] != ".." then acc[..|acc| - 1]
          else if rooted then acc
          else acc + [c]
        else acc + [c];
      CleanComps(next, pieces[1..], rooted)
  }

  function Tail(cs: seq<string>): string {
    if cs == [] then "" else "/" + cs[0] + Tail(cs[1..])
  }

  /** The absolute path with these components. */
  function Render(cs: seq<string>): string {
    if cs == [] then "/" else Tail(cs)
  }

  function Clean(p: string): string {
    var cs := CleanComps([], Split(p), IsAbs(p));
    if IsAbs(p) then Render(cs)
    else if cs == [] then "."
    else Tail(cs)[1..]
  }

  /** The components of an absolute path. */
  function Comps(p: string): seq<string> {
    CleanComps([], Split(p), true)
  }

  // ---------- folding ----------

  function FoldChar(c: char): char {
    if 'A' <= c <= 'Z' then (c as int + 32) as char else c
  }

  function Fold(s: string): (r: string)
    ensures |r| == |s| && forall i :: 0 <= i < |s| ==> r[i] == FoldChar(s[i])
  {
    seq(|s|, i requires 0 <= i < |s| => FoldChar(s[i]))
  }

  function FoldComps(cs: seq<string>): (r: seq<string>)
    ensures |r| == |cs| && forall i :: 0 <= i < |cs| ==> r[i] == Fold(cs[i])
  {
    seq(|cs|, i requires 0 <= i < |cs| => Fold(cs[i]))
  }

  /** strings.EqualFold */
  predicate EqualFold(a: string, b: string) {
    Fold(a) == Fold(b)
  }

  /** The same character, or the two cases of one ASCII letter. */
  predicate SameLetter(a: char, b: char) {
    a == b || ('a' <= a <= 'z' && b as int + 32 == a as int) || ('a' <= b <= 'z' && a as int + 32 == b as int)
  }

  lemma EqualFoldIff(a: string, b: string)
    ensures EqualFold(a, b) <==> |a| == |b| && forall i :: 0 <= i < |a| ==> SameLetter(a[i], b[i])
  {
    if EqualFold(a, b) {
      forall i | 0 <= i < |a| ensures SameLetter(a[i], b[i]) {
        assert Fold(a)[i] == Fold(b)[i];
      }
    }
  }

  predicate PathEqualFold(a: string, b: string) {
    EqualFold(Clean(a), Clean(b))
  }

  /** The byte-slice comparison with the parent and one more slash. */
  predicate IsUnderFold(child: string, parent: string) {
    var c, p := Clean(child), Clean(parent);
    var prefix := p + "/";
    p != "/" && |prefix| <= |c| && EqualFold(c[..|prefix|], prefix)
  }

  predicate IsRootOrUnderFold(canonical: string, root: string) {
    var c, r := Clean(canonical), Clean(root);
    var prefix := if r != "" && r[|r| - 1] == '/' then r else r + "/";
    EqualFold(c, r) || (|prefix| <= |c| && EqualFold(c[..|prefix|], prefix))
  }

  // ---------- cleaning ----------

  lemma {:induction false} CleanCompsPlain(acc: seq<string>, pieces: seq<string>)
    requires AllPlain(acc) && forall i :: 0 <= i < |pieces| ==> '/' !in pieces[i]
    ensures AllPlain(CleanComps(acc, pieces, true))
    decreases |pieces|
  {
    if pieces != [] {
      var c := pieces[0];
      var next := if c == "" || c == "." then acc
                  else if c == ".." then (if acc != [] then acc[..|acc| - 1] else acc)
                  else acc + [c];
      assert next == if c == ".." && acc != [] && acc[|acc| - 1] != ".." then acc[..|acc| - 1] else next;
      CleanCompsPlain(next, pieces[1..]);
    }
  }

  lemma CompsPlain(p: string)
    ensures AllPlain(Comps(p))
  {
    CleanCompsPlain([], Split(p));
  }

  lemma {:induction false} CleanCompsAppends(acc: seq<string>, cs: seq<string>, rooted: bool)
    requires AllPlain(cs)
    ensures CleanComps(acc, cs, rooted) == acc + cs
    decreases |cs|
  {
    if cs == [] {
      assert acc + cs == acc;
    } else {
      CleanCompsAppends(acc + [cs[0]], cs[1..], rooted);
      assert acc + [cs[0]] + cs[1..] == acc + cs;
    }
  }

  lemma {:induction false} SplitPiece(a: string, rest: string)
    requires '/' !in a && IsAbs(rest)
    ensures Split(a + rest) == [a] + Split(rest[1..])
  {
    if a == "" {
      assert a + rest == rest;
    } else {
      SplitPiece(a[1..], rest);
      assert (a + rest)[1..] == a[1..] + rest;
      assert [a[0]] + a[1..] == a;
    }
  }

  lemma {:induction false} SplitLast(a: string)
    requires '/' !in a
    ensures Split(a) == [a]
  {
    if a != "" {
      SplitLast(a[1..]);
      assert [a[0]] + a[1..] == a;
    }
  }

  lemma SplitSlash(rest: string)
    requires IsAbs(rest)
    ensures Split(rest) == [""] + Split(rest[1..])
  {
  }

  lemma {:induction false} SplitTail(cs: seq<string>)
    requires AllPlain(cs) && cs != []
    ensures IsAbs(Tail(cs)) && Split(Tail(cs)) == [""] + cs
  {
    var rest := Tail(cs[1..]);
    TailSlash(cs);
    SplitSlash(Tail(cs));
    if |cs| == 1 {
      assert rest == "" && cs[0] + rest == cs[0];
      SplitLast(cs[0]);
      assert cs == [cs[0]];
    } else {
      SplitTail(cs[1..]);
      SplitSlash(rest);
      SplitPiece(cs[0], rest);
      SameTail("", Split(rest[1..]), cs[1..]);
      assert cs == [cs[0]] + cs[1..];
    }
  }

  lemma TailSlash(cs: seq<string>)
    requires cs != []
    ensures IsAbs(Tail(cs)) && Tail(cs)[1..] == cs[0] + Tail(cs[1..])
  {
    assert Tail(cs) == ['/'] + (cs[0] + Tail(cs[1..]));
  }

  lemma SameTail(x: string, a: seq<string>, b: seq<string>)
    requires [x] + a == [x] + b
    ensures a == b
  {
    assert a == ([x] + a)[1..] && b == ([x] + b)[1..];
  }

  /** A path rendered from plain components is clean and has those components. */
  lemma RenderClean(cs: seq<string>)
    requires AllPlain(cs)
    ensures IsAbs(Render(cs)) && Clean(Render(cs)) == Render(cs) && Comps(Render(cs)) == cs
  {
    if cs == [] {
      assert Split("/") == ["", ""];
      assert CleanComps([], ["", ""], true) == CleanComps([], [""], true) == [];
    } else {
      SplitTail(cs);
      assert ([""] + cs)[1..] == cs;
      CleanCompsAppends([], cs, true);
      assert [] + cs == cs;
    }
  }

  /** filepath.Clean of an absolute path is its components rendered, and cleaning again changes nothing. */
  lemma CleanAbs(p: string)
    requires IsAbs(p)
    ensures Clean(p) == Render(Comps(p)) && AllPlain(Comps(p))
    ensures IsAbs(Clean(p)) && Clean(Clean(p)) == Clean(p) && Comps(Clean(p)) == Comps(p)
  {
    CompsPlain(p);
    RenderClean(Comps(p));
  }

  lemma {:induction false} SplitAppend(p: string, name: string)
    requires '/' !in name
    ensures Split(p + "/" + name) == Split(p) + [name]
  {
    if p == "" {
      assert p + "/" + name == "/" + name;
      SplitSlash("/" + name);
      SplitLast(name);
    } else {
      SplitAppend(p[1..], name);
      assert (p + "/" + name)[1..] == p[1..] + "/" + name;
    }
  }

  lemma {:induction false} CleanCompsConcat(acc: seq<string>, a: seq<string>, b: seq<string>, rooted: bool)
    ensures CleanComps(acc, a + b, rooted) == CleanComps(CleanComps(acc, a, rooted), b, rooted)
    decreases |a|
  {
    if a == [] {
      assert a + b == b;
    } else {
      OnePiece(acc, a, rooted);
      OnePiece(acc, a + b, rooted);
      assert (a + b)[1..] == a[1..] + b;
      CleanCompsConcat(CleanComps(acc, [a[0]], rooted), a[1..], b, rooted);
    }
  }

  lemma OnePiece(acc: seq<string>, pieces: seq<string>, rooted: bool)
    requires pieces != []
    ensures CleanComps(acc, pieces, rooted) == CleanComps(CleanComps(acc, [pieces[0]], rooted), pieces[1..], rooted)
  {
    assert [pieces[0]][1..] == [];
  }

  /**
   What the components of an absolute path are: one more name adds itself, an empty one or a
   dot adds nothing, and two dots take the last component back, if there is one.
   */
  lemma CompsStep(p: string, name: string)
    requires '/' !in name
    ensures Comps("") == []
    ensures Comps(p + "/" + name)
            == if name == "" || name == "." then Comps(p)
               else if name == ".." then (if Comps(p) == [] then [] else Comps(p)[..|Comps(p)| - 1])
               else Comps(p) + [name]
  {
    SplitAppend(p, name);
    CleanCompsConcat([], Split(p), [name], true);
    CompsPlain(p);
    var cs := Comps(p);
    assert cs != [] ==> Plain(cs[|cs| - 1]);
    assert [name][1..] == [];
  }

  // ---------- containment ----------

  /** The components of `root` are a prefix of those of `path`, case aside. */
  ghost predicate FoldPrefix(root: seq<string>, path: seq<string>) {
    |root| <= |path| && forall i :: 0 <= i < |root| ==> EqualFold(root[i], path[i])
  }

  lemma FoldConcat(a: string, b: string)
    ensures Fold(a + b) == Fold(a) + Fold(b)
  {
  }

  lemma {:induction false} FoldTail(cs: seq<string>)
    ensures Fold(Tail(cs)) == Tail(FoldComps(cs))
  {
    if cs == [] {
      assert FoldComps(cs) == [];
    } else {
      FoldTail(cs[1..]);
      FoldConcat("/" + cs[0], Tail(cs[1..]));
      FoldConcat("/", cs[0]);
      assert Fold("/") == "/";
      assert FoldComps(cs)[1..] == FoldComps(cs[1..]);
    }
  }

  lemma FoldPlain(cs: seq<string>)
    requires AllPlain(cs)
    ensures forall i :: 0 <= i < |cs| ==> FoldComps(cs)[i] != "" && '/' !in FoldComps(cs)[i]
  {
    forall i | 0 <= i < |cs| ensures FoldComps(cs)[i] != "" && '/' !in FoldComps(cs)[i] {
      assert Plain(cs[i]);
      forall k | 0 <= k < |cs[i]| ensures FoldChar(cs[i][k]) != '/' {
        assert cs[i][k] in cs[i];
      }
    }
  }

  /** Pieces that no slash can hide in. */
  ghost predicate Solid(cs: seq<string>) {
    forall i :: 0 <= i < |cs| ==> cs[i] != "" && '/' !in cs[i]
  }

  lemma ConsPrefix(c: char, u: string, v: string)
    ensures [c] + u <= [c] + v <==> u <= v
  {
    if [c] + u <= [c] + v {
      assert ([c] + u)[1..] == u && ([c] + v)[1..] == v;
    }
  }

  /** Where two strings agree up to a slash that both first pieces lack, the pieces are equal. */
  lemma {:induction false} FirstPieces(a: string, x: string, b: string, y: string)
    requires '/' !in a && '/' !in b
    requires IsAbs(x) && (y == "" || IsAbs(y))
    ensures a + x <= b + y <==> a == b && x <= y
  {
    if a == "" || b == "" {
      assert a == "" ==> a + x == x;
      assert b == "" ==> b + y == y;
      assert a != "" ==> a[0] in a && (a + x)[0] == a[0];
      assert b != "" ==> b[0] in b && (b + y)[0] == b[0];
    } else {
      var u, v := a[1..] + x, b[1..] + y;
      FirstPieces(a[1..], x, b[1..], y);
      assert a + x == [a[0]] + u && b + y == [b[0]] + v;
      assert a == [a[0]] + a[1..] && b == [b[0]] + b[1..];
      if a[0] == b[0] {
        ConsPrefix(a[0], u, v);
      } else {
        assert ([a[0]] + u)[0] != ([b[0]] + v)[0];
      }
    }
  }

  lemma ConsTakes(rs: seq<string>, cs: seq<string>)
    requires rs != [] && cs != []
    ensures |rs| < |cs| && rs == cs[..|rs|]
            <==> rs[0] == cs[0] && |rs[1..]| < |cs[1..]| && rs[1..] == cs[1..][..|rs[1..]|]
  {
    if |rs| < |cs| {
      assert rs == [rs[0]] + rs[1..] && cs[..|rs|] == [cs[0]] + cs[1..][..|rs| - 1];
    }
  }

  /** A path with one more slash is a byte prefix exactly of the paths strictly below it. */
  lemma {:induction false} TailPrefix(rs: seq<string>, cs: seq<string>)
    requires Solid(rs) && Solid(cs)
    ensures Tail(rs) + "/" <= Tail(cs) <==> |rs| < |cs| && rs == cs[..|rs|]
  {
    if rs == [] {
      assert cs != [] ==> Tail(cs)[0] == '/';
    } else if cs != [] {
      TailPrefix(rs[1..], cs[1..]);
      TailPrefixStep(rs, cs);
      ConsTakes(rs, cs);
    }
  }

  lemma TailPrefixStep(rs: seq<string>, cs: seq<string>)
    requires rs != [] && cs != [] && '/' !in rs[0] && '/' !in cs[0]
    ensures Tail(rs) + "/" <= Tail(cs) <==> rs[0] == cs[0] && Tail(rs[1..]) + "/" <= Tail(cs[1..])
  {
    var x, y := Tail(rs[1..]) + "/", Tail(cs[1..]);
    assert IsAbs(x) && (y == "" || IsAbs(y));
    FirstPieces(rs[0], x, cs[0], y);
    TailOpens(rs, "/");
    TailOpens(cs, "");
    assert Tail(cs) == Tail(cs) + "" && y == y + "";
    ConsPrefix('/', rs[0] + x, cs[0] + y);
  }

  lemma TailOpens(cs: seq<string>, end: string)
    requires cs != []
    ensures Tail(cs) + end == ['/'] + (cs[0] + (Tail(cs[1..]) + end))
  {
  }

  /** Different components give different paths. */
  lemma TailInjective(rs: seq<string>, cs: seq<string>)
    requires Solid(rs) && Solid(cs) && Tail(rs) == Tail(cs)
    ensures rs == cs
  {
    var more := ["x"];
    TailAppend(rs, more);
    TailAppend(cs, more);
    assert Tail(more) == "/" + "x" + "";
    assert Tail(rs) + "/" <= Tail(cs + more);
    assert Tail(cs) + "/" <= Tail(rs + more);
    TailPrefix(rs, cs + more);
    TailPrefix(cs, rs + more);
  }

  lemma {:induction false} TailAppend(cs: seq<string>, more: seq<string>)
    ensures Tail(cs + more) == Tail(cs) + Tail(more)
  {
    if cs == [] {
      assert cs + more == more;
    } else {
      TailAppend(cs[1..], more);
      assert (cs + more)[0] == cs[0] && (cs + more)[1..] == cs[1..] + more;
      Associates("/" + cs[0], Tail(cs[1..]), Tail(more));
    }
  }

  lemma FoldPrefixIsPrefix(rs: seq<string>, cs: seq<string>)
    ensures FoldPrefix(rs, cs) <==> |rs| <= |cs| && FoldComps(rs) == FoldComps(cs)[..|rs|]
  {
    if |rs| <= |cs| && FoldComps(rs) == FoldComps(cs)[..|rs|] {
      forall i | 0 <= i < |rs| ensures EqualFold(rs[i], cs[i]) {
        assert FoldComps(rs)[i] == FoldComps(cs)[..|rs|][i];
      }
    }
  }

  /** The slice comparison of the code, on clean paths: strictly below, component by component. */
  lemma SliceIsStrictPrefix(cs: seq<string>, rs: seq<string>)
    requires AllPlain(cs) && AllPlain(rs)
    ensures var c, prefix := Render(cs), Tail(rs) + "/";
            (|prefix| <= |c| && EqualFold(c[..|prefix|], prefix) && cs != [])
            <==> FoldPrefix(rs, cs) && |rs| < |cs|
  {
    FoldTail(cs);
    FoldTail(rs);
    FoldPlain(cs);
    FoldPlain(rs);
    TailPrefix(FoldComps(rs), FoldComps(cs));
    FoldPrefixIsPrefix(rs, cs);
    FoldConcat(Tail(rs), "/");
    assert Fold("/") == "/";
    FoldedSlice(Render(cs), Tail(rs) + "/");
  }

  lemma FoldedSlice(c: string, prefix: string)
    ensures |prefix| <= |c| && EqualFold(c[..|prefix|], prefix) <==> Fold(prefix) <= Fold(c)
  {
    if |prefix| <= |c| {
      FoldConcat(c[..|prefix|], c[|prefix|..]);
      assert c == c[..|prefix|] + c[|prefix|..];
      assert Fold(c[..|prefix|]) == Fold(c)[..|prefix|];
    }
  }

  /** isUnderFold on absolute paths: strict containment of components; nothing is under "/". */
  lemma UnderFoldIsStrictContainment(child: string, parent: string)
    requires IsAbs(child) && IsAbs(parent)
    ensures IsUnderFold(child, parent)
            <==> Comps(parent) != [] && FoldPrefix(Comps(parent), Comps(child)) && |Comps(parent)| < |Comps(child)|
  {
    CleanAbs(child);
    CleanAbs(parent);
    var cs, rs := Comps(child), Comps(parent);
    SliceIsStrictPrefix(cs, rs);
    RenderRoot(cs);
    RenderRoot(rs);
  }

  /** Only the root renders as a single slash, and only it ends in one. */
  lemma RenderRoot(cs: seq<string>)
    requires AllPlain(cs)
    ensures Render(cs) == "/" <==> cs == []
    ensures cs != [] ==> |Render(cs)| >= 2 && Render(cs)[|Render(cs)| - 1] != '/'
  {
    if cs != [] { TailLastChar(cs); }
  }

  lemma {:induction false} TailLastChar(cs: seq<string>)
    requires AllPlain(cs) && cs != []
    ensures |Tail(cs)| >= 2 && Tail(cs)[|Tail(cs)| - 1] != '/'
  {
    assert Plain(cs[0]);
    if |cs| == 1 {
      assert Tail(cs) == "/" + cs[0];
      assert cs[0][|cs[0]| - 1] in cs[0];
    } else {
      TailLastChar(cs[1..]);
    }
  }

  /** isRootOrUnderFold on absolute paths: containment of components, so no sibling with the same prefix matches. */
  lemma RootOrUnderFoldIsContainment(canonical: string, root: string)
    requires IsAbs(canonical) && IsAbs(root)
    ensures IsRootOrUnderFold(canonical, root) <==> FoldPrefix(Comps(root), Comps(canonical))
  {
    CleanAbs(canonical);
    CleanAbs(root);
    var cs, rs := Comps(canonical), Comps(root);
    SliceIsStrictPrefix(cs, rs);
    RenderRoot(cs);
    RenderRoot(rs);
    EqualFoldIsEqualComps(cs, rs);
  }

  lemma EqualFoldIsEqualComps(cs: seq<string>, rs: seq<string>)
    requires AllPlain(cs) && AllPlain(rs)
    ensures EqualFold(Render(cs), Render(rs)) <==> FoldPrefix(rs, cs) && |rs| == |cs|
  {
    FoldPrefixIsPrefix(rs, cs);
    RenderRoot(cs);
    RenderRoot(rs);
    if cs != [] && rs != [] {
      EqualTails(cs, rs);
    }
  }

  lemma EqualTails(cs: seq<string>, rs: seq<string>)
    requires AllPlain(cs) && AllPlain(rs)
    ensures Fold(Tail(cs)) == Fold(Tail(rs)) <==> FoldComps(cs) == FoldComps(rs)
  {
    FoldTail(cs);
    FoldTail(rs);
    FoldPlain(cs);
    FoldPlain(rs);
    if Tail(FoldComps(cs)) == Tail(FoldComps(rs)) {
      TailInjective(FoldComps(rs), FoldComps(cs));
    }
  }

  /** pathEqualFold on absolute paths. */
  lemma PathEqualFoldIsEqualComps(a: string, b: string)
    requires IsAbs(a) && IsAbs(b)
    ensures PathEqualFold(a, b) <==> FoldPrefix(Comps(b), Comps(a)) && |Comps(a)| == |Comps(b)|
  {
    CleanAbs(a);
    CleanAbs(b);
    EqualFoldIsEqualComps(Comps(a), Comps(b));
  }
}

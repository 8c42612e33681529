/**
 Symbolic links: an abstract file system and what filepath.EvalSymlinks makes of an
 absolute path in it.
 */
module PathResolve {
  import opened Basics
  import opened PathStrings

  datatype Node = Dir | File | Link(target: string)

  /** What is found at an absolute path, given by its components; the root is a directory. */
  type FileSystem = map<seq<string>, Node>

  const MAX_LINKS := 255

  /**
   The walk: `dest` is resolved, `pieces` is still to come, `links` have been followed.
   A link is replaced by its text, in front of what follows; a text that starts with a
   slash starts over from the root. Anything but a directory must come last.
   */
  function Walk(fs: FileSystem, dest: seq<string>, pieces: seq<string>, links: nat): Option<seq<string>>
    requires links <= MAX_LINKS
    decreases MAX_LINKS - links, |pieces|
  {
    if pieces == [] then Some(dest)
    else
      var c, rest := pieces[0], pieces[1..];
      if c == "" || c == "." then Walk(fs, dest, rest, links)
      else if c == ".." then Walk(fs, if dest == [] then [] else dest[..|dest| - 1], rest, links)
      else
        var here := dest + [c];
        if here !in fs then None
        else match fs[here]
          case Dir => Walk(fs, here, rest, links)
          case File => if rest == [] then Some(here) else None
          case Link(target) =>
            if links == MAX_LINKS then None
            else Walk(fs, if IsAbs(target) then [] else dest, Split(target) + rest, links + 1)
  }

  /** filepath.EvalSymlinks on an absolute path. */
  function EvalSymlinks(fs: FileSystem, path: string): Option<string> {
    match Walk(fs, [], Split(path), 0)
    case None => None
    case Some(cs) => Some(Render(cs))
  }

  /** Every step down the path is a directory, except that the last may be a file. */
  ghost predicate LinkFree(fs: FileSystem, cs: seq<string>) {
    && AllPlain(cs)
    && forall k :: 0 < k <= |cs| ==> cs[..k] in fs && (fs[cs[..k]] == Dir || (k == |cs| && fs[cs[..k]] == File))
  }

  ghost predicate AllDirs(fs: FileSystem, cs: seq<string>) {
    && AllPlain(cs)
    && forall k :: 0 < k <= |cs| ==> cs[..k] in fs && fs[cs[..k]] == Dir
  }

  lemma OneMoreDir(fs: FileSystem, dest: seq<string>, c: string)
    requires AllDirs(fs, dest) && Plain(c) && dest + [c] in fs
    ensures fs[dest + [c]] == Dir ==> AllDirs(fs, dest + [c])
    ensures fs[dest + [c]] == File ==> LinkFree(fs, dest + [c])
  {
    var here := dest + [c];
    forall k | 0 < k <= |dest| ensures here[..k] == dest[..k] {
    }
    assert here[..|here|] == here;
  }

  /** What the walk arrives at has no link left in it. */
  lemma {:induction false} WalkIsLinkFree(fs: FileSystem, dest: seq<string>, pieces: seq<string>, links: nat)
    requires links <= MAX_LINKS && AllDirs(fs, dest)
    requires forall i :: 0 <= i < |pieces| ==> '/' !in pieces[i]
    ensures var r := Walk(fs, dest, pieces, links);
            r.Some? ==> LinkFree(fs, r.value)
    decreases MAX_LINKS - links, |pieces|
  {
    if pieces != [] {
      var c, rest := pieces[0], pieces[1..];
      if c == "" || c == "." {
        WalkIsLinkFree(fs, dest, rest, links);
      } else if c == ".." {
        var up := if dest == [] then [] else dest[..|dest| - 1];
        assert forall k :: 0 < k <= |up| ==> up[..k] == dest[..k];
        WalkIsLinkFree(fs, up, rest, links);
      } else if dest + [c] in fs {
        OneMoreDir(fs, dest, c);
        match fs[dest + [c]]
        case Dir => WalkIsLinkFree(fs, dest + [c], rest, links);
        case File =>
        case Link(target) =>
          if links < MAX_LINKS {
            WalkIsLinkFree(fs, if IsAbs(target) then [] else dest, Split(target) + rest, links + 1);
          }
      }
    }
  }

  /** A link-free path is left as it is, whatever was walked before. */
  lemma {:induction false} WalkKeepsLinkFree(fs: FileSystem, dest: seq<string>, pieces: seq<string>, links: nat)
    requires links <= MAX_LINKS && LinkFree(fs, dest + pieces)
    ensures Walk(fs, dest, pieces, links) == Some(dest + pieces)
    decreases |pieces|
  {
    if pieces == [] {
      assert dest + pieces == dest;
    } else {
      var c, rest := pieces[0], pieces[1..];
      var all := dest + pieces;
      assert all[|dest|] == c && Plain(c);
      assert all[..|dest| + 1] == dest + [c];
      assert (dest + [c]) + rest == all;
      if fs[dest + [c]] == Dir {
        WalkKeepsLinkFree(fs, dest + [c], rest, links);
      } else {
        assert |dest| + 1 == |all|;
        assert rest == [] && dest + [c] == all;
      }
    }
  }

  /** EvalSymlinks yields a clean absolute path without links, and leaves such a path alone. */
  lemma EvalSymlinksFixes(fs: FileSystem, path: string)
    requires EvalSymlinks(fs, path).Some?
    ensures var c := EvalSymlinks(fs, path).value;
            && IsAbs(c) && Clean(c) == c && LinkFree(fs, Comps(c))
            && EvalSymlinks(fs, c) == Some(c)
  {
    var cs := Walk(fs, [], Split(path), 0).value;
    WalkIsLinkFree(fs, [], Split(path), 0);
    RenderClean(cs);
    LinkFreeStays(fs, cs);
  }

  lemma LinkFreeStays(fs: FileSystem, cs: seq<string>)
    requires LinkFree(fs, cs)
    ensures EvalSymlinks(fs, Render(cs)) == Some(Render(cs))
  {
    RenderClean(cs);
    if cs == [] {
      assert Split("/") == ["", ""];
      assert Walk(fs, [], ["", ""], 0) == Walk(fs, [], [""], 0) == Walk(fs, [], [], 0) by {
        assert ["", ""][1..] == [""] && [""][1..] == [];
      }
    } else {
      SplitTail(cs);
      assert ([""] + cs)[1..] == cs;
      assert [] + cs == cs;
      WalkKeepsLinkFree(fs, [], cs, 0);
    }
  }
}

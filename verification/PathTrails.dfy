/**
 Where a path leads, told as a trail of single steps through the file system, and that this
 is what the resolution of symbolic links finds.
 */
module PathTrails {
  import opened Basics
  import opened PathStrings
  import opened PathResolve

  /** How far a path has been followed: the place reached, the names to come, the links taken. */
  datatype Spot = Spot(place: seq<string>, ahead: seq<string>, links: nat)

  function Parent(place: seq<string>): seq<string> {
    if place == [] then [] else place[..|place| - 1]
  }

  /**
   One step. Empty names and dots stay where they are, two dots go to the parent of the place
   reached; a link is read in the directory that holds it, or from the root if it is absolute.
   */
  ghost predicate Next(fs: FileSystem, a: Spot, b: Spot) {
    && a.ahead != []
    && var name, ahead := a.ahead[0], a.ahead[1..];
       if name == "" || name == "." then b == Spot(a.place, ahead, a.links)
       else if name == ".." then b == Spot(Parent(a.place), ahead, a.links)
       else
         && a.place + [name] in fs
         && match fs[a.place + [name]]
            case Dir => b == Spot(a.place + [name], ahead, a.links)
            case File => ahead == [] && b == Spot(a.place + [name], [], a.links)
            case Link(target) =>
              b == Spot(if target != "" && target[0] == '/' then [] else a.place, Split(target) + ahead, a.links + 1)
  }

  ghost predicate Trail(fs: FileSystem, t: seq<Spot>) {
    |t| > 0 && forall i, j :: 0 <= i < j < |t| && j == i + 1 ==> Next(fs, t[i], t[j])
  }

  /** The trail ends at the place, with nothing ahead and no more than 255 links taken. */
  ghost predicate EndsAt(t: seq<Spot>, place: seq<string>) {
    |t| > 0 && t[|t| - 1].place == place && t[|t| - 1].ahead == [] && t[|t| - 1].links <= 255
  }

  ghost predicate Reaches(fs: FileSystem, a: Spot, place: seq<string>) {
    exists t :: Trail(fs, t) && t[0] == a && EndsAt(t, place)
  }

  /** Followed from the root, the path leads to the place. */
  ghost predicate LeadsTo(fs: FileSystem, path: string, place: seq<string>) {
    Reaches(fs, Spot([], Split(path), 0), place)
  }

  /** `canonical` is the clean absolute name of the place the path leads to. */
  ghost predicate Resolves(fs: FileSystem, path: string, canonical: string) {
    IsAbs(canonical) && Clean(canonical) == canonical && LeadsTo(fs, path, Comps(canonical))
  }

  lemma {:induction false} LinksGrow(fs: FileSystem, t: seq<Spot>)
    requires Trail(fs, t)
    ensures t[0].links <= t[|t| - 1].links
    decreases |t|
  {
    if |t| > 1 {
      assert Next(fs, t[0], t[1]);
      RestIsTrail(fs, t);
      LinksGrow(fs, t[1..]);
    }
  }

  lemma RestIsTrail(fs: FileSystem, t: seq<Spot>)
    requires Trail(fs, t) && |t| > 1
    ensures Trail(fs, t[1..]) && t[1..][0] == t[1] && t[1..][|t| - 2] == t[|t| - 1]
  {
    forall i, j | 0 <= i < j < |t| - 1 && j == i + 1 ensures Next(fs, t[1..][i], t[1..][j]) {
      assert Next(fs, t[i + 1], t[j + 1]);
    }
  }

  lemma MoreTrail(fs: FileSystem, a: Spot, t: seq<Spot>)
    requires Trail(fs, t) && Next(fs, a, t[0])
    ensures Trail(fs, [a] + t)
  {
    var u := [a] + t;
    forall i, j | 0 <= i < j < |u| && j == i + 1 ensures Next(fs, u[i], u[j]) {
      if i > 0 { assert Next(fs, t[i - 1], t[j - 1]); }
    }
  }

  /** The walk takes the steps of a trail. */
  lemma NextIsWalked(fs: FileSystem, a: Spot, b: Spot)
    requires Next(fs, a, b) && b.links <= MAX_LINKS
    ensures a.links <= MAX_LINKS && Walk(fs, a.place, a.ahead, a.links) == Walk(fs, b.place, b.ahead, b.links)
  {
  }

  /** And only such steps. */
  lemma WalkedIsNext(fs: FileSystem, a: Spot) returns (b: Spot)
    requires a.links <= MAX_LINKS && a.ahead != [] && Walk(fs, a.place, a.ahead, a.links).Some?
    ensures Next(fs, a, b) && b.links <= MAX_LINKS
    ensures b.links > a.links || (b.links == a.links && |b.ahead| < |a.ahead|)
  {
    var name, ahead := a.ahead[0], a.ahead[1..];
    if name == "" || name == "." {
      b := Spot(a.place, ahead, a.links);
    } else if name == ".." {
      b := Spot(Parent(a.place), ahead, a.links);
    } else {
      match fs[a.place + [name]]
      case Link(target) =>
        b := Spot(if IsAbs(target) then [] else a.place, Split(target) + ahead, a.links + 1);
      case _ =>
        b := Spot(a.place + [name], ahead, a.links);
    }
  }

  lemma {:induction false} TrailIsWalked(fs: FileSystem, t: seq<Spot>, place: seq<string>)
    requires Trail(fs, t) && EndsAt(t, place)
    ensures t[0].links <= MAX_LINKS && Walk(fs, t[0].place, t[0].ahead, t[0].links) == Some(place)
    decreases |t|
  {
    if |t| > 1 {
      assert Next(fs, t[0], t[1]);
      RestIsTrail(fs, t);
      TrailIsWalked(fs, t[1..], place);
      NextIsWalked(fs, t[0], t[1]);
    }
  }

  lemma {:induction false} WalkHasTrail(fs: FileSystem, a: Spot, place: seq<string>) returns (t: seq<Spot>)
    requires a.links <= MAX_LINKS && Walk(fs, a.place, a.ahead, a.links) == Some(place)
    ensures Trail(fs, t) && t[0] == a && EndsAt(t, place)
    decreases MAX_LINKS - a.links, |a.ahead|
  {
    if a.ahead == [] {
      t := [a];
    } else {
      var b := WalkedIsNext(fs, a);
      NextIsWalked(fs, a, b);
      var rest := WalkHasTrail(fs, b, place);
      MoreTrail(fs, a, rest);
      t := [a] + rest;
    }
  }

  /** The walk finds a place exactly if a trail leads there. */
  lemma WalkIsReach(fs: FileSystem, a: Spot, place: seq<string>)
    requires a.links <= MAX_LINKS
    ensures Walk(fs, a.place, a.ahead, a.links) == Some(place) <==> Reaches(fs, a, place)
  {
    if Walk(fs, a.place, a.ahead, a.links) == Some(place) {
      var t := WalkHasTrail(fs, a, place);
    }
    if Reaches(fs, a, place) {
      var t :| Trail(fs, t) && t[0] == a && EndsAt(t, place);
      TrailIsWalked(fs, t, place);
    }
  }

  /** EvalSymlinks answers exactly with the clean absolute name of the place the path leads to. */
  lemma EvalSymlinksResolves(fs: FileSystem, path: string, canonical: string)
    ensures EvalSymlinks(fs, path) == Some(canonical) <==> Resolves(fs, path, canonical)
  {
    WalkIsReach(fs, Spot([], Split(path), 0), Comps(canonical));
    if EvalSymlinks(fs, path) == Some(canonical) {
      EvalSymlinksFixes(fs, path);
      WalkIsLinkFree(fs, [], Split(path), 0);
      RenderClean(Walk(fs, [], Split(path), 0).value);
    }
    if Resolves(fs, path, canonical) {
      CleanAbs(canonical);
    }
  }

  lemma ResolvedIsLinkFree(fs: FileSystem, path: string, canonical: string)
    requires Resolves(fs, path, canonical)
    ensures LinkFree(fs, Comps(canonical))
  {
    EvalSymlinksResolves(fs, path, canonical);
    EvalSymlinksFixes(fs, path);
  }

  /** A path leads to one place at most. */
  lemma OnePlace(fs: FileSystem, path: string, p: seq<string>, q: seq<string>)
    requires LeadsTo(fs, path, p) && LeadsTo(fs, path, q)
    ensures p == q
  {
    WalkIsReach(fs, Spot([], Split(path), 0), p);
    WalkIsReach(fs, Spot([], Split(path), 0), q);
  }
}

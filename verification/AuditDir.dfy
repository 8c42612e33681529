/**
 The directory of audit files as a value, and what a rotation does to it.

 Slot 0 is audit.log and slot n is audit.log.n. A file is the sequence of writes
 that reached it; a write carries its position in the whole history of the log, so
 that "nothing was lost, doubled or reordered" can be said.
 */
module AuditDir {

  /** The bytes one write call put on disk. A torn write is an entry with fewer bytes. */
  datatype Entry = Entry(stamp: nat, bytes: string)

  type File = seq<Entry>
  type Dir = map<nat, File>

  function Size(f: File): nat {
    if f == [] then 0 else Size(f[..|f| - 1]) + |f[|f| - 1].bytes|
  }

  lemma {:induction false} SizeConcat(f: File, g: File)
    ensures Size(f + g) == Size(f) + Size(g)
  {
    if g == [] {
      assert f + g == f;
    } else {
      SizeConcat(f, g[..|g| - 1]);
      assert (f + g)[..|f + g| - 1] == f + g[..|g| - 1];
    }
  }

  lemma SizeOfOne(e: Entry)
    ensures Size([e]) == |e.bytes|
  {
    assert [e][..0] == [];
  }

  /** Every write so far, oldest first, each stamped with its position. */
  ghost predicate Stamped(h: seq<Entry>) {
    forall i :: 0 <= i < |h| ==> h[i].stamp == i
  }

  /** A later write sits in the same file further on, or in a lower slot. */
  ghost predicate Ordered(d: Dir, h: seq<Entry>) {
    Recorded(d, h) && EachInOrder(d) && HigherIsOlder(d)
  }

  ghost predicate Recorded(d: Dir, h: seq<Entry>) {
    forall n, i :: n in d && 0 <= i < |d[n]| ==> d[n][i].stamp < |h| && h[d[n][i].stamp] == d[n][i]
  }

  ghost predicate EachInOrder(d: Dir) {
    forall n, i, j :: n in d && 0 <= i < j < |d[n]| ==> d[n][i].stamp < d[n][j].stamp
  }

  ghost predicate HigherIsOlder(d: Dir) {
    forall m, n, i, j :: m in d && n in d && m < n && 0 <= i < |d[n]| && 0 <= j < |d[m]|
      ==> d[n][i].stamp < d[m][j].stamp
  }

  ghost predicate Kept(d: Dir, e: Entry) {
    exists n :: n in d && e in d[n]
  }

  /** No gap: what is kept reaches up to the last write. */
  ghost predicate Contiguous(d: Dir, h: seq<Entry>) {
    forall i, j :: 0 <= i <= j < |h| && Kept(d, h[i]) ==> Kept(d, h[j])
  }

  /** No file in slot `m` or above holds anything. */
  ghost predicate ClearFrom(d: Dir, m: nat) {
    forall n :: n in d && m <= n ==> d[n] == []
  }

  /** One rename into the free slot above; a missing source is skipped. */
  function MoveUp(d: Dir, n: nat): Dir {
    if n in d then d[n + 1 := d[n]] - {n} else d
  }

  /**
   The directory when a rotation that keeps `m` files has come down to slot `n`:
   with n == m nothing has happened, with n == m-1 the oldest slot is removed, and
   below that one file after the other has moved up.
   */
  function Shifted(d: Dir, m: nat, n: nat): Dir
    requires n <= m
    decreases m - n
  {
    if n == m then d
    else if n == m - 1 then d - {m - 1}
    else MoveUp(Shifted(d, m, n + 1), n)
  }

  /** Where the file of a slot comes from once a rotation has come down to slot `n`. */
  function Origin(k: nat, m: nat, n: nat): nat {
    if n < k < m then k - 1 else k
  }

  /**
   What that amounts to, slot by slot: slot n is free, the slots above it up to m-1
   hold the file that was one below, all others are as they were.
   */
  lemma {:induction false} ShiftedSlot(d: Dir, m: nat, n: nat, k: nat)
    requires n <= m
    ensures k in Shifted(d, m, n) <==> (k != n || n == m) && Origin(k, m, n) in d
    ensures k in Shifted(d, m, n) ==> Shifted(d, m, n)[k] == d[Origin(k, m, n)]
    decreases m - n
  {
    if n + 1 < m {
      ShiftedSlot(d, m, n + 1, k);
      ShiftedSlot(d, m, n + 1, n);
      ShiftedSlot(d, m, n + 1, n + 1);
    }
  }

  /**
   A rotation that has come down to slot `n` has changed nothing exactly when it never
   began or had nothing to move: no file in the slots it passed.
   */
  lemma ShiftIntactIff(d: Dir, m: nat, n: nat)
    requires n <= m
    ensures Shifted(d, m, n) == d <==> n == m || forall k :: n <= k < m ==> k !in d
  {
    if n < m {
      if forall k :: n <= k < m ==> k !in d {
        forall k: nat ensures k in Shifted(d, m, n) <==> k in d {
          ShiftedSlot(d, m, n, k);
        }
        forall k: nat | k in d ensures Shifted(d, m, n)[k] == d[k] {
          ShiftedSlot(d, m, n, k);
        }
      } else {
        var k := LowestFrom(d, n, m);
        ShiftedSlot(d, m, n, k);
      }
    }
  }

  /** The lowest file in the slots from `n` on. */
  lemma {:induction false} LowestFrom(d: Dir, n: nat, m: nat) returns (k: nat)
    requires exists j :: n <= j < m && j in d
    ensures n <= k < m && k in d && forall j :: n <= j < k ==> j !in d
    decreases m - n
  {
    k := n;
    if n !in d {
      k := LowestFrom(d, n + 1, m);
    }
  }

  /** audit.log itself is where it was, with what it held, exactly while its own rename is still to come. */
  lemma ActiveIntactIff(d: Dir, m: nat, n: nat)
    requires n <= m && 0 < m && 0 in d
    ensures 0 in Shifted(d, m, n) && Shifted(d, m, n)[0] == d[0] <==> 0 < n
    ensures n == 0 && 1 < m ==> 1 in Shifted(d, m, n) && Shifted(d, m, n)[1] == d[0]
    ensures n == 0 ==> 0 !in Shifted(d, m, n)
  {
    ShiftedSlot(d, m, n, 0);
    ShiftedSlot(d, m, n, 1);
  }

  /** However far a rotation gets, reading from the highest slot down is in history order. */
  lemma ShiftKeepsOrder(d: Dir, h: seq<Entry>, m: nat, n: nat)
    requires n <= m && Ordered(d, h)
    ensures Ordered(Shifted(d, m, n), h)
  {
    var s := Shifted(d, m, n);
    forall k | k in s ensures Origin(k, m, n) in d && s[k] == d[Origin(k, m, n)] {
      ShiftedSlot(d, m, n, k);
    }
    forall a, b | a in s && b in s && a < b ensures Origin(a, m, n) < Origin(b, m, n) {
      ShiftedSlot(d, m, n, a);
    }
  }

  /** A slot below the removed one survives a rotation. */
  lemma ShiftKeepsOthers(d: Dir, m: nat, n: nat, k: nat, e: Entry)
    requires n <= m && k in d && e in d[k] && (k != m - 1 || n == m)
    ensures Kept(Shifted(d, m, n), e)
  {
    var t := if n <= k < m - 1 then k + 1 else k;
    ShiftedSlot(d, m, n, t);
    assert e in Shifted(d, m, n)[t];
  }

  /** Nothing new appears, and the file of slot m-1 is what is dropped. */
  lemma ShiftDropsOldestSlot(d: Dir, h: seq<Entry>, m: nat, n: nat, e: Entry)
    requires n < m && Ordered(d, h)
    ensures Kept(Shifted(d, m, n), e) <==> Kept(d, e) && !(m - 1 in d && e in d[m - 1])
  {
    var s := Shifted(d, m, n);
    if Kept(s, e) {
      var k :| k in s && e in s[k];
      ShiftedSlot(d, m, n, k);
      var o := Origin(k, m, n);
      assert o != m - 1;
      SlotsDisjoint(d, h, o, m - 1);
    }
    if Kept(d, e) && !(m - 1 in d && e in d[m - 1]) {
      var k: nat :| k in d && e in d[k];
      ShiftKeepsOthers(d, m, n, k, e);
    }
  }

  /** No write is found in two files. */
  lemma SlotsDisjoint(d: Dir, h: seq<Entry>, a: nat, b: nat)
    requires Ordered(d, h) && a != b
    ensures a in d && b in d ==> forall e :: e in d[a] ==> e !in d[b]
  {
  }

  lemma KeptIsHistory(d: Dir, h: seq<Entry>, e: Entry)
    requires Ordered(d, h) && Kept(d, e)
    ensures e.stamp < |h| && h[e.stamp] == e
  {
    var n: nat :| n in d && e in d[n];
    var i :| 0 <= i < |d[n]| && d[n][i] == e;
  }

  /**
   A rotation leaves no gap exactly when the slot it removes is empty or nothing
   older is left above it. With a fixed number of files the second always holds;
   it can fail only after the number of files was lowered.
   */
  lemma ShiftContiguousIff(d: Dir, h: seq<Entry>, m: nat, n: nat)
    requires n < m && Stamped(h) && Ordered(d, h) && Contiguous(d, h)
    ensures Contiguous(Shifted(d, m, n), h) <==> (m - 1 in d ==> d[m - 1] == []) || ClearFrom(d, m)
  {
    var s := Shifted(d, m, n);
    if (m - 1 in d ==> d[m - 1] == []) || ClearFrom(d, m) {
      forall i, j | 0 <= i <= j < |h| && Kept(s, h[i]) ensures Kept(s, h[j]) {
        ShiftDropsOldestSlot(d, h, m, n, h[i]);
        ShiftDropsOldestSlot(d, h, m, n, h[j]);
        var k: nat :| k in d && h[i] in d[k];
        if k < m - 1 { SlotOrder(d, m - 1, k, h[i]); }
      }
    } else {
      var k: nat :| k in d && m <= k && d[k] != [];
      var older, newer := d[k][0], d[m - 1][0];
      assert older.stamp < newer.stamp;
      KeptIsHistory(d, h, older);
      KeptIsHistory(d, h, newer);
      ShiftDropsOldestSlot(d, h, m, n, older);
      ShiftDropsOldestSlot(d, h, m, n, newer);
      SlotsDisjoint(d, h, k, m - 1);
      assert Kept(s, h[older.stamp]) && !Kept(s, h[newer.stamp]);
    }
  }

  /** What a higher slot holds is older. */
  lemma SlotOrder(d: Dir, older: nat, newer: nat, e: Entry)
    requires HigherIsOlder(d) && newer in d && e in d[newer] && newer < older
    ensures older in d ==> forall x :: x in d[older] ==> x.stamp < e.stamp
  {
    var i :| 0 <= i < |d[newer]| && d[newer][i] == e;
  }

  /** A write appends to slot 0 and to the history. */
  function Append(d: Dir, e: Entry): Dir
    requires 0 in d
  {
    d[0 := d[0] + [e]]
  }

  lemma AppendKept(d: Dir, e: Entry, x: Entry)
    requires 0 in d
    ensures Kept(Append(d, e), x) <==> x == e || Kept(d, x)
  {
    var a := Append(d, e);
    if Kept(a, x) {
      var n: nat :| n in a && x in a[n];
      if x != e { assert n in d && x in d[n]; }
    }
    if Kept(d, x) {
      var n: nat :| n in d && x in d[n];
      assert x in a[n];
    }
    assert e in a[0];
  }

  /** A write keeps the order, and leaves a gap only if there was one. */
  lemma AppendKeeps(d: Dir, h: seq<Entry>, e: Entry)
    requires 0 in d && Stamped(h) && Ordered(d, h) && e.stamp == |h|
    ensures Stamped(h + [e]) && Ordered(Append(d, e), h + [e])
    ensures Contiguous(d, h) <==> Contiguous(Append(d, e), h + [e])
  {
    AppendContiguous(d, h, e);
    AppendOrdered(d, h, e);
  }

  lemma AppendOrdered(d: Dir, h: seq<Entry>, e: Entry)
    requires 0 in d && Ordered(d, h) && e.stamp == |h|
    ensures Ordered(Append(d, e), h + [e])
  {
    AppendRecorded(d, h, e);
    AppendInOrder(d, h, e);
    AppendHigherIsOlder(d, h, e);
  }

  lemma AppendRecorded(d: Dir, h: seq<Entry>, e: Entry)
    requires 0 in d && Recorded(d, h) && e.stamp == |h|
    ensures Recorded(Append(d, e), h + [e])
  {
    var a: Dir, g: seq<Entry> := Append(d, e), h + [e];
    forall n: nat, i: nat | n in a && i < |a[n]| ensures a[n][i].stamp < |g| && g[a[n][i].stamp] == a[n][i] {
      if i < |d[n]| { assert a[n][i] == d[n][i]; }
    }
  }

  lemma AppendInOrder(d: Dir, h: seq<Entry>, e: Entry)
    requires 0 in d && Recorded(d, h) && EachInOrder(d) && e.stamp == |h|
    ensures EachInOrder(Append(d, e))
  {
    var a: Dir := Append(d, e);
    forall n: nat, i: nat, j: nat | n in a && i < j < |a[n]| ensures a[n][i].stamp < a[n][j].stamp {
      assert a[n][i] == d[n][i];
      if j < |d[n]| { assert a[n][j] == d[n][j]; }
    }
  }

  lemma AppendHigherIsOlder(d: Dir, h: seq<Entry>, e: Entry)
    requires 0 in d && Recorded(d, h) && HigherIsOlder(d) && e.stamp == |h|
    ensures HigherIsOlder(Append(d, e))
  {
    var a: Dir := Append(d, e);
    forall m: nat, n: nat, i: nat, j: nat | m in a && n in a && m < n && i < |a[n]| && j < |a[m]|
      ensures a[n][i].stamp < a[m][j].stamp
    {
      assert a[n] == d[n];
      if j < |d[m]| { assert a[m][j] == d[m][j]; }
    }
  }

  lemma AppendContiguous(d: Dir, h: seq<Entry>, e: Entry)
    requires 0 in d && Stamped(h) && Ordered(d, h) && e.stamp == |h|
    ensures Contiguous(d, h) <==> Contiguous(Append(d, e), h + [e])
  {
    var g := h + [e];
    if Contiguous(Append(d, e), g) {
      forall i, j | 0 <= i <= j < |h| && Kept(d, h[i]) ensures Kept(d, h[j]) {
        assert g[i] == h[i] && g[j] == h[j];
        AppendKept(d, e, h[i]);
        AppendKept(d, e, h[j]);
      }
    }
    if Contiguous(d, h) {
      forall i, j | 0 <= i <= j < |g| && Kept(Append(d, e), g[i]) ensures Kept(Append(d, e), g[j]) {
        AppendKept(d, e, g[i]);
        AppendKept(d, e, g[j]);
        if j < |h| { assert g[i] == h[i] && g[j] == h[j]; }
      }
    }
  }

  /** Opening with create adds an empty audit.log when there is none. */
  function Opened(d: Dir): Dir {
    if 0 in d then d else d[0 := []]
  }

  lemma OpenKeepsOrder(d: Dir, h: seq<Entry>)
    requires Ordered(d, h)
    ensures Ordered(Opened(d), h)
  {
  }

  lemma OpenKeeps(d: Dir, h: seq<Entry>)
    requires Ordered(d, h)
    ensures Ordered(Opened(d), h)
    ensures Contiguous(d, h) <==> Contiguous(Opened(d), h)
    ensures forall m :: ClearFrom(d, m) ==> ClearFrom(Opened(d), m)
    ensures forall x :: Kept(Opened(d), x) <==> Kept(d, x)
  {
    OpenKeepsOrder(d, h);
    forall x ensures Kept(Opened(d), x) <==> Kept(d, x) {
      if Kept(d, x) {
        var n: nat :| n in d && x in d[n];
        assert n in Opened(d) && x in Opened(d)[n];
      }
    }
  }

  // ---------- reading the log back ----------

  /** The files read from slot `top` down to audit.log. */
  function ReadBack(d: Dir, top: nat): seq<Entry> {
    (if top in d then d[top] else []) + if top == 0 then [] else ReadBack(d, top - 1)
  }

  ghost predicate HeldUpTo(d: Dir, top: nat, e: Entry) {
    exists n :: n in d && n <= top && e in d[n]
  }

  lemma {:induction false} ReadBackHolds(d: Dir, top: nat, e: Entry)
    ensures e in ReadBack(d, top) <==> HeldUpTo(d, top, e)
  {
    if top > 0 {
      ReadBackHolds(d, top - 1, e);
      HeldHereOrBelow(d, top, e);
    }
  }

  lemma HeldHereOrBelow(d: Dir, top: nat, e: Entry)
    requires top > 0
    ensures HeldUpTo(d, top, e) <==> (top in d && e in d[top]) || HeldUpTo(d, top - 1, e)
  {
    if HeldUpTo(d, top, e) {
      var n: nat :| n in d && n <= top && e in d[n];
      assert n == top || n <= top - 1;
    }
    if HeldUpTo(d, top - 1, e) {
      var n: nat :| n in d && n <= top - 1 && e in d[n];
      assert n <= top;
    }
  }

  ghost predicate Increasing(s: seq<Entry>) {
    forall i, j :: 0 <= i < j < |s| ==> s[i].stamp < s[j].stamp
  }

  lemma ReadBackIncreasing(d: Dir, top: nat)
    requires EachInOrder(d) && HigherIsOlder(d)
    ensures Increasing(ReadBack(d, top))
  {
    forall n: nat | n <= top ensures Stacks(d, n) {
      if n in d {
        FileIncreasing(d, n);
        if n > 0 {
          AllHeld(d, n - 1);
          AllBelowLater(d, n, ReadBack(d, n - 1));
        }
      }
    }
    StacksIncrease(d, top);
  }

  /** The file of the slot can be put in front of those below it. */
  ghost predicate Stacks(d: Dir, n: nat) {
    n in d ==>
      && Increasing(d[n])
      && (n > 0 ==> forall e, x :: e in ReadBack(d, n - 1) && x in d[n] ==> x.stamp < e.stamp)
  }

  lemma {:induction false} StacksIncrease(d: Dir, top: nat)
    requires forall n: nat :: n <= top ==> Stacks(d, n)
    ensures Increasing(ReadBack(d, top))
  {
    assert Stacks(d, top);
    if top > 0 {
      StacksIncrease(d, top - 1);
      if top in d {
        IncreasingConcat(d[top], ReadBack(d, top - 1));
      } else {
        assert [] + ReadBack(d, top - 1) == ReadBack(d, top - 1);
      }
    } else if 0 in d {
      assert d[0] + [] == d[0];
    }
  }

  lemma FileIncreasing(d: Dir, n: nat)
    requires EachInOrder(d) && n in d
    ensures Increasing(d[n])
  {
  }

  lemma AllHeld(d: Dir, top: nat)
    ensures forall e :: e in ReadBack(d, top) ==> HeldUpTo(d, top, e)
  {
    forall e | e in ReadBack(d, top) ensures HeldUpTo(d, top, e) {
      ReadBackHolds(d, top, e);
    }
  }

  lemma AllBelowLater(d: Dir, top: nat, below: seq<Entry>)
    requires HigherIsOlder(d) && top in d
    requires top > 0 && forall e :: e in below ==> HeldUpTo(d, top - 1, e)
    ensures forall e, x :: e in below && x in d[top] ==> x.stamp < e.stamp
  {
    forall e | e in below ensures forall x :: x in d[top] ==> x.stamp < e.stamp {
      LaterThanAll(d, top, e);
    }
  }

  lemma LaterThanAll(d: Dir, top: nat, e: Entry)
    requires HigherIsOlder(d) && top > 0 && top in d && HeldUpTo(d, top - 1, e)
    ensures forall x :: x in d[top] ==> x.stamp < e.stamp
  {
    forall x | x in d[top] ensures x.stamp < e.stamp {
      BelowIsLater(d, top, e, x);
    }
  }

  lemma BelowIsLater(d: Dir, top: nat, e: Entry, x: Entry)
    requires HigherIsOlder(d) && top > 0 && top in d && x in d[top] && HeldUpTo(d, top - 1, e)
    ensures x.stamp < e.stamp
  {
    var n: nat :| n in d && n <= top - 1 && e in d[n];
    HigherStamp(d, top, n, x, e);
  }

  lemma HigherStamp(d: Dir, older: nat, newer: nat, x: Entry, e: Entry)
    requires HigherIsOlder(d) && newer < older && older in d && newer in d && x in d[older] && e in d[newer]
    ensures x.stamp < e.stamp
  {
    var i :| 0 <= i < |d[older]| && d[older][i] == x;
    var j :| 0 <= j < |d[newer]| && d[newer][j] == e;
  }

  lemma IncreasingConcat(s: seq<Entry>, t: seq<Entry>)
    requires Increasing(s) && Increasing(t)
    requires forall e, x :: e in t && x in s ==> x.stamp < e.stamp
    ensures Increasing(s + t)
  {
    forall i, j | 0 <= i < j < |s + t| ensures (s + t)[i].stamp < (s + t)[j].stamp {
      if i < |s| && |s| <= j {
        assert s[i] in s && t[j - |s|] in t;
      }
    }
  }

  /** A choice of writes that, with each, has all later ones. */
  ghost predicate Gapless(s: seq<Entry>, h: seq<Entry>) {
    && (forall e :: e in s ==> e in h)
    && (forall i, j :: 0 <= i <= j < |h| && h[i] in s ==> h[j] in s)
  }

  lemma LastKeptIsLast(s: seq<Entry>, h: seq<Entry>)
    requires Stamped(h) && Increasing(s) && s != [] && Gapless(s, h)
    ensures h != [] && s[|s| - 1] == h[|h| - 1]
  {
    var last := s[|s| - 1];
    assert last in h;
    var k :| 0 <= k < |h| && h[k] == last;
    assert h[|h| - 1] in s;
    var p :| 0 <= p < |s| && s[p] == h[|h| - 1];
  }

  lemma ButLast(s: seq<Entry>)
    requires Increasing(s) && s != []
    ensures forall e :: e in s[..|s| - 1] <==> e in s && e != s[|s| - 1]
  {
    var most, last := s[..|s| - 1], s[|s| - 1];
    assert s == most + [last];
    assert forall e :: e in most ==> e.stamp < last.stamp;
  }

  lemma DroppingLastIsGapless(s: seq<Entry>, h: seq<Entry>)
    requires Increasing(s) && Increasing(h) && Gapless(s, h)
    requires s != [] && h != [] && s[|s| - 1] == h[|h| - 1]
    ensures Gapless(s[..|s| - 1], h[..|h| - 1])
  {
    var s', h' := s[..|s| - 1], h[..|h| - 1];
    ButLast(s);
    ButLast(h);
    forall e | e in s' ensures e in h' {
      assert e in s && e in h;
    }
    forall i, j | 0 <= i <= j < |h'| && h'[i] in s' ensures h'[j] in s' {
      assert h'[i] == h[i] && h'[j] == h[j] && h[j] in h';
    }
  }

  /** An increasing choice of writes that reaches up to the last one without a gap is a suffix. */
  lemma {:induction false} GaplessIsSuffix(s: seq<Entry>, h: seq<Entry>)
    requires Stamped(h) && Increasing(s) && Gapless(s, h)
    ensures |s| <= |h| && s == h[|h| - |s|..]
  {
    if s != [] {
      LastKeptIsLast(s, h);
      DroppingLastIsGapless(s, h);
      GaplessIsSuffix(s[..|s| - 1], h[..|h| - 1]);
      SuffixExtends(s, h);
    }
  }

  lemma SuffixExtends(s: seq<Entry>, h: seq<Entry>)
    requires s != [] && h != [] && s[|s| - 1] == h[|h| - 1] && |s| <= |h|
    requires s[..|s| - 1] == h[..|h| - 1][|h| - |s|..]
    ensures s == h[|h| - |s|..]
  {
    assert s == s[..|s| - 1] + [s[|s| - 1]];
  }

  /** Nothing but the latest writes, all of them, in order. */
  ghost predicate EndsHistory(s: seq<Entry>, h: seq<Entry>) {
    |s| <= |h| && s == h[|h| - |s|..]
  }

  /** Read from its highest slot down, a gapless directory is exactly the end of the history. */
  lemma ReadBackIsSuffix(d: Dir, h: seq<Entry>, top: nat)
    requires Stamped(h) && Ordered(d, h) && Contiguous(d, h)
    requires ClearFrom(d, top + 1)
    ensures EndsHistory(ReadBack(d, top), h)
  {
    var r := ReadBack(d, top);
    ReadBackIncreasing(d, top);
    forall e ensures e in r <==> Kept(d, e) {
      ReadBackHolds(d, top, e);
      if Kept(d, e) {
        var n: nat :| n in d && e in d[n];
        assert n <= top;
      }
    }
    forall e | e in r ensures e in h {
      KeptIsHistory(d, h, e);
    }
    GaplessIsSuffix(r, h);
  }
}

/**
 How much the audit log keeps and how large it grows, in runs without faults from an
 empty directory with fixed limits.
 */
module AuditBounds {
  import opened AuditDir
  import opened AuditLog

  /** The history of logging `recs` one after the other. */
  function History(recs: seq<string>): (h: seq<Entry>)
    ensures |h| == |recs| && forall i :: 0 <= i < |recs| ==> h[i] == Entry(i, recs[i])
  {
    seq(|recs|, i requires 0 <= i < |recs| => Entry(i, recs[i]))
  }

  /** The directory after logging `recs`. */
  function AfterRecords(recs: seq<string>, maxSize: int, m: nat): (d: Dir)
    ensures 0 in d
  {
    if recs == [] then map[0 := []]
    else
      var last := |recs| - 1;
      Decide(AfterRecords(recs[..last], maxSize, m), maxSize, m, Entry(last, recs[last]))
  }

  /** Slots 0 to k-1 and no others are in use. */
  ghost predicate Uses(d: Dir, k: nat) {
    forall n: nat :: n in d <==> n < k
  }

  /** The first record of each file would not have fitted the file one slot up. */
  ghost predicate Packed(d: Dir, maxSize: int) {
    forall n :: n in d && n + 1 in d ==> d[n] != [] && Size(d[n + 1]) + |d[n][0].bytes| > maxSize
  }

  ghost predicate Fits(f: File, maxSize: int) {
    Size(f) <= maxSize || |f| == 1
  }

  ghost predicate AllKept(d: Dir, h: seq<Entry>) {
    forall i :: 0 <= i < |h| ==> Kept(d, h[i])
  }

  ghost predicate WellFilled(d: Dir, k: nat, maxSize: int, m: nat) {
    && 0 < k <= m && Uses(d, k) && Packed(d, maxSize)
    && forall n :: n in d ==> Fits(d[n], maxSize)
  }

  lemma RotationFills(d: Dir, k: nat, maxSize: int, m: nat, e: Entry)
    requires WellFilled(d, k, maxSize, m) && Size(d[0]) + |e.bytes| > maxSize
    ensures WellFilled(Append(Rotated(d, m), e), if k < m then k + 1 else k, maxSize, m)
  {
    var r := Append(Rotated(d, m), e);
    assert r[0] == [e];
    forall n: nat ensures n in r <==> n == 0 || (n - 1 in d && n < m)
                  ensures n in r && n != 0 ==> r[n] == d[n - 1]
    {
      ShiftedSlot(d, m, 0, n);
    }
  }

  lemma AppendFills(d: Dir, k: nat, maxSize: int, m: nat, e: Entry)
    requires WellFilled(d, k, maxSize, m) && Size(d[0]) + |e.bytes| <= maxSize
    ensures WellFilled(Append(d, e), k, maxSize, m)
  {
    var f := d[0] + [e];
    assert f[..|f| - 1] == d[0];
    assert Size(f) == Size(d[0]) + |e.bytes|;
  }

  lemma OneMoreRecord(recs: seq<string>, i: nat, maxSize: int, m: nat)
    requires i < |recs|
    ensures History(recs[..i + 1]) == History(recs[..i]) + [Entry(i, recs[i])]
    ensures AfterRecords(recs[..i + 1], maxSize, m)
            == Decide(AfterRecords(recs[..i], maxSize, m), maxSize, m, Entry(i, recs[i]))
  {
    assert recs[..i + 1][..i] == recs[..i];
  }

  /** One record more: the files stay well filled, and something is dropped only from a full chain. */
  lemma DecideFills(d: Dir, h: seq<Entry>, k: nat, maxSize: int, m: nat, e: Entry) returns (k': nat)
    requires 0 < maxSize && WellFilled(d, k, maxSize, m)
    ensures WellFilled(Decide(d, maxSize, m, e), k', maxSize, m)
    ensures AllKept(d, h) || k == m ==> AllKept(Decide(d, maxSize, m, e), h + [e]) || k' == m
  {
    k' := k;
    if Size(d[0]) + |e.bytes| > maxSize {
      RotationFills(d, k, maxSize, m, e);
      if k < m {
        k' := k + 1;
        if AllKept(d, h) {
          forall i | 0 <= i < |h| ensures Kept(Rotated(d, m), h[i]) {
            assert Kept(d, h[i]);
            var n: nat :| n in d && h[i] in d[n];
            RotationKeeps(d, m, n, h[i]);
          }
          AppendAllKept(Rotated(d, m), h, e);
        }
      }
    } else {
      AppendFills(d, k, maxSize, m, e);
      if AllKept(d, h) { AppendAllKept(d, h, e); }
    }
  }

  /** While fewer than `m` files are in use nothing has been dropped. */
  lemma {:induction false} RecordsFill(recs: seq<string>, maxSize: int, m: nat) returns (k: nat)
    requires 0 < maxSize && 0 < m
    ensures WellFilled(AfterRecords(recs, maxSize, m), k, maxSize, m)
    ensures AllKept(AfterRecords(recs, maxSize, m), History(recs)) || k == m
  {
    if recs == [] {
      k := 1;
    } else {
      var last := |recs| - 1;
      var before := RecordsFill(recs[..last], maxSize, m);
      k := DecideFills(AfterRecords(recs[..last], maxSize, m), History(recs[..last]), before, maxSize, m,
                       Entry(last, recs[last]));
      assert recs[..last + 1] == recs;
      OneMoreRecord(recs, last, maxSize, m);
    }
  }

  lemma RotationKeeps(d: Dir, m: nat, n: nat, e: Entry)
    requires n in d && e in d[n] && n + 1 < m
    ensures Kept(Rotated(d, m), e)
  {
    ShiftedSlot(d, m, 0, n + 1);
    assert e in Rotated(d, m)[n + 1];
  }

  lemma AppendAllKept(d: Dir, h: seq<Entry>, e: Entry)
    requires 0 in d && AllKept(d, h)
    ensures AllKept(Append(d, e), h + [e])
  {
    forall i | 0 <= i < |h + [e]| ensures Kept(Append(d, e), (h + [e])[i]) {
      AppendKept(d, e, (h + [e])[i]);
      if i < |h| { assert Kept(d, h[i]); }
    }
  }

  function TotalBytes(d: Dir, k: nat): nat {
    if k == 0 then 0 else TotalBytes(d, k - 1) + if k - 1 in d then Size(d[k - 1]) else 0
  }

  lemma {:induction false} SizeOfFirst(f: File)
    requires f != []
    ensures |f[0].bytes| <= Size(f)
  {
    if |f| > 1 { SizeOfFirst(f[..|f| - 1]); }
  }

  lemma {:induction false} PairsExceed(d: Dir, pairs: nat, maxSize: nat)
    requires Packed(d, maxSize) && forall n: nat :: n < 2 * pairs ==> n in d
    ensures TotalBytes(d, 2 * pairs) >= pairs * (maxSize + 1)
  {
    if pairs > 0 {
      PairsExceed(d, pairs - 1, maxSize);
      var n := 2 * pairs - 2;
      assert n in d && n + 1 in d;
      SizeOfFirst(d[n]);
      assert TotalBytes(d, n + 2) == TotalBytes(d, n) + Size(d[n]) + Size(d[n + 1]);
      assert pairs * (maxSize + 1) == (pairs - 1) * (maxSize + 1) + (maxSize + 1);
    }
  }

  /**
   Once any record has been dropped, at least half the file limit is filled: any two
   neighbouring files together exceed maxSize.
   */
  lemma DroppingKeepsEnough(recs: seq<string>, maxSize: int, maxFiles: int)
    ensures var d := AfterRecords(recs, maxSize, Effective(maxFiles));
            AllKept(d, History(recs))
            || (0 < maxSize && (0 < maxFiles ==> TotalBytes(d, maxFiles) >= maxFiles / 2 * (maxSize + 1)))
  {
    if maxSize <= 0 {
      UnlimitedKeepsAll(recs, maxSize, Effective(maxFiles));
    } else {
      LimitedKeepsEnough(recs, maxSize, Effective(maxFiles));
    }
  }

  /** Without a size limit nothing is ever dropped. */
  lemma {:induction false} UnlimitedKeepsAll(recs: seq<string>, maxSize: int, m: nat)
    requires maxSize <= 0
    ensures AllKept(AfterRecords(recs, maxSize, m), History(recs))
  {
    if recs != [] {
      var last := |recs| - 1;
      UnlimitedKeepsAll(recs[..last], maxSize, m);
      assert recs[..last + 1] == recs;
      OneMoreRecord(recs, last, maxSize, m);
      AppendAllKept(AfterRecords(recs[..last], maxSize, m), History(recs[..last]), Entry(last, recs[last]));
    }
  }

  lemma LimitedKeepsEnough(recs: seq<string>, maxSize: int, m: nat)
    requires 0 < maxSize && 0 < m
    ensures var d := AfterRecords(recs, maxSize, m);
            AllKept(d, History(recs)) || TotalBytes(d, m) >= m / 2 * (maxSize + 1)
  {
    var k := RecordsFill(recs, maxSize, m);
    if k == m {
      HalfFilled(AfterRecords(recs, maxSize, m), m, m / 2, maxSize);
    }
  }

  lemma HalfFilled(d: Dir, m: nat, pairs: nat, maxSize: nat)
    requires Packed(d, maxSize) && Uses(d, m) && (m == 2 * pairs || m == 2 * pairs + 1)
    ensures TotalBytes(d, m) >= pairs * (maxSize + 1)
  {
    PairsExceed(d, pairs, maxSize);
  }

  ghost predicate Within(d: Dir, longest: nat) {
    forall n, i :: n in d && 0 <= i < |d[n]| ==> |d[n][i].bytes| <= longest
  }

  lemma DecideWithin(d: Dir, maxSize: int, m: nat, e: Entry, longest: nat)
    requires 0 < m && 0 in d && Within(d, longest) && |e.bytes| <= longest
    ensures Within(Decide(d, maxSize, m, e), longest)
  {
    var r: Dir := Rotated(d, m);
    forall n: nat, i: nat | n in r && 0 <= i < |r[n]| ensures |r[n][i].bytes| <= longest {
      ShiftedSlot(d, m, 0, n);
    }
    assert Within(r, longest);
  }

  /** Sizes of single records are bounded by that of the longest. */
  lemma {:induction false} RecordsComeFromInput(recs: seq<string>, maxSize: int, m: nat, longest: nat)
    requires 0 < m && forall i :: 0 <= i < |recs| ==> |recs[i]| <= longest
    ensures Within(AfterRecords(recs, maxSize, m), longest)
  {
    if recs != [] {
      var last := |recs| - 1;
      RecordsComeFromInput(recs[..last], maxSize, m, longest);
      DecideWithin(AfterRecords(recs[..last], maxSize, m), maxSize, m, Entry(last, recs[last]), longest);
    }
  }

  lemma {:induction false} BytesBounded(d: Dir, k: nat, bound: nat)
    requires forall n :: n in d ==> Size(d[n]) <= bound
    ensures TotalBytes(d, k) <= k * bound
  {
    if k > 0 {
      BytesBounded(d, k - 1, bound);
      assert k * bound == (k - 1) * bound + bound;
    }
  }

  /**
   At most maxFiles files, each within maxSize or holding one record alone, so the
   whole is within maxFiles times the larger of maxSize and the longest record.
   */
  lemma LogStaysBounded(recs: seq<string>, maxSize: int, maxFiles: int, longest: nat)
    requires 0 < maxSize && forall i :: 0 <= i < |recs| ==> |recs[i]| <= longest
    ensures var d := AfterRecords(recs, maxSize, Effective(maxFiles));
            var bound := if maxSize < longest then longest else maxSize;
            && (forall n :: n in d ==> (n == 0 || n < maxFiles) && (Size(d[n]) <= maxSize || |d[n]| == 1))
            && (0 < maxFiles ==> TotalBytes(d, maxFiles) <= maxFiles * bound)
            && (maxFiles <= 0 ==> TotalBytes(d, 1) <= bound)
  {
    var m := Effective(maxFiles);
    var d := AfterRecords(recs, maxSize, m);
    var bound := if maxSize < longest then longest else maxSize;
    var k := RecordsFill(recs, maxSize, m);
    RecordsComeFromInput(recs, maxSize, m, longest);
    forall n | n in d ensures Size(d[n]) <= bound {
      if |d[n]| == 1 {
        assert d[n] == [d[n][0]] && d[n][..0] == [];
      }
    }
    BytesBounded(d, m, bound);
  }

  /** A call that nothing goes wrong in. */
  method LogReliably(log: Logger, buf: string)
    requires log.Valid() && log.open && log.dir.reliable && log.dir.openable
    modifies log`open, log.dir`files, log.dir`history, log.dir`clobbered
    ensures log.Valid() && log.open
    ensures var e := Entry(|old(log.dir.history)|, buf);
            && log.dir.files == Decide(old(log.dir.files), log.maxSize, Effective(log.maxFiles), e)
            && log.dir.history == old(log.dir.history) + [e]
  {
    var r;
    ghost var came;
    r, came := log.LogDecision(buf);
  }

  /**
   The logger itself, without faults from an empty directory, arrives at AfterRecords: only
   slots within the limit, each file within maxSize or a single record, and once anything
   has been dropped at least half of the limit filled.
   */
  method LogAll(recs: seq<string>, maxSize: int, maxFiles: int) returns (dir: Directory)
    ensures fresh(dir) && dir.Valid()
    ensures dir.files == AfterRecords(recs, maxSize, Effective(maxFiles)) && dir.history == History(recs)
    ensures 0 in dir.files
    ensures 0 < maxSize ==>
      && (forall n :: n in dir.files ==>
            (n == 0 || n < maxFiles) && (Size(dir.files[n]) <= maxSize || |dir.files[n]| == 1))
      && (AllKept(dir.files, dir.history)
          || (0 < maxFiles ==> TotalBytes(dir.files, maxFiles) >= maxFiles / 2 * (maxSize + 1)))
    ensures maxSize <= 0 ==> AllKept(dir.files, dir.history)
  {
    dir := new Directory(true);
    var log := new Logger(dir);
    log.maxSize, log.maxFiles := maxSize, maxFiles;
    ghost var m := Effective(maxFiles);
    for i := 0 to |recs|
      invariant log.Valid() && log.open && log.dir == dir && dir.reliable && dir.openable
      invariant log.maxSize == maxSize && log.maxFiles == maxFiles
      invariant fresh(log) && fresh(dir)
      invariant dir.files == AfterRecords(recs[..i], maxSize, m)
      invariant dir.history == History(recs[..i])
    {
      OneMoreRecord(recs, i, maxSize, m);
      LogReliably(log, recs[i]);
    }
    assert recs[..|recs|] == recs;
    DroppingKeepsEnough(recs, maxSize, maxFiles);
    if 0 < maxSize { LogStaysBounded(recs, maxSize, maxFiles, Longest(recs)); }
  }

  function Longest(recs: seq<string>): (n: nat)
    ensures forall i :: 0 <= i < |recs| ==> |recs[i]| <= n
  {
    if recs == [] then 0
    else
      var n := Longest(recs[1..]);
      assert forall i :: 1 <= i < |recs| ==> recs[i] == recs[1..][i - 1];
      if n < |recs[0]| then |recs[0]| else n
  }
}

/**
 internal/audit/audit.go: the append-only log with size-based rotation, over a
 directory whose every operation may fail or be cut short by a crash.
 */
module AuditLog {
  import opened AuditDir

  /** What an operation reports. Crashed: the process died, nothing after it runs. */
  datatype Io = Done | Missing | Failed | Crashed

  /** What happens to an operation: it works, it fails without effect, or the process dies around it. */
  datatype Luck = Fine | Fault | CrashBefore | CrashAfter

  const DEFAULT_MAX_SIZE := 10 * 1024 * 1024
  const DEFAULT_MAX_FILES := 5

  /** The files after a whole rotation: everything moved up, audit.log empty. */
  function Rotated(d: Dir, m: nat): Dir {
    Shifted(d, m, 0)[0 := []]
  }

  /** The file limit as the rotation takes it, at least one. */
  function Effective(maxFiles: int): (m: nat)
    ensures 1 <= m && maxFiles <= m && (m == 1 || m == maxFiles)
  {
    if maxFiles < 1 then 1 else maxFiles
  }

  /** Every directory a rotation may leave behind, finished or not. */
  ghost predicate MidRotation(d: Dir, m: nat, after: Dir) {
    after == Rotated(d, m) || exists n :: 0 <= n <= m && after == Shifted(d, m, n)
  }

  lemma MidRotationKeepsOrder(d: Dir, h: seq<Entry>, m: nat, after: Dir)
    requires 0 < m && Ordered(d, h) && MidRotation(d, m, after)
    ensures Ordered(after, h)
  {
    if after == Rotated(d, m) {
      ShiftKeepsOrder(d, h, m, 0);
      RotatedIsOpened(d, m);
      OpenKeeps(Shifted(d, m, 0), h);
    } else {
      var n :| 0 <= n <= m && after == Shifted(d, m, n);
      ShiftKeepsOrder(d, h, m, n);
    }
  }

  lemma RotatedIsOpened(d: Dir, m: nat)
    requires 0 < m
    ensures 0 !in Shifted(d, m, 0) && Rotated(d, m) == Opened(Shifted(d, m, 0))
  {
    ShiftedSlot(d, m, 0, 0);
  }

  /** What a write may leave: nothing, or some prefix of the record as one more entry. */
  ghost predicate WriteOutcome(d: Dir, h: seq<Entry>, d': Dir, h': seq<Entry>, buf: string) {
    || (d' == d && h' == h)
    || (0 in d && exists part :: part <= buf && d' == Append(d, Entry(|h|, part)) && h' == h + [Entry(|h|, part)])
  }

  lemma PartIsOutcome(d: Dir, h: seq<Entry>, part: string, buf: string)
    requires 0 in d && part <= buf
    ensures WriteOutcome(d, h, Append(d, Entry(|h|, part)), h + [Entry(|h|, part)], buf)
  {
  }

  /**
   With at most `m` files in use no interruption of a rotation leaves a gap, and no
   slot from m up is ever filled.
   */
  lemma MidRotationKeepsSuffix(d: Dir, h: seq<Entry>, m: nat, after: Dir)
    requires 0 < m && Stamped(h) && Ordered(d, h) && Contiguous(d, h) && ClearFrom(d, m)
    requires MidRotation(d, m, after)
    ensures Contiguous(after, h) && ClearFrom(after, m)
  {
    if after == Rotated(d, m) {
      ShiftKeepsSuffix(d, h, m, 0);
      ShiftKeepsOrder(d, h, m, 0);
      RotatedIsOpened(d, m);
      OpenKeeps(Shifted(d, m, 0), h);
    } else {
      var n :| 0 <= n <= m && after == Shifted(d, m, n);
      ShiftKeepsSuffix(d, h, m, n);
    }
  }

  lemma ShiftKeepsSuffix(d: Dir, h: seq<Entry>, m: nat, n: nat)
    requires 0 < m && Stamped(h) && Ordered(d, h) && Contiguous(d, h) && ClearFrom(d, m)
    requires n <= m
    ensures Contiguous(Shifted(d, m, n), h) && ClearFrom(Shifted(d, m, n), m)
  {
    if n < m {
      ShiftContiguousIff(d, h, m, n);
    }
    forall k | k in Shifted(d, m, n) && m <= k ensures Shifted(d, m, n)[k] == [] {
      ShiftedSlot(d, m, n, k);
    }
  }

  /** One successful LogDecision: rotate if the record would push audit.log past the limit, then append. */
  function Decide(d: Dir, maxSize: int, m: nat, e: Entry): Dir
    requires 0 in d
  {
    Append(if maxSize > 0 && Size(d[0]) + |e.bytes| > maxSize then Rotated(d, m) else d, e)
  }

  /** Everything one LogDecision may leave behind, whatever fails in it and wherever it dies. */
  ghost predicate LogOutcome(d: Dir, h: seq<Entry>, m: nat, d': Dir, h': seq<Entry>, buf: string) {
    exists mid :: (mid == d || MidRotation(d, m, mid)) && WriteOutcome(mid, h, d', h', buf)
  }

  /** LogDecision never leaves a gap while no more than `m` files are in use. */
  lemma LogOutcomeKeepsSuffix(d: Dir, h: seq<Entry>, m: nat, d': Dir, h': seq<Entry>, buf: string)
    requires 0 < m && Stamped(h) && Ordered(d, h) && Contiguous(d, h) && ClearFrom(d, m)
    requires LogOutcome(d, h, m, d', h', buf)
    ensures Contiguous(d', h') && ClearFrom(d', m)
  {
    var mid :| (mid == d || MidRotation(d, m, mid)) && WriteOutcome(mid, h, d', h', buf);
    if mid != d {
      MidRotationKeepsOrder(d, h, m, mid);
      MidRotationKeepsSuffix(d, h, m, mid);
    }
    if d' != mid {
      var part :| part <= buf && d' == Append(mid, Entry(|h|, part)) && h' == h + [Entry(|h|, part)];
      AppendKeeps(mid, h, Entry(|h|, part));
    }
  }

  // ---------- the same slot by slot, in terms of the limits themselves ----------

  /** Every file above audit.log is the one that was one slot below, from maxFiles up none has moved. */
  ghost predicate UpByOne(d: Dir, maxFiles: int, after: Dir) {
    && (forall k: nat :: 1 <= k < maxFiles ==> (k in after <==> k - 1 in d) && (k in after ==> after[k] == d[k - 1]))
    && (forall k: nat :: 1 <= k && maxFiles <= k ==> (k in after <==> k in d) && (k in after ==> after[k] == d[k]))
  }

  /** Where a record lands and what it moves. */
  ghost predicate Landed(d: Dir, maxSize: int, maxFiles: int, e: Entry, after: Dir)
    requires 0 in d
  {
    if maxSize <= 0 || Size(d[0]) + |e.bytes| <= maxSize then after == d[0 := d[0] + [e]]
    else 0 in after && after[0] == [e] && UpByOne(d, maxFiles, after)
  }

  /** The slot a rotation empties: the last of the limit, or audit.log itself if it is the only one. */
  ghost predicate InLastSlot(d: Dir, maxFiles: int, e: Entry) {
    exists n: nat :: n in d && e in d[n] && (n == maxFiles - 1 || (n == 0 && maxFiles < 2))
  }

  lemma RotatedSlots(d: Dir, maxFiles: int)
    ensures UpByOne(d, maxFiles, Rotated(d, Effective(maxFiles)))
  {
    var m := Effective(maxFiles);
    forall k: nat
      ensures 1 <= k < m ==>
                (k in Rotated(d, m) <==> k - 1 in d) && (k in Rotated(d, m) ==> Rotated(d, m)[k] == d[k - 1])
      ensures m <= k ==> (k in Rotated(d, m) <==> k in d) && (k in Rotated(d, m) ==> Rotated(d, m)[k] == d[k])
    {
      ShiftedSlot(d, m, 0, k);
    }
  }

  /** A finished rotation costs exactly the records of the last slot within the limit. */
  lemma RotationDrops(d: Dir, h: seq<Entry>, maxFiles: int, e: Entry)
    requires Stamped(h) && Ordered(d, h)
    ensures Kept(Rotated(d, Effective(maxFiles)), e) <==> Kept(d, e) && !InLastSlot(d, maxFiles, e)
  {
    var m := Effective(maxFiles);
    ShiftDropsOldestSlot(d, h, m, 0, e);
    RotatedIsOpened(d, m);
    OpeningKeeps(Shifted(d, m, 0), e);
  }

  lemma OpeningKeeps(d: Dir, e: Entry)
    ensures Kept(Opened(d), e) <==> Kept(d, e)
  {
    if Kept(d, e) {
      var n :| n in d && e in d[n];
      assert n in Opened(d) && e in Opened(d)[n];
    }
  }

  lemma DecideSlots(d: Dir, maxSize: int, maxFiles: int, e: Entry)
    requires 0 in d
    ensures Landed(d, maxSize, maxFiles, e, Decide(d, maxSize, Effective(maxFiles), e))
  {
    RotatedSlots(d, maxFiles);
  }

  class Directory {
    var files: Dir
    const reliable: bool           // nothing fails but opening, and that only while not `openable`
    var openable: bool             // audit.log may be opened; not the daemon's to change
    var history: seq<Entry>        // every write that reached the disk; only specifications need it
    ghost var clobbered: bool      // a rename has landed on an existing file

    ghost predicate Valid()
      reads this
    {
      Stamped(history) && Ordered(files, history) && !clobbered
    }

    constructor (reliable: bool)
      ensures Valid() && files == map[] && history == [] && this.reliable == reliable && openable
    {
      this.reliable, openable := reliable, true;
      files, history, clobbered := map[], [], false;
    }

    method Draw() returns (luck: Luck)
      ensures reliable ==> luck == Fine
    {
      luck := *;
      if reliable { luck := Fine; }
    }

    method Stat(slot: nat) returns (r: Io)
      ensures r == Done ==> slot in files
      ensures r == Missing ==> slot !in files
      ensures reliable ==> r == Done || r == Missing
    {
      var luck := Draw();
      match luck {
        case Fine => r := if slot in files then Done else Missing;
        case Fault => r := Failed;
        case _ => r := Crashed;
      }
    }

    method Remove(slot: nat) returns (r: Io)
      modifies this`files
      ensures files == old(files) || (files == old(files) - {slot} && (r == Done || r == Crashed))
      ensures r == Done || r == Missing ==> files == old(files) - {slot}
      ensures reliable ==> r == Done || r == Missing
    {
      var luck := Draw();
      match luck {
        case Fine => r := if slot in files then Done else Missing;
        case Fault => r := Failed;
        case _ => r := Crashed;
      }
      if luck == Fine || luck == CrashAfter { files := files - {slot}; }
    }

    /** A rename replaces its target; whether one ever did is recorded. */
    method Rename(src: nat, dst: nat) returns (r: Io)
      requires src != dst
      modifies this`files, this`clobbered
      ensures files == old(files) || (src in old(files) && files == old(files)[dst := old(files)[src]] - {src})
      ensures clobbered == (old(clobbered) || (files != old(files) && dst in old(files)))
      ensures r == Done ==> src in old(files) && files != old(files)
      ensures r == Failed ==> files == old(files)
      ensures r != Missing
      ensures reliable && src in old(files) ==> r == Done
    {
      var luck := Draw();
      r := if luck == Fault || (luck == Fine && src !in files) then Failed
           else if luck == Fine then Done else Crashed;
      if src in files && (luck == Fine || luck == CrashAfter) {
        clobbered := clobbered || dst in files;
        files := files[dst := files[src]] - {src};
        assert src in old(files) && src !in files;
      }
    }

    method OpenAppend() returns (r: Io)
      modifies this`files
      ensures files == old(files) || files == Opened(old(files))
      ensures r == Done ==> files == Opened(old(files))
      ensures r == Failed ==> files == old(files)
      ensures r != Missing
      ensures reliable ==> r == if openable then Done else Failed
    {
      var luck := Draw();
      r := if luck == Fault || (luck == Fine && !openable) then Failed else if luck == Fine then Done else Crashed;
      if openable && (luck == Fine || luck == CrashAfter) { files := Opened(files); }
    }

    /** Appends `buf` to audit.log; a failing or interrupted write may leave any prefix of it. */
    method Write(buf: string) returns (r: Io)
      requires Valid() && 0 in files
      modifies this`files, this`history
      ensures Valid()
      ensures WriteOutcome(old(files), old(history), files, history, buf)
      ensures r == Done ==> files == Append(old(files), Entry(|old(history)|, buf))
                            && history == old(history) + [Entry(|old(history)|, buf)]
      ensures r != Missing
      ensures reliable ==> r == Done
    {
      var luck := Draw();
      var cut :| 0 <= cut <= |buf|;
      var part := if luck == Fine then buf else buf[..cut];
      r := if luck == Fine then Done else if luck == Fault then Failed else Crashed;
      if part != "" || luck == Fine {
        var e := Entry(|history|, part);
        AppendKeeps(files, history, e);
        PartIsOutcome(files, history, part, buf);
        files, history := Append(files, e), history + [e];
      }
    }
  }

  datatype LogResult = Logged | Refused | StatFailed | RotateFailed | WriteFailed | Died

  class Logger {
    const dir: Directory
    var open: bool        // file != nil
    var maxSize: int
    var maxFiles: int

    ghost predicate Valid()
      reads this, dir
    {
      dir.Valid() && (open ==> 0 in dir.files)
    }

    /** New: opens or creates audit.log and takes the default limits. `open` is false if that failed. */
    constructor (dir: Directory)
      requires dir.Valid()
      modifies dir`files
      ensures Valid() && this.dir == dir
      ensures maxSize == 10485760 && maxFiles == 5
      ensures dir.files == old(dir.files) || dir.files == Opened(old(dir.files))
      ensures dir.reliable && dir.openable ==> open
    {
      this.dir := dir;
      open, maxSize, maxFiles := false, DEFAULT_MAX_SIZE, DEFAULT_MAX_FILES;
      new;
      OpenKeepsOrder(dir.files, dir.history);
      var r := dir.OpenAppend();
      open := r == Done;
    }

    method Close()
      requires Valid()
      modifies this`open
      ensures Valid() && !open
    {
      open := false;
    }

    /** The body of the loop: slot n-1 moves to the free slot n, if there is such a file. */
    method MoveFileUp(n: nat, ghost m: nat, ghost d: Dir) returns (r: Io)
      requires 2 <= n < m && dir.files == Shifted(d, m, n) && !dir.clobbered
      modifies dir`files, dir`clobbered
      ensures !dir.clobbered && r != Missing
      ensures dir.files == Shifted(d, m, n) || dir.files == Shifted(d, m, n - 1)
      ensures r == Done ==> dir.files == Shifted(d, m, n - 1)
      ensures r == Failed ==> dir.files == Shifted(d, m, n)
      ensures dir.reliable ==> r == Done
    {
      ShiftedSlot(d, m, n, n);
      r := dir.Stat(n - 1);
      if r == Missing {
        r := Done;
      } else if r == Done {
        r := dir.Rename(n - 1, n);
      }
    }

    /**
     rotateLocked. Wherever it stops, the directory is one of those MidRotation
     lists, nothing was overwritten by a rename, and unless it finished the logger
     has no file. `came` is the slot it had come down to; the error names the operation.
     Finished, it has moved every file within the limit up by one and dropped the last.
     */
    method RotateLocked() returns (r: Io, ghost came: nat)
      requires Valid() && open
      modifies this`open, dir`files, dir`clobbered
      ensures Valid()
      ensures MidRotation(old(dir.files), Effective(maxFiles), dir.files)
      ensures r == Done ==> dir.files == Rotated(old(dir.files), Effective(maxFiles))
      ensures r == Done ==>
        && 0 in dir.files && dir.files[0] == [] && UpByOne(old(dir.files), maxFiles, dir.files)
        && forall e :: Kept(dir.files, e) <==> Kept(old(dir.files), e) && !InLastSlot(old(dir.files), maxFiles, e)
      ensures came <= Effective(maxFiles)
      ensures r == Failed ==> dir.files == Shifted(old(dir.files), Effective(maxFiles), came)
      ensures r != Missing && (open <==> r == Done)
      ensures dir.reliable ==> if dir.openable then r == Done else r == Failed && came == 0
    {
      open := false;
      ghost var d, h := dir.files, dir.history;
      var m := Effective(maxFiles);
      came := m;
      r := dir.Remove(m - 1);
      assert dir.files == Shifted(d, m, m) || dir.files == Shifted(d, m, m - 1);
      if r == Failed || r == Crashed {
        MidRotationKeepsOrder(d, h, m, dir.files);
        return;
      }
      r, came := MoveAllUp(m, d);
      if r != Done {
        MidRotationKeepsOrder(d, h, m, dir.files);
        return;
      }
      RotatedIsOpened(d, m);
      r := dir.OpenAppend();
      MidRotationKeepsOrder(d, h, m, dir.files);
      open := r == Done;
      RotatedSlots(d, maxFiles);
      forall e ensures Kept(Rotated(d, m), e) <==> Kept(d, e) && !InLastSlot(d, maxFiles, e) {
        RotationDrops(d, h, maxFiles, e);
      }
    }

    /** The renames: those of the loop, from the highest slot down, and that of audit.log. */
    method MoveAllUp(m: nat, ghost d: Dir) returns (r: Io, ghost came: nat)
      requires 0 < m && 0 in d && dir.files == Shifted(d, m, m - 1) && !dir.clobbered
      modifies dir`files, dir`clobbered
      ensures !dir.clobbered && r != Missing && came <= m
      ensures exists n :: 0 <= n <= m && dir.files == Shifted(d, m, n)
      ensures r == Done ==> came == 0
      ensures r == Done || r == Failed ==> dir.files == Shifted(d, m, came)
      ensures dir.reliable ==> r == Done
    {
      came := m - 1;
      r := Done;
      if m >= 2 {
        var n := m - 1;
        while n >= 2
          invariant 1 <= n <= m - 1 && came == n
          invariant dir.files == Shifted(d, m, n)
          invariant !dir.clobbered
          modifies dir`files, dir`clobbered
        {
          r := MoveFileUp(n, m, d);
          if r != Done {
            return;
          }
          n := n - 1;
          came := n;
        }
        r := MoveActiveUp(m, d);
        if r == Done {
          came := 0;
        }
      }
    }

    /** audit.log -> audit.log.1 */
    method MoveActiveUp(ghost m: nat, ghost d: Dir) returns (r: Io)
      requires 2 <= m && 0 in d && dir.files == Shifted(d, m, 1) && !dir.clobbered
      modifies dir`files, dir`clobbered
      ensures !dir.clobbered && r != Missing
      ensures dir.files == Shifted(d, m, 1) || dir.files == Shifted(d, m, 0)
      ensures r == Done ==> dir.files == Shifted(d, m, 0)
      ensures r == Failed ==> dir.files == Shifted(d, m, 1)
      ensures dir.reliable ==> r == Done
    {
      ShiftedSlot(d, m, 1, 1);
      ShiftedSlot(d, m, 1, 0);
      r := dir.Rename(0, 1);
    }

    /** The next record would push audit.log past the limit. */
    ghost predicate Rotates(buf: string)
      reads this, dir
    {
      maxSize > 0 && 0 in dir.files && Size(dir.files[0]) + |buf| > maxSize
    }

    /**
     LogDecision for a record already marshalled to `buf`. A record whose rotation
     fails is not written, and after a failed rotation every later call is refused. How
     much of the files a failed rotation leaves intact depends on how far it `came`.
     */
    method LogDecision(buf: string) returns (r: LogResult, ghost came: nat)
      requires Valid()
      modifies this`open, dir`files, dir`history, dir`clobbered
      ensures Valid()
      ensures r == Refused <==> !old(open)
      ensures r == Refused || r == StatFailed ==> dir.files == old(dir.files) && dir.history == old(dir.history)
      ensures r == RotateFailed ==>
        && !open && dir.history == old(dir.history)
        && old(Rotates(buf)) && came <= Effective(maxFiles)
        && dir.files == Shifted(old(dir.files), Effective(maxFiles), came)
      ensures r == Logged ==>
        var e := Entry(|old(dir.history)|, buf);
        && open && dir.history == old(dir.history) + [e]
        && dir.files == Decide(old(dir.files), maxSize, Effective(maxFiles), e)
        && old(0 in dir.files) && Landed(old(dir.files), maxSize, maxFiles, e, dir.files)
      ensures LogOutcome(old(dir.files), old(dir.history), Effective(maxFiles), dir.files, dir.history, buf)
      ensures dir.reliable && old(open) ==>
        if dir.openable || !old(Rotates(buf)) then r == Logged else r == RotateFailed && came == 0
    {
      ghost var d, h := dir.files, dir.history;
      assert WriteOutcome(d, h, d, h, buf);
      came := 0;
      if !open { return Refused, came; }
      DecideSlots(d, maxSize, maxFiles, Entry(|h|, buf));
      if maxSize > 0 {
        var seen := dir.Stat(0);
        if seen != Done { return if seen == Crashed then Died else StatFailed, came; }
        if Size(dir.files[0]) + |buf| > maxSize {
          var turned;
          turned, came := RotateLocked();
          assert WriteOutcome(dir.files, h, dir.files, h, buf);
          if turned != Done { return if turned == Crashed then Died else RotateFailed, came; }
        }
      }
      var written := dir.Write(buf);
      r := if written == Done then Logged else if written == Failed then WriteFailed else Died;
    }
  }

  /**
   A failed rotation leaves all files intact exactly when it failed to remove the oldest
   slot or found nothing to move, and audit.log exactly when it never came to rename it.
   */
  method LogAndCompare(log: Logger, buf: string) returns (r: LogResult, ghost came: nat)
    requires log.Valid()
    modifies log`open, log.dir`files, log.dir`history, log.dir`clobbered
    ensures log.Valid()
    ensures r == RotateFailed ==>
      var d, m := old(log.dir.files), Effective(log.maxFiles);
      && (log.dir.files == d <==> came == m || forall k :: came <= k < m ==> k !in d)
      && 0 in d && (0 in log.dir.files && log.dir.files[0] == d[0] <==> 0 < came)
  {
    ghost var d, m := log.dir.files, Effective(log.maxFiles);
    r, came := log.LogDecision(buf);
    if r == RotateFailed {
      ShiftIntactIff(d, m, came);
      ActiveIntactIff(d, m, came);
    }
  }

  /**
   A failure that does not leave the existing file intact: only reopening fails, and
   audit.log has by then become audit.log.1, or with a single file is gone for good.
   */
  method ReopenFails(log: Logger, buf: string) returns (r: LogResult)
    requires log.Valid() && log.open && log.Rotates(buf)
    requires log.dir.reliable && !log.dir.openable
    modifies log`open, log.dir`files, log.dir`history, log.dir`clobbered
    ensures r == RotateFailed && 0 !in log.dir.files
    ensures log.maxFiles > 1 ==> 1 in log.dir.files && log.dir.files[1] == old(log.dir.files[0])
  {
    ghost var d, m := log.dir.files, Effective(log.maxFiles);
    ghost var came;
    r, came := log.LogDecision(buf);
    ActiveIntactIff(d, m, 0);
  }

  /** Such a log: one record in it, and no room for the next. */
  method FullLog() returns (log: Logger)
    ensures fresh(log) && fresh(log.dir) && log.Valid() && log.open && log.Rotates("b")
    ensures log.dir.reliable && !log.dir.openable && log.dir.files[0] == [Entry(0, "a")]
  {
    var dir := new Directory(true);
    log := new Logger(dir);
    log.maxSize := 1;
    var r;
    ghost var came;
    r, came := log.LogDecision("a");
    assert dir.files[0] == [Entry(0, "a")];
    assert [Entry(0, "a")][..0] == [];
    dir.openable := false;
  }

  /** What a daemon does to its log over time. A kill stops the process between two calls. */
  datatype Event = Boot(maxSize: int, maxFiles: int) | Log(buf: string) | Shutdown | Kill

  /** New, and the limits set after it; null if it failed. */
  method Boot(dir: Directory, maxSize: int, maxFiles: int) returns (log: Logger?)
    requires dir.Valid()
    modifies dir`files
    ensures dir.Valid()
    ensures log != null ==> fresh(log) && log.Valid() && log.dir == dir && log.maxFiles == maxFiles
    ensures old(Contiguous(dir.files, dir.history)) ==> Contiguous(dir.files, dir.history)
    ensures forall m :: old(ClearFrom(dir.files, m)) ==> ClearFrom(dir.files, m)
  {
    OpenKeeps(dir.files, dir.history);
    log := new Logger(dir);
    log.maxSize, log.maxFiles := maxSize, maxFiles;
    if !log.open { log := null; }
  }

  /** LogDecision, and what it keeps while the log is within `m` files. */
  method LogKeeping(log: Logger, buf: string, ghost m: nat) returns (died: bool)
    requires log.Valid()
    modifies log`open, log.dir`files, log.dir`history, log.dir`clobbered
    ensures log.Valid()
    ensures |old(log.dir.history)| <= |log.dir.history|
            && old(log.dir.history) == log.dir.history[..|old(log.dir.history)|]
    ensures Effective(log.maxFiles) == m
            && old(Contiguous(log.dir.files, log.dir.history) && ClearFrom(log.dir.files, m))
            ==> Contiguous(log.dir.files, log.dir.history) && ClearFrom(log.dir.files, m)
  {
    ghost var d, h := log.dir.files, log.dir.history;
    var r;
    ghost var came;
    r, came := log.LogDecision(buf);
    if Effective(log.maxFiles) == m && Contiguous(d, h) && ClearFrom(d, m) {
      LogOutcomeKeepsSuffix(d, h, m, log.dir.files, log.dir.history, buf);
    }
    died := r == Died;
  }

  /** The file limit in force after the first `i` events, `m` before any. */
  function LimitAfter(plan: seq<Event>, i: nat, m: nat): (r: nat)
    requires i <= |plan|
    ensures 0 < m ==> 0 < r
  {
    if i == 0 then m
    else if plan[i - 1].Boot? then Effective(plan[i - 1].maxFiles)
    else LimitAfter(plan, i - 1, m)
  }

  /** No life keeps fewer files than the one before it. */
  ghost predicate NeverLowered(plan: seq<Event>, m: nat) {
    forall i :: 0 <= i < |plan| && plan[i].Boot? ==> LimitAfter(plan, i, m) <= Effective(plan[i].maxFiles)
  }

  /**
   Any number of daemon lives over one directory, each ended by a shutdown, a kill
   or a crash inside an operation. Whatever fails: order is kept and no rename ever
   lands on an existing file; and if the file limit is never lowered, what is read back
   is exactly the end of the history.
   */
  method RunDaemons(dir: Directory, plan: seq<Event>, m: nat)
    requires dir.Valid() && 0 < m
    modifies dir`files, dir`history, dir`clobbered
    ensures dir.Valid()
    ensures |old(dir.history)| <= |dir.history| && old(dir.history) == dir.history[..|old(dir.history)|]
    ensures old(Contiguous(dir.files, dir.history) && ClearFrom(dir.files, m)) && NeverLowered(plan, m) ==>
      var last := LimitAfter(plan, |plan|, m);
      && Contiguous(dir.files, dir.history) && ClearFrom(dir.files, last)
      && EndsHistory(ReadBack(dir.files, last - 1), dir.history)
    ensures forall top :: Increasing(ReadBack(dir.files, top))
  {
    ghost var kept := Contiguous(dir.files, dir.history) && ClearFrom(dir.files, m) && NeverLowered(plan, m);
    var log: Logger? := null;
    for i := 0 to |plan|
      invariant dir.Valid()
      invariant log != null ==> log.dir == dir && log.Valid() && fresh(log)
      invariant log != null ==> Effective(log.maxFiles) == LimitAfter(plan, i, m)
      invariant |old(dir.history)| <= |dir.history| && old(dir.history) == dir.history[..|old(dir.history)|]
      invariant kept ==> Contiguous(dir.files, dir.history) && ClearFrom(dir.files, LimitAfter(plan, i, m))
    {
      match plan[i] {
        case Boot(maxSize, maxFiles) =>
          log := Boot(dir, maxSize, maxFiles);
        case Log(buf) =>
          if log != null {
            var died := LogKeeping(log, buf, LimitAfter(plan, i, m));
            if died { log := null; }
          }
        case Shutdown =>
          if log != null { log.Close(); log := null; }
        case Kill =>
          log := null;
      }
    }
    ReadsBack(dir.files, dir.history, LimitAfter(plan, |plan|, m), kept);
  }

  lemma ReadsBack(d: Dir, h: seq<Entry>, last: nat, kept: bool)
    requires Stamped(h) && Ordered(d, h)
    requires kept ==> Contiguous(d, h) && ClearFrom(d, last)
    ensures forall top :: Increasing(ReadBack(d, top))
    ensures kept && 0 < last ==> EndsHistory(ReadBack(d, last - 1), h)
  {
    forall top ensures Increasing(ReadBack(d, top)) {
      ReadBackIncreasing(d, top);
    }
    if kept && 0 < last { ReadBackIsSuffix(d, h, last - 1); }
  }

  /**
   One successful LogDecision leaves a gap exactly when it rotates, the slot it
   removes holds something, and so does a slot above it.
   */
  lemma DecideContiguousIff(d: Dir, h: seq<Entry>, maxSize: int, m: nat, e: Entry)
    requires 0 < m && 0 in d && Stamped(h) && Ordered(d, h) && Contiguous(d, h) && e.stamp == |h|
    ensures var rotates := maxSize > 0 && Size(d[0]) + |e.bytes| > maxSize;
            Contiguous(Decide(d, maxSize, m, e), h + [e])
            <==> !rotates || (m - 1 in d ==> d[m - 1] == []) || ClearFrom(d, m)
  {
    if maxSize > 0 && Size(d[0]) + |e.bytes| > maxSize {
      ShiftContiguousIff(d, h, m, 0);
      ShiftKeepsOrder(d, h, m, 0);
      RotatedIsOpened(d, m);
      OpenKeeps(Shifted(d, m, 0), h);
      AppendKeeps(Rotated(d, m), h, e);
    } else {
      AppendKeeps(d, h, e);
    }
  }

  lemma TwoFiles(older: Entry, newer: Entry) returns (d: Dir)
    requires older.stamp == 0 && newer.stamp == 1
    ensures d == map[0 := [newer], 1 := [older]]
    ensures Ordered(d, [older, newer]) && Contiguous(d, [older, newer])
  {
    d := map[0 := [newer], 1 := [older]];
    BothOrdered(d, older, newer);
    BothKept(d, older, newer);
  }

  lemma BothOrdered(d: Dir, older: Entry, newer: Entry)
    requires older.stamp == 0 && newer.stamp == 1 && d == map[0 := [newer], 1 := [older]]
    ensures Ordered(d, [older, newer])
  {
    assert d[0] == [newer] && d[1] == [older];
  }

  lemma BothKept(d: Dir, older: Entry, newer: Entry)
    requires 0 in d && 1 in d && d[0] == [newer] && d[1] == [older]
    ensures Contiguous(d, [older, newer])
  {
    var h := [older, newer];
    assert newer in d[0] && older in d[1];
    assert Kept(d, newer) && Kept(d, older);
    forall i | 0 <= i < |h| ensures Kept(d, h[i]) {
      assert h[i] == older || h[i] == newer;
    }
  }

  /** With an older and a newer file, a rotation that keeps one file leaves a gap. */
  lemma OneFileLeavesAGap(d: Dir, older: Entry, newer: Entry, maxSize: int, e: Entry)
    requires older.stamp == 0 && newer.stamp == 1 && e.stamp == 2 && d == map[0 := [newer], 1 := [older]]
    requires Ordered(d, [older, newer]) && Contiguous(d, [older, newer])
    requires 0 < maxSize < Size([newer]) + |e.bytes|
    ensures !Contiguous(Decide(d, maxSize, 1, e), [older, newer] + [e])
  {
    assert d[0] == [newer] && d[1] == [older];
    DecideContiguousIff(d, [older, newer], maxSize, 1, e);
  }

  /**
   The gap is real: two files in use, then a life with one. The rotation removes
   audit.log itself and leaves the older audit.log.1 behind.
   */
  lemma LoweringMaxFilesLeavesAGap() returns (d: Dir, h: seq<Entry>, e: Entry)
    ensures 0 in d && Stamped(h) && Ordered(d, h) && Contiguous(d, h) && ClearFrom(d, 2)
    ensures !Contiguous(Decide(d, 1, 1, e), h + [e])
  {
    var older, newer := Entry(0, "a"), Entry(1, "b");
    h := [older, newer];
    d := TwoFiles(older, newer);
    e := Entry(2, "c");
    SizeOfOne(newer);
    OneFileLeavesAGap(d, older, newer, 1, e);
  }
}

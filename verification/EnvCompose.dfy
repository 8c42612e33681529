/**
 The environment of an agent: --env-file, --env and the shell (internal/cli/agent.go).
 White space is that of ASCII.
 */
module EnvCompose {
  import opened Basics
  import opened EnvTrip

  /** A bufio.Scanner gives up on a line of this many bytes. */
  const MAX_TOKEN := 65536

  datatype EnvError = CannotRead | MissingEquals(line: nat) | EmptyKey(line: nat) | LineTooLong

  datatype Result<+T> = Ok(value: T) | Err(error: EnvError)

  // ---------- text ----------

  function TrimLeft(s: string): (r: string)
    ensures |r| <= |s| && r == s[|s| - |r|..] && (r != "" ==> !IsSpace(r[0]))
  {
    if s != "" && IsSpace(s[0]) then TrimLeft(s[1..]) else s
  }

  function TrimRight(s: string): (r: string)
    ensures |r| <= |s| && r == s[..|r|] && (r != "" ==> !IsSpace(r[|r| - 1]))
  {
    if s != "" && IsSpace(s[|s| - 1]) then TrimRight(s[..|s| - 1]) else s
  }

  /** strings.TrimSpace */
  function TrimSpace(s: string): (r: string)
    ensures r != "" ==> !IsSpace(r[0]) && !IsSpace(r[|r| - 1])
    ensures |r| <= |s|
  {
    var left := TrimLeft(s);
    var r := TrimRight(left);
    assert r != "" ==> r[0] == left[0];
    r
  }

  function DropReturn(s: string): string {
    if s != "" && s[|s| - 1] == '\r' then s[..|s| - 1] else s
  }

  function NextLine(text: string): (n: nat)
    ensures n <= |text| && (n < |text| ==> text[n] == '\n')
    ensures forall i :: 0 <= i < n ==> text[i] != '\n'
  {
    if text == "" || text[0] == '\n' then 0 else 1 + NextLine(text[1..])
  }

  // ---------- the env file ----------

  /** What a line of the file says: nothing, a pair, or an error. */
  function Line(raw: string, number: nat): Result<Option<string>> {
    Parsed(TrimSpace(raw), number)
  }

  /** The same of a line without white space around it. */
  function Parsed(line: string, number: nat): Result<Option<string>> {
    if line == "" || line[0] == '#' then Ok(None)
    else if !IsPair(line) then Err(MissingEquals(number))
    else
      var key := TrimSpace(KeyOf(line));
      if key == "" then Err(EmptyKey(number))
      else Ok(Some(Pair(key, ValueOf(line))))
  }

  function FirstLine(text: string): string {
    DropReturn(text[..NextLine(text)])
  }

  /** The text after its first line. */
  function Below(text: string): (r: string)
    ensures text != "" ==> |r| < |text|
  {
    if NextLine(text) < |text| then text[NextLine(text) + 1..] else ""
  }

  function Found(line: Result<Option<string>>): seq<string> {
    if line.Ok? && line.value.Some? then [line.value.value] else []
  }

  /** The pairs in the text, `number` lines having been read before it. */
  function Dotenv(text: string, number: nat): Result<seq<string>>
    decreases |text|
  {
    if text == "" then Ok([])
    else
      var n := NextLine(text);
      if n >= MAX_TOKEN then Err(LineTooLong)
      else
        var line := Line(FirstLine(text), number + 1);
        if line.Err? then Err(line.error)
        else
          var rest := Dotenv(Below(text), number + 1);
          if rest.Err? then rest else Ok(Found(line) + rest.value)
  }

  /** parseDotenv: no path, no pairs; `file` is what can be read at the path, if anything can. */
  function FilePairs(path: string, file: Option<string>): Result<seq<string>> {
    if path == "" then Ok([])
    else if file.None? then Err(CannotRead)
    else Dotenv(file.value, 0)
  }

  /** A pair whose key is not empty and has no white space around it. */
  predicate CleanPair(item: string) {
    IsPair(item) && KeyOf(item) != "" && TrimSpace(KeyOf(item)) == KeyOf(item)
  }

  /** Pairs found before the rest is read. */
  function After(out: seq<string>, rest: Result<seq<string>>): Result<seq<string>> {
    if rest.Ok? then Ok(out + rest.value) else rest
  }

  lemma DotenvStep(text: string, number: nat, out: seq<string>)
    requires text != ""
    ensures var line := Line(FirstLine(text), number + 1);
            After(out, Dotenv(text, number)) ==
              if NextLine(text) >= MAX_TOKEN then Err(LineTooLong)
              else if line.Err? then Err(line.error)
              else After(out + Found(line), Dotenv(Below(text), number + 1))
  {
    var line, rest := Line(FirstLine(text), number + 1), Dotenv(Below(text), number + 1);
    if line.Ok? && rest.Ok? {
      Associates(out, Found(line), rest.value);
    }
  }

  method ParseLine(raw: string, lineNo: nat) returns (r: Result<Option<string>>)
    ensures r == Line(raw, lineNo)
  {
    var line := TrimSpace(raw);
    if line == "" || line[0] == '#' {
      return Ok(None);
    }
    var eq := IndexOfEquals(line);
    if eq == |line| {
      return Err(MissingEquals(lineNo));
    }
    var key := TrimSpace(line[..eq]);
    if key == "" {
      return Err(EmptyKey(lineNo));
    }
    r := Ok(Some(Pair(key, line[eq + 1..])));
  }

  method ParseDotenv(path: string, file: Option<string>) returns (r: Result<seq<string>>)
    ensures r == FilePairs(path, file)
  {
    if path == "" {
      return Ok([]);
    }
    if file.None? {
      return Err(CannotRead);
    }
    var text, out: seq<string>, lineNo := file.value, [], 0;
    assert Dotenv(text, 0).Ok? ==> [] + Dotenv(text, 0).value == Dotenv(text, 0).value;
    while text != ""
      invariant lineNo >= 0 && Dotenv(file.value, 0) == After(out, Dotenv(text, lineNo))
      decreases |text|
    {
      DotenvStep(text, lineNo, out);
      if NextLine(text) >= MAX_TOKEN {
        return Err(LineTooLong);
      }
      lineNo := lineNo + 1;
      var line := ParseLine(FirstLine(text), lineNo);
      if line.Err? {
        return Err(line.error);
      }
      out := out + Found(line);
      text := Below(text);
    }
    assert out + [] == out;
    r := Ok(out);
  }

  // ---------- what a file says ----------

  /** Trimming takes white space off both ends and nothing else. */
  lemma TrimSpaceTakes(s: string) returns (i: nat, j: nat)
    ensures i <= j <= |s| && TrimSpace(s) == s[i..j]
    ensures forall k :: 0 <= k < i || j <= k < |s| ==> IsSpace(s[k])
  {
    var left := TrimLeft(s);
    LeftTakes(s);
    RightTakes(left);
    i := |s| - |left|;
    j := i + |TrimRight(left)|;
    forall k | j <= k < |s| ensures IsSpace(s[k]) {
      assert left[k - i] == s[k];
    }
  }

  lemma {:induction false} LeftTakes(s: string)
    ensures forall k :: 0 <= k < |s| - |TrimLeft(s)| ==> IsSpace(s[k])
  {
    if s != "" && IsSpace(s[0]) { LeftTakes(s[1..]); }
  }

  lemma {:induction false} RightTakes(s: string)
    ensures forall k :: |TrimRight(s)| <= k < |s| ==> IsSpace(s[k])
  {
    if s != "" && IsSpace(s[|s| - 1]) { RightTakes(s[..|s| - 1]); }
  }

  /** KEY=VAL, surrounded by white space or not, says just that: the key trimmed, the value as it stands. */
  lemma LineSays(raw: string, number: nat, key: string, value: string)
    requires TrimSpace(raw) == key + "=" + value && '=' !in key && TrimSpace(key) != "" && key[0] != '#'
    ensures Line(raw, number) == Ok(Some(TrimSpace(key) + "=" + value))
  {
    PairSplits(key, value);
    assert TrimSpace(raw)[0] == key[0];
  }

  lemma LineIsSilent(raw: string, number: nat)
    ensures Line(raw, number) == Ok(None) <==> TrimSpace(raw) == "" || TrimSpace(raw)[0] == '#'
  {
  }

  lemma {:induction false} NextLineAt(line: string, rest: string)
    requires '\n' !in line
    ensures NextLine(line) == |line| && NextLine(line + "\n" + rest) == |line|
  {
    if line != "" {
      NextLineAt(line[1..], rest);
      assert (line + "\n" + rest)[1..] == line[1..] + "\n" + rest;
    }
  }

  /** A file is read line by line: the first, without a carriage return at its end, and then the others. */
  lemma FirstLineThenRest(line: string, rest: string, number: nat)
    requires '\n' !in line && |line| < 65536
    ensures var said := Line(if line != "" && line[|line| - 1] == '\r' then line[..|line| - 1] else line, number + 1);
            Dotenv(line + "\n" + rest, number)
            == if said.Err? then Err(said.error) else After(Found(said), Dotenv(rest, number + 1))
  {
    var text := line + "\n" + rest;
    NextLineAt(line, rest);
    assert text[..|line|] == line && text[|line| + 1..] == rest;
    assert Below(text) == rest && FirstLine(text) == DropReturn(line);
  }

  /** The last line may lack its end. */
  lemma LastLineAlone(line: string, number: nat)
    requires '\n' !in line && line != "" && |line| < 65536
    ensures var said := Line(if line[|line| - 1] == '\r' then line[..|line| - 1] else line, number + 1);
            Dotenv(line, number) == if said.Err? then Err(said.error) else Ok(Found(said))
  {
    NextLineAt(line, "");
    assert line[..|line|] == line;
    var said := Line(DropReturn(line), number + 1);
    assert Found(said) + [] == Found(said);
  }

  /** A line of 65536 bytes or more cannot be read. */
  lemma LongLineStops(line: string, rest: string, number: nat)
    requires '\n' !in line && |line| >= 65536
    ensures Dotenv(line, number) == Dotenv(line + "\n" + rest, number) == Err(LineTooLong)
  {
    NextLineAt(line, rest);
  }

  // ---------- what an error means ----------

  /** What is wrong with a line, if anything. */
  function Complaint(raw: string, number: nat): Option<EnvError> {
    if |raw| >= MAX_TOKEN then Some(LineTooLong)
    else
      var line := Line(DropReturn(raw), number);
      if line.Err? then Some(line.error) else None
  }

  /** What is wrong with each line of a text, in order, `number` lines having come before. */
  function Complaints(text: string, number: nat): seq<Option<EnvError>>
    decreases |text|
  {
    if text == "" then []
    else [Complaint(text[..NextLine(text)], number + 1)] + Complaints(Below(text), number + 1)
  }

  /** The first line decides, or leaves it to the rest. */
  lemma HeadDecides(text: string, number: nat, c: Option<EnvError>)
    requires text != "" && c == Complaint(text[..NextLine(text)], number + 1)
    ensures c.Some? ==> Dotenv(text, number) == Err(c.value)
    ensures c.None? && Dotenv(Below(text), number + 1).Err? ==> Dotenv(text, number) == Dotenv(Below(text), number + 1)
    ensures c.None? && Dotenv(Below(text), number + 1).Ok? ==> Dotenv(text, number).Ok?
  {
    assert |text[..NextLine(text)]| == NextLine(text);
  }

  lemma SplitsComplaints(text: string, number: nat, cs: seq<Option<EnvError>>)
    requires cs == Complaints(text, number) && cs != []
    ensures text != "" && cs[0] == Complaint(text[..NextLine(text)], number + 1)
    ensures cs[1..] == Complaints(Below(text), number + 1)
  {
  }

  /** An error is that of the first line with which something is wrong, under that line's number. */
  lemma {:induction false} ErrorIsFirstComplaint(
    text: string, number: nat, cs: seq<Option<EnvError>>, k: nat, error: EnvError)
    requires cs == Complaints(text, number)
    requires k < |cs| && cs[k] == Some(error) && forall j :: 0 <= j < k ==> cs[j].None?
    ensures Dotenv(text, number) == Err(error)
    decreases k
  {
    SplitsComplaints(text, number, cs);
    HeadDecides(text, number, cs[0]);
    if k > 0 {
      assert cs[1..][k - 1] == cs[k];
      ErrorIsFirstComplaint(Below(text), number + 1, cs[1..], k - 1, error);
    }
  }

  /** And where nothing is wrong with any line there is no error. */
  lemma {:induction false} NoComplaintNoError(text: string, number: nat, cs: seq<Option<EnvError>>)
    requires cs == Complaints(text, number) && forall j :: 0 <= j < |cs| ==> cs[j].None?
    ensures Dotenv(text, number).Ok?
    decreases |cs|
  {
    if cs != [] {
      SplitsComplaints(text, number, cs);
      HeadDecides(text, number, cs[0]);
      NoComplaintNoError(Below(text), number + 1, cs[1..]);
    }
  }

  /** What is wrong with a line that is neither blank nor a comment: no '=' at all, or nothing before it. */
  lemma LineErrorMeans(raw: string, number: nat)
    ensures var line := TrimSpace(raw);
            && (Line(raw, number) == Err(MissingEquals(number)) <==> line != "" && line[0] != '#' && '=' !in line)
            && (Line(raw, number) == Err(EmptyKey(number)) <==> line != "" && line[0] == '=')
            && (Line(raw, number).Err? ==>
                  Line(raw, number).error == MissingEquals(number) || Line(raw, number).error == EmptyKey(number))
  {
    ParsedErrorMeans(TrimSpace(raw), number);
  }

  lemma ParsedErrorMeans(line: string, number: nat)
    requires line != "" ==> !IsSpace(line[0])
    ensures Parsed(line, number) == Err(MissingEquals(number)) <==> line != "" && line[0] != '#' && '=' !in line
    ensures Parsed(line, number) == Err(EmptyKey(number)) <==> line != "" && line[0] == '='
    ensures Parsed(line, number).Err? ==>
      Parsed(line, number).error == MissingEquals(number) || Parsed(line, number).error == EmptyKey(number)
  {
    PairHasEquals(line);
    if line != "" && IsPair(line) && KeyOf(line) != "" {
      KeptByTrim(KeyOf(line));
    }
  }

  lemma PairHasEquals(line: string)
    ensures IsPair(line) <==> '=' in line
    ensures IsPair(line) ==> (KeyOf(line) == "" <==> line[0] == '=')
  {
    if IsPair(line) {
      assert line[Eq(line)] == '=';
    }
  }

  /** Trimming leaves something of a text that begins with something. */
  lemma KeptByTrim(s: string)
    requires s != "" && !IsSpace(s[0])
    ensures TrimSpace(s) != ""
  {
    KeptOnTheRight(s);
  }

  lemma {:induction false} KeptOnTheRight(s: string)
    requires s != "" && !IsSpace(s[0])
    ensures TrimRight(s) != ""
    decreases |s|
  {
    if |s| > 1 && IsSpace(s[|s| - 1]) {
      KeptOnTheRight(s[..|s| - 1]);
    }
  }

  // ---------- the pairs ----------

  lemma TrimPlain(s: string)
    requires '=' !in s
    ensures '=' !in TrimSpace(s)
  {
    var left := TrimLeft(s);
    assert forall i :: 0 <= i < |left| ==> left[i] in s;
    var r := TrimRight(left);
    assert forall i :: 0 <= i < |r| ==> r[i] in left;
  }

  lemma TrimAgain(s: string)
    requires s != "" ==> !IsSpace(s[0]) && !IsSpace(s[|s| - 1])
    ensures TrimSpace(s) == s
  {
  }

  /** What a file yields is pairs with proper keys, and nothing else. */
  lemma {:induction false} FilePairsAreClean(text: string, number: nat)
    ensures Dotenv(text, number).Ok? ==> AllClean(Dotenv(text, number).value)
    decreases |text|
  {
    if text != "" && NextLine(text) < MAX_TOKEN {
      var line := Line(FirstLine(text), number + 1);
      FoundIsClean(FirstLine(text), number + 1);
      FilePairsAreClean(Below(text), number + 1);
      assert Dotenv(text, number).Ok? ==>
        Dotenv(text, number).value == Found(line) + Dotenv(Below(text), number + 1).value;
    }
  }

  lemma FoundIsClean(raw: string, number: nat)
    ensures AllClean(Found(Line(raw, number)))
  {
    LineIsClean(raw, number);
  }

  predicate AllClean(items: seq<string>) {
    forall i :: 0 <= i < |items| ==> CleanPair(items[i])
  }

  lemma LineIsClean(raw: string, number: nat)
    ensures var r := Line(raw, number); r.Ok? && r.value.Some? ==> CleanPair(r.value.value)
  {
    ParsedIsClean(TrimSpace(raw), number);
  }

  lemma ParsedIsClean(line: string, number: nat)
    ensures var r := Parsed(line, number); r.Ok? && r.value.Some? ==> CleanPair(r.value.value)
  {
    if IsPair(line) {
      var key := TrimSpace(KeyOf(line));
      TrimPlain(KeyOf(line));
      TrimAgain(key);
      if key != "" {
        PairIsClean(key, ValueOf(line));
      }
    }
  }

  /** White space after the '=' stays: the value is trimmed exactly when it does not begin with any. */
  lemma ValueIsTrimmedIff(raw: string, number: nat)
    requires Line(raw, number).Ok? && Line(raw, number).value.Some?
    ensures var pair := Line(raw, number).value.value;
            && IsPair(pair)
            && var value := ValueOf(pair);
               TrimSpace(value) == value <==> value == "" || !IsSpace(value[0])
  {
    var key, value := LinePair(raw, number);
    PairSplits(key, value);
    TrimmedIff(value);
  }

  /** The pair of a line has a plain key, and a value that does not end in white space. */
  lemma LinePair(raw: string, number: nat) returns (key: string, value: string)
    requires Line(raw, number).Ok? && Line(raw, number).value.Some?
    ensures Line(raw, number).value.value == Pair(key, value)
    ensures '=' !in key && (value != "" ==> !IsSpace(value[|value| - 1]))
  {
    key, value := ParsedPair(TrimSpace(raw), number);
  }

  lemma ParsedPair(line: string, number: nat) returns (key: string, value: string)
    requires line != "" ==> !IsSpace(line[|line| - 1])
    requires Parsed(line, number).Ok? && Parsed(line, number).value.Some?
    ensures Parsed(line, number).value.value == Pair(key, value)
    ensures '=' !in key && (value != "" ==> !IsSpace(value[|value| - 1]))
  {
    key, value := TrimSpace(KeyOf(line)), ValueOf(line);
    TrimPlain(KeyOf(line));
    ValueEnds(line);
  }

  lemma ValueEnds(line: string)
    requires IsPair(line) && !IsSpace(line[|line| - 1])
    ensures ValueOf(line) != "" ==> !IsSpace(ValueOf(line)[|ValueOf(line)| - 1])
  {
  }

  lemma TrimmedIff(value: string)
    requires value != "" ==> !IsSpace(value[|value| - 1])
    ensures TrimSpace(value) == value <==> value == "" || !IsSpace(value[0])
  {
    if value != "" && IsSpace(value[0]) {
      assert |TrimLeft(value[1..])| < |value|;
    }
  }

  lemma PairIsClean(key: string, value: string)
    requires key != "" && '=' !in key && TrimSpace(key) == key
    ensures CleanPair(Pair(key, value))
  {
    PairSplits(key, value);
  }

  // ---------- the shell ----------

  predicate Names(item: string, key: string) {
    item == key || (IsPair(item) && KeyOf(item) == key)
  }

  /** Some entry is about `key`, be it only its bare name. */
  predicate Named(items: seq<string>, key: string) {
    exists i :: 0 <= i < |items| && Names(items[i], key)
  }

  lemma NamedMeans(items: seq<string>, key: string)
    requires '=' !in key
    ensures Named(items, key) <==> exists i :: 0 <= i < |items| && (items[i] == key || key + "=" <= items[i])
  {
    forall i | 0 <= i < |items| ensures Names(items[i], key) <==> items[i] == key || key + "=" <= items[i] {
      PutGives(map[], items[i], false, key);
      var item := items[i];
      if key + "=" <= item {
        assert item == Pair(key, item[|key| + 1..]);
        PairSplits(key, item[|key| + 1..]);
      } else if IsPair(item) {
        assert item == KeyOf(item) + "=" + ValueOf(item);
      }
    }
  }

  /** What the shell gives to a key that nobody named. */
  function Given(items: seq<string>, getenv: string -> string, key: string): seq<string> {
    if !Named(items, key) && getenv(key) != "" then [Pair(key, getenv(key))] else []
  }

  function Inherited(items: seq<string>, getenv: string -> string, keys: seq<string>): seq<string> {
    if keys == [] then []
    else Inherited(items, getenv, keys[..|keys| - 1]) + Given(items, getenv, keys[|keys| - 1])
  }

  method MergeShellEnv(items: seq<string>, getenv: string -> string) returns (out: seq<string>)
    ensures out == items + Inherited(items, getenv, WELL_KNOWN)
  {
    var present := PresentKeys(items);
    out := AddFromShell(items, present, getenv, WELL_KNOWN);
  }

  method AddFromShell(items: seq<string>, present: set<string>, getenv: string -> string, keys: seq<string>)
    returns (out: seq<string>)
    requires forall key :: key in present <==> Named(items, key)
    ensures out == items + Inherited(items, getenv, keys)
  {
    out := items;
    for n := 0 to |keys|
      invariant out == items + Inherited(items, getenv, keys[..n])
    {
      var given := FromShell(items, present, getenv, keys[n]);
      out := out + given;
      assert keys[..n + 1][..n] == keys[..n];
    }
    assert keys[..|keys|] == keys;
  }

  method FromShell(items: seq<string>, present: set<string>, getenv: string -> string, key: string)
    returns (given: seq<string>)
    requires key in present <==> Named(items, key)
    ensures given == Given(items, getenv, key)
  {
    given := [];
    if key in present {
      return;
    }
    var val := getenv(key);
    if val != "" {
      given := [key + "=" + val];
    }
  }

  method PresentKeys(items: seq<string>) returns (present: set<string>)
    ensures forall key :: key in present <==> Named(items, key)
  {
    present := {};
    for n := 0 to |items|
      invariant forall key :: key in present <==> Named(items[..n], key)
    {
      NamedOneMore(items, n);
      var kv := items[n];
      var i := IndexOfEquals(kv);
      if i < |kv| {
        present := present + {kv[..i]};
      }
      present := present + {kv};
    }
    assert items[..|items|] == items;
  }

  lemma NamedOneMore(items: seq<string>, n: nat)
    requires n < |items|
    ensures forall key :: Named(items[..n + 1], key) <==> Named(items[..n], key) || Names(items[n], key)
  {
    forall key ensures Named(items[..n + 1], key) <==> Named(items[..n], key) || Names(items[n], key) {
      var more, less := items[..n + 1], items[..n];
      assert forall i :: 0 <= i < n ==> more[i] == less[i];
      assert more[n] == items[n];
    }
  }

  // ---------- precedence ----------

  /** What composeEnv promises for `key`, `keys` being the well-known ones. */
  function Wanted(
    file: seq<string>, explicit: seq<string>, getenv: string -> string, keys: seq<string>, key: string): Option<string>
  {
    if LastValue(explicit, key).Some? then LastValue(explicit, key)
    else if LastValue(file, key).Some? then LastValue(file, key)
    else if key in keys && !Named(file + explicit, key) && getenv(key) != "" then Some(getenv(key))
    else None
  }

  lemma WellKnownKeysArePlain()
    ensures forall n :: 0 <= n < |WELL_KNOWN| ==> '=' !in WELL_KNOWN[n]
  {
  }

  lemma {:induction false} InheritedValue(
    items: seq<string>, getenv: string -> string, keys: seq<string>, key: string)
    requires forall n :: 0 <= n < |keys| ==> '=' !in keys[n]
    ensures LastValue(Inherited(items, getenv, keys), key)
            == if key in keys && !Named(items, key) && getenv(key) != "" then Some(getenv(key)) else None
  {
    if keys != [] {
      var most, k := keys[..|keys| - 1], keys[|keys| - 1];
      assert keys == most + [k];
      InheritedValue(items, getenv, most, key);
      GivenValue(items, getenv, k, key);
      LastValueConcat(Inherited(items, getenv, most), Given(items, getenv, k), key);
    }
  }

  lemma GivenValue(items: seq<string>, getenv: string -> string, k: string, key: string)
    requires '=' !in k
    ensures LastValue(Given(items, getenv, k), key)
            == if key == k && !Named(items, k) && getenv(k) != "" then Some(getenv(k)) else None
  {
    PairSplits(k, getenv(k));
    assert LastValue([], key) == None;
    assert [Pair(k, getenv(k))][..0] == [];
  }

  lemma {:induction false} ValueIsNamed(items: seq<string>, key: string)
    ensures LastValue(items, key).Some? ==> Named(items, key)
  {
    if items != [] {
      ValueIsNamed(items[..|items| - 1], key);
    }
  }

  /** The merged slice holds, for every key, the explicit value before the file's before the shell's. */
  lemma MergedValue(
    file: seq<string>, explicit: seq<string>, getenv: string -> string, keys: seq<string>, key: string)
    requires forall n :: 0 <= n < |keys| ==> '=' !in keys[n]
    ensures var items := file + explicit;
            LastValue(items + Inherited(items, getenv, keys), key) == Wanted(file, explicit, getenv, keys, key)
  {
    var items := file + explicit;
    LastValueConcat(items, Inherited(items, getenv, keys), key);
    LastValueConcat(file, explicit, key);
    InheritedValue(items, getenv, keys, key);
    ValueIsNamed(items, key);
  }

  /** So does the map composed from it. */
  lemma Precedence(file: seq<string>, explicit: seq<string>, getenv: string -> string, key: string)
    ensures var items := file + explicit;
            Lookup(ToMap(items + Inherited(items, getenv, WELL_KNOWN), false), key)
            == Wanted(file, explicit, getenv, WELL_KNOWN, key)
  {
    var items := file + explicit;
    ToMapIsLastValue(items + Inherited(items, getenv, WELL_KNOWN), key);
    WellKnownKeysArePlain();
    MergedValue(file, explicit, getenv, WELL_KNOWN, key);
  }

  method ComposeEnv(path: string, file: Option<string>, explicit: seq<string>, getenv: string -> string)
    returns (r: Result<map<string, string>>)
    ensures Composed(r, FilePairs(path, file), explicit, getenv)
  {
    var fileEnv := ParseDotenv(path, file);
    if fileEnv.Err? {
      return Err(fileEnv.error);
    }
    var combined := fileEnv.value + explicit;
    var merged := MergeShellEnv(combined, getenv);
    var m := KvSliceToMap(merged);
    forall key ensures Lookup(m, key) == Wanted(fileEnv.value, explicit, getenv, WELL_KNOWN, key) {
      Precedence(fileEnv.value, explicit, getenv, key);
    }
    ToMapKeysArePlain(merged, false);
    r := Ok(m);
  }

  /** The file's error, or a map that holds what is wanted for every key, none of them with an '='. */
  ghost predicate Composed(
    r: Result<map<string, string>>, file: Result<seq<string>>, explicit: seq<string>, getenv: string -> string)
  {
    match file
    case Err(error) => r == Err(error)
    case Ok(pairs) =>
      && r.Ok? && PlainKeys(r.value)
      && forall key :: Lookup(r.value, key) == Wanted(pairs, explicit, getenv, WELL_KNOWN, key)
  }

  /** agent.create from the command line to the daemon: the map that arrives is the map composed. */
  method SendEnv(path: string, file: Option<string>, explicit: seq<string>, getenv: string -> string)
    returns (r: Result<map<string, string>>)
    ensures Composed(r, FilePairs(path, file), explicit, getenv)
  {
    r := ComposeEnv(path, file, explicit, getenv);
    if r.Ok? {
      var wire, order := MapToKVList(r.value);
      RoundTripExactly(r.value, order);
      var arrived := ParseKVList(wire);
      r := Ok(arrived);
    }
  }
}

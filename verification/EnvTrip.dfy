/**
 Environment variables on their way from the command line to the daemon: composeEnv of
 internal/cli/agent.go, mapToKVList of internal/client/rpc.go, parseKVList of
 internal/daemon/lifecycle.go. A char stands for one byte.
 */
module EnvTrip {
  import opened Basics

  const WELL_KNOWN: seq<string> := [
    "ANTHROPIC_API_KEY", "ANTHROPIC_OAUTH_TOKEN", "DEEPSEEK_API_KEY", "DEEPSEEK_MODEL",
    "DEEPSEEK_BASE_URL", "DCLAW_AGENT_PROVIDER"
  ]

  // ---------- entries ----------

  /** Where the first '=' is, or the length. */
  function Eq(s: string): (n: nat)
    ensures n <= |s| && (n < |s| ==> s[n] == '=')
    ensures forall i :: 0 <= i < n ==> s[i] != '='
  {
    if s == "" then 0 else if s[0] == '=' then 0
    else 1 + Eq(s[1..])
  }

  predicate IsPair(s: string) {
    Eq(s) < |s|
  }

  function KeyOf(s: string): (k: string)
    ensures '=' !in k
  {
    s[..Eq(s)]
  }

  function ValueOf(s: string): string
    requires IsPair(s)
  {
    s[Eq(s) + 1..]
  }

  function Pair(key: string, value: string): string {
    key + "=" + value
  }

  lemma PairSplits(key: string, value: string)
    ensures IsPair(Pair(key, value))
    ensures '=' !in key ==> KeyOf(Pair(key, value)) == key && ValueOf(Pair(key, value)) == value
  {
    var s := Pair(key, value);
    assert s[|key|] == '=';
    if Eq(s) < |key| {
      assert key[Eq(s)] == '=';
    }
  }

  // ---------- slices to maps ----------

  /** What an entry does to the map: the client ignores a bare key, the daemon gives it the empty value. */
  function Put(m: map<string, string>, item: string, bare: bool): map<string, string> {
    if IsPair(item) then m[KeyOf(item) := ValueOf(item)]
    else if bare then m[item := ""]
    else m
  }

  /** kvSliceToMap (`bare` false) and parseKVList (`bare` true): later entries overwrite. */
  function ToMap(items: seq<string>, bare: bool): map<string, string> {
    if items == [] then map[] else Put(ToMap(items[..|items| - 1], bare), items[|items| - 1], bare)
  }

  /** The last value given to `key` by a KEY=VAL entry. */
  function LastValue(items: seq<string>, key: string): Option<string> {
    if items == [] then None
    else
      var item := items[|items| - 1];
      if IsPair(item) && KeyOf(item) == key then Some(ValueOf(item)) else LastValue(items[..|items| - 1], key)
  }

  function Lookup(m: map<string, string>, key: string): Option<string> {
    if key in m then Some(m[key]) else None
  }

  lemma {:induction false} ToMapIsLastValue(items: seq<string>, key: string)
    ensures Lookup(ToMap(items, false), key) == LastValue(items, key)
  {
    if items != [] {
      ToMapIsLastValue(items[..|items| - 1], key);
    }
  }

  /** The entry gives `key` a value: KEY=VAL, or, where bare keys count, the key alone. */
  ghost predicate Gives(item: string, key: string, bare: bool) {
    '=' !in key && (key + "=" <= item || (bare && item == key))
  }

  lemma PutGives(m: map<string, string>, item: string, bare: bool, key: string)
    ensures Gives(item, key, bare) ==>
      key in Put(m, item, bare) && Put(m, item, bare)[key] == if item == key then "" else item[|key| + 1..]
    ensures !Gives(item, key, bare) ==> Lookup(Put(m, item, bare), key) == Lookup(m, key)
  {
    if '=' !in key && key + "=" <= item {
      assert item == Pair(key, item[|key| + 1..]);
      PairSplits(key, item[|key| + 1..]);
      assert item[|key|] == '=';
    } else if IsPair(item) {
      assert item == Pair(KeyOf(item), ValueOf(item));
      assert KeyOf(item) + "=" <= item;
    } else {
      assert item[..Eq(item)] == item;
    }
  }

  /** What the map holds for a key is what the last entry that gives it a value says, and nothing if none does. */
  lemma {:induction false} LastEntryDecides(items: seq<string>, bare: bool, key: string, i: nat)
    requires i < |items| && Gives(items[i], key, bare)
    requires forall j :: i < j < |items| ==> !Gives(items[j], key, bare)
    ensures key in ToMap(items, bare)
    ensures ToMap(items, bare)[key] == if items[i] == key then "" else items[i][|key| + 1..]
    decreases |items|
  {
    var most, last := items[..|items| - 1], items[|items| - 1];
    PutGives(ToMap(most, bare), last, bare, key);
    if i < |items| - 1 {
      LastEntryDecides(most, bare, key, i);
    }
  }

  lemma {:induction false} UngivenIsAbsent(items: seq<string>, bare: bool, key: string)
    requires forall j :: 0 <= j < |items| ==> !Gives(items[j], key, bare)
    ensures key !in ToMap(items, bare)
  {
    if items != [] {
      var most, last := items[..|items| - 1], items[|items| - 1];
      PutGives(ToMap(most, bare), last, bare, key);
      UngivenIsAbsent(most, bare, key);
    }
  }

  lemma {:induction false} LastValueConcat(a: seq<string>, b: seq<string>, key: string)
    ensures LastValue(a + b, key) == if LastValue(b, key).Some? then LastValue(b, key) else LastValue(a, key)
  {
    if b == [] {
      assert a + b == a;
    } else {
      var most, last := b[..|b| - 1], b[|b| - 1];
      assert (a + b)[..|a + b| - 1] == a + most && (a + b)[|a + b| - 1] == last;
      LastValueConcat(a, most, key);
    }
  }

  lemma {:induction false} ToMapKeysArePlain(items: seq<string>, bare: bool)
    ensures forall k :: k in ToMap(items, bare) ==> '=' !in k
  {
    if items != [] {
      ToMapKeysArePlain(items[..|items| - 1], bare);
      var item := items[|items| - 1];
      if !IsPair(item) {
        assert item[..Eq(item)] == item;
      }
    }
  }

  /** The loop of kvSliceToMap, its inner loop looking for the first '='. */
  method KvSliceToMap(items: seq<string>) returns (out: map<string, string>)
    ensures out == ToMap(items, false)
  {
    out := map[];
    for n := 0 to |items|
      invariant out == ToMap(items[..n], false)
    {
      var kv := items[n];
      var i := IndexOfEquals(kv);
      if i < |kv| {
        out := out[kv[..i] := kv[i + 1..]];
      }
      assert items[..n + 1][..n] == items[..n];
    }
    assert items[..|items|] == items;
  }

  method IndexOfEquals(s: string) returns (i: nat)
    ensures i == Eq(s)
  {
    i := 0;
    while i < |s|
      invariant i <= |s| && Eq(s) == i + Eq(s[i..])
    {
      if s[i] == '=' {
        return;
      }
      assert s[i..][1..] == s[i + 1..];
      i := i + 1;
    }
  }

  method ParseKVList(items: seq<string>) returns (out: map<string, string>)
    ensures out == ToMap(items, true)
  {
    out := map[];
    for n := 0 to |items|
      invariant out == ToMap(items[..n], true)
    {
      var kv := items[n];
      var eq := IndexOfEquals(kv);
      if eq == |kv| {
        out := out[kv := ""];
      } else {
        out := out[kv[..eq] := kv[eq + 1..]];
      }
      assert items[..n + 1][..n] == items[..n];
    }
    assert items[..|items|] == items;
  }

  // ---------- maps to slices ----------

  /** An order in which Go may range over the map. */
  ghost predicate IsOrder(order: seq<string>, m: map<string, string>) {
    && (forall k :: k in m <==> k in order)
    && (forall i, j :: 0 <= i < j < |order| ==> order[i] != order[j])
  }

  ghost function Listed(m: map<string, string>, order: seq<string>): seq<string>
    requires forall i :: 0 <= i < |order| ==> order[i] in m
  {
    seq(|order|, i requires 0 <= i < |order| => Pair(order[i], m[order[i]]))
  }

  method MapToKVList(m: map<string, string>) returns (out: seq<string>, ghost order: seq<string>)
    ensures IsOrder(order, m) && out == Listed(m, order)
    ensures |out| == |m| && forall k :: k in m ==> Pair(k, m[k]) in out
  {
    out, order := [], [];
    var left := m.Keys;
    while left != {}
      invariant forall k :: k in m <==> k in left || k in order
      invariant forall k :: k in left ==> k !in order
      invariant forall i, j :: 0 <= i < j < |order| ==> order[i] != order[j]
      invariant forall i :: 0 <= i < |order| ==> order[i] in m
      invariant out == Listed(m, order) && |out| + |left| == |m|
      decreases |left|
    {
      var k :| k in left;
      out := out + [k + "=" + m[k]];
      order := order + [k];
      left := left - {k};
    }
    AllListed(m, order);
  }

  lemma AllListed(m: map<string, string>, order: seq<string>)
    requires IsOrder(order, m)
    ensures forall k :: k in m ==> Pair(k, m[k]) in Listed(m, order)
  {
    forall k | k in m ensures Pair(k, m[k]) in Listed(m, order) {
      var i :| 0 <= i < |order| && order[i] == k;
      assert Listed(m, order)[i] == Pair(k, m[k]);
    }
  }

  ghost predicate PlainKeys(m: map<string, string>) {
    forall k :: k in m ==> '=' !in k
  }

  lemma {:induction false} ParsedListing(m: map<string, string>, order: seq<string>)
    requires PlainKeys(m) && forall i :: 0 <= i < |order| ==> order[i] in m
    ensures var r := ToMap(Listed(m, order), true);
            forall k :: (k in r <==> k in order) && (k in r ==> r[k] == m[k])
  {
    if order != [] {
      var most, last := order[..|order| - 1], order[|order| - 1];
      ParsedListing(m, most);
      assert Listed(m, order)[..|order| - 1] == Listed(m, most);
      PairSplits(last, m[last]);
      assert order == most + [last];
    }
  }

  /**
   What the daemon parses out of the client's list is the client's map, in whatever order
   the list was made: exactly when no key holds an '='.
   */
  lemma RoundTripExactly(m: map<string, string>, order: seq<string>)
    requires IsOrder(order, m)
    ensures ToMap(Listed(m, order), true) == m <==> PlainKeys(m)
  {
    ToMapKeysArePlain(Listed(m, order), true);
    if PlainKeys(m) {
      ParsedListing(m, order);
    }
  }
}

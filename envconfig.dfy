// The `.env` merger of the vector service (contrib/vector_service/
// configure_env.py): reading `KEY=VALUE` lines, telling secrets apart, and
// rebuilding the file from the example template while keeping comments in
// place and extra keys of the existing file at the end.

module EnvConfig {
  import opened Text

  // ---------------------------------------------------------------------
  // assignment lines

  /** A line that assigns: not blank once stripped, not a comment, and
      holding an `=`. */
  predicate IsAssignment(raw: string) {
    var t := Strip(raw);
    t != "" && !StartsWith(t, "#") && '=' in raw
  }

  function FirstIndex(s: string, c: char): (i: nat)
    requires c in s
    ensures i < |s| && s[i] == c && c !in s[..i]
  {
    if s[0] == c then 0
    else
      assert c in s[1..] by {
        var k :| 0 <= k < |s| && s[k] == c;
        assert s[1..][k - 1] == c;
      }
      var j := FirstIndex(s[1..], c);
      assert s[..j + 1] == [s[0]] + s[1..][..j];
      j + 1
  }

  /** `raw.split("=", 1)`: the key before the first `=`, the value after
      it, which may hold further `=` signs. */
  function SplitAssignment(raw: string): (r: (string, string))
    requires '=' in raw
    ensures r.0 + "=" + r.1 == raw
    ensures '=' !in r.0
  {
    var i := FirstIndex(raw, '=');
    assert raw[..i] + "=" + raw[i + 1..] == raw by {
      assert raw == raw[..i] + [raw[i]] + raw[i + 1..];
    }
    (raw[..i], raw[i + 1..])
  }

  function KeyOf(raw: string): string
    requires '=' in raw
  {
    SplitAssignment(raw).0
  }

  function ValueOf(raw: string): string
    requires '=' in raw
  {
    SplitAssignment(raw).1
  }

  /** Splitting at the first `=` is the only way to cut an assignment into
      a key without `=` and the rest. */
  lemma SplitAssignmentUnique(raw: string, key: string, value: string)
    requires raw == key + "=" + value && '=' !in key
    ensures '=' in raw && SplitAssignment(raw) == (key, value)
  {
    assert raw[|key|] == '=';
    var (k, v) := SplitAssignment(raw);
    assert k + "=" + v == raw;
    assert k == raw[..|k|] && key == raw[..|key|];
    assert v == raw[|k| + 1..] && value == raw[|key| + 1..];
  }

  // ---------------------------------------------------------------------
  // parse_env, read_example

  /** What one line contributes: its key and value when it assigns. */
  function Entry(raw: string): (r: Option<(string, string)>)
    ensures r.Some? <==> IsAssignment(raw)
    ensures r.Some? ==> r.value == SplitAssignment(raw)
  {
    if IsAssignment(raw) then Some(SplitAssignment(raw)) else None
  }

  function Entries(lines: seq<string>): (r: seq<Option<(string, string)>>)
    ensures |r| == |lines|
    ensures forall i :: 0 <= i < |lines| ==> r[i] == Entry(lines[i])
  {
    seq(|lines|, i requires 0 <= i < |lines| => Entry(lines[i]))
  }

  /** The dictionary filled from entries in order: a later entry for a
      key overrides an earlier one. */
  function Collect<K, V>(es: seq<Option<(K, V)>>): map<K, V>
    decreases |es|
  {
    if |es| == 0 then map[]
    else
      var m := Collect(es[..|es| - 1]);
      var last := es[|es| - 1];
      if last.Some? then m[last.value.0 := last.value.1] else m
  }

  /** The keys of the entries, in order. */
  function CollectKeys<K, V>(es: seq<Option<(K, V)>>): (r: seq<K>)
    ensures |r| <= |es|
    decreases |es|
  {
    if |es| == 0 then []
    else
      var front := CollectKeys(es[..|es| - 1]);
      var last := es[|es| - 1];
      if last.Some? then front + [last.value.0] else front
  }

  /** The key/value map of a file. */
  function ParsedValues(lines: seq<string>): map<string, string> {
    Collect(Entries(lines))
  }

  /** The keys of the assignment lines, in file order. */
  function AssignmentKeys(lines: seq<string>): seq<string> {
    CollectKeys(Entries(lines))
  }

  /** A key is collected exactly when some entry names it, and its value
      is the one of the last such entry. */
  lemma {:induction false} CollectLastWins<K, V>(es: seq<Option<(K, V)>>, k: K)
    ensures k in Collect(es) <==> exists i :: 0 <= i < |es| && es[i].Some? && es[i].value.0 == k
    ensures k in Collect(es) ==> exists i :: (0 <= i < |es| && es[i].Some? && es[i].value.0 == k
      && Collect(es)[k] == es[i].value.1
      && forall j :: i < j < |es| && es[j].Some? ==> es[j].value.0 != k)
    decreases |es|
  {
    if |es| > 0 {
      var n := |es|;
      var front := es[..n - 1];
      CollectLastWins(front, k);
      var last := es[n - 1];
      if last.Some? && last.value.0 == k {
        assert Collect(es)[k] == last.value.1;
      } else {
        if k in Collect(es) {
          var i :| 0 <= i < |front| && front[i].Some? && front[i].value.0 == k
            && Collect(front)[k] == front[i].value.1
            && forall j :: i < j < |front| && front[j].Some? ==> front[j].value.0 != k;
          assert es[i] == front[i];
          forall j | i < j < n && es[j].Some?
            ensures es[j].value.0 != k
          {
            if j < n - 1 {
              assert es[j] == front[j];
            }
          }
        }
        if exists i :: 0 <= i < n && es[i].Some? && es[i].value.0 == k {
          var i :| 0 <= i < n && es[i].Some? && es[i].value.0 == k;
          assert front[i] == es[i];
        }
      }
    }
  }

  /** Line i assigns key k. */
  predicate AssignsAt(lines: seq<string>, i: int, k: string) {
    0 <= i < |lines| && IsAssignment(lines[i]) && KeyOf(lines[i]) == k
  }

  /** Line i is the last line that assigns key k. */
  predicate LastAssignment(lines: seq<string>, i: int, k: string) {
    AssignsAt(lines, i, k) && forall j :: i < j < |lines| ==> !AssignsAt(lines, j, k)
  }

  /** A key is in the parsed map exactly when some assignment line names
      it. */
  lemma {:induction false} ParsedKeys(lines: seq<string>, k: string)
    ensures k in ParsedValues(lines) <==> exists i :: AssignsAt(lines, i, k)
  {
    var es := Entries(lines);
    CollectLastWins(es, k);
    if k in ParsedValues(lines) {
      var i :| 0 <= i < |es| && es[i].Some? && es[i].value.0 == k;
      EntryAssigns(lines, i, k);
    }
    if exists i :: AssignsAt(lines, i, k) {
      var i :| AssignsAt(lines, i, k);
      EntryAssigns(lines, i, k);
    }
  }

  /** The entry of line i names k exactly when line i assigns k. */
  lemma EntryAssigns(lines: seq<string>, i: int, k: string)
    requires 0 <= i < |lines|
    ensures Entries(lines)[i].Some? && Entries(lines)[i].value.0 == k <==> AssignsAt(lines, i, k)
  {
  }

  /** A parsed key has the value of the last assignment line naming it. */
  lemma {:induction false} ParsedValuesLastWins(lines: seq<string>, k: string)
    requires k in ParsedValues(lines)
    ensures exists i :: LastAssignment(lines, i, k) && ParsedValues(lines)[k] == ValueOf(lines[i])
  {
    var es := Entries(lines);
    CollectLastWins(es, k);
    var i :| 0 <= i < |es| && es[i].Some? && es[i].value.0 == k
      && Collect(es)[k] == es[i].value.1
      && forall j :: i < j < |es| && es[j].Some? ==> es[j].value.0 != k;
    assert AssignsAt(lines, i, k) && ParsedValues(lines)[k] == ValueOf(lines[i]);
    forall j | i < j < |lines|
      ensures !AssignsAt(lines, j, k)
    {
      assert es[j] == Entry(lines[j]);
    }
    assert LastAssignment(lines, i, k);
  }

  /** Every key in the file order is a key of the parsed map, and the
      other way round. */
  lemma {:induction false} CollectKeysMatch<K, V>(es: seq<Option<(K, V)>>)
    ensures forall k :: k in CollectKeys(es) <==> k in Collect(es)
    decreases |es|
  {
    if |es| > 0 {
      CollectKeysMatch(es[..|es| - 1]);
    }
  }

  lemma AssignmentKeysMatch(lines: seq<string>)
    ensures forall k :: k in AssignmentKeys(lines) <==> k in ParsedValues(lines)
  {
    CollectKeysMatch(Entries(lines));
  }

  /** `parse_env`: a missing file gives no values. */
  method ParseEnv(file: Option<seq<string>>) returns (values: map<string, string>)
    ensures file.None? ==> values == map[]
    ensures file.Some? ==> values == ParsedValues(file.value)
  {
    values := map[];
    if file.None? {
      return;
    }
    var lines := file.value;
    for i := 0 to |lines|
      invariant values == ParsedValues(lines[..i])
    {
      assert Entries(lines[..i + 1])[..i] == Entries(lines[..i]);
      var raw := lines[i];
      if !IsAssignment(raw) {
        continue;
      }
      var (key, value) := SplitAssignment(raw);
      values := values[key := value];
    }
    assert lines[..|lines|] == lines;
  }

  /** `read_example`: the lines unchanged, the assignment keys in file
      order, and the key/value map. */
  method ReadExample(lines: seq<string>) returns (all: seq<string>, order: seq<string>, defaults: map<string, string>)
    ensures all == lines
    ensures order == AssignmentKeys(lines)
    ensures defaults == ParsedValues(lines)
  {
    order := [];
    defaults := map[];
    for i := 0 to |lines|
      invariant order == AssignmentKeys(lines[..i])
      invariant defaults == ParsedValues(lines[..i])
    {
      assert Entries(lines[..i + 1])[..i] == Entries(lines[..i]);
      var raw := lines[i];
      if !IsAssignment(raw) {
        continue;
      }
      var (key, value) := SplitAssignment(raw);
      order := order + [key];
      defaults := defaults[key := value];
    }
    assert lines[..|lines|] == lines;
    all := lines;
  }

  // ---------------------------------------------------------------------
  // is_secret

  const SensitiveSuffixes: seq<string> := ["_KEY", "_TOKEN", "_SECRET", "_PASSWORD"]

  /** `any(s.endswith(x) for x in suffixes)`. */
  function EndsWithAny(s: string, suffixes: seq<string>): (r: bool)
    ensures r <==> exists i :: 0 <= i < |suffixes| && EndsWith(s, suffixes[i])
  {
    if |suffixes| == 0 then false
    else EndsWith(s, suffixes[0]) || EndsWithAny(s, suffixes[1..])
  }

  /** `is_secret`: the key, upper-cased, ends in one of the sensitive
      suffixes. */
  function IsSecret(key: string): (r: bool)
    ensures r <==> exists i :: 0 <= i < |SensitiveSuffixes| && EndsWith(Upper(key), SensitiveSuffixes[i])
  {
    EndsWithAny(Upper(key), SensitiveSuffixes)
  }

  /** Upper-casing is idempotent, so the test ignores case. */
  lemma IsSecretIgnoresCase(key: string)
    ensures IsSecret(Upper(key)) <==> IsSecret(key)
  {
    assert Upper(Upper(key)) == Upper(key);
  }

  /** Upper-casing works character by character, so it distributes over
      concatenation. */
  lemma UpperAppend(a: string, b: string)
    ensures Upper(a + b) == Upper(a) + Upper(b)
  {
    assert forall i :: 0 <= i < |a + b| ==> (a + b)[i] == if i < |a| then a[i] else b[i - |a|];
  }

  /** Every key ending in a sensitive suffix, written in upper or in lower
      case, is secret. */
  lemma SuffixMakesSecret(key: string, i: nat)
    requires i < |SensitiveSuffixes|
    ensures IsSecret(key + SensitiveSuffixes[i])
    ensures IsSecret(key + Lower(SensitiveSuffixes[i]))
  {
    var suffix := SensitiveSuffixes[i];
    assert Upper(suffix) == suffix;
    assert Upper(Lower(suffix)) == suffix;
    UpperAppend(key, suffix);
    UpperAppend(key, Lower(suffix));
    assert Upper(key + suffix)[|key|..] == suffix;
    assert Upper(key + Lower(suffix))[|key|..] == suffix;
  }

  // ---------------------------------------------------------------------
  // sorted keys

  predicate StrictlySorted(xs: seq<string>) {
    forall i, j :: 0 <= i < j < |xs| ==> LexLe(xs[i], xs[j]) && xs[i] != xs[j]
  }

  /** `sorted` over a set of keys, as `InsertSorted` builds it. */
  function InsertSorted(x: string, xs: seq<string>): (r: seq<string>)
    requires StrictlySorted(xs) && x !in xs
    ensures StrictlySorted(r)
    ensures |r| == |xs| + 1
    ensures forall y :: y in r <==> y == x || y in xs
    decreases |xs|
  {
    if |xs| == 0 then [x]
    else if LexLe(x, xs[0]) then
      assert forall j :: 0 < j < |xs| ==> LexLe(x, xs[j]) by {
        forall j | 0 < j < |xs|
          ensures LexLe(x, xs[j])
        {
          LexLeTrans(x, xs[0], xs[j]);
        }
      }
      [x] + xs
    else
      LexLeTotal(x, xs[0]);
      var rest := InsertSorted(x, xs[1..]);
      assert forall y :: y in rest ==> LexLe(xs[0], y) && xs[0] != y by {
        forall y | y in rest
          ensures LexLe(xs[0], y) && xs[0] != y
        {
          if y != x {
            var j :| 0 <= j < |xs[1..]| && xs[1..][j] == y;
            assert xs[j + 1] == y;
          }
        }
      }
      ConsSorted(xs[0], rest);
      [xs[0]] + rest
  }

  lemma ConsSorted(h: string, xs: seq<string>)
    requires StrictlySorted(xs)
    requires forall y :: y in xs ==> LexLe(h, y) && h != y
    ensures StrictlySorted([h] + xs)
  {
    var r := [h] + xs;
    forall i, j | 0 <= i < j < |r|
      ensures LexLe(r[i], r[j]) && r[i] != r[j]
    {
      assert r[j] == xs[j - 1];
      if i > 0 {
        assert r[i] == xs[i - 1];
      } else {
        assert xs[j - 1] in xs;
      }
    }
  }

  /** Two strictly sorted sequences with the same elements are equal. */
  lemma {:induction false} SortedUnique(a: seq<string>, b: seq<string>)
    requires StrictlySorted(a) && StrictlySorted(b)
    requires forall y :: y in a <==> y in b
    ensures a == b
    decreases |a|
  {
    if |a| > 0 {
      assert a[0] in b;
      assert |b| > 0;
      assert b[0] in a;
      if a[0] != b[0] {
        var i :| 0 <= i < |a| && a[i] == b[0];
        var j :| 0 <= j < |b| && b[j] == a[0];
        assert LexLe(a[0], a[i]) && LexLe(b[0], b[j]);
        LexLeAntisym(a[0], b[0]);
      }
      forall y
        ensures y in a[1..] <==> y in b[1..]
      {
        if y in a[1..] {
          var i :| 0 <= i < |a[1..]| && a[1..][i] == y;
          assert a[i + 1] == y && y != a[0];
          assert y in b;
        }
        if y in b[1..] {
          var i :| 0 <= i < |b[1..]| && b[1..][i] == y;
          assert b[i + 1] == y && y != b[0];
          assert y in a;
        }
      }
      SortedUnique(a[1..], b[1..]);
      assert a == [a[0]] + a[1..] && b == [b[0]] + b[1..];
    } else {
      HeadIsMember(b);
    }
  }

  lemma HeadIsMember(b: seq<string>)
    ensures |b| > 0 ==> b[0] in b
  {
  }

  /** The keys in sorted order: the one strictly sorted sequence holding
      exactly them. */
  ghost function SortedKeys(keys: set<string>): (r: seq<string>)
    ensures StrictlySorted(r)
    ensures forall y :: y in r <==> y in keys
    ensures |r| == |keys|
    decreases |keys|
  {
    if keys == {} then []
    else
      var x :| x in keys;
      var rest := SortedKeys(keys - {x});
      var r := InsertSorted(x, rest);
      assert r == InsertSorted(x, rest);
      r
  }

  // ---------------------------------------------------------------------
  // build_output

  const CustomHeader := "# Custom entries preserved from existing .env"

  /** The template line as written out: an assignment becomes
      `key=<value or empty>`, any other line stays as it is. */
  function RewriteLine(raw: string, values: map<string, string>): string {
    if IsAssignment(raw) then
      var key := KeyOf(raw);
      key + "=" + (if key in values then values[key] else "")
    else raw
  }

  /** A rewritten assignment splits back into its key and the new value:
      `values.get(key, '')`. */
  lemma RewriteLineSplits(raw: string, values: map<string, string>)
    requires IsAssignment(raw)
    ensures var r := RewriteLine(raw, values);
      '=' in r && SplitAssignment(r) == (KeyOf(raw), if KeyOf(raw) in values then values[KeyOf(raw)] else "")
  {
    var key := KeyOf(raw);
    var v := if key in values then values[key] else "";
    SplitAssignmentUnique(key + "=" + v, key, v);
  }

  /** The extra keys: those of the existing file the template does not
      set. */
  function Remaining(values: map<string, string>, extras: map<string, string>): (r: map<string, string>)
    ensures r.Keys == extras.Keys - values.Keys
    ensures forall k :: k in r ==> r[k] == extras[k]
  {
    map k | k in extras && k !in values :: extras[k]
  }

  /** `f` applied to each element, built from the end as the loops of
      `build_output` build their lists. */
  function MapEach<A, B>(f: A -> B, xs: seq<A>): (r: seq<B>)
    ensures |r| == |xs|
    decreases |xs|
  {
    if |xs| == 0 then [] else MapEach(f, xs[..|xs| - 1]) + [f(xs[|xs| - 1])]
  }

  lemma {:induction false} MapEachAt<A, B>(f: A -> B, xs: seq<A>, i: nat)
    requires i < |xs|
    ensures MapEach(f, xs)[i] == f(xs[i])
    decreases |xs|
  {
    var n := |xs|;
    if i < n - 1 {
      MapEachAt(f, xs[..n - 1], i);
      assert xs[..n - 1][i] == xs[i];
    }
  }

  /** The template, rewritten line by line. */
  function Body(example: seq<string>, values: map<string, string>): (r: seq<string>)
    ensures |r| == |example|
  {
    MapEach(line => RewriteLine(line, values), example)
  }

  /** Line i of the body is line i of the template, rewritten. */
  lemma BodyAt(example: seq<string>, values: map<string, string>, i: nat)
    requires i < |example|
    ensures Body(example, values)[i] == RewriteLine(example[i], values)
  {
    MapEachAt(line => RewriteLine(line, values), example, i);
  }

  /** One `key=value` line per key, in the order given. */
  function KeyLines(keys: seq<string>, m: map<string, string>): (r: seq<string>)
    requires forall i :: 0 <= i < |keys| ==> keys[i] in m
    ensures |r| == |keys|
    ensures forall i :: 0 <= i < |keys| ==> r[i] == keys[i] + "=" + m[keys[i]]
  {
    seq(|keys|, i requires 0 <= i < |keys| => keys[i] + "=" + m[keys[i]])
  }

  /** The custom section: nothing without extras; otherwise a blank line
      unless the body already ends in one, the header, and one sorted
      `key=value` line per extra. */
  ghost function CustomSection(body: seq<string>, remaining: map<string, string>): (r: seq<string>)
  {
    if remaining == map[] then []
    else
      (if |body| > 0 && body[|body| - 1] != "" then [""] else [])
      + [CustomHeader]
      + KeyLines(SortedKeys(remaining.Keys), remaining)
  }

  ghost function OutputLines(example: seq<string>, values: map<string, string>, extras: map<string, string>): seq<string> {
    var body := Body(example, values);
    body + CustomSection(body, Remaining(values, extras)) + [""]
  }

  /** The keys of a set in sorted order. */
  method SortKeys(keys: set<string>) returns (sorted: seq<string>)
    ensures sorted == SortedKeys(keys)
  {
    sorted := [];
    var todo := keys;
    while todo != {}
      invariant todo <= keys
      invariant StrictlySorted(sorted)
      invariant forall y :: y in sorted <==> y in keys - todo
      decreases |todo|
    {
      var k :| k in todo;
      sorted := InsertSorted(k, sorted);
      todo := todo - {k};
    }
    SortedUnique(sorted, SortedKeys(keys));
  }

  lemma KeyLinesAppend(keys: seq<string>, k: string, m: map<string, string>)
    requires forall i :: 0 <= i < |keys| ==> keys[i] in m
    requires k in m
    ensures KeyLines(keys + [k], m) == KeyLines(keys, m) + [k + "=" + m[k]]
  {
    assert (keys + [k])[|keys|] == k;
  }

  /** The loop of `build_output` over the template. */
  method RewriteAll(example: seq<string>, values: map<string, string>) returns (lines: seq<string>)
    ensures lines == Body(example, values)
  {
    lines := [];
    for i := 0 to |example|
      invariant lines == Body(example[..i], values)
    {
      assert example[..i + 1][..i] == example[..i];
      lines := lines + [RewriteLine(example[i], values)];
    }
    assert example[..|example|] == example;
  }

  /** The loop of `build_output` over the sorted extra keys. */
  method WriteKeyLines(keys: seq<string>, m: map<string, string>) returns (lines: seq<string>)
    requires forall i :: 0 <= i < |keys| ==> keys[i] in m
    ensures lines == KeyLines(keys, m)
  {
    lines := [];
    for i := 0 to |keys|
      invariant lines == KeyLines(keys[..i], m)
    {
      KeyLinesAppend(keys[..i], keys[i], m);
      assert keys[..i + 1] == keys[..i] + [keys[i]];
      lines := lines + [keys[i] + "=" + m[keys[i]]];
    }
    assert keys[..|keys|] == keys;
  }

  /** The lines `build_output` appends for the extra keys. */
  method CustomLines(body: seq<string>, remaining: map<string, string>) returns (section: seq<string>)
    ensures section == CustomSection(body, remaining)
  {
    if remaining == map[] {
      return [];
    }
    var lead: seq<string> := if |body| > 0 && body[|body| - 1] != "" then [""] else [];
    var keys := SortKeys(remaining.Keys);
    assert forall j :: 0 <= j < |keys| ==> keys[j] in remaining;
    var pairs := WriteKeyLines(keys, remaining);
    section := lead + [CustomHeader] + pairs;
  }

  /** `build_output`: the rewritten template, the custom section, and a
      final newline, joined. */
  method BuildOutput(example: seq<string>, values: map<string, string>, extras: map<string, string>)
      returns (out: string)
    ensures out == Join("\n", OutputLines(example, values, extras))
  {
    var body := RewriteAll(example, values);
    var section := CustomLines(body, Remaining(values, extras));
    out := Join("\n", body + section + [""]);
  }

  /** The template is rewritten line for line, in place: line i of the
      output is line i of the template, rewritten. */
  lemma OutputKeepsTemplate(example: seq<string>, values: map<string, string>, extras: map<string, string>)
    ensures |OutputLines(example, values, extras)| >= |example| + 1
    ensures forall i :: 0 <= i < |example| ==> OutputLines(example, values, extras)[i] == RewriteLine(example[i], values)
  {
    var body := Body(example, values);
    var rest := CustomSection(body, Remaining(values, extras)) + [""];
    assert OutputLines(example, values, extras) == body + rest;
    forall i | 0 <= i < |example|
      ensures OutputLines(example, values, extras)[i] == RewriteLine(example[i], values)
    {
      BodyAt(example, values, i);
    }
  }

  /** The custom section is there exactly when the existing file has keys
      the template does not set, and then starts with a blank line only
      when the body does not already end in one. */
  lemma OutputExtras(body: seq<string>, values: map<string, string>, extras: map<string, string>)
    ensures var section := CustomSection(body, Remaining(values, extras));
      && (section == [] <==> extras.Keys <= values.Keys)
      && (section != [] ==> (section[0] == "" <==> |body| > 0 && body[|body| - 1] != ""))
  {
    var rem := Remaining(values, extras);
    if extras.Keys <= values.Keys {
      assert rem.Keys == {};
      assert rem == map[];
    } else {
      var k :| k in extras.Keys && k !in values.Keys;
      assert k in rem;
      CustomSectionShape(body, rem);
    }
  }

  /** A non-empty custom section ends with the header followed by exactly
      the extra keys, sorted, each with its existing value. */
  lemma CustomSectionShape(body: seq<string>, rem: map<string, string>)
    requires rem != map[]
    ensures var section := CustomSection(body, rem);
      var keys := SortedKeys(rem.Keys);
      && |section| == |keys| + 1 + (if |body| > 0 && body[|body| - 1] != "" then 1 else 0)
      && section[|section| - |keys| - 1] == CustomHeader
      && section[|section| - |keys|..] == KeyLines(keys, rem)
      && (section[0] == "" <==> |body| > 0 && body[|body| - 1] != "")
  {
    var keys := SortedKeys(rem.Keys);
    var lead: seq<string> := if |body| > 0 && body[|body| - 1] != "" then [""] else [];
    var lines := KeyLines(keys, rem);
    assert CustomSection(body, rem) == lead + [CustomHeader] + lines;
    ThreeParts(lead, CustomHeader, lines);
  }

  lemma ThreeParts(lead: seq<string>, h: string, tail: seq<string>)
    ensures var s := lead + [h] + tail;
      && |s| == |lead| + 1 + |tail|
      && s[|s| - |tail| - 1] == h
      && s[|s| - |tail|..] == tail
      && s[0] == (if |lead| > 0 then lead[0] else h)
  {
    var s := lead + [h] + tail;
    assert s[|s| - |tail|..] == tail;
  }

  /** The output ends in a newline whenever there is anything to write:
      a template line or an extra key. An empty template with no extras
      gives the empty text. */
  lemma OutputEndsWithNewline(example: seq<string>, values: map<string, string>, extras: map<string, string>)
    ensures |example| > 0 || !(extras.Keys <= values.Keys) ==>
      EndsWith(Join("\n", OutputLines(example, values, extras)), "\n")
    ensures |example| == 0 && extras.Keys <= values.Keys ==>
      Join("\n", OutputLines(example, values, extras)) == ""
  {
    var lines := OutputLines(example, values, extras);
    OutputExtras(Body(example, values), values, extras);
    if |lines| >= 2 {
      var front := lines[..|lines| - 1];
      assert lines == front + [""];
      JoinAppend("\n", front, [""]);
    } else {
      assert lines == [""];
    }
  }
}

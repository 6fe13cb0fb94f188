// The line chunker, the Markdown wrappers and the prefix dispatch of the
// unified reader (debgpt/reader.py).

module Reader {
  import opened Text
  import Policy

  // ---------------------------------------------------------------------
  // chunk_lines

  /** The size the chunker measures: UTF-8 bytes of the '\n'-joined lines. */
  function ByteSize(lines: seq<string>): nat {
    Utf8Size(Join("\n", lines))
  }

  /** One entry of the chunk dictionary: the key `(start, end)` and the
      value `lines[start:end]`. The dictionary is kept as the sequence of
      its entries in insertion order. */
  datatype Chunk = Chunk(start: nat, end: nat, lines: seq<string>)

  /** A range the chunker can work on without recursing forever: an empty
      range is only split when the budget is negative. */
  predicate ValidRange(lines: seq<string>, max: int, start: int, end: int) {
    0 <= start <= end <= |lines| && (start < end || max >= 0)
  }

  /** `cs` covers `lines[start:end]` contiguously and in order, each value
      being the slice named by its key; on a non-empty range no chunk is
      empty. */
  predicate Tiles(lines: seq<string>, start: nat, end: nat, cs: seq<Chunk>) {
    && start <= end <= |lines|
    && |cs| >= 1
    && cs[0].start == start
    && cs[|cs| - 1].end == end
    && (forall i :: 0 <= i < |cs| - 1 ==> cs[i].end == cs[i + 1].start)
    && (forall i :: 0 <= i < |cs| ==>
          cs[i].start <= cs[i].end <= |lines| && cs[i].lines == lines[cs[i].start..cs[i].end])
    && (start < end ==> forall i :: 0 <= i < |cs| ==> cs[i].start < cs[i].end)
  }

  /** Every chunk fits the budget or is a single (possibly oversized) line. */
  predicate Fits(max: int, cs: seq<Chunk>) {
    forall i :: 0 <= i < |cs| ==> ByteSize(cs[i].lines) <= max || cs[i].end - cs[i].start == 1
  }

  /** A range `chunk_lines` keeps whole: it fits the budget or is one line. */
  predicate Leaf(lines: seq<string>, max: int, start: nat, end: nat)
    requires start <= end <= |lines|
  {
    ByteSize(lines[start..end]) <= max || end - start == 1
  }

  /** A range that is not kept whole has at least two lines. */
  lemma NotLeafWide(lines: seq<string>, max: int, start: nat, end: nat)
    requires ValidRange(lines, max, start, end) && !Leaf(lines, max, start, end)
    ensures end - start >= 2
  {
  }

  /** The bisection point lies strictly inside any range of two or more lines. */
  function Middle(start: nat, end: nat): (m: nat)
    requires end - start >= 2
    ensures start < m < end
  {
    (start + end) / 2
  }

  /** `chunk_lines` on an explicit range: keep the range when it fits or is
      one line, otherwise bisect and merge left then right. */
  function ChunkRange(lines: seq<string>, max: int, start: nat, end: nat): (cs: seq<Chunk>)
    requires ValidRange(lines, max, start, end)
    ensures Tiles(lines, start, end, cs)
    ensures Fits(max, cs)
    decreases end - start
  {
    if Leaf(lines, max, start, end) then
      [Chunk(start, end, lines[start..end])]
    else
      NotLeafWide(lines, max, start, end);
      var m := Middle(start, end);
      var left := ChunkRange(lines, max, start, m);
      var right := ChunkRange(lines, max, m, end);
      TilesConcat(lines, max, start, m, end, left, right);
      left + right
  }

  /** Two adjacent tilings make one. */
  lemma TilesConcat(lines: seq<string>, max: int, s: nat, m: nat, e: nat, a: seq<Chunk>, b: seq<Chunk>)
    requires s < m < e
    requires Tiles(lines, s, m, a) && Tiles(lines, m, e, b)
    requires Fits(max, a) && Fits(max, b)
    ensures Tiles(lines, s, e, a + b) && Fits(max, a + b)
  {
    var c := a + b;
    assert forall i :: 0 <= i < |a| ==> c[i] == a[i];
    assert forall i :: |a| <= i < |c| ==> c[i] == b[i - |a|];
  }

  /** `chunk_lines` with its default arguments: both bounds negative stands
      for the whole list. */
  function ChunkLines(lines: seq<string>, max: int, start: int, end: int): (cs: seq<Chunk>)
    requires start < 0 && end < 0 ==> ValidRange(lines, max, 0, |lines|)
    requires !(start < 0 && end < 0) ==> ValidRange(lines, max, start, end)
  {
    if end < 0 && start < 0 then ChunkRange(lines, max, 0, |lines|)
    else ChunkRange(lines, max, start, end)
  }

  /** Keys come in ascending order: every chunk ends no later than any
      later chunk starts. */
  lemma {:induction false} TilesAscending(lines: seq<string>, start: nat, end: nat, cs: seq<Chunk>, i: nat, j: nat)
    requires Tiles(lines, start, end, cs)
    requires i < j < |cs|
    ensures cs[i].end <= cs[j].start
    decreases j - i
  {
    if j > i + 1 {
      TilesAscending(lines, start, end, cs, i, j - 1);
    }
  }

  /** On a non-empty range all keys are distinct. */
  lemma TilesDistinctKeys(lines: seq<string>, start: nat, end: nat, cs: seq<Chunk>, i: nat, j: nat)
    requires Tiles(lines, start, end, cs) && start < end
    requires i < j < |cs|
    ensures cs[i].start < cs[j].start
  {
    TilesAscending(lines, start, end, cs, i, j);
  }

  /** Concatenating the chunk values in order gives back the range. */
  function Flatten(cs: seq<Chunk>): seq<string> {
    if |cs| == 0 then [] else Flatten(cs[..|cs| - 1]) + cs[|cs| - 1].lines
  }

  lemma {:induction false} TilesFlatten(lines: seq<string>, start: nat, end: nat, cs: seq<Chunk>)
    requires Tiles(lines, start, end, cs)
    ensures Flatten(cs) == lines[start..end]
    decreases |cs|
  {
    var n := |cs|;
    if n == 1 {
      assert Flatten(cs) == Flatten(cs[..0]) + cs[0].lines;
    } else {
      var front := cs[..n - 1];
      var mid := cs[n - 1].start;
      assert start <= mid by {
        TilesAscending(lines, start, end, cs, 0, n - 1);
      }
      assert Tiles(lines, start, mid, front) by {
        assert front[n - 2] == cs[n - 2];
      }
      TilesFlatten(lines, start, mid, front);
      assert lines[start..end] == lines[start..mid] + lines[mid..end];
    }
  }

  // ---------------------------------------------------------------------
  // dictionaries

  type Key = (nat, nat)

  /** The dictionary a sequence of entries builds; a later entry wins a
      repeated key. */
  function ToMap(cs: seq<Chunk>): map<Key, seq<string>> {
    if |cs| == 0 then map[]
    else
      var c := cs[|cs| - 1];
      ToMap(cs[..|cs| - 1])[(c.start, c.end) := c.lines]
  }

  /** `{**a, **b}` of two chunk dictionaries. */
  lemma {:induction false} ToMapAppend(a: seq<Chunk>, b: seq<Chunk>)
    ensures ToMap(a + b) == ToMap(a) + ToMap(b)
    decreases |b|
  {
    if |b| == 0 {
      assert a + b == a;
    } else {
      var n := |b|;
      ToMapAppend(a, b[..n - 1]);
      assert (a + b)[..|a + b| - 1] == a + b[..n - 1];
    }
  }

  /** Keys of the dictionary are exactly the chunk keys. */
  lemma {:induction false} ToMapKeys(cs: seq<Chunk>)
    ensures forall k :: k in ToMap(cs) <==> exists i :: 0 <= i < |cs| && k == (cs[i].start, cs[i].end)
    decreases |cs|
  {
    if |cs| > 0 {
      var n := |cs|;
      var front := cs[..n - 1];
      ToMapKeys(front);
      forall k | k in ToMap(cs)
        ensures exists i :: 0 <= i < |cs| && k == (cs[i].start, cs[i].end)
      {
        if k != (cs[n - 1].start, cs[n - 1].end) {
          assert k in ToMap(front);
          var i :| 0 <= i < |front| && k == (front[i].start, front[i].end);
          assert cs[i] == front[i];
        }
      }
      forall k | exists i :: 0 <= i < |cs| && k == (cs[i].start, cs[i].end)
        ensures k in ToMap(cs)
      {
        var i :| 0 <= i < |cs| && k == (cs[i].start, cs[i].end);
        if i < n - 1 {
          assert cs[..n - 1][i] == cs[i];
        }
      }
    }
  }

  /** When every value is the slice its key names, so is every value of the
      dictionary. */
  lemma {:induction false} ToMapSlices(lines: seq<string>, cs: seq<Chunk>)
    requires forall i :: 0 <= i < |cs| ==>
      cs[i].start <= cs[i].end <= |lines| && cs[i].lines == lines[cs[i].start..cs[i].end]
    ensures forall k :: k in ToMap(cs) ==> k.0 <= k.1 <= |lines| && ToMap(cs)[k] == lines[k.0..k.1]
    decreases |cs|
  {
    if |cs| > 0 {
      var n := |cs|;
      ToMapSlices(lines, cs[..n - 1]);
    }
  }

  /** The dictionary `chunk_lines` returns. */
  function ChunkDict(lines: seq<string>, max: int, start: int, end: int): (d: map<Key, seq<string>>)
    requires start < 0 && end < 0 ==> ValidRange(lines, max, 0, |lines|)
    requires !(start < 0 && end < 0) ==> ValidRange(lines, max, start, end)
    ensures SliceValues(lines, d)
  {
    var cs := ChunkLines(lines, max, start, end);
    ToMapSlices(lines, cs);
    ToMap(cs)
  }

  // ---------------------------------------------------------------------
  // chunk_lines_nonrecursive

  /** The keys `chunk_lines` produces for a range, by the same bisection. */
  ghost function RangeKeys(lines: seq<string>, max: int, start: nat, end: nat): set<Key>
    requires ValidRange(lines, max, start, end)
    decreases end - start
  {
    if Leaf(lines, max, start, end) then {(start, end)}
    else
      NotLeafWide(lines, max, start, end);
      var m := Middle(start, end);
      RangeKeys(lines, max, start, m) + RangeKeys(lines, max, m, end)
  }

  lemma {:induction false} RangeKeysOfChunks(lines: seq<string>, max: int, start: nat, end: nat)
    requires ValidRange(lines, max, start, end)
    ensures RangeKeys(lines, max, start, end) == ToMap(ChunkRange(lines, max, start, end)).Keys
    decreases end - start
  {
    if Leaf(lines, max, start, end) {
      var c := Chunk(start, end, lines[start..end]);
      assert ChunkRange(lines, max, start, end) == [c];
      assert [c][..0] == [];
    } else {
      NotLeafWide(lines, max, start, end);
      var m := Middle(start, end);
      RangeKeysOfChunks(lines, max, start, m);
      RangeKeysOfChunks(lines, max, m, end);
      ToMapAppend(ChunkRange(lines, max, start, m), ChunkRange(lines, max, m, end));
    }
  }

  lemma RangeKeysSplit(lines: seq<string>, max: int, start: nat, end: nat)
    requires ValidRange(lines, max, start, end) && !Leaf(lines, max, start, end)
    ensures start < (start + end) / 2 < end
    ensures RangeKeys(lines, max, start, end) ==
      RangeKeys(lines, max, start, (start + end) / 2) + RangeKeys(lines, max, (start + end) / 2, end)
  {
    NotLeafWide(lines, max, start, end);
  }

  predicate ValidStack(lines: seq<string>, max: int, stack: seq<Key>) {
    forall i :: 0 <= i < |stack| ==> ValidRange(lines, max, stack[i].0, stack[i].1)
  }

  /** Every value of the dictionary is the slice its key names. */
  predicate SliceValues(lines: seq<string>, d: map<Key, seq<string>>) {
    forall k :: k in d ==> k.0 <= k.1 <= |lines| && d[k] == lines[k.0..k.1]
  }

  /** Keys the pending ranges of the stack will contribute. */
  ghost function StackKeys(lines: seq<string>, max: int, stack: seq<Key>): set<Key>
    requires ValidStack(lines, max, stack)
  {
    if |stack| == 0 then {}
    else
      var top := stack[|stack| - 1];
      StackKeys(lines, max, stack[..|stack| - 1]) + RangeKeys(lines, max, top.0, top.1)
  }

  /** Work still on the stack: a range of n >= 1 lines costs at most
      2n - 1 iterations, an empty range one. */
  function Weight(r: Key): nat {
    if r.1 <= r.0 then 1 else 2 * (r.1 - r.0) - 1
  }

  function StackWeight(stack: seq<Key>): nat {
    if |stack| == 0 then 0 else StackWeight(stack[..|stack| - 1]) + Weight(stack[|stack| - 1])
  }

  lemma StackPush(lines: seq<string>, max: int, stack: seq<Key>, r: Key)
    requires ValidStack(lines, max, stack)
    requires ValidRange(lines, max, r.0, r.1)
    ensures ValidStack(lines, max, stack + [r])
    ensures StackKeys(lines, max, stack + [r]) == StackKeys(lines, max, stack) + RangeKeys(lines, max, r.0, r.1)
    ensures StackWeight(stack + [r]) == StackWeight(stack) + Weight(r)
  {
    assert (stack + [r])[..|stack|] == stack;
  }

  /** Recording a range kept whole moves its key from the stack to the
      dictionary. */
  lemma KeepStep(lines: seq<string>, max: int, rest: seq<Key>, result: map<Key, seq<string>>,
                 keys: set<Key>, s: nat, e: nat)
    requires ValidStack(lines, max, rest)
    requires ValidRange(lines, max, s, e) && Leaf(lines, max, s, e)
    requires result.Keys + (StackKeys(lines, max, rest) + RangeKeys(lines, max, s, e)) == keys
    requires SliceValues(lines, result)
    ensures result[(s, e) := lines[s..e]].Keys + StackKeys(lines, max, rest) == keys
    ensures SliceValues(lines, result[(s, e) := lines[s..e]])
  {
    assert RangeKeys(lines, max, s, e) == {(s, e)};
  }

  /** A dictionary with the keys of the bisection whose values are the
      slices their keys name is the dictionary `chunk_lines` returns. */
  lemma SameDict(lines: seq<string>, max: int, start: nat, end: nat, d: map<Key, seq<string>>)
    requires ValidRange(lines, max, start, end)
    requires d.Keys == RangeKeys(lines, max, start, end)
    requires SliceValues(lines, d)
    ensures d == ChunkDict(lines, max, start, end)
  {
    var full := ChunkDict(lines, max, start, end);
    RangeKeysOfChunks(lines, max, start, end);
    assert forall k :: k in d ==> d[k] == full[k];
  }

  /** `chunk_lines_nonrecursive`: the same bisection driven by an explicit
      stack of pending ranges, filling the dictionary in place. It builds
      the same key-to-lines mapping as `chunk_lines`. */
  method ChunkLinesNonrecursive(lines: seq<string>, max: int, start: int, end: int)
      returns (result: map<Key, seq<string>>)
    requires start < 0 && end < 0 ==> ValidRange(lines, max, 0, |lines|)
    requires !(start < 0 && end < 0) ==> ValidRange(lines, max, start, end)
    ensures result == ChunkDict(lines, max, start, end)
  {
    if end < 0 && start < 0 {
      return ChunkDict(lines, max, start, end);
    }
    result := map[];
    var stack: seq<Key> := [(start, end)];
    assert StackKeys(lines, max, stack) == RangeKeys(lines, max, start, end) by {
      assert stack[..0] == [];
    }
    while |stack| > 0
      invariant ValidStack(lines, max, stack)
      invariant SliceValues(lines, result)
      invariant result.Keys + StackKeys(lines, max, stack) == RangeKeys(lines, max, start, end)
      decreases StackWeight(stack)
    {
      stack, result := PopRange(lines, max, stack, result, RangeKeys(lines, max, start, end));
    }
    SameDict(lines, max, start, end, result);
  }

  /** One iteration of `chunk_lines_nonrecursive`: pop the last range;
      keep it when it fits or is one line, otherwise push its two halves,
      left first. The keys still to come are unchanged and the work left
      shrinks. */
  method PopRange(lines: seq<string>, max: int, stack: seq<Key>, result: map<Key, seq<string>>,
                  ghost keys: set<Key>)
      returns (stack': seq<Key>, result': map<Key, seq<string>>)
    requires |stack| > 0 && ValidStack(lines, max, stack) && SliceValues(lines, result)
    requires result.Keys + StackKeys(lines, max, stack) == keys
    ensures ValidStack(lines, max, stack') && SliceValues(lines, result')
    ensures result'.Keys + StackKeys(lines, max, stack') == keys
    ensures StackWeight(stack') < StackWeight(stack)
  {
    var top := stack[|stack| - 1];
    var rest := stack[..|stack| - 1];
    StackPush(lines, max, rest, top);
    assert rest + [top] == stack;
    var s := top.0;
    var e := top.1;
    if ByteSize(lines[s..e]) <= max || e - s == 1 {
      KeepStep(lines, max, rest, result, keys, s, e);
      stack' := rest;
      result' := result[(s, e) := lines[s..e]];
    } else {
      RangeKeysSplit(lines, max, s, e);
      var m := (s + e) / 2;
      StackPush(lines, max, rest, (s, m));
      StackPush(lines, max, rest + [(s, m)], (m, e));
      stack' := rest + [(s, m)] + [(m, e)];
      result' := result;
    }
  }

  // ---------------------------------------------------------------------
  // wrappers

  /** The first line a wrapper writes. `Whole(pre, spec, post)` is a
      `create_wrapper` template `pre{}post` filled with `spec`;
      `Ranged(pre, spec, start, end)` is a `create_chunk_wrapper` template
      `pre{} (lines {}-{}):` with its three placeholders filled. */
  datatype Header =
    | Whole(pre: string, spec: string, post: string)
    | Ranged(pre: string, spec: string, start: nat, end: nat)

  function HeaderLine(h: Header): string {
    match h
    case Whole(pre, spec, post) => pre + spec + post
    case Ranged(pre, spec, s, e) =>
      pre + spec + " (lines " + NatToString(s) + "-" + NatToString(e) + "):"
  }

  const Fence := "```"

  /** What a wrapper returns for `content`: the header line, a fence line,
      the content's lines, a fence line and an empty line, joined by '\n'.
      That is the content verbatim inside a fenced block that ends with a
      newline. */
  function Wrap(h: Header, content: string): (r: string)
    ensures r == HeaderLine(h) + "\n```\n" + content + "\n```\n"
  {
    WrapShape(HeaderLine(h), content);
    Join("\n", [HeaderLine(h), Fence] + Split(content, '\n') + [Fence, ""])
  }

  lemma WrapShape(header: string, content: string)
    ensures Join("\n", [header, Fence] + Split(content, '\n') + [Fence, ""])
         == header + "\n```\n" + content + "\n```\n"
  {
    var body := Split(content, '\n');
    JoinSplit(content, '\n');
    JoinAppend("\n", body, [Fence, ""]);
    JoinAppend("\n", [header, Fence], body + [Fence, ""]);
    assert [header, Fence] + body + [Fence, ""] == [header, Fence] + (body + [Fence, ""]);
    assert Join("\n", [Fence, ""]) == Fence + "\n" + "";
    assert Join("\n", [header, Fence]) == header + "\n" + Fence;
  }

  // ---------------------------------------------------------------------
  // entries

  /** `Entry(path, content, wrapfun, wrapfun_chunk)`. The wrappers are
      closures in the source; here `wrap` is the header `wrapfun` writes
      and the chunk wrapper is kept as its template prefix and spec. */
  datatype Entry = Entry(path: string, content: string, wrap: Header, chunkPre: string, chunkSpec: string)

  /** `entry.wrapfun(entry.content)`. */
  function WrapEntry(e: Entry): string {
    Wrap(e.wrap, e.content)
  }

  /** The entry a single chunk becomes: same path, the chunk's lines joined,
      and the chunk wrapper bound to the chunk's range as its wrapper. */
  function ChunkToEntry(entry: Entry, c: Chunk): Entry {
    Entry(entry.path, Join("\n", c.lines), Ranged(entry.chunkPre, entry.chunkSpec, c.start, c.end),
          entry.chunkPre, entry.chunkSpec)
  }

  /** The chunks of an entry's content, split at '\n' (never empty, so the
      chunker always terminates). */
  function ContentChunks(entry: Entry, max: int): seq<Chunk> {
    var lines := Split(entry.content, '\n');
    ChunkLines(lines, max, -1, -1)
  }

  /** What `chunk_entry` returns. */
  function ChunkedEntries(entry: Entry, max: int): seq<Entry> {
    if max < 0 then [entry]
    else EntriesOfChunks(entry, ContentChunks(entry, max))
  }

  /** One entry per chunk, in order. */
  function EntriesOfChunks(entry: Entry, cs: seq<Chunk>): (r: seq<Entry>)
    ensures |r| == |cs|
    ensures forall i :: 0 <= i < |cs| ==> r[i] == ChunkToEntry(entry, cs[i])
  {
    seq(|cs|, i requires 0 <= i < |cs| => ChunkToEntry(entry, cs[i]))
  }

  /** `chunk_entry`: one entry per dictionary item, in dictionary order. */
  method ChunkEntry(entry: Entry, max: int) returns (results: seq<Entry>)
    ensures results == ChunkedEntries(entry, max)
  {
    if max < 0 {
      return [entry];
    }
    var chunkdict := ContentChunks(entry, max);
    results := ChunksToEntries(entry, chunkdict);
  }

  /** The loop of `chunk_entry` over the chunk dictionary. */
  method ChunksToEntries(entry: Entry, chunkdict: seq<Chunk>) returns (results: seq<Entry>)
    ensures results == EntriesOfChunks(entry, chunkdict)
  {
    results := [];
    for i := 0 to |chunkdict|
      invariant |results| == i
      invariant forall j :: 0 <= j < i ==> results[j] == ChunkToEntry(entry, chunkdict[j])
    {
      var c := chunkdict[i];
      var content := Join("\n", c.lines);
      results := results + [Entry(entry.path, content, Ranged(entry.chunkPre, entry.chunkSpec, c.start, c.end),
                                  entry.chunkPre, entry.chunkSpec)];
    }
  }

  function Contents(es: seq<Entry>): seq<string> {
    seq(|es|, i requires 0 <= i < |es| => es[i].content)
  }

  function JoinedChunks(cs: seq<Chunk>): seq<string> {
    seq(|cs|, i requires 0 <= i < |cs| => Join("\n", cs[i].lines))
  }

  /** Joining the joined chunks of a non-empty range gives the joined range. */
  lemma {:induction false} JoinTiles(lines: seq<string>, start: nat, end: nat, cs: seq<Chunk>)
    requires Tiles(lines, start, end, cs) && start < end
    ensures Join("\n", JoinedChunks(cs)) == Join("\n", lines[start..end])
    decreases |cs|
  {
    var n := |cs|;
    if n == 1 {
      assert cs[0].lines == lines[start..end];
    } else {
      var front := cs[..n - 1];
      var mid := cs[n - 1].start;
      TilesFront(lines, start, end, cs);
      JoinTiles(lines, start, mid, front);
      JoinedChunksAppend(cs);
      JoinSlices(lines, start, mid, end);
    }
  }

  /** Dropping the last chunk of a tiling leaves a tiling up to where that
      chunk starts. */
  lemma TilesFront(lines: seq<string>, start: nat, end: nat, cs: seq<Chunk>)
    requires Tiles(lines, start, end, cs) && start < end && |cs| >= 2
    ensures start < cs[|cs| - 1].start < end
    ensures Tiles(lines, start, cs[|cs| - 1].start, cs[..|cs| - 1])
    ensures cs[|cs| - 1].lines == lines[cs[|cs| - 1].start..end]
  {
    var n := |cs|;
    TilesAscending(lines, start, end, cs, 0, n - 1);
    assert cs[..n - 1][n - 2] == cs[n - 2];
  }

  lemma JoinedChunksAppend(cs: seq<Chunk>)
    requires |cs| >= 2
    ensures Join("\n", JoinedChunks(cs))
      == Join("\n", JoinedChunks(cs[..|cs| - 1])) + "\n" + Join("\n", cs[|cs| - 1].lines)
  {
    var n := |cs|;
    assert JoinedChunks(cs) == JoinedChunks(cs[..n - 1]) + [Join("\n", cs[n - 1].lines)];
    JoinAppend("\n", JoinedChunks(cs[..n - 1]), [Join("\n", cs[n - 1].lines)]);
  }

  lemma JoinSlices(lines: seq<string>, start: nat, mid: nat, end: nat)
    requires start < mid < end <= |lines|
    ensures Join("\n", lines[start..end]) == Join("\n", lines[start..mid]) + "\n" + Join("\n", lines[mid..end])
  {
    assert lines[start..end] == lines[start..mid] + lines[mid..end];
    JoinAppend("\n", lines[start..mid], lines[mid..end]);
  }

  /** `chunk_entry` keeps the path, its pieces joined with '\n' give back the
      content, and (for a non-negative budget) every piece fits the budget
      or is a single line of the content. */
  lemma ChunkEntryRoundTrip(entry: Entry, max: int)
    ensures forall e :: e in ChunkedEntries(entry, max) ==> e.path == entry.path
    ensures Join("\n", Contents(ChunkedEntries(entry, max))) == entry.content
    ensures max >= 0 ==> forall e :: e in ChunkedEntries(entry, max) ==>
      Utf8Size(e.content) <= max || e.content in Split(entry.content, '\n')
  {
    if max < 0 {
      assert Contents(ChunkedEntries(entry, max)) == [entry.content];
    } else {
      ChunkedContents(entry, max);
      ChunkedFit(entry, max);
    }
  }

  lemma ChunkedContents(entry: Entry, max: int)
    requires max >= 0
    ensures Join("\n", Contents(ChunkedEntries(entry, max))) == entry.content
  {
    var lines := Split(entry.content, '\n');
    var cs := ContentChunks(entry, max);
    assert Tiles(lines, 0, |lines|, cs);
    assert Contents(ChunkedEntries(entry, max)) == JoinedChunks(cs);
    JoinTiles(lines, 0, |lines|, cs);
    assert lines[0..|lines|] == lines;
    JoinSplit(entry.content, '\n');
  }

  lemma ChunkedFit(entry: Entry, max: int)
    requires max >= 0
    ensures forall e :: e in ChunkedEntries(entry, max) ==>
      Utf8Size(e.content) <= max || e.content in Split(entry.content, '\n')
  {
    var r := ChunkedEntries(entry, max);
    var lines := Split(entry.content, '\n');
    var cs := ContentChunks(entry, max);
    assert Tiles(lines, 0, |lines|, cs) && Fits(max, cs);
    forall e | e in r
      ensures Utf8Size(e.content) <= max || e.content in lines
    {
      var i :| 0 <= i < |r| && r[i] == e;
      ChunkFits(lines, max, cs, i);
    }
  }

  /** A chunk's joined lines fit the budget or are one line of the text. */
  lemma ChunkFits(lines: seq<string>, max: int, cs: seq<Chunk>, i: nat)
    requires Tiles(lines, 0, |lines|, cs) && Fits(max, cs) && i < |cs|
    ensures Utf8Size(Join("\n", cs[i].lines)) <= max || Join("\n", cs[i].lines) in lines
  {
    if cs[i].end - cs[i].start == 1 {
      assert cs[i].lines == [lines[cs[i].start]];
    }
  }

  // ---------------------------------------------------------------------
  // read: prefix dispatch

  /** What the filesystem says about a spec. */
  datatype PathKind = Missing | RegularFile | Directory | OtherFile

  /** The fetchers the reader calls; their results come from outside. */
  datatype Source =
    | LocalFile(path: string)
    | Url(url: string)
    | ArchWiki(page: string)
    | Bts(bug: string)
    | Buildd(package: string)
    | Command(cmd: string)
    | Stdin

  /** The outside world as seen by `read`: file kinds, fetched texts,
      directory listings as (path, content) pairs, the raw lines of the
      policy and developer's reference files, and the newest sbuild log as
      (content, path). */
  datatype World = World(
    kind: string -> PathKind,
    fetch: Source -> string,
    listing: string -> seq<(string, string)>,
    policy: seq<string>,
    devref: seq<string>,
    sbuild: (string, string))

  const Prefixes: seq<string> :=
    ["archwiki:", "bts:", "buildd:", "cmd:", "devref:", "man:", "policy:", "sbuild:", "tldr:"]

  predicate IsUrl(spec: string) {
    StartsWith(spec, "file://") || StartsWith(spec, "http://") || StartsWith(spec, "https://")
  }

  /** The first prefix of `ps` that `spec` starts with. */
  function FirstPrefix(spec: string, ps: seq<string>): (r: Option<string>)
    ensures r.Some? ==> r.value in ps && StartsWith(spec, r.value)
    ensures r.None? <==> forall p :: p in ps ==> !StartsWith(spec, p)
  {
    if |ps| == 0 then None
    else if StartsWith(spec, ps[0]) then Some(ps[0])
    else FirstPrefix(spec, ps[1..])
  }

  /** Which branch of `read` a spec takes. */
  datatype Kind = FileKind | DirectoryKind | UrlKind | PrefixKind(prefix: string) | StdinKind | UnknownKind

  /** The branch order of `read`: existing file, existing directory, URL,
      special prefixes, stdin, and otherwise nothing. */
  function Classify(w: World, spec: string): (k: Kind)
    ensures k == UnknownKind <==>
      w.kind(spec) !in {RegularFile, Directory} && !IsUrl(spec)
      && (forall p :: p in Prefixes ==> !StartsWith(spec, p))
      && spec != "stdin" && spec != "-"
    ensures k.PrefixKind? ==>
      w.kind(spec) !in {RegularFile, Directory} && !IsUrl(spec)
      && k.prefix in Prefixes && StartsWith(spec, k.prefix)
    ensures k == StdinKind ==> spec == "stdin" || spec == "-"
  {
    if w.kind(spec) == RegularFile then FileKind
    else if w.kind(spec) == Directory then DirectoryKind
    else if IsUrl(spec) then UrlKind
    else
      match FirstPrefix(spec, Prefixes)
      case Some(p) => PrefixKind(p)
      case None => if spec == "stdin" || spec == "-" then StdinKind else UnknownKind
  }

  /** An entry whose path and chunk spec are both `spec`. */
  function Simple(spec: string, content: string, pre: string, post: string, chunkPre: string): Entry {
    Entry(spec, content, Whole(pre, spec, post), chunkPre, spec)
  }

  /** The entries of a policy-like document: one section when `spec` names
      one, otherwise every section in index order. `source` names the
      document in entry paths, `doc` in the wrapper templates. */
  function DocumentEntries(raw: seq<string>, spec: string, source: string, doc: string): (r: Result<seq<Entry>>)
    ensures r.Err? ==> r.error == KeyError
    ensures r.Ok? ==> forall e :: e in r.value ==> e.chunkSpec == spec
    ensures r.Ok? && spec != "" ==> |r.value| == 1 && r.value[0].path == source + " [" + spec + "]"
    ensures r.Ok? && spec == "" ==> |r.value| == |Policy.Indexes(Policy.Document(raw))|
    ensures r.Ok? && spec != "" ==> Policy.Section(Policy.Document(raw), spec) == Ok(r.value[0].content)
    ensures spec != "" ==> (r.Err? <==> Policy.Section(Policy.Document(raw), spec).Err?)
    ensures r.Ok? && spec == "" ==>
      var idxs := Policy.Indexes(Policy.Document(raw));
      forall i :: 0 <= i < |idxs| ==>
        r.value[i].path == source + " [" + idxs[i] + "]"
        && Policy.Section(Policy.Document(raw), idxs[i]) == Ok(r.value[i].content)
    ensures spec == "" ==>
      var idxs := Policy.Indexes(Policy.Document(raw));
      (r.Err? <==> exists i :: 0 <= i < |idxs| && Policy.Section(Policy.Document(raw), idxs[i]).Err?)
  {
    var lines := Policy.Document(raw);
    if spec != "" then
      match Policy.Section(lines, spec)
      case Err(e) => Err(e)
      case Ok(section) =>
        Ok([Entry(source + " [" + spec + "]", section,
                  Whole("Here is the " + doc + ", section ", spec, ":"),
                  "Here is the " + doc + ", section ", spec)])
    else
      SectionEntries(lines, Policy.Indexes(lines), source, doc)
  }

  /** One entry per index, in order; the first lookup that fails fails all. */
  function SectionEntries(lines: seq<string>, idxs: seq<string>, source: string, doc: string): (r: Result<seq<Entry>>)
    ensures r.Err? ==> r.error == KeyError
    ensures r.Ok? ==> |r.value| == |idxs|
    ensures r.Ok? ==> forall i :: 0 <= i < |idxs| ==>
      r.value[i].path == source + " [" + idxs[i] + "]"
      && Policy.Section(lines, idxs[i]) == Ok(r.value[i].content)
      && r.value[i].chunkSpec == ""
    ensures r.Err? <==> exists i :: 0 <= i < |idxs| && Policy.Section(lines, idxs[i]).Err?
  {
    if |idxs| == 0 then Ok([])
    else
      match Policy.Section(lines, idxs[0])
      case Err(e) => Err(e)
      case Ok(section) =>
        match SectionEntries(lines, idxs[1..], source, doc)
        case Err(e) => Err(e)
        case Ok(rest) =>
          Ok([Entry(source + " [" + idxs[0] + "]", section,
                    Whole("Here is the " + doc + " ", "", ":"), "Here is the " + doc + " ", "")] + rest)
  }

  /** The branch of `read` for a special prefix, given the spec without it. */
  function ReadPrefixed(w: World, prefix: string, rest: string): (r: Result<seq<Entry>>)
    requires prefix in Prefixes
    ensures r.Err? ==> r.error == KeyError
    ensures prefix != "sbuild:" && r.Ok? ==> forall e :: e in r.value ==> e.chunkSpec == rest
  {
    if prefix == "archwiki:" then
      Ok([Simple(rest, w.fetch(ArchWiki(rest)), "Here is the Arch Wiki about `", "`:", "Here is the Arch Wiki about ")])
    else if prefix == "bts:" then
      Ok([Simple(rest, w.fetch(Bts(rest)), "Here is the Debian Bug Tracking System page of ", ":",
                 "Here is the Debian BTS status of ")])
    else if prefix == "buildd:" then
      Ok([Simple(rest, w.fetch(Buildd(rest)), "Here is the buildd status of package `", "`:",
                 "Here is the buildd status of package ")])
    else if prefix == "cmd:" then
      Ok([Simple(rest, w.fetch(Command(rest)), "Here is the output of command `", "`:",
                 "Here is the output of command ")])
    else if prefix == "devref:" then
      DocumentEntries(w.devref, rest, "Debian Developer Reference document", "Debian Developer Reference document")
    else if prefix == "man:" then
      Ok([Simple(rest, w.fetch(Command("man " + rest)), "Here is the manual page of ", ":",
                 "Here is the manual page of ")])
    else if prefix == "policy:" then
      DocumentEntries(w.policy, rest, "Debian Policy section", "Debian Policy document")
    else if prefix == "sbuild:" then
      var (content, logpath) := w.sbuild;
      Ok([Simple(logpath, content, "Here is the sbuild buildlog ", ":", "Here is the sbuild buildlog ")])
    else
      Ok([Simple(rest, w.fetch(Command("tldr " + rest)), "Here is the tldr of ", ":", "Here is the tldr of ")])
  }

  /** `read`: dispatch on the spec, fail with `FileNotFoundError` exactly
      when no branch applies; a prefixed spec is read with exactly that
      prefix removed, and stdin is read under the name 'stdin'. */
  function Read(w: World, spec: string): (r: Result<seq<Entry>>)
    ensures r == Err(FileNotFoundError(spec)) <==> Classify(w, spec) == UnknownKind
    ensures Classify(w, spec) == StdinKind ==> r.Ok? && |r.value| == 1 && r.value[0].path == "stdin"
    ensures Classify(w, spec).PrefixKind? && Classify(w, spec).prefix != "sbuild:" && r.Ok? ==>
      forall e :: e in r.value ==> e.chunkSpec == spec[|Classify(w, spec).prefix|..]
  {
    match Classify(w, spec)
    case FileKind =>
      Ok([Simple(spec, w.fetch(LocalFile(spec)), "Here is the contents of file `", "`:",
                 "Here is the contents of file ")])
    case DirectoryKind =>
      var files := w.listing(spec);
      Ok(seq(|files|, i requires 0 <= i < |files| =>
        Entry(files[i].0, files[i].1, Whole("Here is the contents of file `", spec, "`:"),
              "Here is the contents of file ", spec)))
    case UrlKind =>
      Ok([Simple(spec, w.fetch(Url(spec)), "Here is the contents of URL ", ":", "Here is the contents of URL ")])
    case PrefixKind(p) => ReadPrefixed(w, p, spec[|p|..])
    case StdinKind =>
      Ok([Simple("stdin", w.fetch(Stdin), "Carefully read the following contents ", ":",
                 "Carefully read the following contents ")])
    case UnknownKind => Err(FileNotFoundError(spec))
  }

  /** For the plain prefixes the entry is named by the spec without its
      prefix. */
  lemma ReadStripsPrefix(w: World, spec: string, p: string)
    requires Classify(w, spec) == PrefixKind(p)
    requires p in {"archwiki:", "bts:", "buildd:", "cmd:", "man:", "tldr:"}
    ensures Read(w, spec).Ok? && |Read(w, spec).value| == 1
    ensures Read(w, spec).value[0].path == spec[|p|..]
    ensures spec == p + Read(w, spec).value[0].path
  {
    var rest := spec[|p|..];
    ReadOfPrefix(w, spec, p);
    PrefixedSingle(w, p, rest);
    SplitAtPrefix(spec, p);
  }

  lemma SplitAtPrefix(s: string, p: string)
    requires StartsWith(s, p)
    ensures s == p + s[|p|..]
  {
    assert s == s[..|p|] + s[|p|..];
  }

  lemma ReadOfPrefix(w: World, spec: string, p: string)
    requires Classify(w, spec) == PrefixKind(p)
    ensures StartsWith(spec, p) && p in Prefixes
    ensures Read(w, spec) == ReadPrefixed(w, p, spec[|p|..])
  {
  }

  /** A plain prefix reads one entry, named by the rest of the spec. */
  lemma PrefixedSingle(w: World, p: string, rest: string)
    requires p in {"archwiki:", "bts:", "buildd:", "cmd:", "man:", "tldr:"}
    ensures p in Prefixes
    ensures ReadPrefixed(w, p, rest).Ok? && |ReadPrefixed(w, p, rest).value| == 1
    ensures ReadPrefixed(w, p, rest).value[0].path == rest
  {
  }

  // ---------------------------------------------------------------------
  // read_and_chunk, read_and_wrap

  /** `ft.reduce(list.__add__, [chunk_entry(x) for x in entries])`, which
      has no initial value and so fails on an empty list. */
  function ChunkAll(entries: seq<Entry>, max: int): (r: Result<seq<Entry>>)
    ensures r.Err? <==> |entries| == 0
    ensures r.Ok? ==> r.value == ChunkConcat(entries, max)
  {
    if |entries| == 0 then Err(TypeError) else Ok(ChunkConcat(entries, max))
  }

  function ChunkConcat(entries: seq<Entry>, max: int): seq<Entry> {
    if |entries| == 0 then [] else ChunkedEntries(entries[0], max) + ChunkConcat(entries[1..], max)
  }

  /** Every chunk carries the path of an entry that was read. */
  lemma {:induction false} ChunkConcatPaths(entries: seq<Entry>, max: int)
    ensures forall e :: e in ChunkConcat(entries, max) ==> exists x :: x in entries && x.path == e.path
    decreases |entries|
  {
    if |entries| > 0 {
      ChunkEntryRoundTrip(entries[0], max);
      ChunkConcatPaths(entries[1..], max);
      forall e | e in ChunkConcat(entries, max)
        ensures exists x :: x in entries && x.path == e.path
      {
        if e in ChunkedEntries(entries[0], max) {
          assert entries[0] in entries;
        } else {
          var x :| x in entries[1..] && x.path == e.path;
          assert x in entries;
        }
      }
    }
  }

  /** `read_and_chunk`. */
  function ReadAndChunk(w: World, spec: string, max: int): (r: Result<seq<Entry>>)
    ensures Read(w, spec).Err? ==> r == Read(w, spec)
    ensures Read(w, spec).Ok? && max <= 0 ==> r == Read(w, spec)
    ensures Read(w, spec).Ok? && max > 0 ==> (r == Err(TypeError) <==> |Read(w, spec).value| == 0)
  {
    match Read(w, spec)
    case Err(e) => Err(e)
    case Ok(entries) => if max > 0 then ChunkAll(entries, max) else Ok(entries)
  }

  /** The concatenated wrapped entries. */
  function WrapAll(entries: seq<Entry>): string {
    if |entries| == 0 then "" else WrapAll(entries[..|entries| - 1]) + WrapEntry(entries[|entries| - 1])
  }

  /** `read_and_wrap`: append each entry's wrapped text in order. */
  method ReadAndWrap(w: World, spec: string, max: int) returns (r: Result<string>)
    ensures ReadAndChunk(w, spec, max).Err? ==> r == Err(ReadAndChunk(w, spec, max).error)
    ensures ReadAndChunk(w, spec, max).Ok? ==> r == Ok(WrapAll(ReadAndChunk(w, spec, max).value))
  {
    var read := ReadAndChunk(w, spec, max);
    if read.Err? {
      return Err(read.error);
    }
    var entries := read.value;
    var wrapped := "";
    for i := 0 to |entries|
      invariant wrapped == WrapAll(entries[..i])
    {
      assert entries[..i + 1][..i] == entries[..i];
      wrapped := wrapped + WrapEntry(entries[i]);
    }
    assert entries[..|entries|] == entries;
    return Ok(wrapped);
  }

  lemma OccursInLonger(a: string, b: string, sub: string, k: int)
    requires OccursAt(a, sub, k)
    ensures OccursAt(a + b, sub, k)
  {
    assert (a + b)[k..k + |sub|] == a[k..k + |sub|];
  }

  lemma OccursAtEnd(a: string, b: string)
    ensures OccursAt(a + b, b, |a|)
  {
    assert (a + b)[|a|..|a| + |b|] == b;
  }

  /** The wrapped text of entry i starts at some position of the output. */
  lemma {:induction false} WrapAllPlaces(entries: seq<Entry>, i: nat) returns (k: nat)
    requires i < |entries|
    ensures OccursAt(WrapAll(entries), WrapEntry(entries[i]), k)
    decreases |entries|
  {
    var n := |entries|;
    var front := entries[..n - 1];
    assert WrapAll(entries) == WrapAll(front) + WrapEntry(entries[n - 1]);
    if i == n - 1 {
      OccursAtEnd(WrapAll(front), WrapEntry(entries[n - 1]));
      k := |WrapAll(front)|;
    } else {
      k := WrapAllPlaces(front, i);
      assert front[i] == entries[i];
      OccursInLonger(WrapAll(front), WrapEntry(entries[n - 1]), WrapEntry(entries[i]), k);
    }
  }

  /** Every wrapped entry appears verbatim in the output, in a fenced block. */
  lemma WrapAllContains(entries: seq<Entry>, i: nat)
    requires i < |entries|
    ensures exists k :: OccursAt(WrapAll(entries), HeaderLine(entries[i].wrap) + "\n```\n" + entries[i].content + "\n```\n", k)
  {
    var k := WrapAllPlaces(entries, i);
    assert WrapEntry(entries[i]) == HeaderLine(entries[i].wrap) + "\n```\n" + entries[i].content + "\n```\n";
    assert OccursAt(WrapAll(entries), WrapEntry(entries[i]), k);
  }
}

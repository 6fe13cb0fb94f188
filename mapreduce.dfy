// Map-reduce over chunks of a long context (debgpt/mapreduce.py): the chunk
// dictionaries used for retrieval, the prompt padding, the serial map pass
// and the pairwise tree reduction. The language model is the parameter
// `oneshot`, a function from prompt to answer.

module MapReduce {
  import opened Text
  import opened Reader

  // ---------------------------------------------------------------------
  // entry2dict, entries2dict

  /** Key of the retrieval dictionary: `(entry.path, start, end)`. */
  type TaggedKey = (string, nat, nat)

  /** A chunk dictionary with every key tagged by a path. */
  function Tagged(path: string, d: map<Key, seq<string>>): (r: map<TaggedKey, seq<string>>)
    ensures forall k :: k in r <==> k.0 == path && (k.1, k.2) in d
    ensures forall k :: k in r ==> r[k] == d[(k.1, k.2)]
  {
    map k | k in d :: (path, k.0, k.1) := d[k]
  }

  /** What `entry2dict` returns: the chunks of the entry's lines, keyed by
      path and line range. */
  function EntryDict(entry: Entry, max: int): map<TaggedKey, seq<string>> {
    Tagged(entry.path, ChunkDict(Split(entry.content, '\n'), max, -1, -1))
  }

  lemma TaggedUpdate(path: string, d: map<Key, seq<string>>, k: Key, v: seq<string>)
    ensures Tagged(path, d[k := v]) == Tagged(path, d)[(path, k.0, k.1) := v]
  {
  }

  /** `entry2dict`: copy each `(start, end)` item of the chunk dictionary
      under the key `(entry.path, start, end)`. */
  method Entry2Dict(entry: Entry, max: int) returns (result: map<TaggedKey, seq<string>>)
    ensures result == EntryDict(entry, max)
    ensures forall k :: k in result ==> k.0 == entry.path
    ensures forall k :: k in result ==>
      var lines := Split(entry.content, '\n');
      k.1 <= k.2 <= |lines| && result[k] == lines[k.1..k.2]
  {
    var lines := Split(entry.content, '\n');
    var d := ChunkLines(lines, max, -1, -1);
    result := map[];
    for i := 0 to |d|
      invariant result == Tagged(entry.path, ToMap(d[..i]))
    {
      assert d[..i + 1][..i] == d[..i];
      TaggedUpdate(entry.path, ToMap(d[..i]), (d[i].start, d[i].end), d[i].lines);
      result := result[(entry.path, d[i].start, d[i].end) := d[i].lines];
    }
    assert d[..|d|] == d;
  }

  /** `ft.reduce(dict.__or__, ...)` over the per-entry dictionaries, left to
      right; without an initial value it fails on an empty list. */
  function Entries2Dict(entries: seq<Entry>, max: int): (r: Result<map<TaggedKey, seq<string>>>)
    ensures r.Err? <==> |entries| == 0
    ensures r.Err? ==> r.error == TypeError
  {
    if |entries| == 0 then Err(TypeError) else Ok(UnionAll(EntryDicts(entries, max)))
  }

  /** The per-entry dictionaries, in entry order. */
  function EntryDicts(entries: seq<Entry>, max: int): (ds: seq<map<TaggedKey, seq<string>>>)
    ensures |ds| == |entries|
  {
    seq(|entries|, i requires 0 <= i < |entries| => EntryDict(entries[i], max))
  }

  /** `ft.reduce(dict.__or__, ds)` for a non-empty list. */
  function UnionAll<K, V>(ds: seq<map<K, V>>): map<K, V>
    requires |ds| >= 1
  {
    if |ds| == 1 then ds[0] else UnionAll(ds[..|ds| - 1]) + ds[|ds| - 1]
  }

  /** Keys of the union are the keys of the parts, and on a key that several
      dictionaries hold the value comes from the last of them. */
  lemma UnionAllLaterWins<K, V>(ds: seq<map<K, V>>)
    requires |ds| >= 1
    ensures forall k :: k in UnionAll(ds) ==> exists j :: 0 <= j < |ds| && k in ds[j]
    ensures forall k, j :: 0 <= j < |ds| && k in ds[j] ==> k in UnionAll(ds)
    ensures forall k, j ::
      (0 <= j < |ds| && k in ds[j] && (forall j' :: j < j' < |ds| ==> k !in ds[j']))
      ==> UnionAll(ds)[k] == ds[j][k]
  {
    UnionAllFrom(ds);
    UnionAllLast(ds);
  }

  lemma {:induction false} UnionAllFrom<K, V>(ds: seq<map<K, V>>)
    requires |ds| >= 1
    ensures forall k :: k in UnionAll(ds) ==> exists j :: 0 <= j < |ds| && k in ds[j]
    decreases |ds|
  {
    var n := |ds|;
    if n > 1 {
      var front := ds[..n - 1];
      UnionAllFrom(front);
      forall k | k in UnionAll(ds)
        ensures exists j :: 0 <= j < n && k in ds[j]
      {
        if k !in ds[n - 1] {
          assert k in UnionAll(front);
          var j :| 0 <= j < |front| && k in front[j];
          assert front[j] == ds[j];
        }
      }
    }
  }

  lemma {:induction false} UnionAllHolds<K, V>(ds: seq<map<K, V>>)
    requires |ds| >= 1
    ensures forall k, j :: 0 <= j < |ds| && k in ds[j] ==> k in UnionAll(ds)
    decreases |ds|
  {
    var n := |ds|;
    if n > 1 {
      var front := ds[..n - 1];
      UnionAllHolds(front);
      forall k, j | 0 <= j < n && k in ds[j]
        ensures k in UnionAll(ds)
      {
        if j < n - 1 { assert front[j] == ds[j]; }
      }
    }
  }

  lemma {:induction false} UnionAllLast<K, V>(ds: seq<map<K, V>>)
    requires |ds| >= 1
    ensures forall k, j :: 0 <= j < |ds| && k in ds[j] ==> k in UnionAll(ds)
    ensures forall k, j ::
      (0 <= j < |ds| && k in ds[j] && (forall j' :: j < j' < |ds| ==> k !in ds[j']))
      ==> UnionAll(ds)[k] == ds[j][k]
    decreases |ds|
  {
    var n := |ds|;
    if n > 1 {
      var front := ds[..n - 1];
      UnionAllHolds(ds);
      UnionAllLast(front);
      forall k, j | 0 <= j < n && k in ds[j] && (forall j' :: j < j' < n ==> k !in ds[j'])
        ensures UnionAll(ds)[k] == ds[j][k]
      {
        if j < n - 1 {
          assert front[j] == ds[j];
          assert forall j' :: j < j' < |front| ==> front[j'] == ds[j'];
        }
      }
    }
  }

  /** `entries2dict`: every key comes from some entry's dictionary, and a key
      several entries produce takes the lines of the last of them. */
  lemma Entries2DictLaterWins(entries: seq<Entry>, max: int)
    requires |entries| >= 1
    ensures var d := Entries2Dict(entries, max).value;
      var ds := EntryDicts(entries, max);
      && (forall k :: k in d ==> exists j :: 0 <= j < |entries| && k in ds[j])
      && (forall k, j :: 0 <= j < |entries| && k in ds[j] ==> k in d)
      && (forall k, j ::
            (0 <= j < |entries| && k in ds[j] && (forall j' :: j < j' < |entries| ==> k !in ds[j']))
            ==> d[k] == ds[j][k])
  {
    UnionAllLaterWins(EntryDicts(entries, max));
  }

  // ---------------------------------------------------------------------
  // prompt padding

  const MapInstruction := "Extract any information that is relevant to question "

  /** The fenced block a reduce prompt puts each result in. */
  function Fenced(x: string): string {
    "```\n" + x + "\n```\n\n"
  }

  /** `pad_chunk_before_map`: an instruction naming `repr(question)`, three
      newlines, then the chunk verbatim. */
  function PadChunkBeforeMap(chunk: string, question: string): (r: string)
    ensures StartsWith(r, MapInstruction + Repr(question))
    ensures EndsWith(r, "\n\n\n" + chunk)
    ensures |r| > |chunk|
  {
    MapInstruction + Repr(question) + " from the following file part. "
    + "Note, if there is no relevant information, just briefly say nothing."
    + "\n\n\n" + chunk
  }

  /** Padding loses nothing: two chunks padded for the same question give
      the same prompt only if they are the same chunk. */
  lemma PadChunkInjective(c1: string, c2: string, question: string)
    requires PadChunkBeforeMap(c1, question) == PadChunkBeforeMap(c2, question)
    ensures c1 == c2
  {
    var p := MapInstruction + Repr(question) + " from the following file part. "
      + "Note, if there is no relevant information, just briefly say nothing." + "\n\n\n";
    assert PadChunkBeforeMap(c1, question) == p + c1;
    assert PadChunkBeforeMap(c2, question) == p + c2;
    assert c1 == (p + c1)[|p|..];
    assert c2 == (p + c2)[|p|..];
  }

  /** `pad_two_results_for_reduce`: an instruction naming `repr(question)`,
      three newlines, then `a` and `b` each in its own fenced block, in that
      order. */
  function PadTwoResultsForReduce(a: string, b: string, question: string): (r: string)
    ensures StartsWith(r, MapInstruction + Repr(question))
    ensures EndsWith(r, Fenced(a) + Fenced(b))
  {
    var head := MapInstruction + Repr(question);
    var tail := Fenced(a) + Fenced(b);
    Affixes(head, " from the following contents and aggregate them. "
      + "Note, if there is no relevant information, just briefly say nothing." + "\n\n\n", tail);
    head + (" from the following contents and aggregate them. "
      + "Note, if there is no relevant information, just briefly say nothing." + "\n\n\n") + tail
  }

  // ---------------------------------------------------------------------
  // map phase

  /** `map_serial`: one answer per chunk, in chunk order; the answer to a
      chunk is the model's reply to the padded chunk. */
  method MapSerial(chunks: seq<string>, question: string, oneshot: string -> string)
      returns (results: seq<string>)
    ensures |results| == |chunks|
    ensures forall i :: 0 <= i < |chunks| ==> results[i] == oneshot(PadChunkBeforeMap(chunks[i], question))
  {
    results := [];
    for i := 0 to |chunks|
      invariant |results| == i
      invariant forall j :: 0 <= j < i ==> results[j] == oneshot(PadChunkBeforeMap(chunks[j], question))
    {
      results := results + [oneshot(PadChunkBeforeMap(chunks[i], question))];
    }
  }

  // ---------------------------------------------------------------------
  // reduce phase

  /** One pass of the pairwise reduction: neighbours `2i` and `2i+1` are
      combined, and an odd last element is carried forward unchanged. */
  function ReducePass<T>(xs: seq<T>, combine: (T, T) -> T): (r: seq<T>)
    ensures |r| == (|xs| + 1) / 2
    ensures forall i :: 0 <= i < |xs| / 2 ==> r[i] == combine(xs[2 * i], xs[2 * i + 1])
    ensures |xs| % 2 == 1 ==> r[|r| - 1] == xs[|xs| - 1]
    decreases |xs|
  {
    if |xs| < 2 then xs
    else
      var rest := ReducePass(xs[2..], combine);
      assert forall i :: 1 <= i < |xs| / 2 ==> xs[2 * i] == xs[2..][2 * (i - 1)];
      [combine(xs[0], xs[1])] + rest
  }

  /** Repeated passes until one result is left. */
  function ReduceTree<T>(xs: seq<T>, combine: (T, T) -> T): T
    requires |xs| >= 1
    decreases |xs|
  {
    if |xs| == 1 then xs[0] else ReduceTree(ReducePass(xs, combine), combine)
  }

  /** The left fold of a non-empty list. */
  function FoldFrom<T>(acc: T, xs: seq<T>, combine: (T, T) -> T): T
    decreases |xs|
  {
    if |xs| == 0 then acc else FoldFrom(combine(acc, xs[0]), xs[1..], combine)
  }

  ghost predicate Associative<T(!new)>(combine: (T, T) -> T) {
    forall a, b, c :: combine(combine(a, b), c) == combine(a, combine(b, c))
  }

  lemma {:induction false} PassFolds<T(!new)>(acc: T, xs: seq<T>, combine: (T, T) -> T)
    requires Associative(combine)
    ensures FoldFrom(acc, ReducePass(xs, combine), combine) == FoldFrom(acc, xs, combine)
    decreases |xs|
  {
    if |xs| >= 2 {
      var c := combine(xs[0], xs[1]);
      var rest := ReducePass(xs[2..], combine);
      assert ReducePass(xs, combine) == [c] + rest;
      assert ([c] + rest)[1..] == rest;
      PassFolds(combine(acc, c), xs[2..], combine);
      assert combine(combine(acc, xs[0]), xs[1]) == combine(acc, c);
      assert xs[1..][1..] == xs[2..];
    }
  }

  /** With an associative combination the tree reduction equals the
      left-to-right fold: every result takes part exactly once and in
      order. */
  lemma {:induction false} ReduceTreeFolds<T(!new)>(xs: seq<T>, combine: (T, T) -> T)
    requires |xs| >= 1
    requires Associative(combine)
    ensures ReduceTree(xs, combine) == FoldFrom(xs[0], xs[1..], combine)
    decreases |xs|
  {
    if |xs| > 1 {
      var p := ReducePass(xs, combine);
      ReduceTreeFolds(p, combine);
      var c := combine(xs[0], xs[1]);
      var rest := ReducePass(xs[2..], combine);
      assert p == [c] + rest;
      assert p[1..] == rest;
      PassFolds(c, xs[2..], combine);
      assert xs[1..][1..] == xs[2..];
    }
  }

  /** Each pass strictly shortens a list of two or more, so the reduction
      ends after finitely many passes with a single result. */
  lemma PassShrinks<T>(xs: seq<T>, combine: (T, T) -> T)
    requires |xs| >= 2
    ensures 1 <= |ReducePass(xs, combine)| < |xs|
  {
  }

  /** The serial reduction loop: while more than one result is left, build
      the next list from the pairs and the odd last element. */
  method ReduceSerial(xs: seq<string>, combine: (string, string) -> string) returns (r: string)
    requires |xs| >= 1
    ensures r == ReduceTree(xs, combine)
  {
    var results := xs;
    while |results| > 1
      invariant |results| >= 1
      invariant ReduceTree(results, combine) == ReduceTree(xs, combine)
      decreases |results|
    {
      var newResults := ReduceOnce(results, combine);
      results := newResults;
    }
    return results[0];
  }

  /** The body of the reduction loop: combine the pairs in order, then
      append an odd last element. */
  method ReduceOnce(results: seq<string>, combine: (string, string) -> string) returns (newResults: seq<string>)
    ensures newResults == ReducePass(results, combine)
  {
    newResults := [];
    var i := 0;
    while i < |results| / 2
      invariant 0 <= i <= |results| / 2
      invariant |newResults| == i
      invariant forall j :: 0 <= j < i ==> newResults[j] == combine(results[2 * j], results[2 * j + 1])
    {
      newResults := newResults + [combine(results[2 * i], results[2 * i + 1])];
      i := i + 1;
    }
    if |results| % 2 == 1 {
      newResults := newResults + [results[|results| - 1]];
    }
  }

  /** `_process_two_results` / `reduce_two`: ask the model to aggregate two
      results. */
  function Reducer(question: string, oneshot: string -> string): (string, string) -> string {
    (a: string, b: string) => oneshot(PadTwoResultsForReduce(a, b, question))
  }

  // ---------------------------------------------------------------------
  // mapreduce_super_long_context

  const DefaultMapQuestion := "summarize the provided contents."

  /** An empty or missing question becomes the default one. */
  function MapQuestion(q: Option<string>): (r: string)
    ensures r != ""
    ensures q.Some? && q.value != "" ==> r == q.value
    ensures q.None? || q.value == "" ==> r == DefaultMapQuestion
  {
    if q.Some? && q.value != "" then q.value else DefaultMapQuestion
  }

  function WrappedChunks(chunks: seq<Entry>): (r: seq<string>)
    ensures |r| == |chunks|
  {
    seq(|chunks|, i requires 0 <= i < |chunks| => WrapEntry(chunks[i]))
  }

  function MappedAnswers(texts: seq<string>, question: string, oneshot: string -> string): (r: seq<string>)
    ensures |r| == |texts|
  {
    seq(|texts|, i requires 0 <= i < |texts| => oneshot(PadChunkBeforeMap(texts[i], question)))
  }

  /** `mapreduce_super_long_context` as written: for two or more chunks the
      padding call is missing its question argument, which raises before the
      map phase starts. */
  function MapReduceAsWritten(w: World, spec: string, max: int, question: Option<string>): Result<string> {
    if max <= 0 then Err(AssertionError)
    else
      match ReadAndChunk(w, spec, max)
      case Err(e) => Err(e)
      case Ok(chunks) =>
        if |chunks| == 1 then Ok(WrapEntry(chunks[0]))
        else if |chunks| < 2 then Err(AssertionError)
        else Err(TypeError)
  }

  /** As written, no input with more than one chunk yields an answer. */
  lemma AsWrittenNeverReduces(w: World, spec: string, max: int, question: Option<string>)
    requires max > 0
    requires ReadAndChunk(w, spec, max).Ok? && |ReadAndChunk(w, spec, max).value| >= 2
    ensures MapReduceAsWritten(w, spec, max, question).Err?
  {
  }

  /** `mapreduce_super_long_context` with its evident intent: the budget
      must be positive, a single chunk is returned wrapped without calling
      the model, and otherwise each wrapped chunk is mapped and the answers
      are reduced pairwise, the result ending in a blank line. */
  method MapReduceSuperLongContext(w: World, spec: string, max: int, question: Option<string>,
                                   oneshot: string -> string) returns (r: Result<string>)
    ensures max <= 0 ==> r == Err(AssertionError)
    ensures max > 0 && ReadAndChunk(w, spec, max).Err? ==> r == Err(ReadAndChunk(w, spec, max).error)
    ensures max > 0 && ReadAndChunk(w, spec, max).Ok? && |ReadAndChunk(w, spec, max).value| == 1 ==>
      r == Ok(WrapEntry(ReadAndChunk(w, spec, max).value[0]))
    ensures max > 0 && ReadAndChunk(w, spec, max).Ok? && |ReadAndChunk(w, spec, max).value| >= 2 ==>
      var q := MapQuestion(question);
      r == Ok(ReduceTree(MappedAnswers(WrappedChunks(ReadAndChunk(w, spec, max).value), q, oneshot),
                         Reducer(q, oneshot)) + "\n\n")
  {
    if max <= 0 {
      return Err(AssertionError);
    }
    var q := MapQuestion(question);
    var read := ReadAndChunk(w, spec, max);
    if read.Err? {
      return Err(read.error);
    }
    var chunks := read.value;
    if |chunks| == 1 {
      return Ok(WrapEntry(chunks[0]));
    }
    if |chunks| < 2 {
      return Err(AssertionError);
    }
    var aggregated := MapThenReduce(chunks, q, oneshot);
    return Ok(aggregated + "\n\n");
  }

  /** The map phase over the wrapped chunks, then the pairwise reduction
      of the answers. */
  method MapThenReduce(chunks: seq<Entry>, q: string, oneshot: string -> string) returns (aggregated: string)
    requires |chunks| >= 1
    ensures aggregated == ReduceTree(MappedAnswers(WrappedChunks(chunks), q, oneshot), Reducer(q, oneshot))
  {
    var texts := WrappedChunks(chunks);
    var results := MapSerial(texts, q, oneshot);
    assert results == MappedAnswers(texts, q, oneshot);
    aggregated := ReduceSerial(results, Reducer(q, oneshot));
  }
}

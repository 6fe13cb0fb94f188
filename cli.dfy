// Command-line glue (debgpt/cli.py): building the first prompt from the
// sources named on the command line in the order they were given, the
// command-line variant of map-reduce, and the "not configured" test.

module Cli {
  import opened Text
  import opened MapReduce

  // ---------------------------------------------------------------------
  // gather_information_ordered

  /** Options that hold a list of values, each occurrence consuming the
      front one. */
  const ListKeys: set<string> :=
    {"file", "tldr", "man", "buildd", "pynew", "archw", "pdf", "cmd", "bts", "html", "policy", "devref"}

  /** Keys the dispatch knows; any other raises `NotImplementedError`. */
  predicate Known(key: string) {
    key in ListKeys || key == "inplace" || key == "mapreduce"
  }

  /** The reader a list option calls (`cmd` goes to `command_line`). */
  function ReaderName(key: string): string {
    if key == "cmd" then "command_line" else key
  }

  /** `_append_info`: a missing message counts as empty, and the new text
      goes after a newline. */
  function AppendInfo(msg: Option<string>, info: string): (r: string)
    ensures msg.Some? ==> StartsWith(r, msg.value)
    ensures msg.None? ==> StartsWith(r, "\n")
    ensures EndsWith(r, "\n" + info)
    ensures |r| == (if msg.Some? then |msg.value| else 0) + 1 + |info|
  {
    (if msg.None? then "" else msg.value) + "\n" + info
  }

  /** What the readers return: `fetch(reader, argument)`, and the text a
      map-reduce run produces. */
  datatype Env = Env(fetch: (string, string) -> string, mapreduceText: string)

  /** The loop state: message so far, option lists, whether map-reduce has
      run, and the error raised, if any. */
  datatype GState = GState(msg: Option<string>, lists: map<string, seq<string>>, done: bool, error: Option<Error>)

  /** One iteration of the loop over the argument order. */
  function Step(st: GState, key: string, inplace: string, env: Env): (r: GState)
    ensures st.error.Some? ==> r == st
    ensures st.error.None? && !Known(key) ==> r == st.(error := Some(NotImplementedError(key)))
    ensures r.error.None? ==> st.error.None?
    ensures r.done <==> st.done || (st.error.None? && key == "mapreduce")
    ensures key == "mapreduce" && st.done ==> r == st
  {
    if st.error.Some? then st
    else if key in ListKeys then
      if key !in st.lists then st.(error := Some(AttributeError))
      else if |st.lists[key]| == 0 then st.(error := Some(IndexError))
      else
        var spec := st.lists[key][0];
        st.(msg := Some(AppendInfo(st.msg, env.fetch(ReaderName(key), spec))),
            lists := st.lists[key := st.lists[key][1..]])
    else if key == "inplace" then
      st.(msg := Some(AppendInfo(st.msg, env.fetch("file", inplace))))
    else if key == "mapreduce" then
      if st.done then st
      else st.(msg := Some(AppendInfo(st.msg, env.mapreduceText)), done := true)
    else st.(error := Some(NotImplementedError(key)))
  }

  /** The loop over a prefix of the argument order. */
  function Steps(st: GState, order: seq<string>, inplace: string, env: Env): GState
    decreases |order|
  {
    if |order| == 0 then st
    else Step(Steps(st, order[..|order| - 1], inplace, env), order[|order| - 1], inplace, env)
  }

  /** `--ask` goes last, after a newline only when there is already text;
      with no ask the message is returned as it is, `None` included. */
  function FinishAsk(msg: Option<string>, ask: Option<string>): (r: Option<string>)
    ensures ask.None? || ask.value == "" ==> r == msg
    ensures ask.Some? && ask.value != "" ==> r.Some? && EndsWith(r.value, ask.value)
    ensures ask.Some? && ask.value != "" && msg.Some? && msg.value != "" ==>
      r == Some(msg.value + "\n" + ask.value)
    ensures ask.Some? && ask.value != "" && (msg.None? || msg.value == "") ==> r == Some(ask.value)
  {
    if ask.Some? && ask.value != "" then
      var m := if msg.None? then "" else msg.value;
      Some(m + (if m == "" then "" else "\n") + ask.value)
    else msg
  }

  /** The parsed command line; only the option lists change. */
  class Arguments {
    var lists: map<string, seq<string>>
    const inplace: string
    const ask: Option<string>

    constructor (lists: map<string, seq<string>>, inplace: string, ask: Option<string>)
      ensures this.lists == lists && this.inplace == inplace && this.ask == ask
    {
      this.lists := lists;
      this.inplace := inplace;
      this.ask := ask;
    }
  }

  /** Once an error is raised the rest of the order changes nothing. */
  lemma {:induction false} StepsSticky(st: GState, order: seq<string>, j: nat, inplace: string, env: Env)
    requires j <= |order|
    requires Steps(st, order[..j], inplace, env).error.Some?
    ensures Steps(st, order, inplace, env) == Steps(st, order[..j], inplace, env)
    decreases |order| - j
  {
    if j < |order| {
      var n := |order|;
      assert order[..n - 1][..j] == order[..j];
      StepsSticky(st, order[..n - 1], j, inplace, env);
    } else {
      assert order[..j] == order;
    }
  }

  lemma StepsPrefix(st: GState, order: seq<string>, i: nat, inplace: string, env: Env)
    requires i < |order|
    ensures Steps(st, order[..i + 1], inplace, env) == Step(Steps(st, order[..i], inplace, env), order[i], inplace, env)
  {
    assert order[..i + 1][..i] == order[..i];
  }

  /** `gather_information_ordered`: follow the argument order, consuming
      each list option from the front, appending each source's text, running
      map-reduce at most once, and finally appending `--ask`. */
  method GatherInformationOrdered(msg: Option<string>, ag: Arguments, order: seq<string>, env: Env)
      returns (r: Result<Option<string>>)
    modifies ag
    ensures var fin := Steps(GState(msg, old(ag.lists), false, None), order, ag.inplace, env);
      && ag.lists == fin.lists
      && (fin.error.Some? ==> r == Err(fin.error.value))
      && (fin.error.None? ==> r == Ok(FinishAsk(fin.msg, ag.ask)))
  {
    ghost var st0 := GState(msg, ag.lists, false, None);
    var m := msg;
    var done := false;
    for i := 0 to |order|
      invariant Steps(st0, order[..i], ag.inplace, env) == GState(m, ag.lists, done, None)
    {
      StepsPrefix(st0, order, i, ag.inplace, env);
      var key := order[i];
      if key in ListKeys {
        if key !in ag.lists {
          StepsSticky(st0, order, i + 1, ag.inplace, env);
          return Err(AttributeError);
        }
        if |ag.lists[key]| == 0 {
          StepsSticky(st0, order, i + 1, ag.inplace, env);
          return Err(IndexError);
        }
        var spec := ag.lists[key][0];
        ag.lists := ag.lists[key := ag.lists[key][1..]];
        m := Some(AppendInfo(m, env.fetch(ReaderName(key), spec)));
      } else if key == "inplace" {
        m := Some(AppendInfo(m, env.fetch("file", ag.inplace)));
      } else if key == "mapreduce" {
        if !done {
          m := Some(AppendInfo(m, env.mapreduceText));
          done := true;
        }
      } else {
        StepsSticky(st0, order, i + 1, ag.inplace, env);
        return Err(NotImplementedError(key));
      }
    }
    assert order[..|order|] == order;
    return Ok(FinishAsk(m, ag.ask));
  }

  /** Number of occurrences of `key` in `xs`. */
  function Count(key: string, xs: seq<string>): nat {
    if |xs| == 0 then 0 else Count(key, xs[..|xs| - 1]) + (if xs[|xs| - 1] == key then 1 else 0)
  }

  /** Without an error, each list option has lost exactly as many values
      from its front as it occurs in the order; other options are kept. */
  lemma {:induction false} StepsConsume(st: GState, order: seq<string>, inplace: string, env: Env)
    requires st.error.None?
    requires Steps(st, order, inplace, env).error.None?
    ensures Steps(st, order, inplace, env).lists.Keys == st.lists.Keys
    ensures forall key :: key in st.lists && key in ListKeys ==>
      Count(key, order) <= |st.lists[key]|
      && Steps(st, order, inplace, env).lists[key] == st.lists[key][Count(key, order)..]
    ensures forall key :: key in st.lists && key !in ListKeys ==>
      Steps(st, order, inplace, env).lists[key] == st.lists[key]
    decreases |order|
  {
    if |order| > 0 {
      var n := |order|;
      var front := order[..n - 1];
      var last := order[n - 1];
      var prev := Steps(st, front, inplace, env);
      var next := Step(prev, last, inplace, env);
      assert Steps(st, order, inplace, env) == next;
      StepsConsume(st, front, inplace, env);
      StepLists(prev, last, inplace, env);
      forall key | key in st.lists && key in ListKeys
        ensures Count(key, order) <= |st.lists[key]|
        ensures next.lists[key] == st.lists[key][Count(key, order)..]
      {
        if last == key {
          assert prev.lists[key][1..] == st.lists[key][Count(key, front) + 1..];
        }
      }
    }
  }

  /** One step without an error consumes the front value of a list option
      and leaves every other option list as it was. */
  lemma StepLists(st: GState, key: string, inplace: string, env: Env)
    requires st.error.None? && Step(st, key, inplace, env).error.None?
    ensures key in ListKeys ==> (key in st.lists && |st.lists[key]| > 0
      && Step(st, key, inplace, env).lists == st.lists[key := st.lists[key][1..]])
    ensures key !in ListKeys ==> Step(st, key, inplace, env).lists == st.lists
  {
  }

  /** FIFO consumption: the occurrence of a list option at position `i`
      of the order reads that option's k-th value, k being the number of
      earlier occurrences. */
  lemma GatherFifo(st: GState, order: seq<string>, i: nat, inplace: string, env: Env)
    requires st.error.None?
    requires i < |order| && order[i] in ListKeys
    requires Steps(st, order[..i + 1], inplace, env).error.None?
    ensures order[i] in st.lists && Count(order[i], order[..i]) < |st.lists[order[i]]|
    ensures Steps(st, order[..i + 1], inplace, env).msg ==
      Some(AppendInfo(Steps(st, order[..i], inplace, env).msg,
                      env.fetch(ReaderName(order[i]), st.lists[order[i]][Count(order[i], order[..i])])))
  {
    StepsPrefix(st, order, i, inplace, env);
    var prev := Steps(st, order[..i], inplace, env);
    assert prev.error.None?;
    StepsConsume(st, order[..i], inplace, env);
  }

  /** Without an error, the map-reduce flag records whether map-reduce
      occurred in the order. */
  lemma {:induction false} MapreduceDone(st: GState, order: seq<string>, inplace: string, env: Env)
    requires st.error.None?
    requires Steps(st, order, inplace, env).error.None?
    ensures Steps(st, order, inplace, env).done <==> st.done || "mapreduce" in order
    decreases |order|
  {
    if |order| > 0 {
      var n := |order|;
      var front := order[..n - 1];
      var prev := Steps(st, front, inplace, env);
      assert Steps(st, order, inplace, env) == Step(prev, order[n - 1], inplace, env);
      assert prev.error.None?;
      MapreduceDone(st, front, inplace, env);
      assert order == front + [order[n - 1]];
      assert "mapreduce" in order <==> "mapreduce" in front || order[n - 1] == "mapreduce";
    }
  }

  /** Map-reduce contributes at most once: an occurrence after the first
      (or after it already ran) changes nothing. */
  lemma MapreduceOnce(st: GState, order: seq<string>, i: nat, inplace: string, env: Env)
    requires st.error.None?
    requires i < |order| && order[i] == "mapreduce"
    requires st.done || "mapreduce" in order[..i]
    ensures Steps(st, order[..i + 1], inplace, env) == Steps(st, order[..i], inplace, env)
  {
    StepsPrefix(st, order, i, inplace, env);
    if Steps(st, order[..i], inplace, env).error.None? {
      MapreduceDone(st, order[..i], inplace, env);
    }
  }

  /** Without an error every key of the order is known; and a first
      unknown key after an error-free prefix raises `NotImplementedError`
      for that key. */
  lemma {:induction false} UnknownKeyFails(st: GState, order: seq<string>, i: nat, inplace: string, env: Env)
    requires i < |order|
    requires Steps(st, order[..i], inplace, env).error.None?
    requires !Known(order[i])
    ensures Steps(st, order, inplace, env).error == Some(NotImplementedError(order[i]))
  {
    StepsPrefix(st, order, i, inplace, env);
    StepsSticky(st, order, i + 1, inplace, env);
  }

  // ---------------------------------------------------------------------
  // mapreduce_super_long_context (command-line variant)

  const DefaultAskQuestion := "summarize the above contents."

  /** An empty `--ask` becomes the default question. */
  function UserQuestion(ask: Option<string>): (q: string)
    ensures q != ""
    ensures ask.Some? && ask.value != "" ==> q == ask.value
    ensures ask.None? || ask.value == "" ==> q == DefaultAskQuestion
  {
    if ask.Some? && ask.value != "" then ask.value else DefaultAskQuestion
  }

  /** The command-line map-reduce: a single chunk is answered by reading the
      source directly (`single`); otherwise every chunk is mapped, the
      answers reduced pairwise and the result ends in a blank line. With no
      chunk at all, taking the first result fails. */
  method CliMapreduce(ask: Option<string>, chunks: seq<string>, single: string, oneshot: string -> string)
      returns (r: Result<string>)
    ensures |chunks| == 1 ==> r == Ok(single)
    ensures |chunks| == 0 ==> r == Err(IndexError)
    ensures |chunks| >= 2 ==>
      var q := UserQuestion(ask);
      r == Ok(ReduceTree(MappedAnswers(chunks, q, oneshot), Reducer(q, oneshot)) + "\n\n")
  {
    var q := UserQuestion(ask);
    if |chunks| == 1 {
      return Ok(single);
    }
    var results := MapSerial(chunks, q, oneshot);
    if |results| == 0 {
      return Err(IndexError);
    }
    assert results == MappedAnswers(chunks, q, oneshot);
    var aggregated := ReduceSerial(results, Reducer(q, oneshot));
    return Ok(aggregated + "\n\n");
  }

  // ---------------------------------------------------------------------
  // _debgpt_is_not_configured

  const PlaceholderKey := "your-openai-api-key"
  const DefaultBaseUrl := "https://api.openai.com/v1"
  const GenconfigAliases: set<string> := {"genconfig", "genconf", "config.toml"}

  /** Python's `all` over a list of booleans. */
  function AllOf(bs: seq<bool>): (r: bool)
    ensures r <==> forall i :: 0 <= i < |bs| ==> bs[i]
  {
    if |bs| == 0 then true else bs[0] && AllOf(bs[1..])
  }

  /** `_debgpt_is_not_configured`: `all` of the four conditions, which
      holds exactly when the OpenAI frontend is chosen with the placeholder
      key and the default URL, and the command is not one of the config
      generators. */
  function IsNotConfigured(frontend: string, apiKey: string, baseUrl: string, subcommand: string): (r: bool)
    ensures r <==> (frontend == "openai" && apiKey == PlaceholderKey && baseUrl == DefaultBaseUrl
      && subcommand !in GenconfigAliases)
  {
    var conditions := [frontend == "openai", apiKey == PlaceholderKey, baseUrl == DefaultBaseUrl,
                       subcommand !in GenconfigAliases];
    assert conditions[0] && conditions[1] && conditions[2] && conditions[3] ==> AllOf(conditions);
    AllOf(conditions)
  }
}

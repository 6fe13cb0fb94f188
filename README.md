# debgpt core, modelled in Dafny

debgpt is a Debian-oriented command-line tool. It packs context into prompts for a
large language model. That context can be files, URLs, command output or sections of
the Debian Policy manual. This project models the deterministic logic around the
network calls and proves properties of it:

- `text.dfy` (module `Text`): the Python string builtins the core relies on.
  These are `str.split`, `'\n'.join`, UTF-8 encoding and decoding, `strip`/`rstrip`,
  ASCII `upper`/`lower`, lexicographic string order and `repr`. The module also holds
  the `Option`/`Result` wrappers and the exceptions the core raises.
- `reader.dfy` (module `Reader`, modelling `debgpt/reader.py`):
  - the line chunker `chunk_lines`, and `chunk_lines_nonrecursive`, which is proved
    equal to it;
  - `chunk_entry`;
  - the Markdown fence wrappers;
  - the prefix dispatch of `read`;
  - `read_and_chunk` and `read_and_wrap`.
- `mapreduce.dfy` (module `MapReduce`, modelling `debgpt/mapreduce.py`):
  - the tagged chunk dictionaries;
  - the map and reduce prompt padding;
  - `map_serial`;
  - the pairwise tree reduction;
  - the serial path of `mapreduce_super_long_context`.
- `cli.dfy` (module `Cli`, modelling `debgpt/cli.py`):
  - `gather_information_ordered`, over an `Arguments` object whose option lists it
    consumes front first;
  - the command-line map-reduce;
  - `_debgpt_is_not_configured`.
- `cache.dfy` (module `Cache`, modelling `debgpt/cache.py`): the SQLite-backed dictionary. It is a class over a map
  from key to (compressed blob, time stamp), with one-day expiry on open.
- `policy.dfy` (module `Policy`, modelling `debgpt/policy.py`): the `DebianPolicy` section index and the section
  extractor over the already-loaded lines.
- `frontend.dfy` (module `Frontend`, modelling `debgpt/frontend.py`):
  - the message validator;
  - session updates and the message count;
  - injection of the retrieved-context prompt;
  - the echo frontend;
  - the sampling-parameter fallback of the OpenAI frontend.
- `client.dfy` (module `Client`, modelling `debgpt/vector_service/client.py`): URL normalisation and the
  availability latch of the vector-service client.
- `envconfig.dfy` (module `EnvConfig`, modelling `contrib/vector_service/configure_env.py`): parsing of `.env`
  files, the secret test, and the rebuild of the file from its example template.

Calls into code outside the core become parameters:

- the language model's `oneshot` is a function value;
- fetchers, the file system, and readers that are not shown become a `World` record or
  an `Env` record of given strings;
- network replies become `Reply` values;
- the clock becomes an integer `now`;
- fresh UUIDs become a string argument;
- the chat-completion endpoint becomes a function from sampling arguments to an
  `Outcome`.

## Model

| member | source | states |
|---|---|---|
| Text.JoinSplit | debgpt/reader.py:619-627 | joining the pieces of `s.split(c)` with `c` gives back `s` |
| Text.SplitJoin | debgpt/reader.py:619-627 | splitting a join of pieces that contain no separator gives back the pieces |
| Text.Utf8RoundTrip | debgpt/cache.py:58-70 | decoding the UTF-8 encoding of a string gives the string back |
| Reader.Middle | debgpt/reader.py:557-563 | the bisection point lies strictly between start and end whenever the range has at least two lines, so recursion terminates |
| Reader.ChunkRange | debgpt/reader.py:528-564 | the chunks tile `[start, end)` contiguously in order; each chunk holds `lines[s:e]`; each chunk fits the byte budget or is one line |
| Reader.TilesAscending | debgpt/reader.py:551-564 | in a tiling, a chunk ends no later than any later chunk starts |
| Reader.TilesDistinctKeys | debgpt/reader.py:551-564 | the chunk keys of a tiling are strictly increasing, so no key is repeated |
| Reader.TilesFlatten | debgpt/reader.py:551-564 | concatenating the chunks of a tiling gives exactly `lines[start:end]` |
| Reader.ToMapKeys | debgpt/reader.py:528-564 | the dictionary keys are exactly the chunk `(start, end)` pairs |
| Reader.ToMapSlices | debgpt/reader.py:556-558 | every dictionary value is `lines[s:e]` for its key |
| Reader.ChunkDict | debgpt/reader.py:528-564 | the `chunk_lines` dictionary; negative bounds mean the whole list; every value is the slice named by its key |
| Reader.PopRange | debgpt/reader.py:591-604 | one pass of the stack loop keeps every slice value correct, leaves the keys still to come unchanged, and leaves less work on the stack |
| Reader.ChunkLinesNonrecursive | debgpt/reader.py:567-605 | the stack-based chunker returns exactly the same dictionary as `chunk_lines` |
| Reader.Wrap | debgpt/reader.py:356-378 | the wrapped text is the header line, a fence line, the content, a fence line and a final newline |
| Reader.WrapShape | debgpt/reader.py:362-365 | that text is the `'\n'`-join of header, fence, content lines, fence and `''` |
| Reader.ChunkEntry | debgpt/reader.py:609-627 | the chunking loop returns `[entry]` for a negative budget, and otherwise one entry per chunk |
| Reader.ChunksToEntries | debgpt/reader.py:621-627 | the loop over the chunk dictionary yields one entry per chunk, in order, each with the entry's path and the chunk's joined lines |
| Reader.JoinTiles | debgpt/reader.py:622-624 | `'\n'`-joining the joined chunks of a tiling gives the `'\n'`-join of the whole range |
| Reader.ChunkEntryRoundTrip | debgpt/reader.py:609-627 | every chunk keeps the entry's path; `'\n'`-joining the chunk contents in order reproduces the content; with a budget, each chunk fits it or is one whole line |
| Reader.FirstPrefix | debgpt/reader.py:407-522 | the prefix found is one the spec starts with; none is found exactly when no prefix matches |
| Reader.Classify | debgpt/reader.py:407-522 | a spec is unknown exactly when it is no file, directory, URL, prefix or stdin; `stdin` and `-` are stdin |
| Reader.DocumentEntries | debgpt/reader.py:440-496 | a named section gives one entry, under the `[spec]` path, whose content is that section of the stripped document, and fails with `KeyError` exactly when the section lookup does; an empty spec gives one entry per index, in order, each holding its section, and fails exactly when some index's lookup does |
| Reader.SectionEntries | debgpt/reader.py:440-496 | one entry per section index, each holding that section; it fails exactly when some index's lookup fails |
| Reader.ReadPrefixed | debgpt/reader.py:407-522 | every entry a prefix spec yields records the spec with the prefix removed |
| Reader.Read | debgpt/reader.py:339-525 | `FileNotFoundError(spec)` exactly for an unrecognised spec; stdin gives one `stdin` entry; a prefixed spec keeps its remainder |
| Reader.ReadStripsPrefix | debgpt/reader.py:407-522 | for each simple prefix, the single entry's path is the spec with exactly that prefix removed |
| Reader.ChunkAll | debgpt/reader.py:646-649 | chunking a list of entries fails only on an empty list, because the reduce has no initial value |
| Reader.ChunkConcatPaths | debgpt/reader.py:630-650 | every chunk comes from an entry with the same path |
| Reader.ReadAndChunk | debgpt/reader.py:630-650 | a read error passes through; a non-positive budget returns the read unchanged; otherwise it fails exactly on an empty read |
| Reader.ReadAndWrap | debgpt/reader.py:652-676 | the result is the concatenation of the wrapped chunks, or the error of reading and chunking |
| Reader.WrapAllContains | debgpt/reader.py:652-676 | every chunk's fenced text occurs verbatim in the wrapped output |
| Policy.Document | debgpt/policy.py:48-50 | line i is a prefix of raw line i that does not end in whitespace, and only whitespace was cut from the raw line's end |
| Policy.IndexesInDocumentOrder | debgpt/policy.py:73-86 | the indexes are the heading tokens, dots stripped, of the lines just before a separator line whose token ends in `.`, in document order |
| Policy.Separator | debgpt/policy.py:98-102 | 1, 2 or 3 dot components choose `***`, `===` or `---`; any other count is a lookup error |
| Policy.AbsentSectionIsEmpty | debgpt/policy.py:104-125 | a section whose heading never occurs reads as `''` |
| Policy.FoundSection | debgpt/policy.py:104-125 | a found section is its heading and separator and what follows, up to but excluding the next same-level heading, or up to the end |
| Policy.DebianPolicy.constructor | debgpt/policy.py:40-53 | the lines are stripped and the indexes scanned from them |
| Policy.DebianPolicy.Length | debgpt/policy.py:69-71 | the length is the number of indexes |
| Policy.DebianPolicy.ToString | debgpt/policy.py:88-90 | `str()` is the `'\n'`-join of the lines, and splits back into them |
| Policy.DebianPolicy.GetItem | debgpt/policy.py:92-125 | the scanning loop computes `Section(lines, index)` |
| Policy.DebianPolicy.GetItemAt | debgpt/policy.py:92-96 | an integer index, negative ones included, reads section `indexes[i]`; out of range is an `IndexError` |
| Policy.DebianPolicy.Iter | debgpt/policy.py:55-58 | iteration restarts at the first index |
| Policy.DebianPolicy.Next | debgpt/policy.py:60-67 | each step yields the next index's section and advances; past the end it signals the stop and stays put |
| Policy.DebianPolicy.AllSections | debgpt/policy.py:55-67 | iteration yields `policy[idx]` for every index, in order |
| MapReduce.Tagged | debgpt/mapreduce.py:51-59 | the keys are exactly `(path, s, e)` for the chunk keys `(s, e)`, with the same lines |
| MapReduce.Entry2Dict | debgpt/mapreduce.py:45-60 | the loop builds the tagged dictionary of the entry's chunks; every key carries the entry's path and its value is the slice it names |
| MapReduce.Entries2Dict | debgpt/mapreduce.py:63-76 | an empty list of entries fails with `TypeError` |
| MapReduce.UnionAllLaterWins | debgpt/mapreduce.py:75-76 | the union has exactly the keys of the parts, and on a repeated key the last part holding it wins |
| MapReduce.Entries2DictLaterWins | debgpt/mapreduce.py:63-76 | for entries, the merged dictionary keeps each key's lines from the last entry that has the key |
| MapReduce.PadChunkBeforeMap | debgpt/mapreduce.py:87-96 | the prompt opens with the fixed instruction naming `repr(question)`, ends with `'\n\n\n'` and the chunk verbatim, and is longer than the chunk |
| MapReduce.PadChunkInjective | debgpt/mapreduce.py:87-96 | distinct chunks give distinct prompts for the same question |
| MapReduce.PadTwoResultsForReduce | debgpt/mapreduce.py:151-158 | the prompt opens with the instruction and ends with `a` fenced and then `b` fenced, in that order |
| MapReduce.MapSerial | debgpt/mapreduce.py:115-126 | one answer per chunk, in chunk order, each the model's answer to the padded chunk |
| MapReduce.ReducePass | debgpt/mapreduce.py:289-300 | one pass over n results gives ceil(n/2): item i combines results 2i and 2i+1, and an odd last result is carried over unchanged |
| MapReduce.PassShrinks | debgpt/mapreduce.py:289-300 | each pass over two or more results leaves at least one and strictly fewer, so the loop ends |
| MapReduce.PassFolds | debgpt/mapreduce.py:289-300 | with an associative combine, a pass does not change the left fold |
| MapReduce.ReduceTreeFolds | debgpt/mapreduce.py:289-301 | with an associative combine, the tree reduction equals the left-to-right fold |
| MapReduce.ReduceSerial | debgpt/mapreduce.py:289-301 | the reduction loop ends with exactly the tree-reduced result |
| MapReduce.ReduceOnce | debgpt/mapreduce.py:293-300 | the inner loop of one pass computes `ReducePass` |
| MapReduce.MapQuestion | debgpt/mapreduce.py:225 | an empty or missing question becomes `'summarize the provided contents.'` |
| MapReduce.AsWrittenNeverReduces | debgpt/mapreduce.py:244-249 | as written, every input with a positive budget and two or more chunks fails before the map phase |
| MapReduce.MapThenReduce | debgpt/mapreduce.py:286-301 | the serial map phase over the wrapped chunks followed by the reduction loop yields the tree-reduced answers |
| MapReduce.MapReduceSuperLongContext | debgpt/mapreduce.py:222-301 | a non-positive budget fails the assertion; a single chunk is returned wrapped with no model call; otherwise the wrapped chunks are mapped and tree-reduced |
| Cli.AppendInfo | debgpt/cli.py:355-357 | `None` counts as `''`; the result is the message, `'\n'` and the info |
| Cli.Step | debgpt/cli.py:361-391 | one key of the order: an unknown key raises `NotImplementedError(key)`; an error stops everything; the mapreduce flag is set by the first `mapreduce` key, and a later one changes nothing |
| Cli.FinishAsk | debgpt/cli.py:393-398 | the ask comes last, preceded by `'\n'` only after a non-empty message; with no ask the message is unchanged, `None` included |
| Cli.Arguments.constructor | debgpt/cli.py:346-348 | the option lists, the in-place file and the ask are stored |
| Cli.StepsSticky | debgpt/cli.py:390-391 | after an error, later keys change nothing |
| Cli.StepsPrefix | debgpt/cli.py:361 | the keys are processed in order, one step each |
| Cli.GatherInformationOrdered | debgpt/cli.py:346-398 | the loop pops the option lists as the ordered steps do and returns their message with the ask appended, or the first error |
| Cli.StepLists | debgpt/cli.py:362-382 | a step without an error consumes the front value of a list option and leaves every other option list as it was |
| Cli.StepsConsume | debgpt/cli.py:362-382 | after any order, each option list has lost exactly as many front elements as the order names that option |
| Cli.GatherFifo | debgpt/cli.py:362-382 | the k-th occurrence of an option in the order reads the k-th value of that option |
| Cli.MapreduceDone | debgpt/cli.py:384-389 | the mapreduce flag ends up set exactly when `mapreduce` occurs in the order |
| Cli.MapreduceOnce | debgpt/cli.py:384-389 | a repeated `mapreduce` key changes nothing, so map-reduce contributes at most once |
| Cli.UnknownKeyFails | debgpt/cli.py:390-391 | the first unknown key, with only known keys before it, makes the gathering fail with `NotImplementedError` naming it |
| Cli.UserQuestion | debgpt/cli.py:210-213 | an empty `--ask` gives `'summarize the above contents.'` |
| Cli.CliMapreduce | debgpt/cli.py:241-343 | one chunk is read directly; two or more are mapped, tree-reduced and followed by `'\n\n'`; none fails when the first result is taken |
| Cli.AllOf | debgpt/cli.py:404 | Python's `all` over a list holds exactly when every element does |
| Cli.IsNotConfigured | debgpt/cli.py:401-409 | `all` of the four checks holds exactly when the frontend is `openai`, the key is the placeholder, the URL is the default and the command is not a config generator |
| Cache.Compress | debgpt/cache.py:58-62 | the stored frame opens with the lz4 magic and holds the payload |
| Cache.Decompress | debgpt/cache.py:64-71 | decompression succeeds only on a frame, and inverts compression |
| Cache.CompressRoundTrip | debgpt/cache.py:58-71 | compression is lossless |
| Cache.DecodeValue | debgpt/cache.py:64-71 | a corrupt blob is an error other than `KeyError` |
| Cache.ValueRoundTrip | debgpt/cache.py:58-71 | what `__setitem__` stores reads back as the same value |
| Cache.Fresh | debgpt/cache.py:44-46 | exactly the rows stamped no earlier than one day before now survive |
| Cache.Written | debgpt/cache.py:144-146 | `update` writes one fresh row per key of `other` |
| Cache.LookupIn | debgpt/cache.py:64-71 | reading a key from a table is `KeyError` exactly when the table has no row for it |
| Cache.UpdatedLookups | debgpt/cache.py:144-146 | after writing `other`'s rows over a table, `other`'s keys read back as `other`'s values and every other key reads as before |
| Cache.Cache.Lookup | debgpt/cache.py:64-71 | reading a key is `KeyError` exactly when it has no row |
| Cache.Cache.Open | debgpt/cache.py:38-46 | opening deletes exactly the expired rows |
| Cache.Cache.CleanupExpired | debgpt/cache.py:44-46 | clean-up keeps exactly the fresh rows |
| Cache.Cache.SetItem | debgpt/cache.py:58-62 | insert or replace with a fresh stamp; `c[k] == v` afterwards; other keys are untouched |
| Cache.Cache.GetItem | debgpt/cache.py:64-71 | the stored value, or `KeyError` for a missing key |
| Cache.Cache.DelItem | debgpt/cache.py:73-77 | a missing key is a `KeyError` and changes nothing; otherwise only that key is removed |
| Cache.Cache.Contains | debgpt/cache.py:79-81 | `in` holds exactly when reading the key is not a `KeyError` |
| Cache.Cache.Length | debgpt/cache.py:88-90 | `len` is the number of keys |
| Cache.Cache.Clear | debgpt/cache.py:110-112 | afterwards every key is missing |
| Cache.Cache.Get | debgpt/cache.py:114-118 | the default instead of `KeyError`; other errors pass through |
| Cache.Cache.Pop | debgpt/cache.py:120-126 | a present key is returned and removed; a missing key gives the default and changes nothing |
| Cache.Cache.PopItem | debgpt/cache.py:128-136 | an empty cache is a `KeyError`; otherwise exactly one row is removed and its key and value are returned |
| Cache.Cache.SetDefault | debgpt/cache.py:138-142 | an existing value is returned untouched; otherwise the default is stored and returned; a `None` default cannot be stored |
| Cache.Cache.WriteAll | debgpt/cache.py:144-146 | the loop of `update` writes one fresh row for each key of `other`, whatever order the keys come in |
| Cache.Cache.Update | debgpt/cache.py:144-146 | every key of `other` maps to `other`'s value and every other key keeps its own |
| Frontend.CheckIsAsserts | debgpt/frontend.py:47-58 | `_check` passes exactly when every item is a dict with a role and a content, both strings, and the role is `system`, `user` or `assistant` |
| Frontend.CheckAppend | debgpt/frontend.py:47-58 | appending a well-formed message to a checked session keeps it checked |
| Frontend.NonSystemCount | debgpt/frontend.py:188-193 | a well-formed session always has a count, and the count never exceeds the session length |
| Frontend.NonSystemCountAppend | debgpt/frontend.py:188-193 | appending one message adds one to the count exactly when its role is not `system` |
| Frontend.SnippetText | debgpt/frontend.py:247-250 | at most 512 characters and no newline; a text that fits is kept, a longer one is cut to 509 characters plus `'...'` |
| Frontend.SnippetLine | debgpt/frontend.py:244-255 | each snippet line is numbered and ends with the snippet text |
| Frontend.ContextLines | debgpt/frontend.py:240-257 | the intro, then snippet i numbered from 1, then the outro |
| Frontend.PreparedPrompt | debgpt/frontend.py:223-257 | a prompt is set exactly for a non-empty query with an active client, positive `top_k` and some results |
| Frontend.EverySecond | debgpt/frontend.py:289-293 | `s[::2]`: ceil(n/2) characters, character i being `s[2i]` |
| Frontend.Oneshot | debgpt/frontend.py:289-293 | the echo is the message, or every second character in lossy mode |
| Frontend.Frontend.constructor | debgpt/frontend.py:97-118 | an empty session and no prompt; the client is enabled when configured |
| Frontend.Frontend.Reset | debgpt/frontend.py:120-127 | the session and the prompt are cleared; the conversation gets the new id only when there is a client |
| Frontend.Frontend.VectorPrepareContext | debgpt/frontend.py:223-257 | the prompt becomes `PreparedPrompt`, and a query with `top_k` goes out only for a non-empty query, an active client and positive `top_k`; the session and the saved messages are untouched |
| Frontend.Frontend.VectorAfterAppend | debgpt/frontend.py:200-221 | an inactive service changes nothing; a non-string content raises `AttributeError` and changes nothing; the stripped text of a user message is saved and queried for a new prompt; an assistant message is saved and clears the prompt; other roles change nothing |
| Frontend.Frontend.SaveMessage | debgpt/frontend.py:200-221 | with an active service, a user message is saved and queried for the context, an assistant message is saved and clears it, any other role changes nothing |
| Frontend.Frontend.UpdateSession | debgpt/frontend.py:154-169 | a list replaces the session, a dict is appended, a string is appended as a user message, any other type is a `TypeError`; it succeeds exactly when the new session passes `_check` (a non-string content with an active service raises `AttributeError` first); an appended user message, from a string or a dict, is saved and queried for context with its stripped text, an assistant message is saved and clears the context, and nothing else reaches the service; the conversation id is kept |
| Frontend.Frontend.Length | debgpt/frontend.py:188-193 | `len` counts the messages whose role is not `system` |
| Frontend.Frontend.MessagesForLlm | debgpt/frontend.py:259-269 | the session unchanged unless it is non-empty, a prompt is set and the last message is the user's; then exactly one system message goes right before the last one |
| Frontend.Frontend.EchoQuery | debgpt/frontend.py:295-305 | a query succeeds exactly when the updated session passes `_check` and is not empty; the updated session is kept and the echo of its last message is appended as the assistant's; on failure the updated session stays; a string on a checked session gives `old + [user, assistant]`; the prompt, the queries and the saved messages end as `AfterEcho` gives them, for every input and outcome |
| Frontend.Frontend.EchoUpdated | debgpt/frontend.py:295-305 | the query for any input but a string on a checked session: the same outcome, session and service state (`AfterEcho`) as `EchoQuery` |
| Frontend.AfterSave | debgpt/frontend.py:200-221 | on an active service a user message refreshes the prompt, is queried and is saved; an assistant message is saved and clears the prompt; any other role changes nothing |
| Frontend.AfterEcho | debgpt/frontend.py:154-305 | an inactive service sees nothing; on an active one every successful query clears the prompt; a list input saves only the echo; a string or a `user` message saves and queries its stripped text, then the echo; an `assistant` message is saved, then its echo; any other role saves only the echo; a failed query leaves what `update_session` did |
| Frontend.Frontend.EchoPrompt | debgpt/frontend.py:295-305 | the query for a string on a checked session: the question and its echo are appended, both are saved, the question is queried and the context is cleared |
| Frontend.Frontend.RecordError | debgpt/frontend.py:171-178 | the handler's `update_session` appends the error text as a system message, passes exactly when the session is checked, and leaves the service state unchanged |
| Frontend.Frontend.EchoLast | debgpt/frontend.py:295-305 | on a well-formed session the echo of the last message is appended as the assistant's answer and the session stays well-formed; an active service saves the stripped echo and clears the context, an inactive one sees nothing; the conversation id is kept |
| Frontend.Frontend.Call | debgpt/frontend.py:171-178 | a success leaves the session as `EchoQuery` does; the service state ends as `AfterEcho` gives it in every case, because the recorded system message never reaches the service; a failure leaves the updated session plus one system message holding `str(e)` and raises `e` again, unless recording it fails `_check`; a value of another type records `<class '…'>` and raises `TypeError`; a non-string content with an active service records the failed `strip` and then raises `AssertionError` |
| Frontend.EchoGrowsCount | debgpt/frontend.py:295-305 | one echo query adds two to the message count |
| Frontend.CollectSamplingKwargs | debgpt/frontend.py:383-391 | only `temperature` and `top_p` that are set are kept |
| Frontend.NamedParams | debgpt/frontend.py:393-418 | the parameters the error message names, among those still sent |
| Frontend.RemoveShrinks | debgpt/frontend.py:393-418 | removing a named parameter strictly shrinks the arguments |
| Frontend.Retry | debgpt/frontend.py:421-439 | at most one attempt more than there are sampling arguments; the arguments only shrink; the result is the last call's outcome |
| Frontend.RetryOnce | debgpt/frontend.py:421-439 | a first call that succeeds is the only attempt |
| Frontend.RetryStops | debgpt/frontend.py:421-439 | a rejection that names no parameter still sent ends the retries with that error after one attempt |
| Frontend.RetryStep | debgpt/frontend.py:421-439 | a rejection that names parameters still sent costs one attempt and retries without exactly those parameters |
| Frontend.RetryDropsAll | debgpt/frontend.py:421-439 | an error naming both parameters drops them all in one retry |
| Frontend.OpenAIFrontend.constructor | debgpt/frontend.py:349-381 | models without sampling start with no system message, no sampling arguments and support disabled; others start with the system message and the collected arguments |
| Frontend.OpenAIFrontend.HandleSamplingError | debgpt/frontend.py:393-418 | it returns False and changes nothing when no argument is named; otherwise it removes the named ones, and support is disabled exactly when none is left |
| Frontend.OpenAIFrontend.ChatCompletionsCreate | debgpt/frontend.py:421-439 | the retry loop computes `Retry`, with at most one attempt more than the initial number of sampling arguments |
| Client.NormalizeBaseUrl | debgpt/vector_service/client.py:22 | trailing slashes are removed, falling back to `http://127.0.0.1:8000` when nothing is left |
| Client.Url | debgpt/vector_service/client.py:33-36 | the base, a single `/`, and the path, with a slash added when the path lacks one |
| Client.LogOnce | debgpt/vector_service/client.py:38-44 | warns only once, and only with a logger |
| Client.Ready | debgpt/vector_service/client.py:46-66 | the health check runs only on the first call while enabled; a failed check disables the client |
| Client.ContextItems | debgpt/vector_service/client.py:93-95 | `list(data)` for a `Sequence` reply: a list is returned as it is, a string becomes the list of its one-character strings; anything else gives `[]` |
| Client.QueryStep | debgpt/vector_service/client.py:68-95 | `query_context`: nothing when disabled; a failed request disables the client and returns `[]` |
| Client.MessageId | debgpt/vector_service/client.py:125 | the `id` of an object reply, otherwise `None` |
| Client.SaveStep | debgpt/vector_service/client.py:97-125 | `save_message`: `None` when disabled; a failed request disables the client and returns `None` |
| Client.DisabledIsInert | debgpt/vector_service/client.py:58-60 | a disabled client issues no request and stays unchanged, whatever is called |
| Client.DisabledStaysDisabled | debgpt/vector_service/client.py:58-125 | once disabled, no sequence of calls enables the client again |
| Client.LatchHolds | debgpt/vector_service/client.py:38-125 | over any calls, the health check runs at most once and at most one warning is logged |
| Client.FailedHealthDisables | debgpt/vector_service/client.py:58-95 | a failed first health check gives `[]` and disables the client for good |
| Client.VectorServiceClient.constructor | debgpt/vector_service/client.py:13-31 | the normalised base URL; nothing checked, warned or requested yet |
| Client.VectorServiceClient.LogOnceCall | debgpt/vector_service/client.py:38-44 | the method computes `LogOnce` |
| Client.VectorServiceClient.ReadyCall | debgpt/vector_service/client.py:58-66 | the method computes `Ready` |
| Client.VectorServiceClient.QueryContext | debgpt/vector_service/client.py:68-95 | the method computes `QueryStep` |
| Client.VectorServiceClient.SaveMessage | debgpt/vector_service/client.py:97-125 | the method computes `SaveStep` |
| EnvConfig.SplitAssignment | contrib/vector_service/configure_env.py:24 | `split("=", 1)`: key, `=` and value rebuild the line; the key holds no `=` |
| EnvConfig.SplitAssignmentUnique | contrib/vector_service/configure_env.py:24 | the first-`=` split is the only cut whose key holds no `=`, so values keep their own `=` signs |
| EnvConfig.ParsedKeys | contrib/vector_service/configure_env.py:16-26 | a key is parsed exactly when some assignment line names it |
| EnvConfig.ParsedValuesLastWins | contrib/vector_service/configure_env.py:16-26 | a parsed key holds the value of the last assignment line that names it: no later line assigns it |
| EnvConfig.AssignmentKeysMatch | contrib/vector_service/configure_env.py:29-40 | the keys in file order are exactly the keys of the defaults map |
| EnvConfig.ParseEnv | contrib/vector_service/configure_env.py:16-26 | a missing file gives no values; otherwise the loop computes `ParsedValues` |
| EnvConfig.ReadExample | contrib/vector_service/configure_env.py:29-40 | all lines unchanged, the assignment keys in file order, and the parsed defaults |
| EnvConfig.EndsWithAny | contrib/vector_service/configure_env.py:45 | `any(s.endswith(x) for x in suffixes)` holds exactly when some suffix ends `s` |
| EnvConfig.IsSecret | contrib/vector_service/configure_env.py:43-45 | a key is secret exactly when its upper-cased form ends in one of `_KEY`, `_TOKEN`, `_SECRET`, `_PASSWORD` |
| EnvConfig.IsSecretIgnoresCase | contrib/vector_service/configure_env.py:43-45 | the secret test gives the same answer for a key and its upper-cased form |
| EnvConfig.UpperAppend | contrib/vector_service/configure_env.py:44 | `upper` works character by character, so it distributes over concatenation |
| EnvConfig.SuffixMakesSecret | contrib/vector_service/configure_env.py:43-45 | every key ending in a sensitive suffix, written in upper or in lower case, is secret |
| EnvConfig.InsertSorted | contrib/vector_service/configure_env.py:75 | inserting into a strictly sorted list keeps it strictly sorted and adds exactly the new key |
| EnvConfig.SortedUnique | contrib/vector_service/configure_env.py:75 | two strictly sorted lists with the same keys are equal, so `sorted` is determined by the key set |
| EnvConfig.SortKeys | contrib/vector_service/configure_env.py:75 | the sorting loop yields the sorted key list |
| EnvConfig.RewriteLineSplits | contrib/vector_service/configure_env.py:63-69 | a rewritten assignment line splits back into its original key and `values.get(key, '')` |
| EnvConfig.Remaining | contrib/vector_service/configure_env.py:70 | the extras whose key the values do not set |
| EnvConfig.RewriteAll | contrib/vector_service/configure_env.py:62-69 | the template loop rewrites each line in place |
| EnvConfig.CustomLines | contrib/vector_service/configure_env.py:70-76 | the custom section: a blank line when needed, the header, and the sorted `key=value` lines |
| EnvConfig.BuildOutput | contrib/vector_service/configure_env.py:61-78 | the `'\n'`-join of the rewritten template, the custom section and a final empty line |
| EnvConfig.OutputKeepsTemplate | contrib/vector_service/configure_env.py:63-69 | line i of the output is line i of the template, rewritten |
| EnvConfig.OutputExtras | contrib/vector_service/configure_env.py:70-76 | the section is there exactly when some extra key is not set by the values, and opens with a blank line only when the body's last line is not blank |
| EnvConfig.CustomSectionShape | contrib/vector_service/configure_env.py:72-76 | a non-empty section ends with the header followed by exactly the extra keys, sorted, each with its existing value |
| EnvConfig.OutputEndsWithNewline | contrib/vector_service/configure_env.py:77-78 | the output ends with a newline whenever there is a template line or an extra, and is empty otherwise |

## Left out

- Fetchers are not modelled. These are HTTP, BeautifulSoup, subprocess, PDF and file-system readers, the policy download, and the `reader.*` functions `gather_information_ordered` calls. Their results are given strings in `World` and `Env`. The `reader.py` of this repository defines none of the helpers that cli.py:215 and cli.py:363-388 call (`reader.file`, `reader.tldr`, `reader.man`, `reader.buildd`, `reader.pynew`, `reader.archw`, `reader.pdf`, `reader.command_line`, `reader.bts`, `reader.html`, `reader.policy`, `reader.devref`, `reader.mapreduce_load_any_astext`), so each of those keys raises `AttributeError` as written. The `World` strings stand in for what those helpers would return.
- Thread pools are not modelled. The parallel map and reduce branches of `mapreduce.py` and `cli.py` are covered only by the serial model, because `executor.map` preserves order.
- `retry_ratelimit` and its sleeps are not modelled. The `tenacity` retries of `read_url` are not modelled either.
- Floating point is not modelled. This covers the sampling values (plain `real`s), the snippet scores (only the text is modelled) and the client timeouts.
- Vector search and embeddings are not modelled. The vector database, the microservice application, its backends and the store dump are I/O around float arrays.
- LLM vendor frontends are not modelled, apart from the sampling fallback of the OpenAI frontend. Their streaming and the `rich`/`prompt_toolkit` interface are also left out.
- Cache.Compress: the lz4 block encoding is replaced by a frame that holds the payload as it is. Only the framing and losslessness matter to the cache.
- Cache.Cache.PopItem: the row SQLite returns first is an arbitrary row of the map.
- Cache.Cache.Update: it takes a plain map, not another `Cache`.
- The cache does not keep its keys in SQLite row order. Iteration, `keys`, `values` and `items` are therefore not modelled.
- Text.Repr is only an approximation of Python's `repr`. It picks the quote as Python does and escapes the backslash, the quote, newline, carriage return and tab. The hexadecimal escapes of other non-printable characters are not modelled.
- Text.Upper: case mapping is ASCII only. Text.Lower is ASCII only as well.
- Files are given as lists of lines, so `splitlines` is not modelled. This covers `configure_env.py` and the policy cache.
- `prompt_value` and `main` of `configure_env.py` are not modelled. They read from the terminal and write files.
- `mapreduce.py` has broken helpers, and the evident intent of `map_chunk` is modelled in their place. The helpers are `map_chunk`, `reduce_two` and `pad_many_results_for_reduce`/`reduce_many`, which refer to undefined names or raise `NotImplementedError`.
- Reader.ChunkDict: an empty range with a negative budget is excluded by `ValidRange`. In the source, `chunk_lines` recurses on `(start, start)` forever and Python raises `RecursionError`; `chunk_lines_nonrecursive` loops forever on the same input. Explicit bounds outside `0 <= start <= end <= len(lines)` are excluded as well. No caller in the repository passes either: `chunk_entry` and `read_and_chunk` never chunk with a negative budget.
- Reader.Read: URL and directory reading returns the fetched text as given. HTML parsing and directory recursion are not modelled.
- Frontend.Frontend.VectorAfterAppend: the state changes of the vector client inside the frontend are not fed back into the frontend's `Active()` test. Those changes are the latch modelled in `Client`.
- Frontend.Frontend.Reset: the new UUID is a parameter, not generated.
- Frontend.Frontend.UpdateSession: a list input is copied into the session. In Python `self.session = messages` aliases the caller's list, so later appends are visible to the caller; the model does not capture that aliasing.
- Frontend.Frontend.constructor: `EchoFrontend.__init__` does not call the base initialiser (debgpt/frontend.py:281-287), so on an echo frontend `reset` raises `AttributeError` at the `_vector_client` test and `_messages_for_llm` raises it on a non-empty session. The model has one constructor for both classes, and an echo frontend built with `hasClient` false resets and builds LLM messages without error. `query` and `update_session` behave the same either way, because `_vector_active` reads the attributes with `getattr`.
- Frontend.ErrorText: `str(e)` is modelled for the exceptions the echo query can raise: `TypeError` shows the rejected class, `AttributeError` the failed `strip`, `IndexError` its message and a bare `assert` the empty text. Python's class names are given as a `typeName` string carried by the rejected value.
- The `save_message` time stamp and request payloads are not modelled. Only the endpoint of each request is recorded.
- `cli.main` and the subcommands are not modelled.
- `create_frontend` is not modelled.

## Findings

| source | as written | input that shows it | evidently intended | confidence | as-written member | corrected member |
|---|---|---|---|---|---|---|
| debgpt/mapreduce.py:244-249 | `pad_chunk_before_map` is called with one argument and `exit(0)` follows, so the map and reduce phases never run | any spec that reads as two or more chunks with a positive budget | pad each wrapped chunk with the question, map it, and reduce pairwise | not executed | MapReduce.AsWrittenNeverReduces | MapReduce.MapThenReduce, MapReduce.MapReduceSuperLongContext |

The `.env` rebuild does not always end with a newline. For an empty template with no
extras, `'\n'.join([''])` is the empty text. `EnvConfig.OutputEndsWithNewline` states
both cases as the code behaves.

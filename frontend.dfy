// Chat-session logic of the LLM frontends (debgpt/frontend.py): the
// message-list validator, session updates, the retrieved-context system
// message, the echo frontend used by the tests, and the OpenAI frontend's
// fallback that drops sampling parameters a model rejects.

module Frontend {
  import opened Text

  // ---------------------------------------------------------------------
  // messages

  /** A dictionary field: missing, a string, or a value of another type,
      known by its type's name. */
  datatype Field = Absent | Str(s: string) | NonStr(typeName: string)

  /** A session item: a dictionary with its `role` and `content` fields, or
      something that is not a dictionary at all. */
  datatype Item = Record(role: Field, content: Field) | NonRecord

  const Roles: set<string> := {"system", "user", "assistant"}

  function Message(role: string, content: string): Item {
    Record(Str(role), Str(content))
  }

  predicate WellFormed(x: Item) {
    x.Record? && x.role.Str? && x.content.Str? && x.role.s in Roles
  }

  /** `_check`: every item is a dictionary with a string role among
      system, user and assistant, and a string content. */
  predicate Check(session: seq<Item>) {
    forall i :: 0 <= i < |session| ==> WellFormed(session[i])
  }

  /** The asserts of `_check` one by one: every item is a dictionary, has
      a role and a content, both strings, and the role is one of the three. */
  lemma CheckIsAsserts(session: seq<Item>)
    ensures Check(session) <==>
      && (forall x :: x in session ==> x.Record?)
      && (forall x :: x in session && x.Record? ==> !x.role.Absent? && !x.content.Absent?)
      && (forall x :: x in session && x.Record? ==> x.role.Str? && x.content.Str?)
      && (forall x :: x in session && x.Record? && x.role.Str? ==> x.role.s in Roles)
  {
  }

  /** Appending two elements one at a time appends the pair. */
  lemma AppendPair<T>(s: seq<T>, a: T, b: T)
    ensures s + [a] + [b] == s + [a, b]
  {
  }

  lemma CheckAppend(session: seq<Item>, x: Item)
    requires Check(session) && WellFormed(x)
    ensures Check(session + [x])
  {
    assert forall i :: 0 <= i < |session| ==> (session + [x])[i] == session[i];
  }

  /** What `update_session` is given: a list (replaces the session), a
      dictionary or a string (appended), or a value of another type. */
  datatype SessionInput =
    | Replace(items: seq<Item>)
    | Append(role: Field, content: Field)
    | Prompt(s: string)
    | OtherType(typeName: string)

  /** The session `update_session` leaves, before `_check` runs. */
  function Updated(session: seq<Item>, input: SessionInput): seq<Item> {
    match input
    case Replace(items) => items
    case Append(role, content) => session + [Record(role, content)]
    case Prompt(s) => session + [Message("user", s)]
    case OtherType(_) => session
  }

  /** `__len__`: the number of messages whose role is not `system`.
      Reading `x['role']` fails on a non-dictionary (`TypeError`) and on a
      dictionary without a role (`KeyError`); the first such item decides. */
  function NonSystemCount(session: seq<Item>): (r: Result<nat>)
    ensures r.Ok? <==> forall i :: 0 <= i < |session| ==> session[i].Record? && !session[i].role.Absent?
    ensures r.Ok? ==> r.value <= |session|
    ensures Check(session) ==> r.Ok?
    ensures r.Err? ==> r.error == TypeError || r.error == KeyError
  {
    if |session| == 0 then Ok(0)
    else if session[0].NonRecord? then Err(TypeError)
    else if session[0].role.Absent? then Err(KeyError)
    else
      var rest := NonSystemCount(session[1..]);
      if rest.Err? then rest
      else Ok(rest.value + (if session[0].role == Str("system") then 0 else 1))
  }

  /** Appending a message adds one to the count unless it is a system
      message. */
  lemma {:induction false} NonSystemCountAppend(session: seq<Item>, x: Item)
    requires Check(session) && WellFormed(x)
    ensures NonSystemCount(session + [x]).Ok?
    ensures NonSystemCount(session + [x]).value ==
      NonSystemCount(session).value + (if x.role == Str("system") then 0 else 1)
    decreases |session|
  {
    if |session| > 0 {
      assert (session + [x])[1..] == session[1..] + [x];
      NonSystemCountAppend(session[1..], x);
    }
  }

  // ---------------------------------------------------------------------
  // retrieved context

  /** A snippet the vector service returns. A missing role shows as
      `unknown`; a missing text as the empty string. */
  datatype Snippet = Snippet(role: Option<string>, text: Option<string>)

  const ContextIntro := "You have access to the following retrieved conversation snippets. Use them to ground your response when relevant."
  const ContextOutro := "If none of the snippets apply, continue normally."

  /** A snippet's text on one line, at most 512 characters: longer texts
      keep their first 509 and end in `...`. */
  function SnippetText(text: Option<string>): (r: string)
    ensures |r| <= 512
    ensures '\n' !in r
    ensures var t := Strip(ReplaceChar(if text.Some? then text.value else "", '\n', ' '));
      (|t| <= 512 ==> r == t) && (|t| > 512 ==> r == t[..509] + "...")
  {
    var raw := if text.Some? then text.value else "";
    var flat := ReplaceChar(raw, '\n', ' ');
    var t := Strip(flat);
    assert '\n' !in t by {
      var rs := RStrip(flat);
      assert rs == flat[..|rs|];
      assert t == rs[|rs| - |t|..];
    }
    if |t| > 512 then t[..509] + "..." else t
  }

  /** The line for the snippet numbered `idx`. */
  function SnippetLine(idx: nat, sn: Snippet): (r: string)
    ensures StartsWith(r, NatToString(idx) + ". ")
    ensures EndsWith(r, ": " + SnippetText(sn.text))
  {
    var header := if sn.role.Some? then sn.role.value else "unknown";
    var number := NatToString(idx) + ". ";
    var tail := ": " + SnippetText(sn.text);
    Affixes(number, header, tail);
    number + header + tail
  }

  /** The lines of the context prompt: the introduction, one line per
      snippet numbered from 1, and the closing line. */
  function ContextLines(results: seq<Snippet>): (r: seq<string>)
    ensures |r| == |results| + 2
    ensures r[0] == ContextIntro && r[|r| - 1] == ContextOutro
    ensures forall i :: 1 <= i <= |results| ==> r[i] == SnippetLine(i, results[i - 1])
  {
    var body := SnippetLines(results);
    Framed(ContextIntro, body, ContextOutro);
    [ContextIntro] + body + [ContextOutro]
  }

  /** One numbered line per snippet. */
  function SnippetLines(results: seq<Snippet>): (r: seq<string>)
    ensures |r| == |results|
    ensures forall i :: 0 <= i < |results| ==> r[i] == SnippetLine(i + 1, results[i])
  {
    Indexed((i: nat, sn: Snippet) => SnippetLine(i + 1, sn), results)
  }

  /** `f` applied to each element and its position. */
  function Indexed<A, B>(f: (nat, A) -> B, xs: seq<A>): (r: seq<B>)
    ensures |r| == |xs|
    ensures forall i :: 0 <= i < |xs| ==> r[i] == f(i, xs[i])
  {
    seq(|xs|, i requires 0 <= i < |xs| => f(i, xs[i]))
  }

  lemma Framed<T>(first: T, body: seq<T>, last: T)
    ensures var r := [first] + body + [last];
      && |r| == |body| + 2 && r[0] == first && r[|r| - 1] == last
      && forall i :: 1 <= i <= |body| ==> r[i] == body[i - 1]
  {
  }

  function ContextPrompt(results: seq<Snippet>): string {
    Join("\n", ContextLines(results))
  }

  /** The prompt `_vector_prepare_context` leaves: none for an empty
      query, an inactive service, a non-positive `top_k` or no results;
      otherwise the prompt built from the results. */
  function PreparedPrompt(query: string, active: bool, topK: int, results: seq<Snippet>): (r: Option<string>)
    ensures r.Some? <==> query != "" && active && topK > 0 && |results| > 0
    ensures r.Some? ==> r.value == ContextPrompt(results)
  {
    if query == "" || !active || topK <= 0 || |results| == 0 then None
    else Some(ContextPrompt(results))
  }

  // ---------------------------------------------------------------------
  // echo

  /** The echo frontend's `lossy_rate` is 2. */
  /** `s[::2]`: every second character, from the first. */
  function EverySecond(s: string): (r: string)
    ensures |r| == (|s| + 1) / 2
    ensures forall i :: 0 <= i < |r| ==> 2 * i < |s| && r[i] == s[2 * i]
    decreases |s|
  {
    if |s| <= 1 then s
    else [s[0]] + EverySecond(s[2..])
  }

  /** `EchoFrontend.oneshot`: the message, or every second character of it
      in lossy mode. */
  function Oneshot(message: string, lossy: bool): (r: string)
    ensures !lossy ==> r == message
    ensures lossy ==> |r| == (|message| + 1) / 2
    ensures forall i :: 0 <= i < |r| ==> r[i] == message[if lossy then 2 * i else i]
  {
    if lossy then EverySecond(message) else message
  }

  /** `str(e)` for an exception the echo query raised on `input`:
      `TypeError(type(messages))` shows the class, the failed `strip` names
      the content's type, a bare `assert` has no text. No other exception
      reaches `__call__` from the echo query. */
  function ErrorText(input: SessionInput, e: Error): string {
    match e
    case TypeError => "<class '" + (if input.OtherType? then input.typeName else "") + "'>"
    case AttributeError =>
      "'" + (if input.Append? && input.content.NonStr? then input.content.typeName else "")
      + "' object has no attribute 'strip'"
    case IndexError => "list index out of range"
    case _ => ""
  }

  /** The stripped text `_vector_after_append` saves for a content field. */
  function ContentText(content: Field): string {
    if content.Str? then Strip(content.s) else ""
  }

  /** The query `_vector_prepare_context` sends to an active service. */
  function Queried(query: string, topK: int): seq<(string, int)> {
    if query != "" && topK > 0 then [(query, topK)] else []
  }

  /** What the vector service has seen: the context prompt the frontend
      holds, the queries sent and the messages saved. */
  datatype Service = Service(prompt: Option<string>, queries: seq<(string, int)>, saved: seq<(string, string)>)

  /** `_vector_after_append` on an active service, for a message whose
      content strips to `text`: a user message refreshes the prompt and is
      saved, an assistant message is saved and clears the prompt, any other
      role is ignored. */
  function AfterSave(sv: Service, topK: int, role: Field, text: string, results: seq<Snippet>): (r: Service)
    ensures role == Str("user") ==>
      r == Service(PreparedPrompt(text, true, topK, results), sv.queries + Queried(text, topK), sv.saved + [("user", text)])
    ensures role == Str("assistant") ==> r == Service(None, sv.queries, sv.saved + [("assistant", text)])
    ensures role != Str("user") && role != Str("assistant") ==> r == sv
  {
    if role == Str("user") then
      Service(PreparedPrompt(text, true, topK, results), sv.queries + Queried(text, topK), sv.saved + [("user", text)])
    else if role == Str("assistant") then Service(None, sv.queries, sv.saved + [("assistant", text)])
    else sv
  }

  /** What `update_session` does to the service: only an appended message
      reaches it, and only while it is active; a non-string content fails
      at `strip` before any request. */
  function AfterUpdate(sv: Service, active: bool, topK: int, input: SessionInput, results: seq<Snippet>): Service {
    if !active then sv
    else match input
      case Append(role, content) =>
        if content.NonStr? then sv else AfterSave(sv, topK, role, ContentText(content), results)
      case Prompt(s) => AfterSave(sv, topK, Str("user"), Strip(s), results)
      case _ => sv
  }

  /** What `EchoFrontend.query` does to the service: the update, then, when
      the query answered `echo`, the answer saved as the assistant's. */
  function AfterEcho(sv: Service, active: bool, topK: int, input: SessionInput, results: seq<Snippet>,
                     echo: Option<string>): (r: Service)
    ensures !active ==> r == sv
    ensures active && echo.Some? ==> r.prompt == None
    ensures active && echo.Some? && input.Replace? ==>
      r.saved == sv.saved + [("assistant", Strip(echo.value))] && r.queries == sv.queries
    ensures active && echo.Some? && input.Prompt? ==>
      r.saved == sv.saved + [("user", Strip(input.s)), ("assistant", Strip(echo.value))]
      && r.queries == sv.queries + Queried(Strip(input.s), topK)
    ensures active && echo.Some? && input.Append? && input.content.Str? && input.role == Str("user") ==>
      var text := Strip(input.content.s);
      r.saved == sv.saved + [("user", text), ("assistant", Strip(echo.value))]
      && r.queries == sv.queries + Queried(text, topK)
    ensures active && echo.Some? && input.Append? && input.content.Str? && input.role == Str("assistant") ==>
      r.saved == sv.saved + [("assistant", Strip(input.content.s)), ("assistant", Strip(echo.value))]
      && r.queries == sv.queries
    ensures (active && echo.Some? && input.Append? && input.content.Str?
             && input.role != Str("user") && input.role != Str("assistant")) ==>
      r.saved == sv.saved + [("assistant", Strip(echo.value))] && r.queries == sv.queries
    ensures echo.None? ==> r == AfterUpdate(sv, active, topK, input, results)
  {
    var u := AfterUpdate(sv, active, topK, input, results);
    if active && echo.Some? then AfterSave(u, topK, Str("assistant"), Strip(echo.value), results) else u
  }

  // ---------------------------------------------------------------------
  // the session

  class Frontend {
    var session: seq<Item>
    /** `_vector_context_prompt`. */
    var contextPrompt: Option<string>
    /** Whether a vector-service client is attached, and whether it is
        still enabled; the service is active when both hold. */
    const hasClient: bool
    var clientEnabled: bool
    const topK: int
    var conversationId: string
    /** Calls made to the vector service: queries with their `top_k`, and
        saved messages as (role, text). */
    var queries: seq<(string, int)>
    var saved: seq<(string, string)>
    /** `lossy_mode` of the echo frontend. */
    const lossy: bool

    function Active(): bool
      reads this
    {
      hasClient && clientEnabled
    }

    /** The prompt, the queries and the saved messages together. */
    function ServiceState(): Service
      reads this
    {
      Service(contextPrompt, queries, saved)
    }

    /** A fresh frontend: empty session, no prompt, no calls yet. */
    constructor (hasClient: bool, topK: int, conversationId: string, lossy: bool)
      ensures this.hasClient == hasClient && clientEnabled == hasClient
      ensures this.topK == topK && this.conversationId == conversationId && this.lossy == lossy
      ensures session == [] && contextPrompt == None && queries == [] && saved == []
    {
      this.hasClient := hasClient;
      clientEnabled := hasClient;
      this.topK := topK;
      this.conversationId := conversationId;
      this.lossy := lossy;
      session := [];
      contextPrompt := None;
      queries := [];
      saved := [];
    }

    /** `reset`: empty session and no prompt; with a client attached the
        conversation gets a new id. */
    method Reset(newId: string)
      modifies this
      ensures session == [] && contextPrompt == None
      ensures conversationId == if hasClient then newId else old(conversationId)
      ensures clientEnabled == old(clientEnabled) && queries == old(queries) && saved == old(saved)
    {
      session := [];
      contextPrompt := None;
      if hasClient {
        conversationId := newId;
      }
    }

    /** `_vector_prepare_context`; `results` is what the service returns
        for the query. */
    method VectorPrepareContext(query: string, results: seq<Snippet>)
      modifies this
      ensures contextPrompt == PreparedPrompt(query, Active(), topK, results)
      ensures queries == old(queries) + (if Active() then Queried(query, topK) else [])
      ensures session == old(session) && saved == old(saved) && clientEnabled == old(clientEnabled)
      ensures conversationId == old(conversationId)
    {
      if query == "" || !Active() || topK <= 0 {
        contextPrompt := None;
        return;
      }
      queries := queries + [(query, topK)];
      if |results| == 0 {
        contextPrompt := None;
        return;
      }
      contextPrompt := Some(ContextPrompt(results));
    }

    /** `_vector_after_append`: a user message refreshes the context and is
        saved; an assistant message is saved and clears the context. The
        content is stripped first, which fails on a non-string. */
    method VectorAfterAppend(role: Field, content: Field, results: seq<Snippet>) returns (r: Result<()>)
      modifies this
      ensures !old(Active()) ==> (r == Ok(()) && contextPrompt == old(contextPrompt)
        && queries == old(queries) && saved == old(saved))
      ensures old(Active()) && content.NonStr? ==> (r == Err(AttributeError) && contextPrompt == old(contextPrompt)
        && queries == old(queries) && saved == old(saved))
      ensures old(Active()) && !content.NonStr? ==> r == Ok(())
      ensures old(Active()) && !content.NonStr? && role == Str("assistant") ==>
        contextPrompt == None && saved == old(saved) + [("assistant", ContentText(content))]
        && queries == old(queries)
      ensures old(Active()) && !content.NonStr? && role == Str("user") ==>
        var text := ContentText(content);
        contextPrompt == PreparedPrompt(text, true, topK, results) && saved == old(saved) + [("user", text)]
        && queries == old(queries) + Queried(text, topK)
      ensures role != Str("user") && role != Str("assistant") ==>
        contextPrompt == old(contextPrompt) && saved == old(saved) && queries == old(queries)
      ensures session == old(session) && clientEnabled == old(clientEnabled) && conversationId == old(conversationId)
    {
      if !Active() {
        return Ok(());
      }
      var text: string;
      match content {
        case Absent => text := "";
        case Str(s) => text := Strip(s);
        case NonStr(_) => return Err(AttributeError);
      }
      SaveMessage(role, text, results);
      return Ok(());
    }

    /** The part of `_vector_after_append` past the stripping, with the
        service active. */
    method SaveMessage(role: Field, text: string, results: seq<Snippet>)
      requires Active()
      modifies this
      ensures role == Str("user") ==>
        contextPrompt == PreparedPrompt(text, true, topK, results) && saved == old(saved) + [("user", text)]
        && queries == old(queries) + Queried(text, topK)
      ensures role == Str("assistant") ==>
        contextPrompt == None && saved == old(saved) + [("assistant", text)] && queries == old(queries)
      ensures role != Str("user") && role != Str("assistant") ==>
        contextPrompt == old(contextPrompt) && saved == old(saved) && queries == old(queries)
      ensures session == old(session) && clientEnabled == old(clientEnabled) && conversationId == old(conversationId)
    {
      if role == Str("user") {
        VectorPrepareContext(text, results);
        saved := saved + [("user", text)];
      } else if role == Str("assistant") {
        saved := saved + [("assistant", text)];
        contextPrompt := None;
      }
    }

    /** `update_session`: a list replaces the session, a dictionary is
        appended, a string is appended as a user message, anything else is
        a `TypeError`; an appended message goes through
        `_vector_after_append`, and afterwards the whole session must pass
        `_check`. */
    method UpdateSession(input: SessionInput, results: seq<Snippet>) returns (r: Result<()>)
      modifies this
      ensures session == Updated(old(session), input)
      ensures input.OtherType? ==> r == Err(TypeError)
      ensures r.Ok? ==> Check(session)
      ensures input.Replace? || input.Prompt? || (input.Append? && !input.content.NonStr?) || !old(Active()) ==>
        (r.Ok? <==> !input.OtherType? && Check(session))
      ensures r.Err? && !input.OtherType? ==> r.error == AssertionError || r.error == AttributeError
      ensures r == Err(AttributeError) <==> old(Active()) && input.Append? && input.content.NonStr?
      // the service sees nothing of a replaced session, a rejected input,
      // a message with another role, or anything while inactive
      ensures (|| !old(Active()) || input.Replace? || input.OtherType?
               || (input.Append? && (input.content.NonStr? || (input.role != Str("user") && input.role != Str("assistant"))))) ==>
        contextPrompt == old(contextPrompt) && queries == old(queries) && saved == old(saved)
      // a user message, from a string or a dictionary, is saved and
      // queried for context
      ensures old(Active()) && (input.Prompt? || (input.Append? && input.role == Str("user") && !input.content.NonStr?)) ==>
        var text := if input.Prompt? then Strip(input.s) else ContentText(input.content);
        contextPrompt == PreparedPrompt(text, true, topK, results) && saved == old(saved) + [("user", text)]
        && queries == old(queries) + Queried(text, topK)
      // an assistant message is saved and clears the context
      ensures old(Active()) && input.Append? && input.role == Str("assistant") && !input.content.NonStr? ==>
        contextPrompt == None && saved == old(saved) + [("assistant", ContentText(input.content))]
        && queries == old(queries)
      ensures ServiceState() == AfterUpdate(old(ServiceState()), old(Active()), topK, input, results)
      ensures clientEnabled == old(clientEnabled) && conversationId == old(conversationId)
    {
      match input {
        case Replace(items) =>
          session := items;
        case Append(role, content) =>
          session := session + [Record(role, content)];
          var v := VectorAfterAppend(role, content, results);
          if v.Err? {
            return v;
          }
        case Prompt(s) =>
          session := session + [Message("user", s)];
          var v := VectorAfterAppend(Str("user"), Str(s), results);
        case OtherType(_) =>
          return Err(TypeError);
      }
      if !Check(session) {
        return Err(AssertionError);
      }
      return Ok(());
    }
    /** `__len__`. */
    method Length() returns (r: Result<nat>)
      ensures r == NonSystemCount(session)
      ensures Check(session) ==> r.Ok? && r.value <= |session|
    {
      r := NonSystemCount(session);
    }

    /** `_messages_for_llm`: the session, with the context prompt inserted
        as a system message right before the last message when the session
        is not empty, a prompt is set and the last message is the user's.
        Reading the last item's role fails on a non-dictionary. */
    function MessagesForLlm(): (r: Result<seq<Item>>)
      reads this
      ensures var n := |session|;
        (n == 0 || contextPrompt.None? || contextPrompt.value == "") ==> r == Ok(session)
      ensures var n := |session|;
        n > 0 && contextPrompt.Some? && contextPrompt.value != "" && session[n - 1].Record? && session[n - 1].role != Str("user")
        ==> r == Ok(session)
      ensures var n := |session|;
        n > 0 && contextPrompt.Some? && contextPrompt.value != "" && session[n - 1].Record? && session[n - 1].role == Str("user")
        ==> (r.Ok? && |r.value| == n + 1 && r.value[..n - 1] == session[..n - 1]
          && r.value[n - 1] == Message("system", contextPrompt.value) && r.value[n] == session[n - 1])
      ensures r.Err? <==> |session| > 0 && contextPrompt.Some? && contextPrompt.value != "" && session[|session| - 1].NonRecord?
      ensures r.Err? ==> r.error == AttributeError
    {
      var n := |session|;
      if n == 0 || contextPrompt.None? || contextPrompt.value == "" then Ok(session)
      else if session[n - 1].NonRecord? then Err(AttributeError)
      else if session[n - 1].role != Str("user") then Ok(session)
      else Ok(session[..n - 1] + [Message("system", contextPrompt.value), session[n - 1]])
    }

    /** `EchoFrontend.query`: update the session, echo the last message's
        content (every second character in lossy mode) and append the echo
        as the assistant's answer. An empty list leaves nothing to echo. */
    method EchoQuery(input: SessionInput, results: seq<Snippet>) returns (r: Result<string>)
      modifies this
      ensures var upd := Updated(old(session), input);
        r.Ok? ==> (|upd| > 0 && Check(upd) && session == upd + [Message("assistant", r.value)]
          && Check(session) && r.value == Oneshot(upd[|upd| - 1].content.s, lossy))
      ensures r.Err? ==> session == Updated(old(session), input)
      ensures r.Ok? <==> (Check(Updated(old(session), input)) && |Updated(old(session), input)| > 0
        && !input.OtherType? && !(old(Active()) && input.Append? && input.content.NonStr?))
      ensures old(Active()) && input.Append? && input.content.NonStr? ==> r == Err(AttributeError)
      ensures input.Prompt? && Check(old(session)) ==>
        r == Ok(Oneshot(input.s, lossy))
        && session == old(session) + [Message("user", input.s), Message("assistant", r.value)]
      ensures input.Replace? && input.items == [] ==> r == Err(IndexError)
      ensures input.OtherType? ==> r == Err(TypeError) && session == old(session)
      // the question is saved and queried, the answer saved, the context
      // cleared
      ensures input.Prompt? && Check(old(session)) && old(Active()) ==>
        var text := Strip(input.s);
        saved == old(saved) + [("user", text), ("assistant", Strip(Oneshot(input.s, lossy)))]
        && queries == old(queries) + Queried(text, topK) && contextPrompt == None
      ensures !old(Active()) ==>
        contextPrompt == old(contextPrompt) && queries == old(queries) && saved == old(saved)
      ensures ServiceState() ==
        AfterEcho(old(ServiceState()), old(Active()), topK, input, results, if r.Ok? then Some(r.value) else None)
      ensures clientEnabled == old(clientEnabled) && conversationId == old(conversationId)
    {
      ghost var upd := Updated(session, input);
      ghost var active := Active();
      if input.Prompt? && Check(session) {
        CheckAppend(session, Message("user", input.s));
        assert upd[|upd| - 1] == Message("user", input.s);
        var response := EchoPrompt(input.s, results);
        assert Active() == active && session == upd + [Message("assistant", response)];
        r := Ok(response);
      } else {
        r := EchoUpdated(input, results);
        assert Active() == active;
      }
    }

    /** `EchoFrontend.query` on any other input: the update, then the echo
        of the last message when the update passed and left a message. */
    method EchoUpdated(input: SessionInput, results: seq<Snippet>) returns (r: Result<string>)
      modifies this
      ensures var upd := Updated(old(session), input);
        r.Ok? ==> (|upd| > 0 && Check(upd) && session == upd + [Message("assistant", r.value)]
          && Check(session) && r.value == Oneshot(upd[|upd| - 1].content.s, lossy))
      ensures r.Err? ==> session == Updated(old(session), input)
      ensures r.Ok? <==> (Check(Updated(old(session), input)) && |Updated(old(session), input)| > 0
        && !input.OtherType? && !(old(Active()) && input.Append? && input.content.NonStr?))
      ensures old(Active()) && input.Append? && input.content.NonStr? ==> r == Err(AttributeError)
      ensures input.Replace? && input.items == [] ==> r == Err(IndexError)
      ensures input.OtherType? ==> r == Err(TypeError)
      ensures !old(Active()) ==>
        contextPrompt == old(contextPrompt) && queries == old(queries) && saved == old(saved)
      ensures ServiceState() ==
        AfterEcho(old(ServiceState()), old(Active()), topK, input, results, if r.Ok? then Some(r.value) else None)
      ensures clientEnabled == old(clientEnabled) && conversationId == old(conversationId)
    {
      ghost var upd := Updated(session, input);
      ghost var active := Active();
      var u := UpdateSession(input, results);
      assert Active() == active && session == upd;
      if u.Err? {
        return Err(u.error);
      }
      if |session| == 0 {
        return Err(IndexError);
      }
      var response := EchoLast();
      return Ok(response);
    }

    /** `EchoFrontend.query` for a string on a checked session: the
        question and its echo are appended; the service saves both, is
        queried with the question, and its context is cleared. */
    method EchoPrompt(s: string, results: seq<Snippet>) returns (response: string)
      requires Check(session)
      modifies this
      ensures response == Oneshot(s, lossy)
      ensures session == old(session) + [Message("user", s), Message("assistant", response)]
      ensures Check(session)
      ensures old(Active()) ==>
        saved == old(saved) + [("user", Strip(s)), ("assistant", Strip(response))]
        && queries == old(queries) + Queried(Strip(s), topK) && contextPrompt == None
      ensures ServiceState() == AfterEcho(old(ServiceState()), old(Active()), topK, Prompt(s), results, Some(response))
      ensures !old(Active()) ==>
        contextPrompt == old(contextPrompt) && queries == old(queries) && saved == old(saved)
      ensures clientEnabled == old(clientEnabled) && conversationId == old(conversationId)
    {
      CheckAppend(session, Message("user", s));
      ghost var before := session;
      var u := UpdateSession(Prompt(s), results);
      response := EchoLast();
      AppendPair(before, Message("user", s), Message("assistant", response));
      AppendPair(old(saved), ("user", Strip(s)), ("assistant", Strip(response)));
    }

    /** The echo step of `EchoFrontend.query` on a checked, non-empty
        session: answer the last message and append the answer, which the
        service saves as the assistant's. */
    method EchoLast() returns (response: string)
      requires Check(session) && |session| > 0
      modifies this
      ensures response == Oneshot(old(session)[|old(session)| - 1].content.s, lossy)
      ensures session == old(session) + [Message("assistant", response)]
      ensures Check(session)
      ensures old(Active()) ==>
        contextPrompt == None && saved == old(saved) + [("assistant", Strip(response))] && queries == old(queries)
      ensures !old(Active()) ==>
        contextPrompt == old(contextPrompt) && saved == old(saved) && queries == old(queries)
      ensures clientEnabled == old(clientEnabled) && conversationId == old(conversationId)
    {
      var newInput := session[|session| - 1].content.s;
      response := Oneshot(newInput, lossy);
      CheckAppend(session, Message("assistant", response));
      var v := UpdateSession(Append(Str("assistant"), Str(response)), []);
    }

    /** `__call__` over the echo query: a failing query leaves a system
        message holding the error text and re-raises the error, unless
        recording it fails `_check` itself. */
    method Call(input: SessionInput, results: seq<Snippet>) returns (r: Result<string>)
      modifies this
      ensures r.Ok? ==> session == Updated(old(session), input) + [Message("assistant", r.value)]
      ensures input.Prompt? && Check(old(session)) ==>
        r == Ok(Oneshot(input.s, lossy))
        && session == old(session) + [Message("user", input.s), Message("assistant", r.value)]
      ensures r.Err? ==>
        |session| == |Updated(old(session), input)| + 1 && session[..|session| - 1] == Updated(old(session), input)
        && session[|session| - 1].Record? && session[|session| - 1].role == Str("system")
      ensures r.Err? && Check(session) ==>
        session[|session| - 1] == Message("system", ErrorText(input, r.error))
      // a value of another type: the `TypeError` shows its class
      ensures input.OtherType? && Check(old(session)) ==>
        r == Err(TypeError) && session == old(session) + [Message("system", "<class '" + input.typeName + "'>")]
      // a non-string content with the service active: the failed `strip`
      // is recorded, after which `_check` rejects the session
      ensures input.Append? && input.content.NonStr? && old(Active()) ==>
        r == Err(AssertionError)
        && session == old(session) + [Record(input.role, input.content),
             Message("system", "'" + input.content.typeName + "' object has no attribute 'strip'")]
      // the recorded system message never reaches the service
      ensures ServiceState() ==
        AfterEcho(old(ServiceState()), old(Active()), topK, input, results, if r.Ok? then Some(r.value) else None)
      ensures clientEnabled == old(clientEnabled) && conversationId == old(conversationId)
    {
      ghost var upd := Updated(session, input);
      ghost var active := Active();
      var q := EchoQuery(input, results);
      assert Active() == active;
      if q.Ok? {
        return q;
      }
      var e := RecordError(ErrorText(input, q.error));
      assert session == upd + [Message("system", ErrorText(input, q.error))];
      if input.Append? && input.content.NonStr? {
        assert !WellFormed(session[|upd| - 1]);
      }
      if e.Err? {
        return Err(e.error);
      }
      return q;
    }

    /** The `update_session` call of `__call__`'s handler: the error text
        is appended as a system message, which the service ignores. */
    method RecordError(text: string) returns (r: Result<()>)
      modifies this
      ensures session == old(session) + [Message("system", text)]
      ensures r.Ok? <==> Check(session)
      ensures r.Err? ==> r.error == AssertionError
      ensures ServiceState() == old(ServiceState())
      ensures clientEnabled == old(clientEnabled) && conversationId == old(conversationId)
    {
      r := UpdateSession(Append(Str("system"), Str(text)), []);
    }
  }
  /** Echoing a prompt from a valid session yields the echo and grows the
      count of non-system messages by two. */
  lemma EchoGrowsCount(session: seq<Item>, s: string, lossy: bool)
    requires Check(session)
    ensures var after := session + [Message("user", s), Message("assistant", Oneshot(s, lossy))];
      Check(after) && NonSystemCount(after).Ok?
      && NonSystemCount(after).value == NonSystemCount(session).value + 2
  {
    var mid := session + [Message("user", s)];
    NonSystemCountAppend(session, Message("user", s));
    NonSystemCountAppend(mid, Message("assistant", Oneshot(s, lossy)));
    assert mid + [Message("assistant", Oneshot(s, lossy))] ==
      session + [Message("user", s), Message("assistant", Oneshot(s, lossy))];
  }

  // ---------------------------------------------------------------------
  // sampling parameters (OpenAI frontend)

  /** `_sampling_params_supported`: unknown (`None`), confirmed, or
      switched off. */
  datatype Support = Unknown | Confirmed | Disabled

  /** What one `chat.completions.create` call does with the given
      sampling parameters. */
  datatype Outcome = Completion(text: string) | Failure(message: string)

  const ModelsWithoutSampling: set<string> := {"o1-mini", "o1-preview", "o3-mini"}

  /** `_collect_sampling_kwargs`: `temperature` and `top_p` when the
      arguments have them and they are not `None`. */
  function CollectSamplingKwargs(args: map<string, Option<real>>): (r: map<string, real>)
    ensures r.Keys <= {"temperature", "top_p"}
    ensures "temperature" in r <==> "temperature" in args && args["temperature"].Some?
    ensures "top_p" in r <==> "top_p" in args && args["top_p"].Some?
    ensures forall k :: k in r ==> k in args && args[k] == Some(r[k])
  {
    map k | k in args && k in {"temperature", "top_p"} && args[k].Some? :: args[k].value
  }

  /** The parameters a lower-cased error message names: `temperature`, and
      `top_p` spelt with an underscore or a hyphen; only those present. */
  function NamedParams(message: string, kwargs: map<string, real>): (r: set<string>)
    ensures r <= kwargs.Keys
    ensures "temperature" in r <==> "temperature" in kwargs && Contains(message, "temperature")
    ensures "top_p" in r <==> "top_p" in kwargs && (Contains(message, "top_p") || Contains(message, "top-p"))
    ensures forall p :: p in r ==> p == "temperature" || p == "top_p"
  {
    (if "temperature" in kwargs && Contains(message, "temperature") then {"temperature"} else {})
    + (if "top_p" in kwargs && (Contains(message, "top_p") || Contains(message, "top-p")) then {"top_p"} else {})
  }

  lemma RemoveShrinks(kwargs: map<string, real>, named: set<string>)
    requires named <= kwargs.Keys && named != {}
    ensures |(kwargs - named).Keys| < |kwargs.Keys|
  {
    assert (kwargs - named).Keys == kwargs.Keys - named;
    var p :| p in named;
    assert kwargs.Keys - named <= kwargs.Keys - {p};
    assert |kwargs.Keys - {p}| == |kwargs.Keys| - 1;
    SubsetCard(kwargs.Keys - named, kwargs.Keys - {p});
  }

  lemma {:induction false} SubsetCard<T>(a: set<T>, b: set<T>)
    requires a <= b
    ensures |a| <= |b|
    decreases |b|
  {
    if b != {} {
      var x :| x in b;
      SubsetCard(a - {x}, b - {x});
    }
  }

  /** The retry loop of `_chat_completions_create` from parameters
      `kwargs`: the result, the parameters left and the attempts made. A
      failure is retried only when it names a parameter still present,
      which is then removed. */
  function Retry(kwargs: map<string, real>, create: map<string, real> -> Outcome): (r: (Result<string>, map<string, real>, nat))
    ensures 1 <= r.2 <= |kwargs.Keys| + 1
    ensures r.1.Keys <= kwargs.Keys && forall k :: k in r.1 ==> r.1[k] == kwargs[k]
    ensures create(r.1).Completion? ==> r.0 == Ok(create(r.1).text)
    ensures create(r.1).Failure? ==> (r.0 == Err(Raised(create(r.1).message))
      && (r.1 == map[] || NamedParams(Lower(create(r.1).message), r.1) == {}))
    decreases |kwargs.Keys|
  {
    match create(kwargs)
    case Completion(t) => (Ok(t), kwargs, 1)
    case Failure(m) =>
      var named := NamedParams(Lower(m), kwargs);
      if kwargs != map[] && named != {} then
        RemoveShrinks(kwargs, named);
        var rest := Retry(kwargs - named, create);
        (rest.0, rest.1, rest.2 + 1)
      else (Err(Raised(m)), kwargs, 1)
  }

  /** A model that accepts the parameters it is given is asked once. */
  lemma RetryOnce(kwargs: map<string, real>, create: map<string, real> -> Outcome)
    requires create(kwargs).Completion?
    ensures Retry(kwargs, create) == (Ok(create(kwargs).text), kwargs, 1)
  {
  }

  /** A model whose every rejection names both parameters ends up called
      without any, after at most two attempts. */
  lemma RetryDropsAll(kwargs: map<string, real>, create: map<string, real> -> Outcome)
    requires kwargs.Keys <= {"temperature", "top_p"}
    requires forall kw :: kw != map[] ==> (create(kw).Failure?
      && Contains(Lower(create(kw).message), "temperature") && Contains(Lower(create(kw).message), "top_p"))
    ensures Retry(kwargs, create).1 == map[]
    ensures Retry(kwargs, create).2 <= 2
  {
    if kwargs != map[] {
      var named := NamedParams(Lower(create(kwargs).message), kwargs);
      assert named == kwargs.Keys;
      assert kwargs - named == map[];
    }
  }

  /** A rejection that names no parameter still sent ends the loop. */
  lemma RetryStops(kwargs: map<string, real>, create: map<string, real> -> Outcome)
    requires create(kwargs).Failure?
    requires kwargs == map[] || NamedParams(Lower(create(kwargs).message), kwargs) == {}
    ensures Retry(kwargs, create) == (Err(Raised(create(kwargs).message)), kwargs, 1)
  {
  }

  /** A rejection that names parameters still sent costs one attempt and
      continues without them. */
  lemma RetryStep(kwargs: map<string, real>, create: map<string, real> -> Outcome)
    requires create(kwargs).Failure?
    requires kwargs != map[] && NamedParams(Lower(create(kwargs).message), kwargs) != {}
    ensures var rest := Retry(kwargs - NamedParams(Lower(create(kwargs).message), kwargs), create);
      Retry(kwargs, create) == (rest.0, rest.1, rest.2 + 1)
  {
  }

  class OpenAIFrontend {
    var session: seq<Item>
    /** `self.kwargs`: the sampling parameters still sent. */
    var kwargs: map<string, real>
    var supported: Support

    /** Models that take no system message nor sampling parameters start
        with neither; the others start with the system message and the
        parameters given, switched off when there are none. */
    constructor (model: string, systemMessage: string, args: map<string, Option<real>>)
      ensures model in ModelsWithoutSampling ==> session == [] && kwargs == map[] && supported == Disabled
      ensures model !in ModelsWithoutSampling ==> (session == [Message("system", systemMessage)]
        && kwargs == CollectSamplingKwargs(args)
        && (supported == Disabled <==> kwargs == map[])
        && (supported != Disabled ==> supported == Unknown))
    {
      if model !in ModelsWithoutSampling {
        var collected := CollectSamplingKwargs(args);
        session := [Message("system", systemMessage)];
        kwargs := collected;
        supported := if collected == map[] then Disabled else Unknown;
      } else {
        session := [];
        kwargs := map[];
        supported := Disabled;
      }
    }

    /** `_handle_sampling_error`: when the error names parameters still
        sent, drop them all and report a retry; switch sampling off once
        none is left. Otherwise change nothing. */
    method HandleSamplingError(message: string) returns (b: bool)
      modifies this
      ensures b <==> old(kwargs) != map[] && NamedParams(Lower(message), old(kwargs)) != {}
      ensures !b ==> kwargs == old(kwargs) && supported == old(supported)
      ensures b ==> (kwargs == old(kwargs) - NamedParams(Lower(message), old(kwargs))
        && |kwargs.Keys| < |old(kwargs).Keys|
        && (supported == Disabled <==> kwargs == map[])
        && (supported != Disabled ==> supported == Unknown))
      ensures session == old(session)
    {
      if kwargs == map[] {
        return false;
      }
      var named := NamedParams(Lower(message), kwargs);
      if named == {} {
        return false;
      }
      RemoveShrinks(kwargs, named);
      kwargs := kwargs - named;
      supported := if kwargs == map[] then Disabled else Unknown;
      return true;
    }

    /** `_chat_completions_create`: send the remaining sampling parameters,
        retry after each rejection that removes one, and confirm support on
        success. */
    method ChatCompletionsCreate(create: map<string, real> -> Outcome) returns (r: Result<string>, attempts: nat)
      modifies this
      ensures (r, kwargs, attempts) == Retry(old(kwargs), create)
      ensures attempts <= |old(kwargs).Keys| + 1
      ensures r.Ok? && kwargs != map[] ==> supported == Confirmed
      ensures session == old(session)
    {
      attempts := 0;
      ghost var goal := Retry(kwargs, create);
      while true
        invariant goal.0 == Retry(kwargs, create).0 && goal.1 == Retry(kwargs, create).1
        invariant goal.2 == attempts + Retry(kwargs, create).2
        invariant session == old(session)
        decreases |kwargs.Keys|
      {
        if kwargs != map[] && supported == Disabled {
          supported := Unknown;
        }
        var outcome := create(kwargs);
        attempts := attempts + 1;
        if outcome.Completion? {
          RetryOnce(kwargs, create);
          if kwargs != map[] {
            supported := Confirmed;
          }
          return Ok(outcome.text), attempts;
        }
        var retry := false;
        ghost var before := kwargs;
        if kwargs != map[] && supported != Disabled {
          retry := HandleSamplingError(outcome.message);
        }
        if !retry {
          RetryStops(before, create);
          return Err(Raised(outcome.message)), attempts;
        }
        RetryStep(before, create);
      }
    }
  }
}

// Client of the vector microservice (debgpt/vector_service/client.py): URL
// handling and the availability latch over `enabled`, `_checked`,
// `_available` and `_warned`. Network replies are inputs: each request
// either fails or yields a decoded JSON value.

module Client {
  import opened Text

  const DefaultBaseUrl := "http://127.0.0.1:8000"

  /** The base URL without trailing slashes, or the default when nothing
      is left. */
  function NormalizeBaseUrl(url: string): (r: string)
    ensures r != ""
    ensures r[|r| - 1] != '/'
    ensures RStripChar(url, '/') != "" ==> r == RStripChar(url, '/') && StartsWith(url, r)
    ensures RStripChar(url, '/') == "" ==> r == DefaultBaseUrl
  {
    var stripped := RStripChar(url, '/');
    if stripped == "" then DefaultBaseUrl else stripped
  }

  /** `_url`: the base followed by the path, with a slash added in front
      of a path that lacks one. */
  function Url(base: string, path: string): (r: string)
    ensures StartsWith(r, base) && EndsWith(r, path)
    ensures |r| > |base| && r[|base|] == '/'
    ensures StartsWith(path, "/") ==> r == base + path
    ensures !StartsWith(path, "/") ==> |r| == |base| + 1 + |path|
  {
    var p := if StartsWith(path, "/") then path else "/" + path;
    var r := base + p;
    assert r[..|base|] == base;
    assert r[|r| - |path|..] == path;
    r
  }

  /** A decoded JSON reply. */
  datatype Json = JNull | JStr(s: string) | JSeq(items: seq<Json>) | JObject(fields: map<string, Json>) | JOther

  /** What one request yields: a `RequestException` with its text, or a
      decoded body. */
  datatype Reply = Failed(message: string) | Received(data: Json)

  /** The endpoints the client calls. */
  datatype Endpoint = Healthz | Context | Message

  /** Whether a logger is attached, and whether it has a callable `log`. */
  datatype Logger = NoLogger | Logger(callable: bool)

  /** The client's state, with the requests issued and the warnings logged
      so far. */
  datatype State = State(enabled: bool, checked: bool, available: bool, warned: bool,
                         requests: seq<Endpoint>, logged: seq<string>)

  function Initial(enabled: bool): State {
    State(enabled, false, false, false, [], [])
  }

  function CountOf(e: Endpoint, xs: seq<Endpoint>): nat {
    if |xs| == 0 then 0 else CountOf(e, xs[..|xs| - 1]) + (if xs[|xs| - 1] == e then 1 else 0)
  }

  /** The latch invariant: the health endpoint was called exactly when the
      check has run, availability is only known after it, a failed check
      leaves the client disabled, at most one warning was logged and only
      after `_warned` was set, and nothing is logged without a logger. */
  predicate Inv(st: State, logger: Logger) {
    && CountOf(Healthz, st.requests) == (if st.checked then 1 else 0)
    && (st.available ==> st.checked)
    && (st.checked && !st.available ==> !st.enabled)
    && |st.logged| <= 1
    && (|st.logged| == 1 ==> st.warned)
    && (logger.NoLogger? ==> st.logged == [] && !st.warned)
  }

  /** `_log_once`. */
  function LogOnce(st: State, logger: Logger, message: string): (r: State)
    ensures st.warned || logger.NoLogger? ==> r == st
    ensures !st.warned && logger.Logger? ==> r.warned
    ensures r.requests == st.requests && r.enabled == st.enabled && r.checked == st.checked && r.available == st.available
    ensures Inv(st, logger) ==> Inv(r, logger)
  {
    if st.warned || logger.NoLogger? then st
    else if logger.callable then st.(logged := st.logged + ["Vector service disabled: " + message], warned := true)
    else st.(warned := true)
  }

  /** `_healthcheck` followed by the bookkeeping of `_ready`. */
  function Ready(st: State, logger: Logger, health: Reply): (r: (State, bool))
    ensures !st.enabled ==> r == (st, false)
    ensures st.enabled && st.checked ==> r == (st, st.available)
    ensures st.enabled && !st.checked ==> (r.0.checked && r.0.requests == st.requests + [Healthz]
      && (r.1 <==> health.Received?) && (r.0.enabled <==> health.Received?))
    ensures r.1 ==> r.0.enabled
    ensures r.0.enabled ==> st.enabled
    ensures Inv(st, logger) ==> Inv(r.0, logger)
  {
    if !st.enabled then (st, false)
    else if st.checked then (st, st.available)
    else
      var asked := st.(requests := st.requests + [Healthz]);
      var logged := if health.Failed? then LogOnce(asked, logger, health.message) else asked;
      var ok := health.Received?;
      (logged.(available := ok, checked := true, enabled := ok), ok)
  }

  /** The list `query_context` makes of a reply body: a sequence as it is
      (a string is a sequence of one-character strings), anything else
      empty. */
  function ContextItems(data: Json): (r: seq<Json>)
    ensures data.JSeq? ==> r == data.items
    ensures data.JStr? ==> |r| == |data.s| && forall i :: 0 <= i < |r| ==> r[i] == JStr([data.s[i]])
    ensures !data.JSeq? && !data.JStr? ==> r == []
  {
    match data
    case JSeq(items) => items
    case JStr(s) => seq(|s|, i requires 0 <= i < |s| => JStr([s[i]]))
    case _ => []
  }

  /** `query_context`: no request unless ready; a failed request logs,
      disables the client and yields nothing. */
  function QueryStep(st: State, logger: Logger, health: Reply, reply: Reply): (r: (State, seq<Json>))
    ensures !st.enabled ==> r == (st, [])
    ensures r.0.enabled ==> st.enabled
    ensures reply.Failed? ==> r.1 == []
    ensures reply.Failed? && Ready(st, logger, health).1 ==> !r.0.enabled
    ensures Ready(st, logger, health).1 && reply.Received? ==>
      r.1 == ContextItems(reply.data) && r.0 == Ready(st, logger, health).0.(requests := Ready(st, logger, health).0.requests + [Context])
    ensures !Ready(st, logger, health).1 ==> r == (Ready(st, logger, health).0, [])
    ensures Inv(st, logger) ==> Inv(r.0, logger)
  {
    var (ready, ok) := Ready(st, logger, health);
    if !ok then (ready, [])
    else
      var asked := ready.(requests := ready.requests + [Context]);
      match reply
      case Failed(m) => (LogOnce(asked, logger, m).(enabled := false), [])
      case Received(data) => (asked, ContextItems(data))
  }

  /** The id `save_message` reports: the `id` of an object body. */
  function MessageId(data: Json): (r: Option<Json>)
    ensures r.Some? <==> data.JObject? && "id" in data.fields && data.fields["id"] != JNull
    ensures r.Some? ==> r.value == data.fields["id"]
  {
    if data.JObject? && "id" in data.fields && data.fields["id"] != JNull then Some(data.fields["id"]) else None
  }

  /** `save_message`: as `query_context`, posting to the message
      endpoint. */
  function SaveStep(st: State, logger: Logger, health: Reply, reply: Reply): (r: (State, Option<Json>))
    ensures !st.enabled ==> r == (st, None)
    ensures r.0.enabled ==> st.enabled
    ensures reply.Failed? ==> r.1 == None
    ensures reply.Failed? && Ready(st, logger, health).1 ==> !r.0.enabled
    ensures Ready(st, logger, health).1 && reply.Received? ==>
      r.1 == MessageId(reply.data) && r.0 == Ready(st, logger, health).0.(requests := Ready(st, logger, health).0.requests + [Message])
    ensures !Ready(st, logger, health).1 ==> r == (Ready(st, logger, health).0, None)
    ensures Inv(st, logger) ==> Inv(r.0, logger)
  {
    var (ready, ok) := Ready(st, logger, health);
    if !ok then (ready, None)
    else
      var asked := ready.(requests := ready.requests + [Message]);
      match reply
      case Failed(m) => (LogOnce(asked, logger, m).(enabled := false), None)
      case Received(data) => (asked, MessageId(data))
  }

  /** A call on the client, with the replies the network would give. */
  datatype Call = Query(health: Reply, reply: Reply) | Save(health: Reply, reply: Reply)

  function Apply(st: State, logger: Logger, c: Call): State {
    match c
    case Query(h, r) => QueryStep(st, logger, h, r).0
    case Save(h, r) => SaveStep(st, logger, h, r).0
  }

  /** The state after a sequence of calls. */
  function Run(st: State, logger: Logger, calls: seq<Call>): State
    decreases |calls|
  {
    if |calls| == 0 then st else Apply(Run(st, logger, calls[..|calls| - 1]), logger, calls[|calls| - 1])
  }

  /** A disabled client stays exactly as it is, whatever is called and
      whatever the network would answer: it issues no request. */
  lemma {:induction false} DisabledIsInert(st: State, logger: Logger, calls: seq<Call>)
    requires !st.enabled
    ensures Run(st, logger, calls) == st
    decreases |calls|
  {
    if |calls| > 0 {
      DisabledIsInert(st, logger, calls[..|calls| - 1]);
    }
  }

  /** Once disabled, never enabled again. */
  lemma {:induction false} DisabledStaysDisabled(st: State, logger: Logger, calls: seq<Call>)
    ensures Run(st, logger, calls).enabled ==> st.enabled
    decreases |calls|
  {
    if |calls| > 0 {
      DisabledStaysDisabled(st, logger, calls[..|calls| - 1]);
    }
  }

  /** Over any sequence of calls from a fresh client: the health check is
      made at most once, at most one warning is logged, and none without a
      logger. */
  lemma {:induction false} LatchHolds(st: State, logger: Logger, calls: seq<Call>)
    requires Inv(st, logger)
    ensures Inv(Run(st, logger, calls), logger)
    ensures CountOf(Healthz, Run(st, logger, calls).requests) <= 1
    ensures |Run(st, logger, calls).logged| <= 1
    decreases |calls|
  {
    if |calls| > 0 {
      LatchHolds(st, logger, calls[..|calls| - 1]);
    }
  }

  /** A fresh client whose health check fails answers the first query
      with nothing, is disabled from then on, and a later save is a no-op
      that reports no id. */
  lemma FailedHealthDisables(logger: Logger, m1: string, reply: Reply, health2: Reply, reply2: Reply)
    ensures var (st1, r1) := QueryStep(Initial(true), logger, Failed(m1), reply);
      r1 == [] && !st1.enabled && st1.requests == [Healthz]
      && SaveStep(st1, logger, health2, reply2) == (st1, None)
  {
  }

  lemma InitialInv(enabled: bool, logger: Logger)
    ensures Inv(Initial(enabled), logger)
  {
  }

  class VectorServiceClient {
    const baseUrl: string
    const logger: Logger
    var enabled: bool
    var checked: bool
    var available: bool
    var warned: bool
    /** The requests issued and warnings logged, in order. */
    var requests: seq<Endpoint>
    var logged: seq<string>

    function Current(): State
      reads this
    {
      State(enabled, checked, available, warned, requests, logged)
    }

    constructor (baseUrl: string, enabled: bool, logger: Logger)
      ensures this.baseUrl == NormalizeBaseUrl(baseUrl) && this.logger == logger
      ensures Current() == Initial(enabled)
    {
      this.baseUrl := NormalizeBaseUrl(baseUrl);
      this.logger := logger;
      this.enabled := enabled;
      checked := false;
      available := false;
      warned := false;
      requests := [];
      logged := [];
    }

    /** `_log_once`. */
    method LogOnceCall(message: string)
      modifies this
      ensures Current() == LogOnce(old(Current()), logger, message)
    {
      if warned || logger.NoLogger? {
        return;
      }
      if logger.callable {
        logged := logged + ["Vector service disabled: " + message];
      }
      warned := true;
    }

    /** `_ready`, running the health check the first time only. */
    method ReadyCall(health: Reply) returns (b: bool)
      modifies this
      ensures (Current(), b) == Ready(old(Current()), logger, health)
    {
      if !enabled {
        return false;
      }
      if !checked {
        requests := requests + [Healthz];
        if health.Failed? {
          LogOnceCall(health.message);
        }
        available := health.Received?;
        checked := true;
        if !available {
          enabled := false;
        }
      }
      return available;
    }

    /** `query_context`. */
    method QueryContext(health: Reply, reply: Reply) returns (r: seq<Json>)
      modifies this
      ensures (Current(), r) == QueryStep(old(Current()), logger, health, reply)
    {
      var ok := ReadyCall(health);
      if !ok {
        return [];
      }
      requests := requests + [Context];
      if reply.Failed? {
        LogOnceCall(reply.message);
        enabled := false;
        return [];
      }
      return ContextItems(reply.data);
    }

    /** `save_message`. */
    method SaveMessage(health: Reply, reply: Reply) returns (r: Option<Json>)
      modifies this
      ensures (Current(), r) == SaveStep(old(Current()), logger, health, reply)
    {
      var ok := ReadyCall(health);
      if !ok {
        return None;
      }
      requests := requests + [Message];
      if reply.Failed? {
        LogOnceCall(reply.message);
        enabled := false;
        return None;
      }
      return MessageId(reply.data);
    }
  }
}

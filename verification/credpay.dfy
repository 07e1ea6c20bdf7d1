/** POST /api/credpay: the delegated payer. It checks its configuration and
    the request body, builds the query for the hosted x402 fetch endpoint
    (which detects the 402, pays and retries on the payer's behalf), makes one
    POST to it, and relays the upstream answer. The hosted endpoint is not
    modelled: what it answers is a parameter. */
module Credpay {
  import opened Http

  /** The environment the handler reads; `None` is an unset variable. */
  datatype Config = Config(secretKey: Option<string>, payerWallet: Option<string>, websiteUrl: Option<string>)

  const FETCH_ENDPOINT := "https://api.thirdweb.com/v1/payments/x402/fetch"
  const PREMIUM_PATH := "/api/premium"
  const MISSING_SECRET := "Missing THIRDWEB_SECRET_KEY"
  const MISSING_WALLET := "Missing CREDPAY_PAYER_WALLET"
  const MISSING_URL := "Missing url"

  // ---------------------------------------------------------------------------
  // Query parameters (`URLSearchParams`)

  /** One `name=value` pair of a query string, in order. */
  type Param = (string, string)

  /** `searchParams.getAll(name)`: the values named `name`, in order. */
  function Values(ps: seq<Param>, name: string): seq<string>
  {
    if ps == [] then []
    else (if ps[0].0 == name then [ps[0].1] else []) + Values(ps[1..], name)
  }

  predicate HasParam(ps: seq<Param>, name: string)
  {
    exists i :: 0 <= i < |ps| && ps[i].0 == name
  }

  /** The pairs not named `name`. */
  function Without(ps: seq<Param>, name: string): seq<Param>
  {
    if ps == [] then []
    else (if ps[0].0 == name then [] else [ps[0]]) + Without(ps[1..], name)
  }

  /** The first pair named `name` gets `value`; later pairs of that name go. */
  function ReplaceFirst(ps: seq<Param>, name: string, value: string): seq<Param>
  {
    if ps == [] then []
    else if ps[0].0 == name then [(name, value)] + Without(ps[1..], name)
    else [ps[0]] + ReplaceFirst(ps[1..], name, value)
  }

  /** `searchParams.set(name, value)`: replace the first pair of that name and
      delete the others, or append a new pair when there is none. */
  function SetParam(ps: seq<Param>, name: string, value: string): seq<Param>
  {
    if HasParam(ps, name) then ReplaceFirst(ps, name, value) else ps + [(name, value)]
  }

  lemma {:induction false} ValuesAppend(a: seq<Param>, b: seq<Param>, name: string)
    ensures Values(a + b, name) == Values(a, name) + Values(b, name)
  {
    if a != [] {
      var head := if a[0].0 == name then [a[0].1] else [];
      assert (a + b)[0] == a[0] && (a + b)[1..] == a[1..] + b;
      ValuesAppend(a[1..], b, name);
      calc {
        Values(a + b, name);
        head + Values(a[1..] + b, name);
        head + (Values(a[1..], name) + Values(b, name));
        (head + Values(a[1..], name)) + Values(b, name);
      }
    } else {
      assert a + b == b;
    }
  }

  lemma {:induction false} ValuesWithout(ps: seq<Param>, name: string, other: string)
    ensures Values(Without(ps, name), other) == if other == name then [] else Values(ps, other)
  {
    if ps != [] {
      ValuesWithout(ps[1..], name, other);
      ValuesAppend(if ps[0].0 == name then [] else [ps[0]], Without(ps[1..], name), other);
    }
  }

  lemma {:induction false} ValuesReplaceFirst(ps: seq<Param>, name: string, value: string, other: string)
    requires HasParam(ps, name)
    ensures Values(ReplaceFirst(ps, name, value), other) ==
              if other == name then [value] else Values(ps, other)
  {
    if ps[0].0 == name {
      ValuesWithout(ps[1..], name, other);
      ValuesAppend([(name, value)], Without(ps[1..], name), other);
    } else {
      var i :| 0 <= i < |ps| && ps[i].0 == name;
      assert ps[1..][i - 1].0 == name;
      ValuesReplaceFirst(ps[1..], name, value, other);
      ValuesAppend([ps[0]], ReplaceFirst(ps[1..], name, value), other);
    }
  }

  /** After `set(name, value)` the query holds exactly one `name`, with value
      `value`, and every other name keeps all its values in order. */
  lemma SetParamValues(ps: seq<Param>, name: string, value: string, other: string)
    ensures Values(SetParam(ps, name, value), name) == [value]
    ensures other != name ==> Values(SetParam(ps, name, value), other) == Values(ps, other)
  {
    if HasParam(ps, name) {
      ValuesReplaceFirst(ps, name, value, name);
      ValuesReplaceFirst(ps, name, value, other);
    } else {
      ValuesAppend(ps, [(name, value)], name);
      ValuesAppend(ps, [(name, value)], other);
      assert Values(ps, name) == [] by { NoValues(ps, name); }
    }
  }

  lemma {:induction false} NoValues(ps: seq<Param>, name: string)
    requires !HasParam(ps, name)
    ensures Values(ps, name) == []
  {
    if ps != [] {
      NoValues(ps[1..], name);
    }
  }

  /** The URL of the outbound request: a fixed endpoint and a mutable query. */
  class FetchUrl {
    const endpoint: string
    var query: seq<Param>

    constructor (endpoint: string)
      ensures this.endpoint == endpoint && query == []
    {
      this.endpoint := endpoint;
      query := [];
    }

    /** `url.searchParams.set(name, value)`, in place. */
    method Set(name: string, value: string)
      modifies this
      ensures query == SetParam(old(query), name, value)
      ensures Values(query, name) == [value]
      ensures forall other :: other != name ==> Values(query, other) == Values(old(query), other)
    {
      forall other
        ensures Values(SetParam(query, name, value), name) == [value]
        ensures other != name ==> Values(SetParam(query, name, value), other) == Values(query, other)
      {
        SetParamValues(query, name, value, other);
      }
      query := SetParam(query, name, value);
    }
  }

  /** Three `set` calls on a fresh URL with three distinct names leave the
      three pairs in call order. */
  lemma ThreeDistinctSets(a: Param, b: Param, c: Param)
    requires a.0 != b.0 && a.0 != c.0 && b.0 != c.0
    ensures SetParam(SetParam(SetParam([], a.0, a.1), b.0, b.1), c.0, c.1) == [a, b, c]
  {
    assert SetParam([], a.0, a.1) == [a];
    assert !HasParam([a], b.0);
    assert SetParam([a], b.0, b.1) == [a, b];
    assert !HasParam([a, b], c.0);
  }

  // ---------------------------------------------------------------------------
  // Request body

  /** `(body?.method as string | undefined)?.toUpperCase() || "GET"`: `None` is
      the TypeError thrown when the field is neither absent, `null` nor a
      string (it has no `toUpperCase`). */
  function NormalizeMethod(given: Option<JsonValue>): (r: Option<string>)
    ensures r.None? <==> given.Some? && !given.value.JNull? && !given.value.JString?
    ensures r.Some? ==> r.value != "" && forall i :: 0 <= i < |r.value| ==> !IsLowerLetter(r.value[i])
    ensures r.Some? && r.value != "GET" ==>
              given.Some? && given.value.JString? && r.value == ToUpper(given.value.s)
    ensures given.Some? && given.value.JString? && given.value.s != "" ==> r == Some(ToUpper(given.value.s))
  {
    match given
    case None => Some("GET")
    case Some(JNull) => Some("GET")
    case Some(JString(s)) => if ToUpper(s) == "" then Some("GET") else Some(ToUpper(s))
    case Some(_) => None
  }

  /** `body?.url` is truthy. */
  predicate UrlGiven(body: Option<JsonValue>)
  {
    var url := Property(body, "url");
    url.Some? && Truthy(url.value)
  }

  /** A template string renders an unset variable as `undefined`. */
  function TemplateText(v: Option<string>): string
  {
    match v
    case Some(s) => s
    case None => "undefined"
  }

  // ---------------------------------------------------------------------------
  // Upstream request and relay

  datatype UpstreamRequest = UpstreamRequest(
    httpMethod: string, endpoint: string, query: seq<Param>, headers: map<string, string>)

  /** What the hosted endpoint answers; `json` is what `upstream.json()`
      yields for `text`, `None` when that rejects. Header names are lower-case. */
  datatype UpstreamResponse = UpstreamResponse(
    status: int, headers: map<string, string>, text: string, json: Option<JsonValue>)

  /** The settled `fetch`: a response, or a rejected promise. */
  datatype Fetched = Received(response: UpstreamResponse) | NetworkError

  /** `upstream.headers.get("content-type") || ""`. */
  function ContentType(r: UpstreamResponse): string
  {
    if "content-type" in r.headers then r.headers["content-type"] else ""
  }

  /** The relay rule: same status; decoded JSON re-encoded when the content
      type mentions `application/json`, the raw text otherwise. */
  function Relay(upstream: Fetched): (out: Outcome)
    ensures upstream.NetworkError? ==> out == Threw
    ensures out.Replied? ==> upstream.Received? && out.response.status == upstream.response.status
    ensures upstream.Received? && !Contains(ContentType(upstream.response), JSON_CONTENT_TYPE) ==>
              out.Replied? && out.response.body == TextBody(upstream.response.text) &&
              out.response.headers == map["content-type" := TEXT_CONTENT_TYPE]
    ensures upstream.Received? && Contains(ContentType(upstream.response), JSON_CONTENT_TYPE) ==>
              (out.Replied? <==> upstream.response.json.Some?) &&
              (out.Replied? ==> out.response.body == JsonBody(upstream.response.json.value) &&
                                out.response.headers == map["content-type" := JSON_CONTENT_TYPE])
  {
    match upstream
    case NetworkError => Threw
    case Received(r) =>
      if Contains(ContentType(r), JSON_CONTENT_TYPE) then
        match r.json
        case Some(v) => Replied(JsonResponse(v, r.status))
        case None => Threw
      else Replied(TextResponse(r.text, r.status))
  }

  /** A response without a content type is relayed as text. */
  lemma NoContentTypeIsText(r: UpstreamResponse)
    requires "content-type" !in r.headers
    ensures Relay(Received(r)) == Replied(TextResponse(r.text, r.status))
  {
    assert !OccursAt("", JSON_CONTENT_TYPE, 0);
  }

  // ---------------------------------------------------------------------------
  // The handler

  /** Both configuration checks pass. */
  predicate Configured(cfg: Config)
  {
    Present(cfg.secretKey) && Present(cfg.payerWallet)
  }

  /** The handler, run to completion. `call` is the one upstream request it
      makes, if any; `upstream` is what that request would settle to. */
  method Post(cfg: Config, body: Option<JsonValue>, upstream: Fetched)
    returns (call: Option<UpstreamRequest>, out: Outcome)
    ensures !Present(cfg.secretKey) ==>
              call == None && out == Replied(JsonResponse(ErrorPayload(MISSING_SECRET), 500))
    ensures Present(cfg.secretKey) && !Present(cfg.payerWallet) ==>
              call == None && out == Replied(JsonResponse(ErrorPayload(MISSING_WALLET), 500))
    ensures Configured(cfg) && NormalizeMethod(Property(body, "method")).None? ==>
              call == None && out == Threw
    ensures Configured(cfg) && NormalizeMethod(Property(body, "method")).Some? && !UrlGiven(body) ==>
              call == None && out == Replied(JsonResponse(ErrorPayload(MISSING_URL), 400))
    ensures call.Some? <==>
              Configured(cfg) && NormalizeMethod(Property(body, "method")).Some? && UrlGiven(body)
    ensures call.Some? ==>
              call.value == UpstreamRequest(
                "POST", FETCH_ENDPOINT,
                [("from", cfg.payerWallet.value),
                 ("url", TemplateText(cfg.websiteUrl) + PREMIUM_PATH),
                 ("method", NormalizeMethod(Property(body, "method")).value)],
                map["x-secret-key" := cfg.secretKey.value]) &&
              out == Relay(upstream)
  {
    if !Present(cfg.secretKey) {
      return None, Replied(JsonResponse(ErrorPayload(MISSING_SECRET), 500));
    }
    if !Present(cfg.payerWallet) {
      return None, Replied(JsonResponse(ErrorPayload(MISSING_WALLET), 500));
    }
    var secretKey, fromWallet := cfg.secretKey.value, cfg.payerWallet.value;

    var verb := NormalizeMethod(Property(body, "method"));
    if verb.None? {
      return None, Threw;
    }
    if !UrlGiven(body) {
      return None, Replied(JsonResponse(ErrorPayload(MISSING_URL), 400));
    }

    var url := new FetchUrl(FETCH_ENDPOINT);
    url.Set("from", fromWallet);
    url.Set("url", TemplateText(cfg.websiteUrl) + PREMIUM_PATH);
    url.Set("method", verb.value);
    ThreeDistinctSets(("from", fromWallet), ("url", TemplateText(cfg.websiteUrl) + PREMIUM_PATH),
                      ("method", verb.value));

    call := Some(UpstreamRequest("POST", url.endpoint, url.query, map["x-secret-key" := secretKey]));
    out := Relay(upstream);
  }
}

/** GET /api/premium: the resource guard. It checks its configuration, asks
    the settlement facilitator to settle the payment header against a fixed
    requirement, and either serves the premium payload (settlement status
    200) or forwards the facilitator's answer (the HTTP 402 "Payment Required"
    challenge of section 15.5.3 of RFC 9110, or any other status) with its
    body and headers. The facilitator is not modelled: what it settles to is a
    parameter. */
module Premium {
  import opened Http

  /** The environment the handler reads; `None` is an unset variable. */
  datatype Config = Config(secretKey: Option<string>, payTo: Option<string>)

  /** The incoming request. Header names are lower-case, as a `Headers`
      object holds them, so a lookup ignores case (section 5.1 of RFC 9110). */
  datatype Request = Request(url: string, headers: map<string, string>)

  const MISSING_SECRET := "Missing THIRDWEB_SECRET_KEY"
  const MISSING_PAYTO := "Missing API_PAYTO_WALLET"
  const PRICE := "$0.01"
  const PREMIUM_DATA := "Premium content unlocked \U{2705}"
  const WAIT_UNTIL := "submitted"

  datatype Network = BaseSepolia

  /** The facilitator the handler builds from the client and the recipient. */
  datatype Facilitator = Facilitator(secretKey: string, serverWalletAddress: string, waitUntil: string)

  /** The arguments of the settlement call. */
  datatype Requirement = Requirement(
    resourceUrl: string,
    httpMethod: string,
    paymentData: Option<string>,
    payTo: string,
    network: Network,
    price: string,
    facilitator: Facilitator)

  /** `result.responseBody`: absent (`null`/`undefined`), a string, or another
      value, represented by the text `JSON.stringify` gives for it. */
  datatype SettlementBody = NoBody | StringBody(s: string) | ValueBody(serialized: string)

  /** A header value of the settlement result: a string, or another value,
      represented by the text `String(v)` gives for it. */
  datatype HeaderValue = StringValue(s: string) | OtherValue(rendered: string)

  /** The settlement result. `responseHeaders` lists the entries of the
      headers object in `Object.entries` order; `None` is an absent object. */
  datatype Settlement = Settlement(
    status: int,
    responseBody: SettlementBody,
    responseHeaders: Option<seq<(string, HeaderValue)>>)

  /** The settled `settlePayment` promise: a result, or a rejection. */
  datatype Settled = Settled(result: Settlement) | SettlementError

  /** `req.headers.get("x-payment")`; `None` is `null`. */
  function PaymentHeader(req: Request): Option<string>
  {
    if "x-payment" in req.headers then Some(req.headers["x-payment"]) else None
  }

  /** The fixed requirement for this resource, given the configuration. */
  function RequirementFor(req: Request, secretKey: string, payTo: string): Requirement
  {
    Requirement(req.url, "GET", PaymentHeader(req), payTo, BaseSepolia, PRICE,
                Facilitator(secretKey, payTo, WAIT_UNTIL))
  }

  /** `{ ok: true, data: "Premium content unlocked ✅", ts }`. */
  function PremiumPayload(ts: string): JsonValue
  {
    JObject([("ok", JBool(true)), ("data", JString(PREMIUM_DATA)), ("ts", JString(ts))])
  }

  /** The forwarded body: the string itself, else `JSON.stringify(body ?? {})`. */
  function ForwardedBody(b: SettlementBody): string
  {
    match b
    case StringBody(s) => s
    case ValueBody(text) => text
    case NoBody => "{}"
  }

  /** `String(v)`. */
  function Stringify(v: HeaderValue): string
  {
    match v
    case StringValue(s) => s
    case OtherValue(text) => text
  }

  /** `Object.entries(responseHeaders ?? {})`. */
  function Entries(h: Option<seq<(string, HeaderValue)>>): seq<(string, HeaderValue)>
  {
    match h
    case Some(es) => es
    case None => []
  }

  // ---------------------------------------------------------------------------
  // Header values (`Headers.set` of the Fetch standard)

  /** HTTP whitespace: tab, line feed, carriage return, space. */
  predicate IsHttpWhitespace(c: char)
  {
    c == '\t' || c == '\n' || c == '\r' || c == ' '
  }

  /** Removes leading HTTP whitespace. */
  function TrimStart(s: string): (r: string)
    ensures |r| <= |s|
    ensures r != [] ==> !IsHttpWhitespace(r[0])
  {
    if s != [] && IsHttpWhitespace(s[0]) then TrimStart(s[1..]) else s
  }

  /** Removes trailing HTTP whitespace. */
  function TrimEnd(s: string): (r: string)
    ensures |r| <= |s|
    ensures r != [] ==> !IsHttpWhitespace(r[|r| - 1])
  {
    if s != [] && IsHttpWhitespace(s[|s| - 1]) then TrimEnd(s[..|s| - 1]) else s
  }

  /** `TrimStart` drops a prefix made only of HTTP whitespace. */
  lemma {:induction false} TrimStartSuffix(s: string)
    ensures TrimStart(s) == s[|s| - |TrimStart(s)|..]
    ensures forall k :: 0 <= k < |s| - |TrimStart(s)| ==> IsHttpWhitespace(s[k])
  {
    if s != [] && IsHttpWhitespace(s[0]) {
      TrimStartSuffix(s[1..]);
    }
  }

  /** `TrimEnd` drops a suffix made only of HTTP whitespace. */
  lemma {:induction false} TrimEndPrefix(s: string)
    ensures TrimEnd(s) == s[..|TrimEnd(s)|]
    ensures forall k :: |TrimEnd(s)| <= k < |s| ==> IsHttpWhitespace(s[k])
  {
    if s != [] && IsHttpWhitespace(s[|s| - 1]) {
      TrimEndPrefix(s[..|s| - 1]);
    }
  }

  /** The value `headers.set` stores: leading and trailing HTTP whitespace is
      removed (`NormalizeSlice` states that nothing else changes). */
  function NormalizeValue(s: string): (r: string)
    ensures |r| <= |s|
    ensures r != [] ==> !IsHttpWhitespace(r[0]) && !IsHttpWhitespace(r[|r| - 1])
  {
    var t := TrimStart(s);
    TrimEndPrefix(t);
    TrimEnd(t)
  }

  /** The normalised value is a contiguous part of the value, with only HTTP
      whitespace cut from either end. */
  lemma NormalizeSlice(s: string) returns (i: nat, j: nat)
    ensures i <= j <= |s| && NormalizeValue(s) == s[i..j]
    ensures forall k :: 0 <= k < i ==> IsHttpWhitespace(s[k])
    ensures forall k :: j <= k < |s| ==> IsHttpWhitespace(s[k])
  {
    var t := TrimStart(s);
    TrimStartSuffix(s);
    TrimEndPrefix(t);
    i := |s| - |t|;
    j := i + |TrimEnd(t)|;
  }

  /** A value `headers.set` accepts: every character fits in a byte (the
      ByteString conversion), and the normalised value holds no NUL, CR or LF. */
  predicate ValidValue(s: string)
  {
    && (forall i :: 0 <= i < |s| ==> s[i] as int <= 0xFF)
    && (forall i :: 0 <= i < |NormalizeValue(s)| ==>
          NormalizeValue(s)[i] !in {'\0', '\r', '\n'})
  }

  /** Every entry's stringified value is accepted, so the copy loop completes. */
  predicate AllValid(es: seq<(string, HeaderValue)>)
  {
    forall j :: 0 <= j < |es| ==> ValidValue(Stringify(es[j].1))
  }

  // ---------------------------------------------------------------------------
  // Header copy

  /** The header fields after `headers.set(k, String(v))` for each entry in
      order, starting from `m`. */
  function Copied(m: map<string, string>, es: seq<(string, HeaderValue)>): map<string, string>
  {
    if es == [] then m
    else
      var last := es[|es| - 1];
      Copied(m, es[..|es| - 1])[ToLower(last.0) := NormalizeValue(Stringify(last.1))]
  }

  /** The index of the last entry whose name is `field` ignoring case. */
  function LastNamed(es: seq<(string, HeaderValue)>, field: string): (r: Option<nat>)
    ensures r.None? <==> forall j :: 0 <= j < |es| ==> ToLower(es[j].0) != field
    ensures r.Some? ==> r.value < |es| && ToLower(es[r.value].0) == field &&
                        forall j :: r.value < j < |es| ==> ToLower(es[j].0) != field
  {
    if es == [] then None
    else if ToLower(es[|es| - 1].0) == field then Some(|es| - 1)
    else
      var r := LastNamed(es[..|es| - 1], field);
      assert forall j :: 0 <= j < |es| - 1 ==> es[..|es| - 1][j] == es[j];
      r
  }

  /** Copying the entries sets every field some entry names, with the
      normalised value of the LAST entry of that name (case-insensitively),
      and leaves every other field as it was. */
  lemma {:induction false} CopiedField(m: map<string, string>, es: seq<(string, HeaderValue)>, field: string)
    ensures field in Copied(m, es) <==> field in m || LastNamed(es, field).Some?
    ensures LastNamed(es, field).Some? ==>
              Copied(m, es)[field] == NormalizeValue(Stringify(es[LastNamed(es, field).value].1))
    ensures LastNamed(es, field).None? && field in m ==> Copied(m, es)[field] == m[field]
  {
    if es != [] {
      var init := es[..|es| - 1];
      assert forall j :: 0 <= j < |es| - 1 ==> init[j] == es[j];
      CopiedField(m, init, field);
    }
  }

  /** Every field name the copy produces is lower-case when `m`'s are. */
  lemma {:induction false} CopiedLowerCase(m: map<string, string>, es: seq<(string, HeaderValue)>)
    requires forall k :: k in m ==> IsLowerCase(k)
    ensures forall k :: k in Copied(m, es) ==> IsLowerCase(k)
  {
    if es != [] {
      CopiedLowerCase(m, es[..|es| - 1]);
    }
  }

  /** The response's header fields, keyed by lower-case name. */
  class HeaderMap {
    var fields: map<string, string>

    constructor (init: map<string, string>)
      ensures fields == init
    {
      fields := init;
    }

    /** `headers.set(name, value)`: stores the normalised value under the
        lower-cased name, replacing any field of that name. `ok` is false
        where `set` throws a TypeError; nothing is stored then. */
    method Set(name: string, value: string) returns (ok: bool)
      modifies this
      ensures ok == ValidValue(value)
      ensures ok ==> fields == old(fields)[ToLower(name) := NormalizeValue(value)]
      ensures !ok ==> fields == old(fields)
    {
      ok := ValidValue(value);
      if ok {
        fields := fields[ToLower(name) := NormalizeValue(value)];
      }
    }
  }

  /** The loop `for (const [k, v] of entries) res.headers.set(k, String(v))`
      over a response whose fields start as `init`. `ok` is false where a
      `set` throws; `fields` is then the state the loop stopped in. */
  method CopyHeaders(init: map<string, string>, entries: seq<(string, HeaderValue)>)
    returns (ok: bool, fields: map<string, string>)
    ensures ok <==> AllValid(entries)
    ensures ok ==> fields == Copied(init, entries)
  {
    var res := new HeaderMap(init);
    for i := 0 to |entries|
      invariant AllValid(entries[..i])
      invariant res.fields == Copied(init, entries[..i])
    {
      assert entries[..i + 1][..i] == entries[..i];
      var stored := res.Set(entries[i].0, Stringify(entries[i].1));
      if !stored {
        assert !ValidValue(Stringify(entries[i].1));
        return false, res.fields;
      }
    }
    assert entries[..|entries|] == entries;
    return true, res.fields;
  }

  // ---------------------------------------------------------------------------
  // The handler

  /** The handler, run to completion. `call` is the settlement call it makes,
      if any; `settle` is what that call would settle to; `ts` is the
      timestamp text of the success payload. */
  method Get(cfg: Config, req: Request, settle: Settled, ts: string)
    returns (call: Option<Requirement>, out: Outcome)
    ensures !Present(cfg.secretKey) ==>
              call == None && out == Replied(JsonResponse(ErrorPayload(MISSING_SECRET), 500))
    ensures Present(cfg.secretKey) && !Present(cfg.payTo) ==>
              call == None && out == Replied(JsonResponse(ErrorPayload(MISSING_PAYTO), 500))
    ensures call.Some? <==> Present(cfg.secretKey) && Present(cfg.payTo)
    ensures call.Some? ==> call.value == RequirementFor(req, cfg.secretKey.value, cfg.payTo.value)
    ensures call.Some? && settle.SettlementError? ==> out == Threw
    ensures call.Some? && out.Replied? ==> settle.Settled? && out.response.status == settle.result.status
    ensures call.Some? && settle.Settled? && settle.result.status == 200 ==>
              out == Replied(JsonResponse(PremiumPayload(ts), 200))
    ensures call.Some? && settle.Settled? && settle.result.status != 200 ==>
              (out.Replied? <==> AllValid(Entries(settle.result.responseHeaders)))
    ensures call.Some? && settle.Settled? && settle.result.status != 200 && out.Replied? ==>
              out.response.body == TextBody(ForwardedBody(settle.result.responseBody)) &&
              out.response.headers ==
                Copied(map["content-type" := TEXT_CONTENT_TYPE], Entries(settle.result.responseHeaders))
  {
    if !Present(cfg.secretKey) {
      return None, Replied(JsonResponse(ErrorPayload(MISSING_SECRET), 500));
    }
    if !Present(cfg.payTo) {
      return None, Replied(JsonResponse(ErrorPayload(MISSING_PAYTO), 500));
    }
    call := Some(RequirementFor(req, cfg.secretKey.value, cfg.payTo.value));
    if settle.SettlementError? {
      return call, Threw;
    }
    var result := settle.result;
    if result.status == 200 {
      return call, Replied(JsonResponse(PremiumPayload(ts), 200));
    }

    var ok, fields := CopyHeaders(map["content-type" := TEXT_CONTENT_TYPE],
                                  Entries(result.responseHeaders));
    if !ok {
      return call, Threw;
    }
    out := Replied(Response(result.status, TextBody(ForwardedBody(result.responseBody)), fields));
  }
}

/** Values shared by both route handlers and the client page: optional values,
    decoded JSON with JavaScript truthiness, ASCII case mapping, substring search,
    and the responses a route handler produces. */
module Http {

  datatype Option<+T> = None | Some(value: T)

  /** A decoded JSON value. Numbers are kept as integers: the handlers only
      ever test them for truthiness. Object members keep their textual order,
      duplicates included, as the decoder saw them. */
  datatype JsonValue =
    | JNull
    | JBool(b: bool)
    | JNumber(n: int)
    | JString(s: string)
    | JArray(items: seq<JsonValue>)
    | JObject(members: seq<(string, JsonValue)>)

  /** JavaScript truthiness of a decoded JSON value (`if (v)`). */
  predicate Truthy(v: JsonValue)
  {
    match v
    case JNull => false
    case JBool(b) => b
    case JNumber(n) => n != 0
    case JString(s) => s != ""
    case JArray(_) => true
    case JObject(_) => true
  }

  /** JavaScript truthiness of an optional string (`undefined`, `null` and `""`
      are falsy): how the handlers test environment variables and headers. */
  predicate Present(o: Option<string>)
  {
    o.Some? && o.value != ""
  }

  /** The value of the last member named `key`: `JSON.parse` lets a later
      duplicate key overwrite an earlier one. */
  function LastMember(ms: seq<(string, JsonValue)>, key: string): (r: Option<JsonValue>)
    ensures r.Some? <==> exists i :: 0 <= i < |ms| && ms[i].0 == key
    ensures r.Some? ==> exists i :: 0 <= i < |ms| && ms[i] == (key, r.value) &&
                          forall j :: i < j < |ms| ==> ms[j].0 != key
  {
    if ms == [] then None
    else if ms[|ms| - 1].0 == key then Some(ms[|ms| - 1].1)
    else
      var r := LastMember(ms[..|ms| - 1], key);
      assert forall i :: 0 <= i < |ms| - 1 ==> ms[..|ms| - 1][i] == ms[i];
      r
  }

  /** Optional chaining `v?.key` on a decoded body: `None` is `undefined`.
      Only an object has the property; `null`, strings, numbers, booleans and
      arrays give `undefined`. */
  function Property(v: Option<JsonValue>, key: string): (r: Option<JsonValue>)
    ensures r.Some? ==> v.Some? && v.value.JObject?
    ensures v.Some? && v.value.JObject? ==> r == LastMember(v.value.members, key)
  {
    match v
    case Some(JObject(ms)) => LastMember(ms, key)
    case _ => None
  }

  predicate IsLowerLetter(c: char) { 'a' <= c <= 'z' }
  predicate IsUpperLetter(c: char) { 'A' <= c <= 'Z' }

  function UpperChar(c: char): char
  {
    if IsLowerLetter(c) then (c as int - 32) as char else c
  }

  function LowerChar(c: char): char
  {
    if IsUpperLetter(c) then (c as int + 32) as char else c
  }

  /** `String.prototype.toUpperCase`, restricted to the ASCII letters. */
  function ToUpper(s: string): (r: string)
    ensures |r| == |s|
    ensures forall i :: 0 <= i < |r| ==> !IsLowerLetter(r[i])
    ensures forall i :: 0 <= i < |r| ==> LowerChar(r[i]) == LowerChar(s[i])
  {
    seq(|s|, i requires 0 <= i < |s| => UpperChar(s[i]))
  }

  /** ASCII lower-casing, as a `Headers` object applies it to field names. */
  function ToLower(s: string): (r: string)
    ensures |r| == |s|
    ensures forall i :: 0 <= i < |r| ==> !IsUpperLetter(r[i])
    ensures forall i :: 0 <= i < |r| ==> UpperChar(r[i]) == UpperChar(s[i])
  {
    seq(|s|, i requires 0 <= i < |s| => LowerChar(s[i]))
  }

  predicate IsLowerCase(s: string)
  {
    forall i :: 0 <= i < |s| ==> !IsUpperLetter(s[i])
  }

  /** `sub` occurs in `s` starting at index `i`. */
  predicate OccursAt(s: string, sub: string, i: int)
  {
    0 <= i <= |s| - |sub| && s[i..i + |sub|] == sub
  }

  /** `s.includes(sub)`. */
  predicate Contains(s: string, sub: string)
  {
    exists i :: 0 <= i <= |s| && OccursAt(s, sub, i)
  }

  /** The number a string of decimal digits denotes, read left to right. */
  function DigitsValue(s: string): nat
    requires forall i :: 0 <= i < |s| ==> '0' <= s[i] <= '9'
  {
    if s == [] then 0
    else DigitsValue(s[..|s| - 1]) * 10 + (s[|s| - 1] as int - '0' as int)
  }

  /** Decimal rendering of a status code inside a template string: a
      non-empty string of digits, without a leading zero, that denotes `n`. */
  function DecimalText(n: nat): (r: string)
    ensures |r| >= 1
    ensures forall i :: 0 <= i < |r| ==> '0' <= r[i] <= '9'
    ensures |r| > 1 ==> r[0] != '0'
    ensures DigitsValue(r) == n
  {
    if n < 10 then ['0' + n as char]
    else
      var prefix := DecimalText(n / 10);
      var r := prefix + ['0' + (n % 10) as char];
      assert r[..|r| - 1] == prefix;
      r
  }

  /** A response body: JSON written by `NextResponse.json`, or text. */
  datatype Body = JsonBody(value: JsonValue) | TextBody(text: string)

  /** A response as the handler returns it; header names are lower-case. */
  datatype Response = Response(status: int, body: Body, headers: map<string, string>)

  const JSON_CONTENT_TYPE := "application/json"
  /** The content type the Fetch standard gives a response built from a string. */
  const TEXT_CONTENT_TYPE := "text/plain;charset=UTF-8"

  /** `NextResponse.json(value, { status })`. */
  function JsonResponse(value: JsonValue, status: int): Response
  {
    Response(status, JsonBody(value), map["content-type" := JSON_CONTENT_TYPE])
  }

  /** `new NextResponse(text, { status })`. */
  function TextResponse(text: string, status: int): Response
  {
    Response(status, TextBody(text), map["content-type" := TEXT_CONTENT_TYPE])
  }

  /** The `{ error: message }` payload of the configuration and input errors. */
  function ErrorPayload(message: string): JsonValue
  {
    JObject([("error", JString(message))])
  }

  /** How a route handler ends: it returns a response, or its promise rejects
      (an exception escapes; the framework then answers on its own). */
  datatype Outcome = Replied(response: Response) | Threw
}

# Credpay x402 demo — a Dafny model

The demo puts a paywall in front of one API route and adds a second route
that pays on a requester's behalf.

- `GET /api/premium` is the **resource guard**. It reads its configuration
  (the settlement secret key and the recipient wallet `payTo`). It then asks
  the settlement facilitator to settle the request's `x-payment` header
  against a fixed requirement: `$0.01`, `GET`, network Base Sepolia, paid to
  `payTo`, for the request URL. On settlement status 200 it serves the
  premium JSON payload. On any other status it forwards the facilitator's
  answer: the status, the body as text, and every header. That answer is
  typically the HTTP 402 "Payment Required" challenge of section 15.5.3 of
  RFC 9110.
- `POST /api/credpay` is the **delegated payer**. It reads its configuration
  (secret key, payer wallet, public site URL) and the JSON body `{url,
  method?}`. It builds a query for a hosted x402 fetch endpoint, which
  detects the 402, pays, retries and returns the final answer. It sends one
  `POST` to that endpoint, authenticated with an `x-secret-key` header. It
  relays the answer with the same status. The body is re-encoded JSON when
  the content type mentions `application/json`, and raw text otherwise.
- The page (`page.tsx`) is a **client state machine** over the steps `idle`,
  `calling`, `blocked`, `paying`, `success` and `error`. It has two button
  handlers, `callPremium` and `continueWithCredpay`. Button guards decide
  which handler a click can run.

The external settlement provider, the hosted fetch endpoint and every
`fetch` are replaced by abstract outcome values, given as parameters. Each
handler returns the outbound call it makes (`None` when it makes none) and
its outcome. The outcome is either a response or `Threw`, which means an
exception escaped the handler.

Files:

- `http.dfy`: shared values. These are decoded JSON with JavaScript
  truthiness, optional chaining on a body, ASCII case mapping, `includes`,
  and responses in the shape that `NextResponse.json` and
  `new NextResponse(text)` give them.
- `credpay.dfy`: the delegated payer. It includes the `URLSearchParams.set`
  semantics and a `FetchUrl` class whose query the handler sets in place.
- `premium.dfy`: the resource guard. It includes a `HeaderMap` class that the
  header-copy loop updates in place.
- `client.dfy`: the page. `View` and the functions `BeginCall`, `FinishCall`,
  `BeginPay`, `FinishPay` and `OnClick` specify the handlers. The class
  `Home` holds the same fields and updates them step by step. Lemmas over
  runs of clicks give reachability and the invariants.

Some behaviour follows from the code and goes beyond the route comments:

- A `method` field that is present but neither `null` nor a string has no
  `toUpperCase`. The handler then throws, and it does so before the `url`
  check. The 400 `Missing url` reply therefore needs the method field to be
  absent, `null` or a string.
- `WEBSITE_URL` is never checked. When it is unset the template renders it
  as `undefined`, so the forwarded target becomes `undefined/api/premium`.
- Forwarded headers are copied into a `Headers` object, which stores field
  names in lower case (field names are case-insensitive, section 5.1 of
  RFC 9110). A forwarded name is therefore lower-cased, and a later entry
  whose name differs only in case overwrites an earlier one.
- `Headers.set` strips leading and trailing HTTP whitespace (tab, line feed,
  carriage return, space) from a value. It throws a `TypeError` when a
  character does not fit in a byte, or when the stripped value still holds
  NUL, carriage return or line feed. A settlement header with such a value
  makes the guard throw instead of forwarding the answer.
- A 2xx reply whose body is not JSON makes the page's `res.json()` reject.
  The same happens when a `fetch` rejects. The page then stays in `calling`
  or `paying`, where both buttons are disabled, so no later click changes it
  (`Client.PendingIsFinal`). Credpay relays non-JSON upstream text with the
  upstream status, so a 2xx text answer leaves the page in `paying`.
- A forwarded guard response starts with content type
  `text/plain;charset=UTF-8`, as a response built from a string does. A
  forwarded `content-type` header then replaces it.

## Model

| member | source | states |
|---|---|---|
| `Credpay.Post` | src/app/api/credpay/route.ts:12-58 | A missing (unset or empty) secret key gives 500 `{error:"Missing THIRDWEB_SECRET_KEY"}` before anything else. A missing payer wallet then gives 500 `{error:"Missing CREDPAY_PAYER_WALLET"}`. A method that is present but neither `null` nor a string then throws. A falsy or absent `url` then gives 400 `{error:"Missing url"}`. None of these makes an upstream call. Otherwise exactly one call is made: a `POST` to the fixed endpoint with query `from`=wallet, `url`=site URL + `/api/premium` and `method`=normalised method, and header `x-secret-key`=secret. The body's `url` is not forwarded. The outcome is the relay of the upstream answer. |
| `Credpay.NormalizeMethod` | src/app/api/credpay/route.ts:26 | An absent, `null` or empty method gives `GET`. A non-empty string gives its upper-cased form. Any other value throws. The result is never empty and has no lower-case letter. |
| `Credpay.Relay` | src/app/api/credpay/route.ts:48-57 | The relayed status always equals the upstream status. The body is the decoded JSON, under an `application/json` content type, exactly when the content type contains `application/json`; a body that does not decode then throws. Otherwise the body is the raw text as `text/plain`. A network failure throws. |
| `Credpay.NoContentTypeIsText` | src/app/api/credpay/route.ts:48 | A missing content-type header counts as `""`, so the answer is relayed as text. |
| `Credpay.SetParamValues` | src/app/api/credpay/route.ts:37-39 | After `searchParams.set(name, value)` the query holds exactly one value for `name`, namely `value`. Every other name keeps all its values in order. |
| `Credpay.FetchUrl.Set` | src/app/api/credpay/route.ts:37-39 | The in-place `set` replaces the query by its `set` semantics. The named parameter then has the single value given, and the others are unchanged. |
| `Credpay.ThreeDistinctSets` | src/app/api/credpay/route.ts:36-39 | Three `set` calls with distinct names on a fresh URL leave exactly those three pairs, in call order. |
| `Http.Property` | src/app/api/credpay/route.ts:25 | `body?.url` is defined only on an object body, and then it is the value of the last member with that key. |
| `Http.LastMember` | src/app/api/credpay/route.ts:24-25 | A decoded object's key has a value iff some member has that key. The value is the one of the last such member. |
| `Http.ToUpper` | src/app/api/credpay/route.ts:26 | Upper-casing keeps the length, leaves no lower-case letter and changes nothing but letter case. |
| `Premium.Get` | src/app/api/premium/route.ts:14-65 | A missing secret key gives 500 `{error:"Missing THIRDWEB_SECRET_KEY"}`. With the key set, a missing `payTo` gives 500 `{error:"Missing API_PAYTO_WALLET"}`. Neither makes a settlement call. Otherwise one call is made with the fixed requirement. Settlement status 200 gives exactly the premium payload with status 200. Every other status keeps its status whenever the handler replies. It replies exactly when every settlement header value is one `Headers.set` accepts, and otherwise throws. The reply's body is the string, the JSON text or `{}`, and its headers are the text/plain default with every settlement header copied over it. A rejected settlement throws. |
| `Premium.CopiedField` | src/app/api/premium/route.ts:60-62 | After the copy loop, a header field exists iff it existed before or some entry names it (ignoring case). Its value is the stringified value of the last entry with that name, with surrounding HTTP whitespace stripped. A field no entry names keeps its value. |
| `Premium.CopiedLowerCase` | src/app/api/premium/route.ts:60-62 | The copy keeps every response field name lower-case, as the `Headers` object stores names. |
| `Premium.LastNamed` | src/app/api/premium/route.ts:60-62 | Finds the last entry whose name matches a field case-insensitively, or reports that no entry matches. |
| `Premium.HeaderMap.Set` | src/app/api/premium/route.ts:61 | `res.headers.set(k, v)` succeeds exactly when `v` is a valid header value. It then stores the whitespace-stripped `v` under the lower-cased `k`, replacing any field of that name and changing nothing else. When it throws, the fields are unchanged. |
| `Premium.CopyHeaders` | src/app/api/premium/route.ts:59-62 | The copy loop completes exactly when every entry's stringified value is valid, and then leaves the fields of copying every entry in order. |
| `Premium.NormalizeValue` | src/app/api/premium/route.ts:61 | The stored value is no longer than the given one and neither starts nor ends with HTTP whitespace. |
| `Premium.NormalizeSlice` | src/app/api/premium/route.ts:61 | The stored value is a contiguous part of the given value, and everything cut from either end is HTTP whitespace. |
| `Http.ToLower` | src/app/api/premium/route.ts:61 | Lower-casing a header name keeps its length, leaves no upper-case letter and changes nothing but letter case. |
| `Client.Home.Log` | src/app/page.tsx:18-20 | `log` appends exactly one line, `[time] msg`, and changes nothing else. |
| `Client.Home.CallPremium` | src/app/page.tsx:34-61 | The new state is `FinishCall` applied to `BeginCall` of the old state. |
| `Client.Home.ContinueWithCredpay` | src/app/page.tsx:63-87 | The new state is `FinishPay` applied to `BeginPay` of the old state. |
| `Client.Home.Click` | src/app/page.tsx:97-111 | A click runs the handler only when its button is enabled. `paying` is entered only from `blocked`. |
| `Client.Home.constructor` | src/app/page.tsx:8-14 | The page starts in `idle` with no logs, no result, no challenge and `credpaySucceeded` false. |
| `Client.CallOutcomes` | src/app/page.tsx:34-61 | When "Call" is enabled, the click first clears `result`, `challenge` and `credpaySucceeded`. Status 402, tested before `ok`, leads to `blocked` with the challenge text. Another non-ok status leads to `error` with no result. An ok status with JSON leads to `success` with the data. A rejected reply stays in `calling`. In every case `credpaySucceeded` ends false, the challenge is set only in `blocked` and the result only in `success`. |
| `Client.ContinueOutcomes` | src/app/page.tsx:63-87 | When "Continue" is enabled, a non-ok reply leads to `error` with the raw text as result. An ok reply with JSON leads to `success` with the data and `credpaySucceeded` true. A rejected reply stays in `paying`. The challenge is kept. |
| `Client.PayingOnlyFromBlocked` | src/app/page.tsx:107 | `paying` is entered only by the Continue button, and only from `blocked`. |
| `Client.PendingIsFinal` | src/app/page.tsx:99 | In `calling` or `paying` both buttons are disabled, so no sequence of clicks changes the page. |
| `Client.IdleNotReentered` | src/app/page.tsx:34-107 | No click leads back to `idle`. A click that ends in `idle` changed nothing. |
| `Client.InitialConsistent` | src/app/page.tsx:8-14 | The initial page is consistent and shows neither the challenge panel nor the result panel. |
| `Client.ClickConsistent` | src/app/page.tsx:34-107 | Each click preserves the page invariant. `idle` and `calling` have no result and no challenge. `blocked` and `paying` have a challenge and no result. `success` has decoded data. `error` has no result or raw text. `credpaySucceeded` implies `success`. |
| `Client.RunConsistent` | src/app/page.tsx:34-107 | Every state reached by clicks from a consistent state is consistent. |
| `Client.LogsOnlyGrow` | src/app/page.tsx:18-20 | Over any run of clicks, earlier log lines are never changed or dropped. |
| `Client.ExplorerLinkOnlyAfterPayment` | src/app/page.tsx:135-138 | In a consistent state the "View transaction" link is shown only in `success` after a Credpay payment, with decoded data as the result. |
| `Http.DecimalText` | src/app/page.tsx:52 | The status rendered into a log line is a non-empty string of decimal digits, without a leading zero, whose value is the status. |

## Left out

- The settlement facilitator (`createThirdwebClient`, `facilitator`, `settlePayment`) and the hosted x402 fetch endpoint are calls into code that is not shown. Their answers are parameters. The model does not cover proof validity, single use of a proof, or on-chain settlement.
- Network I/O (`fetch`), body decoding (`req.json()`, `upstream.json()`, `res.json()`) and `JSON.stringify` are opaque. A decoded body is a parameter, a failed decode is `None`, and a non-string settlement body or header value is represented by its serialised text.
- Serialising the outbound URL (`toString()`, percent-encoding) is not modelled. The request records the endpoint and the ordered query pairs.
- What the framework answers after a handler throws (`Threw`) is not modelled. Response-constructor validation (status range, header-name syntax) is not modelled either.
- Environment variables are a configuration record of optional strings. Reading them is not modelled.
- Timestamps (`toISOString`, `toLocaleTimeString`) are opaque strings passed in.
- `Http.ToUpper`: maps only the ASCII letters, whereas `toUpperCase` applies full Unicode case mapping. Non-ASCII method names are therefore not modelled exactly.
- JSON numbers are integers. The handlers only test them for truthiness.
- The payer-metadata effect (`useEffect` in `page.tsx`) is pure I/O. The two fields it sets are fixed when the page is built. JSX rendering and styling are represented only by the button and panel guards.
- Async interleaving is not modelled: each handler runs to completion, and the intermediate `calling`/`paying` step is visible only through `BeginCall`/`BeginPay`. A click arriving while a fetch is pending cannot happen in the model.
- `src/app/layout.tsx` holds static metadata and markup, with no logic.

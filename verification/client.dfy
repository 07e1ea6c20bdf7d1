/** The demo page: a state machine driven by two buttons. "Call Premium API"
    runs `callPremium` (GET /api/premium); from the 402 challenge, "Continue
    with Credpay" runs `continueWithCredpay` (POST /api/credpay). Each handler
    runs to completion; the responses it awaits and the clock readings it logs
    are parameters. */
module Client {
  import opened Http

  datatype Step = Idle | Calling | Blocked | Paying | Success | Error

  /** What `result` holds when it is not `null`: decoded JSON, or raw text. */
  datatype Shown = Data(value: JsonValue) | RawText(text: string)

  /** What an awaited `fetch` settles to. `json` is what `res.json()` yields
      for `text`, `None` when it rejects. `Failed` is a rejected `fetch`. */
  datatype Reply = Reply(status: nat, text: string, json: Option<JsonValue>) | Failed

  /** `res.ok`. */
  predicate Ok(status: nat)
  {
    200 <= status <= 299
  }

  /** The page state. `payerAddress` and `payerExplorerUrl` are set only by the
      payer-metadata effect, which is not modelled; here they are fixed. */
  datatype View = View(
    step: Step,
    logs: seq<string>,
    result: Option<Shown>,
    challenge: Option<string>,
    credpaySucceeded: bool,
    payerAddress: Option<string>,
    payerExplorerUrl: Option<string>)

  function Initial(payerAddress: Option<string>, payerExplorerUrl: Option<string>): View
  {
    View(Idle, [], None, None, false, payerAddress, payerExplorerUrl)
  }

  /** One log line: `[time] msg`. */
  function LogEntry(time: string, msg: string): string
  {
    "[" + time + "] " + msg
  }

  const MSG_CALLING := "Calling x402 protected API..."
  const MSG_GOT_402 := "Got 402 Payment Required."
  const MSG_CALL_ERROR := "Error calling API: "
  const MSG_GOT_200 := "Got 200 OK."
  const MSG_PAYING := "Requesting Credpay credit, paying x402, and retrying..."
  const MSG_PAY_FAILED := "Credpay flow failed: "
  const MSG_PAID := "Success. Premium response returned."

  // ---------------------------------------------------------------------------
  // The handlers, as functions of the state

  /** `callPremium` up to its `fetch`. */
  function BeginCall(v: View, t: string): View
  {
    v.(step := Calling, result := None, challenge := None, credpaySucceeded := false,
       logs := v.logs + [LogEntry(t, MSG_CALLING)])
  }

  /** `callPremium` after its `fetch` settles. A rejected `fetch` or
      `res.json()` ends the handler with nothing more changed. */
  function FinishCall(v: View, res: Reply, t: string): View
  {
    match res
    case Failed => v
    case Reply(status, text, json) =>
      if status == 402 then
        v.(logs := v.logs + [LogEntry(t, MSG_GOT_402)], challenge := Some(text), step := Blocked)
      else if !Ok(status) then
        v.(logs := v.logs + [LogEntry(t, MSG_CALL_ERROR + DecimalText(status))], step := Error)
      else if json.None? then v
      else
        v.(logs := v.logs + [LogEntry(t, MSG_GOT_200)], result := Some(Data(json.value)), step := Success)
  }

  /** `continueWithCredpay` up to its `fetch`. */
  function BeginPay(v: View, t: string): View
  {
    v.(step := Paying, credpaySucceeded := false, logs := v.logs + [LogEntry(t, MSG_PAYING)])
  }

  /** `continueWithCredpay` after its `fetch` settles. */
  function FinishPay(v: View, res: Reply, t: string): View
  {
    match res
    case Failed => v
    case Reply(status, text, json) =>
      if !Ok(status) then
        v.(logs := v.logs + [LogEntry(t, MSG_PAY_FAILED + DecimalText(status))],
           result := Some(RawText(text)), step := Error)
      else if json.None? then v
      else
        v.(logs := v.logs + [LogEntry(t, MSG_PAID)], result := Some(Data(json.value)),
           credpaySucceeded := true, step := Success)
  }

  // ---------------------------------------------------------------------------
  // Button and panel guards

  /** "Call Premium API" is enabled. */
  predicate CallEnabled(s: Step)
  {
    !(s == Calling || s == Paying)
  }

  /** "Continue with Credpay" is enabled. */
  predicate ContinueEnabled(s: Step)
  {
    s == Blocked
  }

  /** The challenge panel is rendered. */
  predicate ChallengeShown(v: View)
  {
    v.step == Blocked
  }

  /** `result` is truthy: the result panel is rendered. */
  predicate ResultShown(v: View)
  {
    match v.result
    case None => false
    case Some(Data(d)) => Truthy(d)
    case Some(RawText(s)) => s != ""
  }

  /** The "View transaction" link is rendered (it sits inside the result panel). */
  predicate ExplorerLinkShown(v: View)
  {
    ResultShown(v) && v.credpaySucceeded && Present(v.payerExplorerUrl)
  }

  // ---------------------------------------------------------------------------
  // Clicks and runs

  /** A click, with the reply the handler awaits and the two clock readings
      of its log lines. */
  datatype Click = CallClicked(res: Reply, t1: string, t2: string)
                 | ContinueClicked(res: Reply, t1: string, t2: string)

  /** A click on a disabled button does nothing. */
  function OnClick(v: View, c: Click): View
  {
    match c
    case CallClicked(res, t1, t2) =>
      if CallEnabled(v.step) then FinishCall(BeginCall(v, t1), res, t2) else v
    case ContinueClicked(res, t1, t2) =>
      if ContinueEnabled(v.step) then FinishPay(BeginPay(v, t1), res, t2) else v
  }

  function Run(v: View, cs: seq<Click>): View
    decreases |cs|
  {
    if cs == [] then v else Run(OnClick(v, cs[0]), cs[1..])
  }

  /** What holds in every state the page can reach. */
  ghost predicate Consistent(v: View)
  {
    && (v.step in {Idle, Calling} ==> v.result == None && v.challenge == None && !v.credpaySucceeded)
    && (v.step in {Blocked, Paying} ==> v.result == None && v.challenge.Some? && !v.credpaySucceeded)
    && (v.step == Success ==> v.result.Some? && v.result.value.Data?)
    && (v.step == Error ==> v.result == None || v.result.value.RawText?)
    && (v.credpaySucceeded ==> v.step == Success)
  }

  lemma InitialConsistent(payerAddress: Option<string>, payerExplorerUrl: Option<string>)
    ensures Consistent(Initial(payerAddress, payerExplorerUrl))
    ensures !ChallengeShown(Initial(payerAddress, payerExplorerUrl))
    ensures !ResultShown(Initial(payerAddress, payerExplorerUrl))
  {
  }

  /** Every click keeps the page consistent. */
  lemma ClickConsistent(v: View, c: Click)
    requires Consistent(v)
    ensures Consistent(OnClick(v, c))
  {
  }

  /** Every state reached from the initial one by clicks is consistent. */
  lemma {:induction false} RunConsistent(v: View, cs: seq<Click>)
    requires Consistent(v)
    ensures Consistent(Run(v, cs))
    decreases |cs|
  {
    if cs != [] {
      ClickConsistent(v, cs[0]);
      RunConsistent(OnClick(v, cs[0]), cs[1..]);
    }
  }

  /** `paying` is entered only from `blocked`. */
  lemma PayingOnlyFromBlocked(v: View, c: Click)
    requires OnClick(v, c).step == Paying && v.step != Paying
    ensures v.step == Blocked && c.ContinueClicked?
  {
  }

  /** `calling` and `paying` disable both buttons: once a handler stops in
      one of them (a rejected `fetch` or `res.json()`), no click changes the
      page again. */
  lemma {:induction false} PendingIsFinal(v: View, cs: seq<Click>)
    requires v.step == Calling || v.step == Paying
    ensures Run(v, cs) == v
    decreases |cs|
  {
    if cs != [] {
      PendingIsFinal(OnClick(v, cs[0]), cs[1..]);
    }
  }

  /** `idle` is never re-entered: a click that ends in `idle` did nothing. */
  lemma IdleNotReentered(v: View, c: Click)
    requires OnClick(v, c).step == Idle
    ensures OnClick(v, c) == v
  {
  }

  /** An enabled "Call" click ends in `blocked`, `success` or `error`, unless
      the awaited reply rejects, which leaves the page in `calling`. */
  lemma CallOutcomes(v: View, res: Reply, t1: string, t2: string)
    requires CallEnabled(v.step)
    ensures var w := OnClick(v, CallClicked(res, t1, t2));
      && (w.step == Blocked <==> res.Reply? && res.status == 402)
      && (w.step == Blocked ==> w.challenge == Some(res.text) && w.result == None)
      && (w.step == Error <==> res.Reply? && res.status != 402 && !Ok(res.status))
      && (w.step == Error ==> w.result == None)
      && (w.step == Success <==> res.Reply? && Ok(res.status) && res.json.Some?)
      && (w.step == Success ==> w.result == Some(Data(res.json.value)) && !w.credpaySucceeded)
      && (w.step == Calling <==> res.Failed? || (Ok(res.status) && res.json.None?))
      && !w.credpaySucceeded
      && (w.step != Blocked ==> w.challenge == None)
      && (w.step != Success ==> w.result == None)
  {
  }

  /** An enabled "Continue" click ends in `error` with the raw body, or in
      `success` with the decoded body and `credpaySucceeded`; `challenge` is
      kept. */
  lemma ContinueOutcomes(v: View, res: Reply, t1: string, t2: string)
    requires ContinueEnabled(v.step)
    ensures var w := OnClick(v, ContinueClicked(res, t1, t2));
      && w.challenge == v.challenge
      && (w.step == Error <==> res.Reply? && !Ok(res.status))
      && (w.step == Error ==> w.result == Some(RawText(res.text)) && !w.credpaySucceeded)
      && (w.step == Success <==> res.Reply? && Ok(res.status) && res.json.Some?)
      && (w.step == Success ==> w.result == Some(Data(res.json.value)) && w.credpaySucceeded)
      && (w.step == Paying <==> res.Failed? || (Ok(res.status) && res.json.None?))
  {
  }

  /** The log only grows: earlier lines are never changed or dropped. */
  lemma {:induction false} LogsOnlyGrow(v: View, cs: seq<Click>)
    ensures |v.logs| <= |Run(v, cs).logs| && Run(v, cs).logs[..|v.logs|] == v.logs
    decreases |cs|
  {
    if cs != [] {
      var w := OnClick(v, cs[0]);
      assert |v.logs| <= |w.logs| && w.logs[..|v.logs|] == v.logs;
      LogsOnlyGrow(w, cs[1..]);
    }
  }

  /** The explorer link appears only after a successful Credpay payment. */
  lemma ExplorerLinkOnlyAfterPayment(v: View)
    requires Consistent(v) && ExplorerLinkShown(v)
    ensures v.step == Success && v.result.Some? && v.result.value.Data?
  {
  }

  // ---------------------------------------------------------------------------
  // The component, with its state fields updated in place

  class Home {
    var step: Step
    var logs: seq<string>
    var result: Option<Shown>
    var challenge: Option<string>
    var credpaySucceeded: bool
    var payerAddress: Option<string>
    var payerExplorerUrl: Option<string>

    function State(): View
      reads this
    {
      View(step, logs, result, challenge, credpaySucceeded, payerAddress, payerExplorerUrl)
    }

    constructor (payerAddress: Option<string>, payerExplorerUrl: Option<string>)
      ensures State() == Initial(payerAddress, payerExplorerUrl)
    {
      step := Idle;
      logs := [];
      result := None;
      challenge := None;
      credpaySucceeded := false;
      this.payerAddress := payerAddress;
      this.payerExplorerUrl := payerExplorerUrl;
    }

    /** `log(msg)`: appends exactly one line. */
    method Log(time: string, msg: string)
      modifies this
      ensures logs == old(logs) + [LogEntry(time, msg)]
      ensures State() == old(State()).(logs := logs)
    {
      logs := logs + [LogEntry(time, msg)];
    }

    method CallPremium(res: Reply, t1: string, t2: string)
      modifies this
      ensures State() == FinishCall(BeginCall(old(State()), t1), res, t2)
    {
      step := Calling;
      result := None;
      challenge := None;
      credpaySucceeded := false;
      Log(t1, MSG_CALLING);

      if res.Failed? {
        return;
      }
      if res.status == 402 {
        Log(t2, MSG_GOT_402);
        challenge := Some(res.text);
        step := Blocked;
        return;
      }
      if !Ok(res.status) {
        Log(t2, MSG_CALL_ERROR + DecimalText(res.status));
        step := Error;
        return;
      }
      if res.json.None? {
        return;
      }
      Log(t2, MSG_GOT_200);
      result := Some(Data(res.json.value));
      step := Success;
    }

    method ContinueWithCredpay(res: Reply, t1: string, t2: string)
      modifies this
      ensures State() == FinishPay(BeginPay(old(State()), t1), res, t2)
    {
      step := Paying;
      credpaySucceeded := false;
      Log(t1, MSG_PAYING);

      if res.Failed? {
        return;
      }
      if !Ok(res.status) {
        Log(t2, MSG_PAY_FAILED + DecimalText(res.status));
        result := Some(RawText(res.text));
        step := Error;
        return;
      }
      if res.json.None? {
        return;
      }
      Log(t2, MSG_PAID);
      result := Some(Data(res.json.value));
      credpaySucceeded := true;
      step := Success;
    }

    /** A click on one of the two buttons; a disabled button ignores it. */
    method Click(c: Click)
      modifies this
      ensures State() == OnClick(old(State()), c)
      ensures step == Paying && old(step) != Paying ==> old(step) == Blocked
    {
      match c
      case CallClicked(res, t1, t2) =>
        if CallEnabled(step) {
          CallPremium(res, t1, t2);
        }
      case ContinueClicked(res, t1, t2) =>
        if ContinueEnabled(step) {
          ContinueWithCredpay(res, t1, t2);
        }
    }
  }
}

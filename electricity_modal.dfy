/**
 * The buy-electricity sheet: a four-step wizard (provider, details, confirmation, success).
 * The meter is verified before an amount and phone number can be entered, and the payment's
 * outcome decides whether the wizard reaches the success step.
 *
 * `Handle` gives what each handler does to the sheet's state, `Enabled` when its control is on
 * screen and not disabled, and `Run` a session of such events; the class holds the state in fields.
 */
module ElectricityModal {
  import opened Wrappers
  import opened Text
  import opened Chunking
  import opened ElectricityActions

  datatype Step = Provider | Details | Confirm | Success

  datatype MeterType = Prepaid | Postpaid

  /** The quick-amount pills. */
  const QuickAmounts: seq<string> := ["1000", "2000", "5000", "10000"]

  /** The sheet's state. */
  datatype Form = Form(
    step: Step,
    discos: seq<DiscoProvider>,
    providerId: string,
    meterType: MeterType,
    meterNumber: string,
    phoneNumber: string,
    amount: string,
    customerName: string,
    generatedToken: string,
    isLoadingDiscos: bool,
    isValidating: bool,
    isValidated: bool,
    isProcessing: bool,
    errorMessage: string)

  const Initial := Form(Provider, [], "", Prepaid, "", "", "", "", "", false, false, false, false, "")

  /** The user's actions, with the backend's reply where the handler awaits one. */
  datatype Event =
    | Open(discosReply: Reply<Option<seq<DiscoProvider>>>)
    | SelectProvider(id: string)
    | BackToProvider
    | ChooseMeterType(meterType: MeterType)
    | EditMeterNumber(text: string)
    | Validate(meterReply: Reply<Option<MeterData>>)
    | EditAmount(text: string)
    | PickAmount(pill: string)
    | EditPhone(text: string)
    | Proceed
    | BackToDetails
    | Purchase(payReply: Reply<PaymentData>)
    | Close

  /** `fetchDiscos`: the list is stored when the reply carries one; otherwise the error is shown. */
  function AfterFetchDiscos(f: Form, reply: Reply<Option<seq<DiscoProvider>>>): (g: Form)
    ensures !g.isLoadingDiscos && g.step == f.step
    ensures reply.Response? && reply.ok && reply.data.Some? ==> g == f.(discos := reply.data.value, errorMessage := "", isLoadingDiscos := false)
    ensures !(reply.Response? && reply.ok && reply.data.Some?) ==> g.discos == f.discos && g.errorMessage != ""
  {
    match GetDiscos(reply)
    case Succeeded(data) =>
      if data.Some? then f.(discos := data.value, errorMessage := "", isLoadingDiscos := false)
      else f.(errorMessage := "Failed to load electricity providers.", isLoadingDiscos := false)
    case FailedWith(e) => f.(errorMessage := e, isLoadingDiscos := false)
  }

  /** The query `handleValidate` sends, or None when the meter number is too short to try. */
  function ValidateQuery(f: Form): (q: Option<MeterQuery>)
    ensures q.Some? <==> |f.meterNumber| >= 5
    ensures q.Some? ==> q.value.meterType == (if f.meterType == Prepaid then "01" else "02")
  {
    if f.meterNumber == "" || |f.meterNumber| < 5 then None
    else Some(VerifyMeter(f.providerId, f.meterNumber, f.meterType == Prepaid, NetworkError).0)
  }

  /** `handleValidate`: a number shorter than five gives an error; otherwise the reply decides whether the meter counts as verified. */
  function AfterValidate(f: Form, reply: Reply<Option<MeterData>>): (g: Form)
    ensures g.step == f.step
  {
    if f.meterNumber == "" || |f.meterNumber| < 5 then f.(errorMessage := "Please enter a valid Meter Number")
    else AfterVerification(f.(isValidating := true, errorMessage := ""), VerifyMeter(f.providerId, f.meterNumber, f.meterType == Prepaid, reply).1)
  }

  /** What `handleValidate` does with the verification action's result: verified only with the meter's data. */
  function AfterVerification(f: Form, res: ActionResult<Option<MeterData>>): (g: Form)
    ensures g.step == f.step && !g.isValidating
    ensures g.isValidated <==> res.Succeeded? && res.data.Some?
    ensures res.Succeeded? && res.data.Some? ==> g.customerName == res.data.value.customerName.GetOr("")
  {
    if res.Succeeded? && res.data.Some? then f.(customerName := res.data.value.customerName.GetOr(""), isValidated := true, isValidating := false)
    else f.(errorMessage := if res.FailedWith? then res.error else "Unable to verify meter number. Please check your details.", isValidated := false, isValidating := false)
  }

  /** The payload `handlePurchase` passes to the payment action, or None when the phone number is too short. */
  function PurchaseCall(f: Form): (p: Option<PaymentPayload>)
    ensures p.Some? <==> |f.phoneNumber| >= 10
    ensures p.Some? ==> p.value == PaymentPayload(f.providerId, f.meterNumber, if f.meterType == Prepaid then "01" else "02", ParseFloat(f.amount), f.phoneNumber)
  {
    if f.phoneNumber == "" || |f.phoneNumber| < 10 then None
    else Some(PaymentPayload(f.providerId, f.meterNumber, if f.meterType == Prepaid then "01" else "02", ParseFloat(f.amount), f.phoneNumber))
  }

  /**
   * `handlePurchase`: a short phone number gives an error and goes back to the details step;
   * otherwise a successful payment reaches the success step, keeping the token when one came
   * back, and a failed one keeps the step and shows the error.
   */
  function AfterPurchase(f: Form, reply: Reply<PaymentData>): (g: Form)
    ensures PurchaseCall(f).Some? ==> !g.isProcessing
  {
    match PurchaseCall(f)
    case None => f.(errorMessage := "Please provide a valid contact phone number", step := Details)
    case Some(payload) => AfterPayment(f.(isProcessing := true, errorMessage := ""), PayElectricity(payload, reply).1)
  }

  /** What `handlePurchase` does with the payment action's response: processing ends, then success or the error. */
  function AfterPayment(f: Form, res: PaymentResponse): (g: Form)
    ensures !g.isProcessing
    ensures g.step == (if res.success then Success else f.step)
    ensures !res.success ==> g.errorMessage != "" && g.generatedToken == f.generatedToken
  {
    if res.success then
      f.(isProcessing := false, generatedToken := if res.token != "" then res.token else f.generatedToken, step := Success)
    else
      f.(isProcessing := false, errorMessage := if res.error != "" then res.error else "Transaction failed. Please try again.")
  }

  /** `resetState`: every field back to its initial value except the loaded providers. */
  function AfterReset(f: Form): (g: Form)
    ensures g.step == Provider && g.discos == f.discos && g.isLoadingDiscos == f.isLoadingDiscos
    ensures g.meterNumber == g.phoneNumber == g.amount == g.providerId == g.generatedToken == g.errorMessage == ""
    ensures !g.isValidated
  {
    Initial.(discos := f.discos, isLoadingDiscos := f.isLoadingDiscos)
  }

  /** The proceed button is enabled unless the amount is empty or a number below 100, or the phone number is shorter than ten. */
  predicate ProceedReady(f: Form) {
    f.amount != "" && !(NumberOf(f.amount).Some? && NumberOf(f.amount).value < 100) && |f.phoneNumber| >= 10
  }

  /** What each handler does, whatever the step. */
  function Handle(f: Form, e: Event): Form {
    match e
    case Open(r) => if |f.discos| == 0 then AfterFetchDiscos(f, r) else f
    case SelectProvider(id) => f.(providerId := id, errorMessage := "", step := Details)
    case BackToProvider => f.(step := Provider)
    case ChooseMeterType(t) => f.(meterType := t, isValidated := false)
    case EditMeterNumber(text) => f.(meterNumber := KeepDigits(text), isValidated := false, errorMessage := "")
    case Validate(r) => AfterValidate(f, r)
    case EditAmount(text) => f.(amount := KeepDigits(text), errorMessage := "")
    case PickAmount(pill) => f.(amount := pill, errorMessage := "")
    case EditPhone(text) => f.(phoneNumber := KeepDigits(Take(text, 11)), errorMessage := "")
    case Proceed => f.(step := Confirm)
    case BackToDetails => f.(step := Details)
    case Purchase(r) => AfterPurchase(f, r)
    case Close => AfterReset(f)
  }

  /** Whether the control behind an event is on screen and enabled. */
  predicate Enabled(f: Form, e: Event) {
    match e
    case Open(_) => true
    case SelectProvider(id) => f.step == Provider && exists k :: 0 <= k < |f.discos| && f.discos[k].id == id
    case BackToProvider => f.step == Details
    case ChooseMeterType(_) => f.step == Details
    case EditMeterNumber(_) => f.step == Details && !f.isValidating
    case Validate(_) => f.step == Details && !f.isValidated && !f.isValidating && |f.meterNumber| >= 5
    case EditAmount(_) => f.step == Details && f.isValidated
    case PickAmount(pill) => f.step == Details && f.isValidated && pill in QuickAmounts
    case EditPhone(_) => f.step == Details && f.isValidated
    case Proceed => f.step == Details && f.isValidated && ProceedReady(f)
    case BackToDetails => f.step == Confirm
    case Purchase(_) => f.step == Confirm && !f.isProcessing
    case Close => true
  }

  /** One event of a session: a control that is not available does nothing. */
  function StepWith(f: Form, e: Event): Form {
    if Enabled(f, e) then Handle(f, e) else f
  }

  /** A session of events, from first to last. */
  function Run(f: Form, es: seq<Event>): Form
    decreases |es|
  {
    if es == [] then f else Run(StepWith(f, es[0]), es[1..])
  }

  /** A payment reply the backend accepted. */
  predicate PaidOk(e: Event) {
    e.Purchase? && e.payReply.Response? && e.payReply.ok
  }

  /** A meter number shorter than five gives an error and no verification request. */
  lemma ShortMeterNotVerified(f: Form, r: Reply<Option<MeterData>>)
    requires |f.meterNumber| < 5
    ensures ValidateQuery(f) == None
    ensures AfterValidate(f, r) == f.(errorMessage := "Please enter a valid Meter Number")
  {
  }

  /** Verification succeeds exactly when the backend accepted the meter and returned its data. */
  lemma ValidateOutcome(f: Form, r: Reply<Option<MeterData>>)
    requires |f.meterNumber| >= 5
    ensures AfterValidate(f, r).isValidated <==> r.Response? && r.ok && r.data.Some?
    ensures AfterValidate(f, r).isValidated ==> AfterValidate(f, r).errorMessage == ""
    ensures !AfterValidate(f, r).isValidated ==> AfterValidate(f, r).errorMessage != ""
    ensures r.Response? && r.ok && r.data.Some? ==> AfterValidate(f, r).customerName == r.data.value.customerName.GetOr("")
  {
    var res := VerifyMeter(f.providerId, f.meterNumber, f.meterType == Prepaid, r).1;
    assert AfterValidate(f, r) == AfterVerification(f.(isValidating := true, errorMessage := ""), res);
  }

  /**
   * Choosing a provider, as written, keeps the meter, its verification and the customer name:
   * a meter verified with one disco stays verified after switching to another.
   */
  lemma ProviderChoiceKeepsVerification(f: Form, id: string)
    requires f.step == Provider
    ensures var g := StepWith(f, SelectProvider(id));
      && g.meterNumber == f.meterNumber && g.meterType == f.meterType
      && g.isValidated == f.isValidated && g.customerName == f.customerName
      && (Enabled(f, SelectProvider(id)) ==> g.providerId == id && g.step == Details)
  {
  }

  /** Changing the meter type or number withdraws the verification. */
  lemma EditingMeterInvalidates(f: Form, t: MeterType, text: string)
    ensures !Handle(f, ChooseMeterType(t)).isValidated
    ensures !Handle(f, EditMeterNumber(text)).isValidated
    ensures AllDigits(Handle(f, EditMeterNumber(text)).meterNumber)
  {
  }

  /** A short phone number at purchase goes back to the details step with an error, and the payment action is not called. */
  lemma ShortPhoneBouncesToDetails(f: Form, r: Reply<PaymentData>)
    requires |f.phoneNumber| < 10
    ensures PurchaseCall(f) == None
    ensures AfterPurchase(f, r) == f.(errorMessage := "Please provide a valid contact phone number", step := Details)
  {
  }

  /** With a valid phone number, the payment's outcome decides: success reaches the success step, failure keeps the step with an error. */
  lemma PurchaseOutcome(f: Form, r: Reply<PaymentData>)
    requires |f.phoneNumber| >= 10
    ensures var g := AfterPurchase(f, r);
      var paid := !AmountOutOfRange(ParseFloat(f.amount)) && r.Response? && r.ok;
      && (paid ==> g.step == Success && g.errorMessage == ""
                   && g.generatedToken == (if r.data.token != "" then r.data.token else f.generatedToken))
      && (!paid ==> g.step == f.step && g.errorMessage != "" && g.generatedToken == f.generatedToken)
  {
  }

  /** The properties every reachable state has: digit-only inputs, a phone number of at most eleven digits, no call pending, and a confirmation step only with a verified meter and a proceedable form. */
  predicate Inv(f: Form) {
    && AllDigits(f.meterNumber) && AllDigits(f.amount) && AllDigits(f.phoneNumber) && |f.phoneNumber| <= 11
    && !f.isLoadingDiscos && !f.isValidating && !f.isProcessing
    && (f.step == Confirm ==> f.isValidated && ProceedReady(f))
  }

  lemma InitialInv()
    ensures Inv(Initial)
  {
  }

  lemma StepInv(f: Form, e: Event)
    requires Inv(f)
    ensures Inv(StepWith(f, e))
  {
    if Enabled(f, e) {
      match e
      case Open(r) =>
      case Validate(r) => ValidateInv(f, r);
      case Purchase(r) => PurchaseInv(f, r);
      case PickAmount(pill) =>
        assert AllDigits(pill) by {
          assert pill == "1000" || pill == "2000" || pill == "5000" || pill == "10000";
        }
      case EditPhone(text) =>
        assert |KeepDigits(Take(text, 11))| <= 11;
      case _ =>
    }
  }

  lemma ValidateInv(f: Form, r: Reply<Option<MeterData>>)
    requires Inv(f) && f.step == Details
    ensures Inv(AfterValidate(f, r))
  {
  }

  lemma PurchaseInv(f: Form, r: Reply<PaymentData>)
    requires Inv(f) && f.step == Confirm
    ensures Inv(AfterPurchase(f, r))
  {
    assert PurchaseCall(f).Some?;
  }

  lemma {:induction false} RunInv(f: Form, es: seq<Event>)
    requires Inv(f)
    ensures Inv(Run(f, es))
    decreases |es|
  {
    if es != [] {
      StepInv(f, es[0]);
      RunInv(StepWith(f, es[0]), es[1..]);
    }
  }

  /** In every reachable state the confirmation step has a valid phone number, so purchasing always calls the payment action with an amount of at least 100. */
  lemma ReachablePurchaseCallsPay(es: seq<Event>)
    ensures var f := Run(Initial, es);
      f.step == Confirm ==> PurchaseCall(f).Some? && ParseFloat(f.amount).Some? && ParseFloat(f.amount).value >= 100
  {
    InitialInv();
    RunInv(Initial, es);
  }

  /** A session that ends on the success step either started there or contains a payment the backend accepted. */
  lemma {:induction false} SuccessNeedsPayment(f: Form, es: seq<Event>)
    requires Run(f, es).step == Success && f.step != Success
    ensures exists i :: 0 <= i < |es| && PaidOk(es[i])
    decreases |es|
  {
    var g := StepWith(f, es[0]);
    if g.step == Success {
      assert PaidOk(es[0]);
    } else {
      SuccessNeedsPayment(g, es[1..]);
      var i :| 0 <= i < |es[1..]| && PaidOk(es[1..][i]);
      assert es[i + 1] == es[1..][i];
    }
  }

  /** The token as displayed: its `/.{1,4}/g` groups joined by `-`, or the token itself when no group matches. */
  function TokenDisplay(token: string): (r: string)
    ensures TokenGroups(token) == [] ==> r == token
  {
    var gs := TokenGroups(token);
    if gs == [] then token else JoinWith(gs, "-")
  }

  /** On a one-line token the display is its groups of four joined by `-`: the groups put together give the token back. */
  lemma TokenDisplayGroups(token: string)
    requires NoLineTerminators(token)
    ensures var gs := Chunks(token);
      && TokenDisplay(token) == JoinWith(gs, "-")
      && Concat(gs) == token
      && (forall i :: 0 <= i < |gs| - 1 ==> |gs[i]| == 4)
  {
    TokenGroupsAreChunks(token);
  }

  /** The sheet's state as fields. */
  class BuyElectricityModal {
    var step: Step
    var discos: seq<DiscoProvider>
    var providerId: string
    var meterType: MeterType
    var meterNumber: string
    var phoneNumber: string
    var amount: string
    var customerName: string
    var generatedToken: string
    var isLoadingDiscos: bool
    var isValidating: bool
    var isValidated: bool
    var isProcessing: bool
    var errorMessage: string

    function Snapshot(): Form
      reads this
    {
      Form(step, discos, providerId, meterType, meterNumber, phoneNumber, amount, customerName,
           generatedToken, isLoadingDiscos, isValidating, isValidated, isProcessing, errorMessage)
    }

    constructor ()
      ensures Snapshot() == Initial
    {
      step, discos, providerId, meterType := Provider, [], "", Prepaid;
      meterNumber, phoneNumber, amount, customerName, generatedToken := "", "", "", "", "";
      isLoadingDiscos, isValidating, isValidated, isProcessing, errorMessage := false, false, false, false, "";
    }

    /** The effect when the sheet opens: the providers are fetched once. */
    method OnOpen(reply: Reply<Option<seq<DiscoProvider>>>)
      modifies this
      ensures Snapshot() == Handle(old(Snapshot()), Open(reply))
    {
      if |discos| == 0 {
        isLoadingDiscos := true;
        errorMessage := "";
        var res := GetDiscos(reply);
        if res.Succeeded? && res.data.Some? {
          discos := res.data.value;
        } else {
          errorMessage := if res.FailedWith? then res.error else "Failed to load electricity providers.";
        }
        isLoadingDiscos := false;
      }
    }

    method HandleProviderSelect(id: string)
      requires step == Provider
      modifies this
      ensures Snapshot() == Handle(old(Snapshot()), SelectProvider(id))
    {
      providerId := id;
      errorMessage := "";
      step := Details;
    }

    method GoBackToProvider()
      requires step == Details
      modifies this
      ensures Snapshot() == Handle(old(Snapshot()), BackToProvider)
    {
      step := Provider;
    }

    method SetMeterType(t: MeterType)
      requires step == Details
      modifies this
      ensures Snapshot() == Handle(old(Snapshot()), ChooseMeterType(t))
    {
      meterType := t;
      isValidated := false;
    }

    method SetMeterNumber(text: string)
      requires step == Details
      modifies this
      ensures Snapshot() == Handle(old(Snapshot()), EditMeterNumber(text))
    {
      meterNumber := KeepDigits(text);
      isValidated := false;
      errorMessage := "";
    }

    /** `handleValidate`; returns the verification request it makes, if any. */
    method HandleValidate(reply: Reply<Option<MeterData>>) returns (query: Option<MeterQuery>)
      requires step == Details && !isValidated
      modifies this
      ensures query == ValidateQuery(old(Snapshot()))
      ensures Snapshot() == Handle(old(Snapshot()), Validate(reply))
    {
      if meterNumber == "" || |meterNumber| < 5 {
        errorMessage := "Please enter a valid Meter Number";
        return None;
      }
      isValidating := true;
      errorMessage := "";
      var call := VerifyMeter(providerId, meterNumber, meterType == Prepaid, reply);
      query := Some(call.0);
      ApplyVerification(call.1);
    }

    /** The part of `handleValidate` after the verification action returns. */
    method ApplyVerification(res: ActionResult<Option<MeterData>>)
      modifies this
      ensures Snapshot() == AfterVerification(old(Snapshot()), res)
    {
      if res.Succeeded? && res.data.Some? {
        customerName := res.data.value.customerName.GetOr("");
        isValidated := true;
      } else {
        errorMessage := if res.FailedWith? then res.error else "Unable to verify meter number. Please check your details.";
        isValidated := false;
      }
      isValidating := false;
    }

    method SetAmount(text: string)
      requires step == Details && isValidated
      modifies this
      ensures Snapshot() == Handle(old(Snapshot()), EditAmount(text))
    {
      amount := KeepDigits(text);
      errorMessage := "";
    }

    method PickQuickAmount(pill: string)
      requires step == Details && isValidated && pill in QuickAmounts
      modifies this
      ensures Snapshot() == Handle(old(Snapshot()), PickAmount(pill))
    {
      amount := pill;
      errorMessage := "";
    }

    method SetPhoneNumber(text: string)
      requires step == Details && isValidated
      modifies this
      ensures Snapshot() == Handle(old(Snapshot()), EditPhone(text))
    {
      phoneNumber := KeepDigits(Take(text, 11));
      errorMessage := "";
    }

    method ProceedToConfirm()
      requires step == Details && isValidated && ProceedReady(Snapshot())
      modifies this
      ensures Snapshot() == Handle(old(Snapshot()), Proceed)
    {
      step := Confirm;
    }

    method GoBackToDetails()
      requires step == Confirm
      modifies this
      ensures Snapshot() == Handle(old(Snapshot()), BackToDetails)
    {
      step := Details;
    }

    /** `handlePurchase`; returns the payload passed to the payment action, if it is called. */
    method HandlePurchase(reply: Reply<PaymentData>) returns (call: Option<PaymentPayload>)
      requires step == Confirm && !isProcessing
      modifies this
      ensures call == PurchaseCall(old(Snapshot()))
      ensures Snapshot() == AfterPurchase(old(Snapshot()), reply)
    {
      if phoneNumber == "" || |phoneNumber| < 10 {
        errorMessage := "Please provide a valid contact phone number";
        step := Details;
        return None;
      }
      isProcessing := true;
      errorMessage := "";
      var payload := PaymentPayload(providerId, meterNumber, if meterType == Prepaid then "01" else "02", ParseFloat(amount), phoneNumber);
      call := Some(payload);
      ApplyPayment(PayElectricity(payload, reply).1);
    }

    /** The part of `handlePurchase` after the payment action returns. */
    method ApplyPayment(res: PaymentResponse)
      modifies this
      ensures Snapshot() == AfterPayment(old(Snapshot()), res)
    {
      isProcessing := false;
      if res.success {
        if res.token != "" {
          generatedToken := res.token;
        }
        step := Success;
      } else {
        errorMessage := if res.error != "" then res.error else "Transaction failed. Please try again.";
      }
    }

    /** The first half of `resetState`: the wizard's step and the fields the user fills in. */
    method ClearEntry()
      modifies this
      ensures Snapshot() == old(Snapshot()).(step := Provider, providerId := "", meterType := Prepaid, meterNumber := "", phoneNumber := "", amount := "")
    {
      step := Provider;
      providerId := "";
      meterType := Prepaid;
      meterNumber := "";
      phoneNumber := "";
      amount := "";
    }

    /** The second half of `resetState`: what the handlers set. */
    method ClearStatus()
      modifies this
      ensures Snapshot() == old(Snapshot()).(customerName := "", generatedToken := "", isValidated := false, isValidating := false, isProcessing := false, errorMessage := "")
    {
      customerName := "";
      generatedToken := "";
      isValidated := false;
      isValidating := false;
      isProcessing := false;
      errorMessage := "";
    }

    /** Closing the sheet: the state is reset (after the close animation's delay). */
    method HandleClose()
      modifies this
      ensures Snapshot() == AfterReset(old(Snapshot()))
    {
      ClearEntry();
      ClearStatus();
    }
  }
}

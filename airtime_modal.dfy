/**
 * The airtime sheet: network, details (phone number and amount), confirmation, success. The
 * purchase clears its loading flag whatever the outcome, including when the request throws.
 */
module AirtimeModal {
  import opened Wrappers
  import opened Text
  import Types

  datatype Step = Network | Details | Confirm | Success

  /** The amounts offered as quick picks, as the input's text. */
  const QuickAmounts: seq<string> := ["100", "200", "500", "1000"]

  /** The smallest amount the proceed button accepts. */
  const MinAmount := 50

  /** How the purchase request ended: with a result record, or by throwing. */
  datatype BuyOutcome = Bought(success: bool, error: string) | Threw

  /** The purchase request: upper-cased network, `Number(amount)` (None for NaN), phone number. */
  datatype AirtimeCall = AirtimeCall(network: string, amount: Option<int>, phoneNumber: string)

  /** The sheet's state; "" stands for no selected network. */
  datatype Form = Form(
    step: Step,
    selectedNetwork: string,
    phoneNumber: string,
    amount: string,
    isLoading: bool,
    errorMessage: string)

  const Initial := Form(Network, "", "", "", false, "")

  datatype Event =
    | SelectNetwork(id: string)
    | BackToNetwork
    | EditPhone(text: string)
    | EditAmount(text: string)
    | PickAmount(amt: string)
    | Proceed
    | BackToDetails
    | Purchase(outcome: BuyOutcome)
    | Close

  /** The proceed button's condition: an amount that is not below 50 (a NaN compares false) and a ten-digit phone number. */
  predicate ProceedReady(f: Form) {
    f.amount != "" && !(NumberOf(f.amount).Some? && NumberOf(f.amount).value < MinAmount) && |f.phoneNumber| >= 10
  }

  /** The request `handlePurchase` sends, or None when network, amount or phone number is missing. */
  function PurchaseCall(f: Form): (c: Option<AirtimeCall>)
    ensures c.Some? <==> f.selectedNetwork != "" && f.amount != "" && f.phoneNumber != ""
    ensures c.Some? ==> c.value == AirtimeCall(ToUpper(f.selectedNetwork), NumberOf(f.amount), f.phoneNumber)
  {
    if f.selectedNetwork == "" || f.amount == "" || f.phoneNumber == "" then None
    else Some(AirtimeCall(ToUpper(f.selectedNetwork), NumberOf(f.amount), f.phoneNumber))
  }

  /** `handlePurchase`: the loading flag is cleared in `finally`. */
  function AfterPurchase(f: Form, o: BuyOutcome): (g: Form)
    ensures PurchaseCall(f).Some? ==> !g.isLoading
  {
    if PurchaseCall(f).None? then f
    else match o
      case Bought(success, error) =>
        if success then f.(step := Success, errorMessage := "", isLoading := false)
        else f.(errorMessage := if error != "" then error else "Transaction failed. Please try again.", isLoading := false)
      case Threw => f.(errorMessage := "A network error occurred. Please check your connection.", isLoading := false)
  }

  function Handle(f: Form, e: Event): Form {
    match e
    case SelectNetwork(id) => f.(selectedNetwork := id, errorMessage := "", step := Details)
    case BackToNetwork => f.(step := Network)
    case EditPhone(text) => f.(phoneNumber := KeepDigits(Take(text, 11)), errorMessage := "")
    case EditAmount(text) => f.(amount := text, errorMessage := "")
    case PickAmount(amt) => f.(amount := amt, errorMessage := "")
    case Proceed => f.(step := Confirm)
    case BackToDetails => f.(step := Details)
    case Purchase(o) => AfterPurchase(f, o)
    case Close => Initial
  }

  predicate Enabled(f: Form, e: Event) {
    match e
    case SelectNetwork(id) => f.step == Network && id in Types.NetworkIds
    case BackToNetwork => f.step == Details
    case EditPhone(_) => f.step == Details
    case EditAmount(_) => f.step == Details
    case PickAmount(amt) => f.step == Details && amt in QuickAmounts
    case Proceed => f.step == Details && ProceedReady(f)
    case BackToDetails => f.step == Confirm
    case Purchase(_) => f.step == Confirm && !f.isLoading
    case Close => true
  }

  function StepWith(f: Form, e: Event): Form {
    if Enabled(f, e) then Handle(f, e) else f
  }

  function Run(f: Form, es: seq<Event>): Form
    decreases |es|
  {
    if es == [] then f else Run(StepWith(f, es[0]), es[1..])
  }

  predicate PaidOk(e: Event) {
    e.Purchase? && e.outcome.Bought? && e.outcome.success
  }

  /** Choosing a network clears the error and moves to the details. */
  lemma NetworkSelectMoves(f: Form, id: string)
    requires f.step == Network && id in Types.NetworkIds
    ensures StepWith(f, SelectNetwork(id)) == f.(selectedNetwork := id, errorMessage := "", step := Details)
  {
  }

  /** Proceeding reaches the confirmation exactly when the amount is not below 50 and the phone number has ten digits. */
  lemma ProceedGate(f: Form)
    requires f.step == Details
    ensures StepWith(f, Proceed).step == Confirm <==> ProceedReady(f)
  {
  }

  /** With a ten-digit phone number and an amount made of digits, proceeding reaches the confirmation exactly when the amount is at least 50. */
  lemma ProceedAmountBound(f: Form)
    requires f.step == Details && |f.phoneNumber| >= 10
    requires f.amount != "" && AllDigits(f.amount)
    ensures StepWith(f, Proceed).step == Confirm <==> DigitsValue(f.amount) >= MinAmount
  {
    assert NumberOf(f.amount) == Some(DigitsValue(f.amount));
  }

  /** The phone input keeps at most eleven digits and nothing else. */
  lemma PhoneInputDigits(f: Form, text: string)
    ensures var p := Handle(f, EditPhone(text)).phoneNumber; AllDigits(p) && |p| <= 11
  {
  }

  /** Purchase: nothing happens without the three inputs; success reaches the success step; a failure or an exception keeps the step with an error. */
  lemma PurchaseOutcome(f: Form, o: BuyOutcome)
    ensures PurchaseCall(f).None? ==> AfterPurchase(f, o) == f
    ensures PurchaseCall(f).Some? && o.Bought? && o.success ==> AfterPurchase(f, o).step == Success
    ensures PurchaseCall(f).Some? && !(o.Bought? && o.success) ==> AfterPurchase(f, o).step == f.step && AfterPurchase(f, o).errorMessage != ""
    ensures PurchaseCall(f).Some? && o.Threw? ==> AfterPurchase(f, o).errorMessage == "A network error occurred. Please check your connection."
  {
  }

  /** `reset` empties every field. */
  lemma ResetEmptiesAll(f: Form)
    ensures var g := StepWith(f, Close);
      g.step == Network && g.selectedNetwork == g.phoneNumber == g.amount == g.errorMessage == "" && !g.isLoading
  {
  }

  /** What every reachable state has: a digit-only phone number, no request pending, and a confirmation step only with all inputs accepted. */
  predicate Inv(f: Form) {
    && AllDigits(f.phoneNumber) && |f.phoneNumber| <= 11 && !f.isLoading
    && (f.step != Network ==> f.selectedNetwork in Types.NetworkIds)
    && (f.step == Confirm ==> ProceedReady(f))
  }

  lemma StepInv(f: Form, e: Event)
    requires Inv(f)
    ensures Inv(StepWith(f, e))
  {
    if Enabled(f, e) {
      match e
      case EditPhone(text) => assert |KeepDigits(Take(text, 11))| <= 11;
      case _ =>
    }
  }

  lemma {:induction false} RunInv(f: Form, es: seq<Event>)
    requires Inv(f)
    ensures Inv(Run(f, es))
    decreases |es|
  {
    if es != [] {
      StepInv(f, es[0]);
      RunInv(StepWith(f, es[0]), es[1..]);
    }
  }

  /** From every reachable confirmation step, purchasing sends the request. */
  lemma ReachablePurchaseCallsBuy(es: seq<Event>)
    ensures var f := Run(Initial, es); f.step == Confirm ==> PurchaseCall(f).Some?
  {
    RunInv(Initial, es);
  }

  /** A session that ends on the success step either started there or contains a purchase that succeeded. */
  lemma {:induction false} SuccessNeedsPayment(f: Form, es: seq<Event>)
    requires Run(f, es).step == Success && f.step != Success
    ensures exists i :: 0 <= i < |es| && PaidOk(es[i])
    decreases |es|
  {
    var g := StepWith(f, es[0]);
    if g.step == Success {
      assert PaidOk(es[0]);
    } else {
      SuccessNeedsPayment(g, es[1..]);
      var i :| 0 <= i < |es[1..]| && PaidOk(es[1..][i]);
      assert es[i + 1] == es[1..][i];
    }
  }

  class BuyAirtimeModal {
    var step: Step
    var selectedNetwork: string
    var phoneNumber: string
    var amount: string
    var isLoading: bool
    var errorMessage: string

    function Snapshot(): Form
      reads this
    {
      Form(step, selectedNetwork, phoneNumber, amount, isLoading, errorMessage)
    }

    constructor ()
      ensures Snapshot() == Initial
    {
      step, selectedNetwork, phoneNumber, amount, isLoading, errorMessage := Network, "", "", "", false, "";
    }

    method HandleNetworkSelect(networkId: string)
      requires step == Network && networkId in Types.NetworkIds
      modifies this
      ensures Snapshot() == Handle(old(Snapshot()), SelectNetwork(networkId))
    {
      selectedNetwork := networkId;
      errorMessage := "";
      step := Details;
    }

    method GoBackToNetwork()
      requires step == Details
      modifies this
      ensures Snapshot() == Handle(old(Snapshot()), BackToNetwork)
    {
      step := Network;
    }

    method SetPhoneNumber(text: string)
      requires step == Details
      modifies this
      ensures Snapshot() == Handle(old(Snapshot()), EditPhone(text))
    {
      phoneNumber := KeepDigits(Take(text, 11));
      errorMessage := "";
    }

    method SetAmount(text: string)
      requires step == Details
      modifies this
      ensures Snapshot() == Handle(old(Snapshot()), EditAmount(text))
    {
      amount := text;
      errorMessage := "";
    }

    method PickQuickAmount(amt: string)
      requires step == Details && amt in QuickAmounts
      modifies this
      ensures Snapshot() == Handle(old(Snapshot()), PickAmount(amt))
    {
      amount := amt;
      errorMessage := "";
    }

    method ProceedToConfirm()
      requires step == Details && ProceedReady(Snapshot())
      modifies this
      ensures Snapshot() == Handle(old(Snapshot()), Proceed)
    {
      step := Confirm;
    }

    method GoBackToDetails()
      requires step == Confirm
      modifies this
      ensures Snapshot() == Handle(old(Snapshot()), BackToDetails)
    {
      step := Details;
    }

    /** `handlePurchase`; returns the request it sends, if any. */
    method HandlePurchase(o: BuyOutcome) returns (call: Option<AirtimeCall>)
      requires step == Confirm && !isLoading
      modifies this
      ensures call == PurchaseCall(old(Snapshot()))
      ensures Snapshot() == AfterPurchase(old(Snapshot()), o)
    {
      if selectedNetwork == "" || amount == "" || phoneNumber == "" {
        return None;
      }
      isLoading := true;
      errorMessage := "";
      var networkKey := ToUpper(selectedNetwork);
      call := Some(AirtimeCall(networkKey, NumberOf(amount), phoneNumber));
      match o {
        case Bought(success, error) =>
          if success {
            step := Success;
          } else {
            errorMessage := if error != "" then error else "Transaction failed. Please try again.";
          }
        case Threw =>
          errorMessage := "A network error occurred. Please check your connection.";
      }
      isLoading := false;
    }

    /** Closing the sheet: `reset` (after the close animation's delay). */
    method HandleClose()
      modifies this
      ensures Snapshot() == Handle(old(Snapshot()), Close)
    {
      step := Network;
      selectedNetwork := "";
      phoneNumber := "";
      amount := "";
      isLoading := false;
      errorMessage := "";
    }
  }
}

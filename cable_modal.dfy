/**
 * The cable-TV subscription sheet: a four-step wizard (provider, details, confirmation,
 * success). The smartcard is verified before the provider's packages can be searched and one
 * chosen; the package list is flattened from the catalogue the backend returns.
 *
 * As for electricity, `Handle` gives what each handler does, `Enabled` when its control is
 * available, `Run` a session; the class holds the state in fields.
 */
module CableModal {
  import opened Wrappers
  import opened Text

  /** A package as the catalogue lists it; the amount is text. */
  datatype CablePackage = CablePackage(packageId: string, packageName: string, packageAmount: string)

  /** A group of packages; `product` is None when the field is missing or not an array. */
  datatype CableGroup = CableGroup(id: string, product: Option<seq<CablePackage>>)

  /** One key of the catalogue object and its groups, in the object's key order. */
  datatype PackageEntry = PackageEntry(key: string, groups: seq<CableGroup>)

  /** A package as the sheet lists it. */
  datatype UIPlan = UIPlan(id: string, name: string, price: Option<int>)

  /** The ids of the four fixed provider buttons. */
  const CableProviders: seq<string> := ["dstv", "gotv", "startimes", "showmax"]

  function PlanOf(p: CablePackage): (u: UIPlan)
    ensures u.id == p.packageId && u.name == p.packageName
  {
    UIPlan(p.packageId, p.packageName, ParseFloat(p.packageAmount))
  }

  /** The plans of one group: one per package, in order; none when the group has no package array. */
  function GroupPlans(g: CableGroup): (ps: seq<UIPlan>)
    ensures g.product.None? ==> ps == []
    ensures g.product.Some? ==> |ps| == |g.product.value| && forall j :: 0 <= j < |ps| ==> ps[j] == PlanOf(g.product.value[j])
  {
    match g.product
    case None => []
    case Some(items) => seq(|items|, j requires 0 <= j < |items| => PlanOf(items[j]))
  }

  /** The plans of all groups, group after group. */
  function FlattenGroups(gs: seq<CableGroup>): seq<UIPlan>
    decreases |gs|
  {
    if gs == [] then [] else GroupPlans(gs[0]) + FlattenGroups(gs[1..])
  }

  lemma {:induction false} FlattenGroupsAppend(a: seq<CableGroup>, b: seq<CableGroup>)
    ensures FlattenGroups(a + b) == FlattenGroups(a) + FlattenGroups(b)
    decreases |a|
  {
    if a == [] {
      assert a + b == b;
    } else {
      assert (a + b)[1..] == a[1..] + b;
      FlattenGroupsAppend(a[1..], b);
    }
  }

  /** Pushing one more group appends its plans. */
  lemma FlattenGroupsSnoc(gs: seq<CableGroup>, g: CableGroup)
    ensures FlattenGroups(gs + [g]) == FlattenGroups(gs) + GroupPlans(g)
  {
    FlattenGroupsAppend(gs, [g]);
    assert [g][1..] == [];
  }

  /** Groups without a package array contribute nothing: removing them leaves the same plans. */
  lemma {:induction false} FlattenSkipsMissing(a: seq<CableGroup>, g: CableGroup, b: seq<CableGroup>)
    requires g.product.None?
    ensures FlattenGroups(a + [g] + b) == FlattenGroups(a + b)
  {
    FlattenGroupsSnoc(a, g);
    assert GroupPlans(g) == [];
    assert FlattenGroups(a + [g]) == FlattenGroups(a);
    FlattenGroupsAppend(a + [g], b);
    FlattenGroupsAppend(a, b);
  }

  /** The first catalogue key equal to the provider id when both are lower-cased. */
  function FindKey(entries: seq<PackageEntry>, providerId: string): (k: Option<nat>)
    ensures k.Some? ==> k.value < |entries| && ToLower(entries[k.value].key) == ToLower(providerId)
    ensures k.Some? ==> forall i :: 0 <= i < k.value ==> ToLower(entries[i].key) != ToLower(providerId)
    ensures k.None? ==> forall i :: 0 <= i < |entries| ==> ToLower(entries[i].key) != ToLower(providerId)
    decreases |entries|
  {
    if entries == [] then None
    else if ToLower(entries[0].key) == ToLower(providerId) then Some(0)
    else match FindKey(entries[1..], providerId)
      case None => None
      case Some(k) => Some(k + 1)
  }

  /**
   * `getAvailablePlans` as a value: nothing without a catalogue or a provider, or when no key
   * matches the provider; otherwise the flattened groups of the first matching key.
   */
  function AvailablePlans(packages: Option<seq<PackageEntry>>, providerId: string): (ps: seq<UIPlan>)
    ensures packages.None? || providerId == "" ==> ps == []
    ensures packages.Some? && FindKey(packages.value, providerId).None? ==> ps == []
    ensures packages.Some? && providerId != "" && FindKey(packages.value, providerId).Some? ==>
      ps == FlattenGroups(packages.value[FindKey(packages.value, providerId).value].groups)
  {
    if packages.None? || providerId == "" then []
    else match FindKey(packages.value, providerId)
      case None => []
      case Some(k) => FlattenGroups(packages.value[k].groups)
  }

  /** The provider key is matched without regard to case. */
  lemma AvailablePlansIgnoreCase(packages: Option<seq<PackageEntry>>, providerId: string)
    ensures AvailablePlans(packages, ToUpper(providerId)) == AvailablePlans(packages, providerId)
  {
    LowerOfUpper(providerId);
    if packages.Some? {
      FindKeyDependsOnLower(packages.value, ToUpper(providerId), providerId);
    }
  }

  lemma {:induction false} FindKeyDependsOnLower(entries: seq<PackageEntry>, a: string, b: string)
    requires ToLower(a) == ToLower(b)
    ensures FindKey(entries, a) == FindKey(entries, b)
    decreases |entries|
  {
    if entries != [] {
      FindKeyDependsOnLower(entries[1..], a, b);
    }
  }

  /** `getAvailablePlans`: looks the key up, then pushes each package of each group with a package array. */
  method GetAvailablePlans(packages: Option<seq<PackageEntry>>, providerId: string) returns (flatPlans: seq<UIPlan>)
    ensures flatPlans == AvailablePlans(packages, providerId)
  {
    if packages.None? || providerId == "" {
      return [];
    }
    var entries := packages.value;
    var k := 0;
    while k < |entries| && ToLower(entries[k].key) != ToLower(providerId)
      invariant 0 <= k <= |entries|
      invariant forall i :: 0 <= i < k ==> ToLower(entries[i].key) != ToLower(providerId)
    {
      k := k + 1;
    }
    if k == |entries| {
      return [];
    }
    assert FindKey(entries, providerId) == Some(k) by {
      FindKeyIsFirst(entries, providerId, k);
    }
    flatPlans := PushGroups(entries[k].groups);
  }

  /** The two nested `forEach` loops: every package of every group with a package array, pushed in order. */
  method PushGroups(groups: seq<CableGroup>) returns (flatPlans: seq<UIPlan>)
    ensures flatPlans == FlattenGroups(groups)
  {
    flatPlans := [];
    var i := 0;
    while i < |groups|
      invariant 0 <= i <= |groups|
      invariant flatPlans == FlattenGroups(groups[..i])
    {
      flatPlans := PushGroup(flatPlans, groups[i]);
      TakeSnoc([], groups, i);
      FlattenGroupsSnoc(groups[..i], groups[i]);
      i := i + 1;
    }
    assert groups[..i] == groups;
  }

  /** The inner `forEach` on one group: each package of its array appended in order, nothing without an array. */
  method PushGroup(acc: seq<UIPlan>, group: CableGroup) returns (flatPlans: seq<UIPlan>)
    ensures flatPlans == acc + GroupPlans(group)
  {
    flatPlans := acc;
    ghost var ps := GroupPlans(group);
    if group.product.Some? {
      var items := group.product.value;
      var j := 0;
      while j < |items|
        invariant 0 <= j <= |items| == |ps|
        invariant flatPlans == acc + ps[..j]
      {
        TakeSnoc(acc, ps, j);
        flatPlans := flatPlans + [PlanOf(items[j])];
        j := j + 1;
      }
      assert ps[..j] == ps;
    } else {
      assert acc + ps == acc;
    }
  }

  lemma FindKeyIsFirst(entries: seq<PackageEntry>, providerId: string, k: nat)
    requires k < |entries| && ToLower(entries[k].key) == ToLower(providerId)
    requires forall i :: 0 <= i < k ==> ToLower(entries[i].key) != ToLower(providerId)
    ensures FindKey(entries, providerId) == Some(k)
  {
  }

  /** The search matches a plan whose lower-cased name contains the lower-cased query. */
  predicate NameMatches(p: UIPlan, query: string) {
    Contains(ToLower(p.name), ToLower(query))
  }

  /** `filteredPlans`: the plans the search matches, in order. */
  function FilterPlans(plans: seq<UIPlan>, query: string): (r: seq<UIPlan>)
    ensures |r| <= |plans|
    ensures forall p :: p in r <==> p in plans && NameMatches(p, query)
    decreases |plans|
  {
    if plans == [] then []
    else (if NameMatches(plans[0], query) then [plans[0]] else []) + FilterPlans(plans[1..], query)
  }

  /** Filtering keeps the order: the plans of a concatenation are filtered part by part. */
  lemma {:induction false} FilterPlansAppend(a: seq<UIPlan>, b: seq<UIPlan>, query: string)
    ensures FilterPlans(a + b, query) == FilterPlans(a, query) + FilterPlans(b, query)
    decreases |a|
  {
    if a == [] {
      assert a + b == b;
    } else {
      assert (a + b)[1..] == a[1..] + b;
      FilterPlansAppend(a[1..], b, query);
    }
  }

  /** A single plan is kept exactly when the search matches it. */
  lemma FilterPlansOne(p: UIPlan, query: string)
    ensures FilterPlans([p], query) == if NameMatches(p, query) then [p] else []
  {
    assert [p][1..] == [];
  }

  /** An empty search keeps every plan. */
  lemma {:induction false} FilterEmptyQuery(plans: seq<UIPlan>)
    ensures FilterPlans(plans, "") == plans
    decreases |plans|
  {
    if plans != [] {
      ContainsEmpty(ToLower(plans[0].name));
      assert ToLower("") == "";
      FilterEmptyQuery(plans[1..]);
    }
  }

  datatype Step = Provider | Details | Confirm | Success

  /** The result records of the cable server actions, which are not part of this model. */
  datatype PackagesResult = PackagesResult(success: bool, data: Option<seq<PackageEntry>>, error: string)
  datatype VerifyCardResult = VerifyCardResult(success: bool, customerName: string, error: string)
  datatype PayResult = PayResult(success: bool, error: string)

  /** The arguments of a smartcard verification: the provider and the smartcard number. */
  datatype CardQuery = CardQuery(cableTV: string, smartCardNo: string)

  /** The subscription request body. */
  datatype CablePaymentPayload = CablePaymentPayload(cableTV: string, packageCode: string, smartCardNo: string, phoneNo: string)

  /** The sheet's state. */
  datatype Form = Form(
    step: Step,
    apiPackages: Option<seq<PackageEntry>>,
    providerId: string,
    smartCardNumber: string,
    phoneNumber: string,
    selectedPlan: Option<UIPlan>,
    searchQuery: string,
    customerName: string,
    isLoadingPackages: bool,
    isValidating: bool,
    isValidated: bool,
    isProcessing: bool,
    errorMessage: string)

  const Initial := Form(Provider, None, "", "", "", None, "", "", false, false, false, false, "")

  datatype Event =
    | Open(packagesResult: PackagesResult)
    | SelectProvider(id: string)
    | BackToProvider
    | EditSmartCard(text: string)
    | Validate(verifyResult: VerifyCardResult)
    | EditSearch(text: string)
    | SelectPlan(plan: UIPlan)
    | EditPhone(text: string)
    | Proceed
    | BackToDetails
    | Purchase(payResult: PayResult)
    | Close

  /** The plans the sheet lists. */
  function Listed(f: Form): seq<UIPlan> {
    FilterPlans(AvailablePlans(f.apiPackages, f.providerId), f.searchQuery)
  }

  /** `fetchPackages`: the catalogue is stored when the result carries one; otherwise the error is shown. */
  function AfterFetchPackages(f: Form, r: PackagesResult): (g: Form)
    ensures r.success && r.data.Some? ==> g == f.(apiPackages := r.data, errorMessage := "", isLoadingPackages := false)
    ensures !(r.success && r.data.Some?) ==> g.apiPackages == f.apiPackages && g.errorMessage != ""
  {
    if r.success && r.data.Some? then f.(apiPackages := r.data, errorMessage := "", isLoadingPackages := false)
    else f.(errorMessage := if r.error != "" then r.error else "Failed to load cable TV packages.", isLoadingPackages := false)
  }

  /**
   * The provider and smartcard number `handleValidate` sends for verification, or None when the
   * number is shorter than eight.
   */
  function ValidateCall(f: Form): (c: Option<CardQuery>)
    ensures c.Some? <==> |f.smartCardNumber| >= 8
    ensures c.Some? ==> c.value == CardQuery(f.providerId, f.smartCardNumber)
  {
    if f.smartCardNumber == "" || |f.smartCardNumber| < 8 then None else Some(CardQuery(f.providerId, f.smartCardNumber))
  }

  /** `handleValidate`. */
  function AfterValidate(f: Form, r: VerifyCardResult): (g: Form)
    ensures g.step == f.step && g.selectedPlan == f.selectedPlan
    ensures g.apiPackages == f.apiPackages && g.providerId == f.providerId
  {
    if ValidateCall(f).None? then f.(errorMessage := "Please enter a valid Smartcard/IUC Number (min 8 digits)")
    else if r.success && r.customerName != "" then f.(customerName := r.customerName, isValidated := true, errorMessage := "", isValidating := false)
    else f.(errorMessage := if r.error != "" then r.error else "Unable to verify smartcard. Please check your details.", isValidated := false, isValidating := false)
  }

  /** The payload `handlePurchase` sends, or None when no plan is selected or the phone number is too short. */
  function PurchaseCall(f: Form): (p: Option<CablePaymentPayload>)
    ensures p.Some? <==> f.selectedPlan.Some? && |f.phoneNumber| >= 10
    ensures p.Some? ==> p.value == CablePaymentPayload(f.providerId, f.selectedPlan.value.id, f.smartCardNumber, f.phoneNumber)
  {
    if f.selectedPlan.None? || f.phoneNumber == "" || |f.phoneNumber| < 10 then None
    else Some(CablePaymentPayload(f.providerId, f.selectedPlan.value.id, f.smartCardNumber, f.phoneNumber))
  }

  /** `handlePurchase`: without a plan nothing happens; a short phone number gives an error without moving; otherwise the result decides. */
  function AfterPurchase(f: Form, r: PayResult): (g: Form)
    ensures g.selectedPlan == f.selectedPlan && g.apiPackages == f.apiPackages && g.providerId == f.providerId
  {
    if f.selectedPlan.None? then f
    else if f.phoneNumber == "" || |f.phoneNumber| < 10 then f.(errorMessage := "Please provide a valid contact phone number")
    else if r.success then f.(step := Success, errorMessage := "", isProcessing := false)
    else f.(errorMessage := if r.error != "" then r.error else "Transaction failed. Please try again.", isProcessing := false)
  }

  /** `resetState`: every field back to its initial value except the loaded catalogue. */
  function AfterReset(f: Form): (g: Form)
    ensures g.step == Provider && g.apiPackages == f.apiPackages && g.isLoadingPackages == f.isLoadingPackages
    ensures g.selectedPlan == None && !g.isValidated && g.smartCardNumber == g.phoneNumber == g.searchQuery == g.errorMessage == ""
  {
    Initial.(apiPackages := f.apiPackages, isLoadingPackages := f.isLoadingPackages)
  }

  function Handle(f: Form, e: Event): Form {
    match e
    case Open(r) => if f.apiPackages.None? then AfterFetchPackages(f, r) else f
    case SelectProvider(id) => f.(providerId := id, errorMessage := "", step := Details)
    case BackToProvider => f.(step := Provider)
    case EditSmartCard(text) => f.(smartCardNumber := KeepDigits(text), isValidated := false, errorMessage := "", selectedPlan := None)
    case Validate(r) => AfterValidate(f, r)
    case EditSearch(text) => f.(searchQuery := text)
    case SelectPlan(p) => f.(selectedPlan := Some(p))
    case EditPhone(text) => f.(phoneNumber := KeepDigits(Take(text, 11)), errorMessage := "")
    case Proceed => f.(step := Confirm)
    case BackToDetails => f.(step := Details)
    case Purchase(r) => AfterPurchase(f, r)
    case Close => AfterReset(f)
  }

  predicate Enabled(f: Form, e: Event) {
    match e
    case Open(_) => true
    case SelectProvider(id) => f.step == Provider && !f.isLoadingPackages && id in CableProviders
    case BackToProvider => f.step == Details
    case EditSmartCard(_) => f.step == Details && !f.isValidating
    case Validate(_) => f.step == Details && !f.isValidated && !f.isValidating && |f.smartCardNumber| >= 8
    case EditSearch(_) => f.step == Details && f.isValidated
    case SelectPlan(p) => f.step == Details && f.isValidated && p in Listed(f)
    case EditPhone(_) => f.step == Details && f.isValidated
    case Proceed => f.step == Details && f.isValidated && f.selectedPlan.Some? && |f.phoneNumber| >= 10
    case BackToDetails => f.step == Confirm
    case Purchase(_) => f.step == Confirm && !f.isProcessing
    case Close => true
  }

  function StepWith(f: Form, e: Event): Form {
    if Enabled(f, e) then Handle(f, e) else f
  }

  function Run(f: Form, es: seq<Event>): Form
    decreases |es|
  {
    if es == [] then f else Run(StepWith(f, es[0]), es[1..])
  }

  predicate PaidOk(e: Event) {
    e.Purchase? && e.payResult.success
  }

  /** A smartcard number shorter than eight gives an error and no verification request. */
  lemma ShortSmartCardNotVerified(f: Form, r: VerifyCardResult)
    requires |f.smartCardNumber| < 8
    ensures ValidateCall(f) == None
    ensures AfterValidate(f, r) == f.(errorMessage := "Please enter a valid Smartcard/IUC Number (min 8 digits)")
  {
  }

  /**
   * Once the length gate passes, the card counts as verified exactly when the backend succeeded
   * and returned a customer name, which is then shown; otherwise its error, or the fallback
   * message, is shown.
   */
  lemma ValidateOutcome(f: Form, r: VerifyCardResult)
    requires |f.smartCardNumber| >= 8
    ensures var g := AfterValidate(f, r);
      && (g.isValidated <==> r.success && r.customerName != "")
      && !g.isValidating
      && (g.isValidated ==> g.customerName == r.customerName && g.errorMessage == "")
      && (!g.isValidated ==> g.errorMessage == if r.error != "" then r.error else "Unable to verify smartcard. Please check your details.")
  {
  }

  /** Editing the smartcard withdraws the verification, the error and the chosen plan. */
  lemma EditingSmartCardClears(f: Form, text: string)
    ensures var g := Handle(f, EditSmartCard(text));
      !g.isValidated && g.errorMessage == "" && g.selectedPlan == None && AllDigits(g.smartCardNumber)
  {
  }

  /** Purchase: a short phone number gives an error without moving; otherwise success reaches the success step and failure keeps the step with an error. */
  lemma PurchaseOutcome(f: Form, r: PayResult)
    requires f.selectedPlan.Some?
    ensures var g := AfterPurchase(f, r);
      && (|f.phoneNumber| < 10 ==> g.step == f.step && g.errorMessage == "Please provide a valid contact phone number" && PurchaseCall(f).None?)
      && (|f.phoneNumber| >= 10 && r.success ==> g.step == Success && PurchaseCall(f).Some?)
      && (|f.phoneNumber| >= 10 && !r.success ==> g.step == f.step && g.errorMessage != "" && PurchaseCall(f).Some?)
  {
  }

  /** The back buttons: details to provider, confirmation to details. */
  lemma BackMoves(f: Form)
    ensures f.step == Details ==> StepWith(f, BackToProvider).step == Provider
    ensures f.step == Confirm ==> StepWith(f, BackToDetails).step == Details
  {
  }

  /** What every reachable state has: digit-only inputs, no call pending, and a confirmation step only with a verified card, a plan and a phone number. */
  predicate Inv(f: Form) {
    && AllDigits(f.smartCardNumber) && AllDigits(f.phoneNumber) && |f.phoneNumber| <= 11
    && !f.isLoadingPackages && !f.isValidating && !f.isProcessing
    && (f.step == Confirm ==> f.isValidated && f.selectedPlan.Some? && |f.phoneNumber| >= 10)
  }

  lemma StepInv(f: Form, e: Event)
    requires Inv(f)
    ensures Inv(StepWith(f, e))
  {
    if Enabled(f, e) {
      match e
      case EditPhone(text) => assert |KeepDigits(Take(text, 11))| <= 11;
      case _ =>
    }
  }

  lemma {:induction false} RunInv(f: Form, es: seq<Event>)
    requires Inv(f)
    ensures Inv(Run(f, es))
    decreases |es|
  {
    if es != [] {
      StepInv(f, es[0]);
      RunInv(StepWith(f, es[0]), es[1..]);
    }
  }

  /** From every reachable confirmation step, purchasing sends the subscription request. */
  lemma ReachablePurchaseCallsPay(es: seq<Event>)
    ensures var f := Run(Initial, es); f.step == Confirm ==> PurchaseCall(f).Some?
  {
    RunInv(Initial, es);
  }

  /** A session that ends on the success step either started there or contains a payment that succeeded. */
  lemma {:induction false} SuccessNeedsPayment(f: Form, es: seq<Event>)
    requires Run(f, es).step == Success && f.step != Success
    ensures exists i :: 0 <= i < |es| && PaidOk(es[i])
    decreases |es|
  {
    var g := StepWith(f, es[0]);
    if g.step == Success {
      assert PaidOk(es[0]);
    } else {
      SuccessNeedsPayment(g, es[1..]);
      var i :| 0 <= i < |es[1..]| && PaidOk(es[1..][i]);
      assert es[i + 1] == es[1..][i];
    }
  }

  /** The chosen plan is one of the current provider's packages. */
  predicate PlanMatchesProvider(f: Form) {
    f.selectedPlan.Some? ==> f.selectedPlan.value in AvailablePlans(f.apiPackages, f.providerId)
  }

  /**
   * As written, choosing another provider keeps the verification and the chosen plan: a session
   * that picks a DStv plan, goes back and chooses GOtv reaches the confirmation and would send
   * GOtv together with the DStv package code, whatever the package and whatever name the card
   * verification returns.
   */
  lemma StaleProviderReachesConfirm(name: string, pkg: CablePackage)
    requires name != ""
    ensures var f := Run(Initial, DemoSession(name, pkg));
      && f.step == Confirm && !PlanMatchesProvider(f)
      && PurchaseCall(f) == Some(CablePaymentPayload("gotv", pkg.packageId, "12345678", "08012345678"))
  {
    DemoReachesVerified(name, pkg);
    DemoVerifiedReachesStale(name, pkg);
    DemoCatalogueFacts(pkg);
    assert AvailablePlans(DemoStale(name, pkg).apiPackages, DemoStale(name, pkg).providerId) == [];
  }

  /** The first four events: the DStv catalogue loaded, DStv chosen and the card verified. */
  lemma DemoReachesVerified(name: string, pkg: CablePackage)
    requires name != ""
    ensures Run(Initial, DemoSession(name, pkg)) == Run(DemoVerified(name, pkg), DemoSession(name, pkg)[4..])
  {
    var es := DemoSession(name, pkg);
    var cat := DemoCatalogue(pkg);
    var f0 := Initial;
    var f1 := f0.(apiPackages := Some(cat));
    var f2 := f1.(providerId := "dstv", step := Details);
    var f3 := f2.(smartCardNumber := "12345678");
    var f4 := f3.(customerName := name, isValidated := true);
    assert f4 == DemoVerified(name, pkg);
    StepsValidate(f2, f3, f4, name, es[2..]);
    assert es[2..][2..] == es[4..];
    StepsOpenAndSelect(f0, f1, f2, cat, es);
  }

  /** The last five events: the DStv plan and a phone chosen, back, GOtv chosen, proceed. */
  lemma DemoVerifiedReachesStale(name: string, pkg: CablePackage)
    ensures Run(DemoVerified(name, pkg), DemoSession(name, pkg)[4..]) == DemoStale(name, pkg)
  {
    var es := DemoSession(name, pkg)[4..];
    var plan := PlanOf(pkg);
    DemoCatalogueFacts(pkg);
    var f4 := DemoVerified(name, pkg);
    FilterEmptyQuery([plan]);
    assert Listed(f4) == [plan];
    var f5 := f4.(selectedPlan := Some(plan));
    var f6 := f5.(phoneNumber := "08012345678");
    var f7 := f6.(step := Provider);
    var f8 := f7.(providerId := "gotv", step := Details);
    var f9 := f8.(step := Confirm);
    assert f9 == DemoStale(name, pkg);
    assert Run(f9, es[5..]) == f9;
    StepsToConfirm(f8, f9, es[4..]);
    assert es[2..][2..] == es[4..] && es[4..][1..] == es[5..];
    StepsDetailsToProvider(f6, f7, f8, es[2..]);
    StepsPlanAndPhone(f4, f5, f6, plan, es);
  }

  /** The state after the first four events of the demonstration session. */
  function DemoVerified(name: string, pkg: CablePackage): Form {
    Initial.(apiPackages := Some(DemoCatalogue(pkg)), providerId := "dstv", step := Details,
      smartCardNumber := "12345678", customerName := name, isValidated := true)
  }

  /** The confirmation the demonstration session ends on: GOtv with the DStv plan. */
  function DemoStale(name: string, pkg: CablePackage): Form {
    DemoVerified(name, pkg).(selectedPlan := Some(PlanOf(pkg)), phoneNumber := "08012345678", providerId := "gotv", step := Confirm)
  }

  function DemoCatalogue(pkg: CablePackage): seq<PackageEntry> {
    [PackageEntry("DStv", [CableGroup("1", Some([pkg]))])]
  }

  /** Open with a DStv catalogue, pick DStv, verify a card, pick the DStv plan, go back, pick GOtv, proceed. */
  function DemoSession(name: string, pkg: CablePackage): seq<Event> {
    [Open(PackagesResult(true, Some(DemoCatalogue(pkg)), "")), SelectProvider("dstv"), EditSmartCard("12345678"),
     Validate(VerifyCardResult(true, name, "")), SelectPlan(PlanOf(pkg)), EditPhone("08012345678"),
     BackToProvider, SelectProvider("gotv"), Proceed]
  }

  lemma DemoCatalogueFacts(pkg: CablePackage)
    ensures AvailablePlans(Some(DemoCatalogue(pkg)), "dstv") == [PlanOf(pkg)]
    ensures AvailablePlans(Some(DemoCatalogue(pkg)), "gotv") == []
  {
    var cat := DemoCatalogue(pkg);
    assert ToLower("DStv") == "dstv" by {
      var l := ToLower("DStv");
      assert l[0] == 'd' && l[1] == 's' && l[2] == 't' && l[3] == 'v';
    }
    assert ToLower("dstv") == "dstv" by {
      var l := ToLower("dstv");
      assert l[0] == 'd' && l[1] == 's' && l[2] == 't' && l[3] == 'v';
    }
    assert FindKey(cat, "dstv") == Some(0);
    assert FindKey(cat, "gotv") == None by {
      assert ToLower(cat[0].key)[0] != ToLower("gotv")[0];
    }
    var g := CableGroup("1", Some([pkg]));
    FlattenGroupsSnoc([], g);
    assert [g] == [] + [g];
  }

  lemma StepsOpenAndSelect(f0: Form, f1: Form, f2: Form, cat: seq<PackageEntry>, es: seq<Event>)
    requires |es| >= 2 && es[0] == Open(PackagesResult(true, Some(cat), "")) && es[1] == SelectProvider("dstv")
    requires f0 == Initial && f1 == f0.(apiPackages := Some(cat)) && f2 == f1.(providerId := "dstv", step := Details)
    ensures Run(f0, es) == Run(f2, es[2..])
  {
    assert es[1..][1..] == es[2..];
  }

  lemma StepsValidate(f2: Form, f3: Form, f4: Form, name: string, es: seq<Event>)
    requires |es| >= 2 && es[0] == EditSmartCard("12345678") && es[1] == Validate(VerifyCardResult(true, name, "")) && name != ""
    requires f2.step == Details && !f2.isValidating && !f2.isValidated && f2.errorMessage == "" && f2.selectedPlan == None
    requires f3 == f2.(smartCardNumber := "12345678") && f4 == f3.(customerName := name, isValidated := true)
    ensures Run(f2, es) == Run(f4, es[2..])
  {
    StepCard(f2, f3);
    StepVerified(f3, f4, name);
    assert es[1..][1..] == es[2..];
  }

  lemma StepCard(f2: Form, f3: Form)
    requires f2.step == Details && !f2.isValidating && !f2.isValidated && f2.errorMessage == "" && f2.selectedPlan == None
    requires f3 == f2.(smartCardNumber := "12345678")
    ensures StepWith(f2, EditSmartCard("12345678")) == f3
  {
    var card := "12345678";
    assert AllDigits(card);
    assert Handle(f2, EditSmartCard(card)) == f2.(smartCardNumber := card, isValidated := false, errorMessage := "", selectedPlan := None);
  }

  lemma StepVerified(f3: Form, f4: Form, name: string)
    requires f3.step == Details && !f3.isValidating && !f3.isValidated && f3.errorMessage == "" && f3.smartCardNumber == "12345678"
    requires name != "" && f4 == f3.(customerName := name, isValidated := true)
    ensures StepWith(f3, Validate(VerifyCardResult(true, name, ""))) == f4
  {
  }

  lemma StepsPlanAndPhone(f4: Form, f5: Form, f6: Form, plan: UIPlan, es: seq<Event>)
    requires |es| >= 2 && es[0] == SelectPlan(plan) && es[1] == EditPhone("08012345678")
    requires f4.step == Details && f4.isValidated && plan in Listed(f4) && f4.errorMessage == ""
    requires f5 == f4.(selectedPlan := Some(plan)) && f6 == f5.(phoneNumber := "08012345678")
    ensures Run(f4, es) == Run(f6, es[2..])
  {
    StepPlan(f4, f5, plan);
    StepPhone(f5, f6);
    assert es[1..][1..] == es[2..];
  }

  lemma StepPlan(f4: Form, f5: Form, plan: UIPlan)
    requires f4.step == Details && f4.isValidated && plan in Listed(f4)
    requires f5 == f4.(selectedPlan := Some(plan))
    ensures StepWith(f4, SelectPlan(plan)) == f5
  {
    SelectPlanEnabled(f4, plan);
    assert Handle(f4, SelectPlan(plan)) == f5;
  }

  lemma SelectPlanEnabled(f: Form, plan: UIPlan)
    requires f.step == Details && f.isValidated && plan in Listed(f)
    ensures Enabled(f, SelectPlan(plan))
  {
  }

  lemma StepPhone(f5: Form, f6: Form)
    requires f5.step == Details && f5.isValidated && f5.errorMessage == ""
    requires f6 == f5.(phoneNumber := "08012345678")
    ensures StepWith(f5, EditPhone("08012345678")) == f6
  {
    var phone := "08012345678";
    assert Take(phone, 11) == phone;
    assert AllDigits(phone);
  }

  lemma StepsDetailsToProvider(f6: Form, f7: Form, f8: Form, es: seq<Event>)
    requires |es| >= 2 && es[0] == BackToProvider && es[1] == SelectProvider("gotv")
    requires f6.step == Details && !f6.isLoadingPackages && f6.errorMessage == ""
    requires f7 == f6.(step := Provider) && f8 == f7.(providerId := "gotv", step := Details)
    ensures Run(f6, es) == Run(f8, es[2..])
  {
    assert es[1..][1..] == es[2..];
  }

  lemma StepsToConfirm(f8: Form, f9: Form, es: seq<Event>)
    requires |es| >= 1 && es[0] == Proceed
    requires f8.step == Details && f8.isValidated && f8.selectedPlan.Some? && |f8.phoneNumber| >= 10
    requires f9 == f8.(step := Confirm)
    ensures Run(f8, es) == Run(f9, es[1..])
  {
  }

  /** The evidently intended provider choice: like editing the smartcard, it withdraws the verification and the plan. */
  function HandleIntended(f: Form, e: Event): (g: Form)
    ensures e.SelectProvider? ==> !g.isValidated && g.selectedPlan == None && g.providerId == e.id && g.step == Details
    ensures !e.SelectProvider? ==> g == Handle(f, e)
  {
    match e
    case SelectProvider(id) => f.(providerId := id, errorMessage := "", step := Details, isValidated := false, selectedPlan := None)
    case _ => Handle(f, e)
  }

  function StepIntended(f: Form, e: Event): Form {
    if Enabled(f, e) then HandleIntended(f, e) else f
  }

  function RunIntended(f: Form, es: seq<Event>): Form
    decreases |es|
  {
    if es == [] then f else RunIntended(StepIntended(f, es[0]), es[1..])
  }

  lemma StepIntendedInv(f: Form, e: Event)
    requires Inv(f) && PlanMatchesProvider(f)
    ensures Inv(StepIntended(f, e)) && PlanMatchesProvider(StepIntended(f, e))
  {
    if !e.SelectProvider? {
      assert StepIntended(f, e) == StepWith(f, e);
      StepInv(f, e);
      StepKeepsPlanMatch(f, e);
    }
  }

  /** Apart from the provider choice, no enabled event breaks the match between plan and provider. */
  lemma StepKeepsPlanMatch(f: Form, e: Event)
    requires PlanMatchesProvider(f) && !e.SelectProvider?
    ensures PlanMatchesProvider(StepWith(f, e))
  {
    var g := StepWith(f, e);
    if !Enabled(f, e) {
      assert g == f;
    } else if e.SelectPlan? {
      assert e.plan in Listed(f);
      assert g.selectedPlan == Some(e.plan) && g.apiPackages == f.apiPackages && g.providerId == f.providerId;
    } else if e.Open? {
      assert f.apiPackages.None? ==> AvailablePlans(f.apiPackages, f.providerId) == [];
      assert g.selectedPlan == f.selectedPlan && g.providerId == f.providerId;
    } else if e.EditSmartCard? || e.Close? {
      assert g.selectedPlan == None || g == f;
    } else {
      SamePlanAndProvider(f, e);
    }
  }

  lemma SamePlanAndProvider(f: Form, e: Event)
    requires !e.SelectProvider? && !e.SelectPlan? && !e.Open? && !e.EditSmartCard? && !e.Close?
    ensures var g := StepWith(f, e); g.selectedPlan == f.selectedPlan && g.apiPackages == f.apiPackages && g.providerId == f.providerId
  {
    if Enabled(f, e) {
      HandleKeepsPlanAndProvider(f, e);
    }
  }

  /** The handlers that touch neither the plan, the catalogue nor the provider. */
  lemma HandleKeepsPlanAndProvider(f: Form, e: Event)
    requires !e.SelectProvider? && !e.SelectPlan? && !e.Open? && !e.EditSmartCard? && !e.Close?
    ensures var g := Handle(f, e); g.selectedPlan == f.selectedPlan && g.apiPackages == f.apiPackages && g.providerId == f.providerId
  {
  }

  lemma {:induction false} RunIntendedInv(f: Form, es: seq<Event>)
    requires Inv(f) && PlanMatchesProvider(f)
    ensures Inv(RunIntended(f, es)) && PlanMatchesProvider(RunIntended(f, es))
    decreases |es|
  {
    if es != [] {
      StepIntendedInv(f, es[0]);
      RunIntendedInv(StepIntended(f, es[0]), es[1..]);
    }
  }

  /** With the intended provider choice, every reachable confirmation pays for a package of the provider it names. */
  lemma IntendedPurchaseMatchesProvider(es: seq<Event>)
    ensures var f := RunIntended(Initial, es);
      f.step == Confirm ==> PurchaseCall(f).Some? && f.selectedPlan.value in AvailablePlans(f.apiPackages, f.providerId)
  {
    RunIntendedInv(Initial, es);
  }

  class BuyCableModal {
    var step: Step
    var apiPackages: Option<seq<PackageEntry>>
    var providerId: string
    var smartCardNumber: string
    var phoneNumber: string
    var selectedPlan: Option<UIPlan>
    var searchQuery: string
    var customerName: string
    var isLoadingPackages: bool
    var isValidating: bool
    var isValidated: bool
    var isProcessing: bool
    var errorMessage: string

    function Snapshot(): Form
      reads this
    {
      Form(step, apiPackages, providerId, smartCardNumber, phoneNumber, selectedPlan, searchQuery,
           customerName, isLoadingPackages, isValidating, isValidated, isProcessing, errorMessage)
    }

    constructor ()
      ensures Snapshot() == Initial
    {
      step, apiPackages, providerId, smartCardNumber, phoneNumber := Provider, None, "", "", "";
      selectedPlan, searchQuery, customerName := None, "", "";
      isLoadingPackages, isValidating, isValidated, isProcessing, errorMessage := false, false, false, false, "";
    }

    /** The plans the sheet lists, computed as the source does. */
    method FilteredPlans() returns (plans: seq<UIPlan>)
      ensures plans == Listed(Snapshot())
    {
      var available := GetAvailablePlans(apiPackages, providerId);
      plans := FilterPlans(available, searchQuery);
    }

    /** The effect when the sheet opens: the catalogue is fetched once. */
    method OnOpen(r: PackagesResult)
      modifies this
      ensures Snapshot() == Handle(old(Snapshot()), Open(r))
    {
      if apiPackages.None? {
        isLoadingPackages := true;
        errorMessage := "";
        if r.success && r.data.Some? {
          apiPackages := r.data;
        } else {
          errorMessage := if r.error != "" then r.error else "Failed to load cable TV packages.";
        }
        isLoadingPackages := false;
      }
    }

    method HandleProviderSelect(id: string)
      requires step == Provider && id in CableProviders
      modifies this
      ensures Snapshot() == Handle(old(Snapshot()), SelectProvider(id))
    {
      providerId := id;
      errorMessage := "";
      step := Details;
    }

    method GoBackToProvider()
      requires step == Details
      modifies this
      ensures Snapshot() == Handle(old(Snapshot()), BackToProvider)
    {
      step := Provider;
    }

    method SetSmartCardNumber(text: string)
      requires step == Details
      modifies this
      ensures Snapshot() == Handle(old(Snapshot()), EditSmartCard(text))
    {
      smartCardNumber := KeepDigits(text);
      isValidated := false;
      errorMessage := "";
      selectedPlan := None;
    }

    /** `handleValidate`; returns the provider and smartcard number sent for verification, if any. */
    method HandleValidate(r: VerifyCardResult) returns (sent: Option<CardQuery>)
      requires step == Details && !isValidated
      modifies this
      ensures sent == ValidateCall(old(Snapshot()))
      ensures Snapshot() == AfterValidate(old(Snapshot()), r)
    {
      if smartCardNumber == "" || |smartCardNumber| < 8 {
        errorMessage := "Please enter a valid Smartcard/IUC Number (min 8 digits)";
        return None;
      }
      isValidating := true;
      errorMessage := "";
      sent := Some(CardQuery(providerId, smartCardNumber));
      if r.success && r.customerName != "" {
        customerName := r.customerName;
        isValidated := true;
      } else {
        errorMessage := if r.error != "" then r.error else "Unable to verify smartcard. Please check your details.";
        isValidated := false;
      }
      isValidating := false;
    }

    method SetSearchQuery(text: string)
      requires step == Details && isValidated
      modifies this
      ensures Snapshot() == Handle(old(Snapshot()), EditSearch(text))
    {
      searchQuery := text;
    }

    /** Tapping a plan card (the cards are those of `Listed`). */
    method ChoosePlan(plan: UIPlan)
      requires step == Details && isValidated
      modifies this
      ensures Snapshot() == Handle(old(Snapshot()), SelectPlan(plan))
    {
      selectedPlan := Some(plan);
    }

    method SetPhoneNumber(text: string)
      requires step == Details && isValidated
      modifies this
      ensures Snapshot() == Handle(old(Snapshot()), EditPhone(text))
    {
      phoneNumber := KeepDigits(Take(text, 11));
      errorMessage := "";
    }

    method ProceedToConfirm()
      requires step == Details && isValidated && selectedPlan.Some? && |phoneNumber| >= 10
      modifies this
      ensures Snapshot() == Handle(old(Snapshot()), Proceed)
    {
      step := Confirm;
    }

    method GoBackToDetails()
      requires step == Confirm
      modifies this
      ensures Snapshot() == Handle(old(Snapshot()), BackToDetails)
    {
      step := Details;
    }

    /** `handlePurchase`; returns the subscription request it sends, if any. */
    method HandlePurchase(r: PayResult) returns (call: Option<CablePaymentPayload>)
      requires step == Confirm && !isProcessing
      modifies this
      ensures call == PurchaseCall(old(Snapshot()))
      ensures Snapshot() == AfterPurchase(old(Snapshot()), r)
    {
      if selectedPlan.None? {
        return None;
      }
      if phoneNumber == "" || |phoneNumber| < 10 {
        errorMessage := "Please provide a valid contact phone number";
        return None;
      }
      isProcessing := true;
      errorMessage := "";
      call := Some(CablePaymentPayload(providerId, selectedPlan.value.id, smartCardNumber, phoneNumber));
      isProcessing := false;
      if r.success {
        step := Success;
      } else {
        errorMessage := if r.error != "" then r.error else "Transaction failed. Please try again.";
      }
    }

    /** Closing the sheet: the state is reset (after the close animation's delay). */
    method HandleClose()
      modifies this
      ensures Snapshot() == AfterReset(old(Snapshot()))
    {
      step := Provider;
      providerId := "";
      smartCardNumber := "";
      phoneNumber := "";
      selectedPlan := None;
      searchQuery := "";
      customerName := "";
      isValidated := false;
      isValidating := false;
      isProcessing := false;
      errorMessage := "";
      assert Snapshot() == Form(Provider, old(apiPackages), "", "", "", None, "", "", old(isLoadingPackages), false, false, false, "");
    }
  }
}

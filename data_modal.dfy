/**
 * The data-bundle sheet: network, plan, phone number, confirmation, success. The plan list is
 * flattened from the catalogue of the chosen network, whose key is an alias of the network id.
 */
module DataModal {
  import opened Wrappers
  import opened Text
  import Types

  /** A product of the catalogue. */
  datatype DataProduct = DataProduct(productId: string, productName: string, sellingPrice: int)

  /** A group of products; `product` is None when the field is missing or not an array. */
  datatype DataGroup = DataGroup(id: string, product: Option<seq<DataProduct>>)

  /** The value stored under a catalogue key: a list of groups, or something that is not an array (None). */
  type Catalogue = map<string, Option<seq<DataGroup>>>

  /** A plan as the sheet lists it. */
  datatype UIPlan = UIPlan(id: string, name: string, price: int, groupName: string)

  /** The catalogue key of a network: the catalogue spells three of the four differently. */
  function NetworkKey(networkId: string): (key: string)
    ensures networkId == "9MOBILE" ==> key == "m_9mobile"
    ensures networkId == "GLO" ==> key == "Glo"
    ensures networkId == "AIRTEL" ==> key == "Airtel"
    ensures networkId == "MTN" ==> key == "MTN"
    ensures networkId !in Types.NetworkIds ==> key == networkId
  {
    if networkId == "MTN" then "MTN"
    else if networkId == "AIRTEL" then "Airtel"
    else if networkId == "GLO" then "Glo"
    else if networkId == "9MOBILE" then "m_9mobile"
    else networkId
  }

  /** The four networks have four different keys. */
  lemma NetworkKeysDistinct(a: string, b: string)
    requires a in Types.NetworkIds && b in Types.NetworkIds && a != b
    ensures NetworkKey(a) != NetworkKey(b)
  {
  }

  /** The badge of a plan, read off its name: '(SME)' before '(Awoof'. */
  function GroupName(name: string): (g: string)
    ensures Contains(name, "(SME)") ==> g == "SME"
    ensures !Contains(name, "(SME)") && Contains(name, "(Awoof") ==> g == "Awoof"
    ensures !Contains(name, "(SME)") && !Contains(name, "(Awoof") ==> g == "Direct"
    ensures g in ["SME", "Awoof", "Direct"]
  {
    if Contains(name, "(SME)") then "SME" else if Contains(name, "(Awoof") then "Awoof" else "Direct"
  }

  /** The SME marker wins wherever it stands in the name, even after an Awoof marker. */
  lemma SmeBeforeAwoof(a: string, b: string)
    ensures GroupName(a + "(SME)" + b) == "SME"
  {
    var name := a + "(SME)" + b;
    assert name[|a|..|a| + 5] == "(SME)";
    ContainsAt(name, "(SME)", |a|);
  }

  function PlanOf(p: DataProduct): (u: UIPlan)
    ensures u.id == p.productId && u.name == p.productName && u.price == p.sellingPrice
    ensures u.groupName == GroupName(p.productName)
  {
    UIPlan(p.productId, p.productName, p.sellingPrice, GroupName(p.productName))
  }

  /** The plans of one group, in order; none when the group has no product array. */
  function GroupPlans(g: DataGroup): (ps: seq<UIPlan>)
    ensures g.product.None? ==> ps == []
    ensures g.product.Some? ==> |ps| == |g.product.value| && forall j :: 0 <= j < |ps| ==> ps[j] == PlanOf(g.product.value[j])
  {
    match g.product
    case None => []
    case Some(items) => seq(|items|, j requires 0 <= j < |items| => PlanOf(items[j]))
  }

  /** The plans of all groups, group after group. */
  function FlattenGroups(gs: seq<DataGroup>): seq<UIPlan>
    decreases |gs|
  {
    if gs == [] then [] else GroupPlans(gs[0]) + FlattenGroups(gs[1..])
  }

  lemma {:induction false} FlattenGroupsAppend(a: seq<DataGroup>, b: seq<DataGroup>)
    ensures FlattenGroups(a + b) == FlattenGroups(a) + FlattenGroups(b)
    decreases |a|
  {
    if a == [] {
      assert a + b == b;
    } else {
      assert (a + b)[1..] == a[1..] + b;
      FlattenGroupsAppend(a[1..], b);
    }
  }

  /** Pushing one more group appends its plans. */
  lemma FlattenGroupsSnoc(gs: seq<DataGroup>, g: DataGroup)
    ensures FlattenGroups(gs + [g]) == FlattenGroups(gs) + GroupPlans(g)
  {
    FlattenGroupsAppend(gs, [g]);
    assert [g][1..] == [];
  }

  /** Every listed plan comes from a product of some group, with its badge read off its name. */
  lemma {:induction false} FlattenedPlansClassified(gs: seq<DataGroup>, k: nat)
    requires k < |FlattenGroups(gs)|
    ensures FlattenGroups(gs)[k].groupName == GroupName(FlattenGroups(gs)[k].name)
    decreases |gs|
  {
    var head := GroupPlans(gs[0]);
    if k < |head| {
      assert FlattenGroups(gs)[k] == head[k];
    } else {
      assert FlattenGroups(gs)[k] == FlattenGroups(gs[1..])[k - |head|];
      FlattenedPlansClassified(gs[1..], k - |head|);
    }
  }

  /**
   * `getAvailablePlans` as a value: nothing without a catalogue or a network, or when the
   * network's key is missing or holds no array; otherwise the flattened groups under the key.
   */
  function AvailablePlans(plans: Option<Catalogue>, network: string): (ps: seq<UIPlan>)
    ensures plans.None? || network == "" ==> ps == []
    ensures plans.Some? && (NetworkKey(network) !in plans.value || plans.value[NetworkKey(network)].None?) ==> ps == []
    ensures plans.Some? && network != "" && NetworkKey(network) in plans.value && plans.value[NetworkKey(network)].Some? ==>
      ps == FlattenGroups(plans.value[NetworkKey(network)].value)
  {
    if plans.None? || network == "" then []
    else
      var key := NetworkKey(network);
      if key !in plans.value || plans.value[key].None? then [] else FlattenGroups(plans.value[key].value)
  }

  /** `getAvailablePlans`: pushes each product of each group with a product array. */
  method GetAvailablePlans(apiPlans: Option<Catalogue>, selectedNetwork: string) returns (flatPlans: seq<UIPlan>)
    ensures flatPlans == AvailablePlans(apiPlans, selectedNetwork)
  {
    if apiPlans.None? || selectedNetwork == "" {
      return [];
    }
    var networkKey := selectedNetwork;
    if selectedNetwork == "9MOBILE" { networkKey := "m_9mobile"; }
    if selectedNetwork == "GLO" { networkKey := "Glo"; }
    if selectedNetwork == "AIRTEL" { networkKey := "Airtel"; }
    if selectedNetwork == "MTN" { networkKey := "MTN"; }
    assert networkKey == NetworkKey(selectedNetwork);
    if networkKey !in apiPlans.value || apiPlans.value[networkKey].None? {
      return [];
    }
    flatPlans := PushGroups(apiPlans.value[networkKey].value);
  }

  /** The two nested `forEach` loops: every product of every group with a product array, pushed in order. */
  method PushGroups(groups: seq<DataGroup>) returns (flatPlans: seq<UIPlan>)
    ensures flatPlans == FlattenGroups(groups)
  {
    flatPlans := [];
    var i := 0;
    while i < |groups|
      invariant 0 <= i <= |groups|
      invariant flatPlans == FlattenGroups(groups[..i])
    {
      flatPlans := PushGroup(flatPlans, groups[i]);
      TakeSnoc([], groups, i);
      FlattenGroupsSnoc(groups[..i], groups[i]);
      i := i + 1;
    }
    assert groups[..i] == groups;
  }

  /** The inner `forEach` on one group: each product of its array appended in order, nothing without an array. */
  method PushGroup(acc: seq<UIPlan>, group: DataGroup) returns (flatPlans: seq<UIPlan>)
    ensures flatPlans == acc + GroupPlans(group)
  {
    flatPlans := acc;
    ghost var ps := GroupPlans(group);
    if group.product.Some? {
      var items := group.product.value;
      var j := 0;
      while j < |items|
        invariant 0 <= j <= |items| == |ps|
        invariant flatPlans == acc + ps[..j]
      {
        TakeSnoc(acc, ps, j);
        flatPlans := flatPlans + [PlanOf(items[j])];
        j := j + 1;
      }
      assert ps[..j] == ps;
    } else {
      assert acc + ps == acc;
    }
  }

  /** The search matches a plan whose lower-cased name contains the lower-cased query. */
  predicate NameMatches(p: UIPlan, query: string) {
    Contains(ToLower(p.name), ToLower(query))
  }

  /** `filteredPlans`: the plans the search matches, in order. */
  function FilterPlans(plans: seq<UIPlan>, query: string): (r: seq<UIPlan>)
    ensures |r| <= |plans|
    ensures forall p :: p in r <==> p in plans && NameMatches(p, query)
    decreases |plans|
  {
    if plans == [] then []
    else (if NameMatches(plans[0], query) then [plans[0]] else []) + FilterPlans(plans[1..], query)
  }

  /** Filtering keeps the order: the plans of a concatenation are filtered part by part. */
  lemma {:induction false} FilterPlansAppend(a: seq<UIPlan>, b: seq<UIPlan>, query: string)
    ensures FilterPlans(a + b, query) == FilterPlans(a, query) + FilterPlans(b, query)
    decreases |a|
  {
    if a == [] {
      assert a + b == b;
    } else {
      assert (a + b)[1..] == a[1..] + b;
      FilterPlansAppend(a[1..], b, query);
    }
  }

  /** A single plan is kept exactly when the search matches it. */
  lemma FilterPlansOne(p: UIPlan, query: string)
    ensures FilterPlans([p], query) == if NameMatches(p, query) then [p] else []
  {
    assert [p][1..] == [];
  }

  /** An empty search keeps every plan. */
  lemma {:induction false} FilterEmptyQuery(plans: seq<UIPlan>)
    ensures FilterPlans(plans, "") == plans
    decreases |plans|
  {
    if plans != [] {
      ContainsEmpty(ToLower(plans[0].name));
      assert ToLower("") == "";
      FilterEmptyQuery(plans[1..]);
    }
  }

  datatype Step = Network | Plan | Phone | Confirm | Success

  /** The result records of the catalogue fetch and the purchase, whose requests are not part of this model. */
  datatype PlansResult = PlansResult(success: bool, data: Option<Catalogue>, error: string)
  datatype BuyResult = BuyResult(success: bool, error: string)

  /** The purchase request: network, plan id and phone number. */
  datatype BuyCall = BuyCall(network: string, planId: string, phoneNumber: string)

  /** The sheet's state; "" stands for no selected network. */
  datatype Form = Form(
    step: Step,
    selectedNetwork: string,
    selectedPlan: Option<UIPlan>,
    phoneNumber: string,
    apiPlans: Option<Catalogue>,
    isLoadingPlans: bool,
    isPurchasing: bool,
    errorMessage: string,
    searchQuery: string)

  const Initial := Form(Network, "", None, "", None, false, false, "", "")

  datatype Event =
    | Open(plansResult: PlansResult)
    | SelectNetwork(id: string)
    | BackToNetwork
    | EditSearch(text: string)
    | SelectPlan(plan: UIPlan)
    | BackToPlan
    | EditPhone(text: string)
    | Proceed
    | BackToPhone
    | Purchase(buyResult: BuyResult)
    | Close

  /** The plans the sheet lists. */
  function Listed(f: Form): seq<UIPlan> {
    FilterPlans(AvailablePlans(f.apiPlans, f.selectedNetwork), f.searchQuery)
  }

  /** `fetchPlans`: the catalogue is stored when the result carries one; otherwise the error is shown. */
  function AfterFetchPlans(f: Form, r: PlansResult): (g: Form)
    ensures r.success && r.data.Some? ==> g == f.(apiPlans := r.data, errorMessage := "", isLoadingPlans := false)
    ensures !(r.success && r.data.Some?) ==> g.apiPlans == f.apiPlans && g.errorMessage != ""
  {
    if r.success && r.data.Some? then f.(apiPlans := r.data, errorMessage := "", isLoadingPlans := false)
    else f.(errorMessage := if r.error != "" then r.error else "Failed to load data plans.", isLoadingPlans := false)
  }

  /** The purchase request `handlePurchase` sends, or None when network, plan or phone number is missing. */
  function PurchaseCall(f: Form): (c: Option<BuyCall>)
    ensures c.Some? <==> f.selectedNetwork != "" && f.selectedPlan.Some? && f.phoneNumber != ""
    ensures c.Some? ==> c.value == BuyCall(ToUpper(f.selectedNetwork), f.selectedPlan.value.id, f.phoneNumber)
  {
    if f.selectedNetwork == "" || f.selectedPlan.None? || f.phoneNumber == "" then None
    else Some(BuyCall(ToUpper(f.selectedNetwork), f.selectedPlan.value.id, f.phoneNumber))
  }

  /** `handlePurchase`. */
  function AfterPurchase(f: Form, r: BuyResult): (g: Form)
  {
    if PurchaseCall(f).None? then f
    else if r.success then f.(step := Success, errorMessage := "", isPurchasing := false)
    else f.(errorMessage := if r.error != "" then r.error else "Transaction failed. Please try again.", isPurchasing := false)
  }

  /** `reset`: the step, the selections, the phone number, the search and the error; the catalogue is kept. */
  function AfterReset(f: Form): (g: Form)
    ensures g.step == Network && g.selectedNetwork == "" && g.selectedPlan == None
    ensures g.phoneNumber == g.searchQuery == g.errorMessage == "" && !g.isPurchasing
    ensures g.apiPlans == f.apiPlans && g.isLoadingPlans == f.isLoadingPlans
  {
    Initial.(apiPlans := f.apiPlans, isLoadingPlans := f.isLoadingPlans)
  }

  function Handle(f: Form, e: Event): Form {
    match e
    case Open(r) => if f.apiPlans.None? then AfterFetchPlans(f, r) else f
    case SelectNetwork(id) => f.(selectedNetwork := id, errorMessage := "", step := Plan)
    case BackToNetwork => f.(step := Network)
    case EditSearch(text) => f.(searchQuery := text)
    case SelectPlan(p) => f.(selectedPlan := Some(p), errorMessage := "", step := Phone)
    case BackToPlan => f.(step := Plan)
    case EditPhone(text) => f.(phoneNumber := KeepDigits(Take(text, 11)), errorMessage := "")
    case Proceed => f.(step := Confirm)
    case BackToPhone => f.(step := Phone)
    case Purchase(r) => AfterPurchase(f, r)
    case Close => AfterReset(f)
  }

  predicate Enabled(f: Form, e: Event) {
    match e
    case Open(_) => true
    case SelectNetwork(id) => f.step == Network && !f.isLoadingPlans && id in Types.NetworkIds
    case BackToNetwork => f.step == Plan
    case EditSearch(_) => f.step == Plan
    case SelectPlan(p) => f.step == Plan && p in Listed(f)
    case BackToPlan => f.step == Phone
    case EditPhone(_) => f.step == Phone
    case Proceed => f.step == Phone && |f.phoneNumber| >= 10
    case BackToPhone => f.step == Confirm
    case Purchase(_) => f.step == Confirm && !f.isPurchasing
    case Close => true
  }

  function StepWith(f: Form, e: Event): Form {
    if Enabled(f, e) then Handle(f, e) else f
  }

  function Run(f: Form, es: seq<Event>): Form
    decreases |es|
  {
    if es == [] then f else Run(StepWith(f, es[0]), es[1..])
  }

  predicate PaidOk(e: Event) {
    e.Purchase? && e.buyResult.success
  }

  /** The forward moves: a network leads to the plans, a plan to the phone number, a long enough phone number to the confirmation. */
  lemma ForwardMoves(f: Form, id: string, p: UIPlan)
    ensures f.step == Network && !f.isLoadingPlans && id in Types.NetworkIds ==> StepWith(f, SelectNetwork(id)).step == Plan
    ensures f.step == Plan && p in Listed(f) ==> StepWith(f, SelectPlan(p)).step == Phone && StepWith(f, SelectPlan(p)).selectedPlan == Some(p)
    ensures f.step == Phone ==> (StepWith(f, Proceed).step == Confirm <==> |f.phoneNumber| >= 10)
  {
    if f.step == Plan && p in Listed(f) {
      SelectPlanEnabled(f, p);
    }
  }

  lemma SelectPlanEnabled(f: Form, p: UIPlan)
    requires f.step == Plan && p in Listed(f)
    ensures Enabled(f, SelectPlan(p))
  {
  }

  /** The back buttons: plans to networks, phone number to plans, confirmation to phone number. */
  lemma BackMoves(f: Form)
    ensures f.step == Plan ==> StepWith(f, BackToNetwork).step == Network
    ensures f.step == Phone ==> StepWith(f, BackToPlan).step == Plan
    ensures f.step == Confirm ==> StepWith(f, BackToPhone).step == Phone
  {
  }

  /** Purchase: without network, plan or phone number nothing changes; otherwise success reaches the success step and failure keeps the step with an error. */
  lemma PurchaseOutcome(f: Form, r: BuyResult)
    ensures PurchaseCall(f).None? ==> AfterPurchase(f, r) == f
    ensures PurchaseCall(f).Some? && r.success ==> AfterPurchase(f, r).step == Success
    ensures PurchaseCall(f).Some? && !r.success ==> AfterPurchase(f, r).step == f.step && AfterPurchase(f, r).errorMessage != ""
  {
  }

  /** What every reachable state has: a digit-only phone number, no request pending, and each step's earlier choices made. */
  predicate Inv(f: Form) {
    && AllDigits(f.phoneNumber) && |f.phoneNumber| <= 11
    && !f.isLoadingPlans && !f.isPurchasing
    && (f.step != Network ==> f.selectedNetwork in Types.NetworkIds)
    && (f.step in {Phone, Confirm} ==> f.selectedPlan.Some?)
    && (f.step == Confirm ==> |f.phoneNumber| >= 10)
  }

  lemma StepInv(f: Form, e: Event)
    requires Inv(f)
    ensures Inv(StepWith(f, e))
  {
    if Enabled(f, e) {
      match e
      case EditPhone(text) => assert |KeepDigits(Take(text, 11))| <= 11;
      case _ =>
    }
  }

  lemma {:induction false} RunInv(f: Form, es: seq<Event>)
    requires Inv(f)
    ensures Inv(Run(f, es))
    decreases |es|
  {
    if es != [] {
      StepInv(f, es[0]);
      RunInv(StepWith(f, es[0]), es[1..]);
    }
  }

  /** From every reachable confirmation step, purchasing sends the request with the upper-cased network id. */
  lemma ReachablePurchaseCallsBuy(es: seq<Event>)
    ensures var f := Run(Initial, es);
      f.step == Confirm ==> PurchaseCall(f).Some? && PurchaseCall(f).value.network in Types.NetworkIds
  {
    RunInv(Initial, es);
    var f := Run(Initial, es);
    if f.step == Confirm {
      ToUpperIdempotent(f.selectedNetwork);
      assert ToUpper(f.selectedNetwork) == f.selectedNetwork by {
        UpperNetworkId(f.selectedNetwork);
      }
    }
  }

  lemma UpperNetworkId(id: string)
    requires id in Types.NetworkIds
    ensures ToUpper(id) == id
  {
    assert forall i :: 0 <= i < |id| ==> UpperChar(id[i]) == id[i];
  }

  /** A session that ends on the success step either started there or contains a purchase that succeeded. */
  lemma {:induction false} SuccessNeedsPayment(f: Form, es: seq<Event>)
    requires Run(f, es).step == Success && f.step != Success
    ensures exists i :: 0 <= i < |es| && PaidOk(es[i])
    decreases |es|
  {
    var g := StepWith(f, es[0]);
    if g.step == Success {
      assert PaidOk(es[0]);
    } else {
      SuccessNeedsPayment(g, es[1..]);
      var i :| 0 <= i < |es[1..]| && PaidOk(es[1..][i]);
      assert es[i + 1] == es[1..][i];
    }
  }

  class BuyDataModal {
    var step: Step
    var selectedNetwork: string
    var selectedPlan: Option<UIPlan>
    var phoneNumber: string
    var apiPlans: Option<Catalogue>
    var isLoadingPlans: bool
    var isPurchasing: bool
    var errorMessage: string
    var searchQuery: string

    function Snapshot(): Form
      reads this
    {
      Form(step, selectedNetwork, selectedPlan, phoneNumber, apiPlans, isLoadingPlans, isPurchasing, errorMessage, searchQuery)
    }

    constructor ()
      ensures Snapshot() == Initial
    {
      step, selectedNetwork, selectedPlan, phoneNumber := Network, "", None, "";
      apiPlans, isLoadingPlans, isPurchasing, errorMessage, searchQuery := None, false, false, "", "";
    }

    /** The plans the sheet lists, computed as the source does. */
    method FilteredPlans() returns (plans: seq<UIPlan>)
      ensures plans == Listed(Snapshot())
    {
      var current := GetAvailablePlans(apiPlans, selectedNetwork);
      plans := FilterPlans(current, searchQuery);
    }

    /** The effect when the sheet opens: the catalogue is fetched once. */
    method OnOpen(r: PlansResult)
      modifies this
      ensures Snapshot() == Handle(old(Snapshot()), Open(r))
    {
      if apiPlans.None? {
        isLoadingPlans := true;
        errorMessage := "";
        if r.success && r.data.Some? {
          apiPlans := r.data;
        } else {
          errorMessage := if r.error != "" then r.error else "Failed to load data plans.";
        }
        isLoadingPlans := false;
      }
    }

    method HandleNetworkSelect(networkId: string)
      requires step == Network && !isLoadingPlans && networkId in Types.NetworkIds
      modifies this
      ensures Snapshot() == Handle(old(Snapshot()), SelectNetwork(networkId))
    {
      selectedNetwork := networkId;
      errorMessage := "";
      step := Plan;
    }

    method GoBackToNetwork()
      requires step == Plan
      modifies this
      ensures Snapshot() == Handle(old(Snapshot()), BackToNetwork)
    {
      step := Network;
    }

    method SetSearchQuery(text: string)
      requires step == Plan
      modifies this
      ensures Snapshot() == Handle(old(Snapshot()), EditSearch(text))
    {
      searchQuery := text;
    }

    /** Tapping a plan card (the cards are those of `Listed`). */
    method HandlePlanSelect(plan: UIPlan)
      requires step == Plan
      modifies this
      ensures Snapshot() == Handle(old(Snapshot()), SelectPlan(plan))
    {
      selectedPlan := Some(plan);
      errorMessage := "";
      step := Phone;
    }

    method GoBackToPlan()
      requires step == Phone
      modifies this
      ensures Snapshot() == Handle(old(Snapshot()), BackToPlan)
    {
      step := Plan;
    }

    method SetPhoneNumber(text: string)
      requires step == Phone
      modifies this
      ensures Snapshot() == Handle(old(Snapshot()), EditPhone(text))
    {
      phoneNumber := KeepDigits(Take(text, 11));
      errorMessage := "";
    }

    method ProceedToConfirm()
      requires step == Phone && |phoneNumber| >= 10
      modifies this
      ensures Snapshot() == Handle(old(Snapshot()), Proceed)
    {
      step := Confirm;
    }

    method GoBackToPhone()
      requires step == Confirm
      modifies this
      ensures Snapshot() == Handle(old(Snapshot()), BackToPhone)
    {
      step := Phone;
    }

    /** `handlePurchase`; returns the purchase request it sends, if any. */
    method HandlePurchase(r: BuyResult) returns (call: Option<BuyCall>)
      requires step == Confirm && !isPurchasing
      modifies this
      ensures call == PurchaseCall(old(Snapshot()))
      ensures Snapshot() == AfterPurchase(old(Snapshot()), r)
    {
      if selectedNetwork == "" || selectedPlan.None? || phoneNumber == "" {
        return None;
      }
      isPurchasing := true;
      errorMessage := "";
      call := Some(BuyCall(ToUpper(selectedNetwork), selectedPlan.value.id, phoneNumber));
      isPurchasing := false;
      if r.success {
        step := Success;
      } else {
        errorMessage := if r.error != "" then r.error else "Transaction failed. Please try again.";
      }
    }

    /** Closing the sheet: `reset` (after the close animation's delay). */
    method HandleClose()
      modifies this
      ensures Snapshot() == AfterReset(old(Snapshot()))
    {
      step := Network;
      selectedNetwork := "";
      selectedPlan := None;
      phoneNumber := "";
      isPurchasing := false;
      searchQuery := "";
      errorMessage := "";
    }
  }
}

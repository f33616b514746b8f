/**
 * The recharge-printing page: a "new print" tab that generates a batch of PINs for a network,
 * denomination and quantity, and an inventory tab listing past batches, from which one batch
 * or several selected batches are sent to the voucher print view.
 */
module Printing {
  import opened Wrappers
  import opened Text
  import opened Types
  import VoucherPrintModal

  /** A past batch as the inventory returns it; the display-only metadata is left out. */
  datatype InventoryTx = InventoryTx(id: string, status: string, printedPins: Option<seq<VoucherPrintModal.PrintedPin>>)

  datatype Tab = New | History

  /** The denominations offered. */
  const Denominations: seq<nat> := [100, 200, 500]

  /** The largest quantity the generate button accepts. */
  const MaxQuantity := 100

  predicate NoDuplicates(s: seq<string>) {
    forall i, j :: 0 <= i < j < |s| ==> s[i] != s[j]
  }

  /** `prev.filter(txId => txId !== id)`. */
  function Without(s: seq<string>, id: string): (r: seq<string>)
    ensures forall x :: x in r <==> x in s && x != id
    ensures NoDuplicates(s) ==> NoDuplicates(r)
    ensures id !in s ==> r == s
    decreases |s|
  {
    if s == [] then []
    else if s[0] == id then Without(s[1..], id)
    else
      var r := [s[0]] + Without(s[1..], id);
      assert NoDuplicates(s) ==> s[0] !in s[1..];
      r
  }

  /** Clicking a batch: its id leaves the selection if it was selected, and is added at the end if not. */
  function ToggleSelection(sel: seq<string>, id: string): (r: seq<string>)
    ensures id in r <==> id !in sel
    ensures forall x :: x != id ==> (x in r <==> x in sel)
    ensures NoDuplicates(sel) ==> NoDuplicates(r)
    ensures id !in sel ==> r == sel + [id]
  {
    if id in sel then Without(sel, id) else sel + [id]
  }

  /** Clicking a batch that was not selected, twice, leaves the selection as it was. */
  lemma ToggleTwice(sel: seq<string>, id: string)
    requires id !in sel
    ensures ToggleSelection(ToggleSelection(sel, id), id) == sel
  {
    WithoutLast(sel, id);
  }

  lemma {:induction false} WithoutLast(s: seq<string>, id: string)
    requires id !in s
    ensures Without(s + [id], id) == s
    decreases |s|
  {
    if s == [] {
      assert [id][1..] == [];
    } else {
      assert (s + [id])[1..] == s[1..] + [id];
      WithoutLast(s[1..], id);
    }
  }

  /** `tx.printedPins || []`: the PINs of one batch, none when the batch has no PIN list. */
  function PinsOf(tx: InventoryTx): (ps: seq<VoucherPrintModal.PrintedPin>)
    ensures tx.printedPins.Some? ==> ps == tx.printedPins.value
    ensures tx.printedPins.None? ==> ps == []
  {
    tx.printedPins.GetOr([])
  }

  /** The single-print button is enabled only for a successful batch with at least one PIN. */
  predicate CanPrintSingle(tx: InventoryTx) {
    tx.status == "SUCCESS" && tx.printedPins.Some? && tx.printedPins.value != []
  }

  /** The PINs of the inventory batches whose id is selected, in inventory order. */
  function PrintMultiple(inventory: seq<InventoryTx>, sel: seq<string>): (ps: seq<VoucherPrintModal.PrintedPin>)
    decreases |inventory|
  {
    if inventory == [] then []
    else (if inventory[0].id in sel then PinsOf(inventory[0]) else []) + PrintMultiple(inventory[1..], sel)
  }

  /** Only which ids are selected matters, not the order in which they were clicked. */
  lemma {:induction false} PrintMultipleIgnoresClickOrder(inventory: seq<InventoryTx>, s1: seq<string>, s2: seq<string>)
    requires forall x :: x in s1 <==> x in s2
    ensures PrintMultiple(inventory, s1) == PrintMultiple(inventory, s2)
    decreases |inventory|
  {
    if inventory != [] {
      PrintMultipleIgnoresClickOrder(inventory[1..], s1, s2);
    }
  }

  /** Printing the selection over two parts of the inventory prints the first part's PINs, then the second's. */
  lemma {:induction false} PrintMultipleAppend(a: seq<InventoryTx>, b: seq<InventoryTx>, sel: seq<string>)
    ensures PrintMultiple(a + b, sel) == PrintMultiple(a, sel) + PrintMultiple(b, sel)
    decreases |a|
  {
    if a == [] {
      assert a + b == b;
    } else {
      assert (a + b)[1..] == a[1..] + b;
      PrintMultipleAppend(a[1..], b, sel);
    }
  }

  /** Selecting one batch whose id no other batch shares prints exactly what printing that batch alone prints. */
  lemma {:induction false} PrintMultipleOne(inventory: seq<InventoryTx>, k: nat)
    requires k < |inventory|
    requires forall i :: 0 <= i < |inventory| && i != k ==> inventory[i].id != inventory[k].id
    ensures PrintMultiple(inventory, [inventory[k].id]) == PinsOf(inventory[k])
    decreases |inventory|
  {
    var id := inventory[k].id;
    if k == 0 {
      NoneSelected(inventory[1..], [id]);
    } else {
      forall i | 0 <= i < |inventory[1..]| && i != k - 1
        ensures inventory[1..][i].id != inventory[1..][k - 1].id
      {
        assert inventory[1..][i] == inventory[i + 1];
      }
      PrintMultipleOne(inventory[1..], k - 1);
    }
  }

  lemma {:induction false} NoneSelected(inventory: seq<InventoryTx>, sel: seq<string>)
    requires forall i :: 0 <= i < |inventory| ==> inventory[i].id !in sel
    ensures PrintMultiple(inventory, sel) == []
    decreases |inventory|
  {
    if inventory != [] {
      NoneSelected(inventory[1..], sel);
    }
  }

  /** `handleGenerate`'s own guard: a network, an amount and a quantity must all be set. */
  predicate CanGenerate(network: Option<string>, amount: string, quantity: string) {
    network.Some? && amount != "" && quantity != ""
  }

  /** The generate button: as the guard, and disabled too when the quantity is a number above the maximum. */
  function GenerateEnabled(network: Option<string>, amount: string, quantity: string): (ok: bool)
    ensures ok ==> CanGenerate(network, amount, quantity)
    ensures ok <==> CanGenerate(network, amount, quantity) && !(NumberOf(quantity).Some? && NumberOf(quantity).value > MaxQuantity)
  {
    CanGenerate(network, amount, quantity) && match NumberOf(quantity) case Some(q) => q <= MaxQuantity case None => true
  }

  /** The total-billing line: amount times quantity once both are set, otherwise 0; None stands for `NaN`. */
  function TotalBilling(amount: string, quantity: string): (t: Option<int>)
    ensures amount == "" || quantity == "" ==> t == Some(0)
    ensures amount != "" && quantity != "" && NumberOf(amount).Some? && NumberOf(quantity).Some? ==>
      t == Some(NumberOf(amount).value * NumberOf(quantity).value)
    ensures t.None? <==> amount != "" && quantity != "" && (NumberOf(amount).None? || NumberOf(quantity).None?)
  {
    if amount == "" || quantity == "" then Some(0)
    else match (NumberOf(amount), NumberOf(quantity))
      case (Some(a), Some(q)) => Some(a * q)
      case _ => None
  }

  /** The request `printRechargePins` is called with. */
  datatype GenerateRequest = GenerateRequest(network: string, amount: string, quantity: Option<int>)

  /** What `printRechargePins` produced: a result record, or an exception with its message. */
  datatype GenerateReply = Generated(success: bool, error: string) | GenerateThrew(message: string)

  /** What `getPrintInventory` produced. */
  datatype InventoryReply =
    | Envelope(success: bool, data: Option<seq<InventoryTx>>, error: string)
    | Bare(items: seq<InventoryTx>)
    | NoResult
    | InventoryThrew(message: string)

  /** The inventory a reply yields, if it yields one. */
  function InventoryOf(reply: InventoryReply): (r: Option<seq<InventoryTx>>)
    ensures reply.Envelope? && reply.success && reply.data.Some? ==> r == reply.data
    ensures reply.Bare? ==> r == Some(reply.items)
    ensures reply.NoResult? || reply.InventoryThrew? || (reply.Envelope? && !(reply.success && reply.data.Some?)) ==> r.None?
  {
    match reply
    case Envelope(ok, data, _) => if ok && data.Some? then data else None
    case Bare(items) => Some(items)
    case _ => None
  }

  /** The error a reply that yields no inventory shows: the reply's own text, or a fixed default. */
  function InventoryError(reply: InventoryReply): (e: string)
    requires InventoryOf(reply).None?
    ensures e != ""
    ensures reply.Envelope? && reply.error != "" ==> e == reply.error
    ensures reply.InventoryThrew? && reply.message != "" ==> e == reply.message
  {
    match reply
    case Envelope(_, _, err) => if err != "" then err else "Failed to fetch inventory."
    case InventoryThrew(m) => if m != "" then m else "Error fetching inventory."
    case _ => "Failed to fetch inventory."
  }

  /** The error a failed generation shows. */
  function GenerateError(reply: GenerateReply): (e: string)
    requires !(reply.Generated? && reply.success)
    ensures e != ""
  {
    match reply
    case Generated(_, err) => if err != "" then err else "Failed to generate pins"
    case GenerateThrew(m) => if m != "" then m else "Error during generation."
  }

  /** Whether the inventory holds a successful batch with this id; only those can be selected. */
  predicate Selectable(inventory: seq<InventoryTx>, id: string) {
    exists k :: 0 <= k < |inventory| && inventory[k].id == id && inventory[k].status == "SUCCESS"
  }

  class PrintPins {
    var activeTab: Tab
    var selectedNetwork: Option<string>
    var amount: string
    var quantity: string
    var isGenerating: bool
    var inventory: seq<InventoryTx>
    var isLoadingHistory: bool
    var error: string
    var isMultiSelect: bool
    var selectedTxIds: seq<string>
    var pinsToPrint: Option<seq<VoucherPrintModal.PrintedPin>>

    /**
     * Between handlers no call is pending; the selection is duplicate-free, holds only
     * successful batches of the inventory, and is empty, with multi-select off, on the new-print tab.
     */
    predicate Valid()
      reads this
    {
      && !isGenerating && !isLoadingHistory
      && NoDuplicates(selectedTxIds)
      && (forall i :: 0 <= i < |selectedTxIds| ==> Selectable(inventory, selectedTxIds[i]))
      && (activeTab == New ==> selectedTxIds == [] && !isMultiSelect)
    }

    /** The voucher print view the page shows. */
    function PrintView(): Option<VoucherPrintModal.VoucherView>
      reads this
    {
      VoucherPrintModal.Render(pinsToPrint)
    }

    constructor ()
      ensures Valid()
      ensures activeTab == New && selectedNetwork == None && amount == "" && quantity == ""
      ensures !isGenerating && inventory == [] && !isLoadingHistory && error == ""
      ensures !isMultiSelect && selectedTxIds == [] && pinsToPrint == None
    {
      activeTab := New;
      selectedNetwork := None;
      amount := "";
      quantity := "";
      isGenerating := false;
      inventory := [];
      isLoadingHistory := false;
      error := "";
      isMultiSelect := false;
      selectedTxIds := [];
      pinsToPrint := None;
    }

    method SelectNetwork(network: string)
      requires network in NetworkIds
      modifies this`selectedNetwork
      ensures selectedNetwork == Some(network)
    {
      selectedNetwork := Some(network);
    }

    method SelectDenomination(value: nat)
      requires value in Denominations
      modifies this`amount
      ensures amount == NatToString(value)
    {
      amount := NatToString(value);
    }

    method SetQuantity(text: string)
      modifies this`quantity
      ensures quantity == text
    {
      quantity := text;
    }

    /** `fetchInventory`: the inventory is replaced when the reply yields one, otherwise the error is set. */
    method FetchInventory(reply: InventoryReply)
      requires Valid() && selectedTxIds == []
      modifies this`inventory, this`error, this`isLoadingHistory
      ensures Valid()
      ensures InventoryOf(reply).Some? ==> inventory == InventoryOf(reply).value && error == ""
      ensures InventoryOf(reply).None? ==> inventory == old(inventory) && error == InventoryError(reply)
    {
      isLoadingHistory := true;
      error := "";
      var items := InventoryOf(reply);
      if items.Some? {
        inventory := items.value;
      } else {
        error := InventoryError(reply);
      }
      isLoadingHistory := false;
    }

    /**
     * A tab button with the effect on the active tab: entering the inventory tab fetches it,
     * entering the new-print tab turns multi-select off and clears the selection; the same tab changes nothing.
     */
    method SetTab(tab: Tab, reply: InventoryReply)
      requires Valid()
      modifies this`activeTab, this`inventory, this`error, this`isLoadingHistory, this`isMultiSelect, this`selectedTxIds
      ensures Valid() && activeTab == tab
      ensures tab == old(activeTab) ==>
        inventory == old(inventory) && error == old(error)
        && isMultiSelect == old(isMultiSelect) && selectedTxIds == old(selectedTxIds)
      ensures tab != old(activeTab) && tab == New ==>
        !isMultiSelect && selectedTxIds == [] && inventory == old(inventory) && error == old(error)
      ensures tab != old(activeTab) && tab == History ==>
        && isMultiSelect == old(isMultiSelect) && selectedTxIds == []
        && (InventoryOf(reply).Some? ==> inventory == InventoryOf(reply).value && error == "")
        && (InventoryOf(reply).None? ==> inventory == old(inventory) && error == InventoryError(reply))
    {
      if tab != activeTab {
        activeTab := tab;
        if tab == History {
          FetchInventory(reply);
        } else {
          isMultiSelect := false;
          selectedTxIds := [];
        }
      }
    }

    /**
     * `handleGenerate`, from the new-print tab: without a network, amount and quantity nothing
     * happens and no request is made; a success switches to the inventory tab (whose effect
     * fetches the inventory) and clears the inputs; a failure sets the error and keeps them.
     */
    method Generate(reply: GenerateReply, inventoryReply: InventoryReply) returns (request: Option<GenerateRequest>)
      requires Valid() && activeTab == New
      modifies this
      ensures Valid() && !isGenerating
      ensures request.Some? <==> CanGenerate(old(selectedNetwork), old(amount), old(quantity))
      ensures request.Some? ==> request.value == GenerateRequest(ToUpper(old(selectedNetwork).value), old(amount), NumberOf(old(quantity)))
      ensures request.None? ==>
        && activeTab == New && selectedNetwork == old(selectedNetwork) && amount == old(amount)
        && quantity == old(quantity) && error == old(error) && inventory == old(inventory)
      ensures request.Some? && reply.Generated? && reply.success ==>
        && activeTab == History && selectedNetwork == None && amount == "" && quantity == ""
        && selectedTxIds == []
        && (InventoryOf(inventoryReply).Some? ==> inventory == InventoryOf(inventoryReply).value && error == "")
        && (InventoryOf(inventoryReply).None? ==> inventory == old(inventory) && error == InventoryError(inventoryReply))
      ensures request.Some? && !(reply.Generated? && reply.success) ==>
        && activeTab == New && selectedNetwork == old(selectedNetwork) && amount == old(amount)
        && quantity == old(quantity) && error == GenerateError(reply) && inventory == old(inventory)
      ensures isMultiSelect == old(isMultiSelect) && pinsToPrint == old(pinsToPrint)
    {
      if !CanGenerate(selectedNetwork, amount, quantity) {
        return None;
      }
      isGenerating := true;
      error := "";
      request := Some(GenerateRequest(ToUpper(selectedNetwork.value), amount, NumberOf(quantity)));
      if reply.Generated? && reply.success {
        amount := "";
        quantity := "";
        selectedNetwork := None;
        isGenerating := false;
        // the tab change is rendered together with the cleared flag; its effect then fetches
        SetTab(History, inventoryReply);
      } else {
        error := GenerateError(reply);
        isGenerating := false;
      }
    }

    /** The select-multiple / cancel button of the inventory tab: flips multi-select and clears the selection. */
    method ToggleMultiSelect()
      requires Valid() && activeTab == History && |inventory| > 0
      modifies this`isMultiSelect, this`selectedTxIds
      ensures Valid() && isMultiSelect == !old(isMultiSelect) && selectedTxIds == []
    {
      isMultiSelect := !isMultiSelect;
      selectedTxIds := [];
    }

    /** A batch's check box in multi-select mode: only a successful batch toggles. */
    method ClickCheckbox(k: nat)
      requires Valid() && activeTab == History && isMultiSelect && k < |inventory|
      modifies this`selectedTxIds
      ensures Valid()
      ensures inventory[k].status == "SUCCESS" ==> selectedTxIds == ToggleSelection(old(selectedTxIds), inventory[k].id)
      ensures inventory[k].status != "SUCCESS" ==> selectedTxIds == old(selectedTxIds)
    {
      var tx := inventory[k];
      if tx.status == "SUCCESS" {
        ghost var before := selectedTxIds;
        selectedTxIds := ToggleSelection(selectedTxIds, tx.id);
        forall i | 0 <= i < |selectedTxIds| ensures Selectable(inventory, selectedTxIds[i]) {
          var x := selectedTxIds[i];
          assert x in selectedTxIds;
          if x != tx.id {
            assert x in before;
            var j :| 0 <= j < |before| && before[j] == x;
            assert Selectable(inventory, before[j]);
          }
        }
      }
    }

    /** A batch's view/print button (outside multi-select, enabled only for a printable batch). */
    method PrintSingle(k: nat)
      requires activeTab == History && !isMultiSelect && k < |inventory| && CanPrintSingle(inventory[k])
      modifies this`pinsToPrint
      ensures pinsToPrint == Some(PinsOf(inventory[k]))
      ensures PrintView().Some? && PrintView().value.count == |PinsOf(inventory[k])|
    {
      pinsToPrint := Some(PinsOf(inventory[k]));
    }

    /** The floating print-selected button. */
    method PrintSelected()
      requires activeTab == History && isMultiSelect && |selectedTxIds| > 0
      modifies this`pinsToPrint
      ensures pinsToPrint == Some(PrintMultiple(inventory, selectedTxIds))
    {
      pinsToPrint := Some(PrintMultiple(inventory, selectedTxIds));
    }

    /** Closing the print view. */
    method ClosePrint()
      modifies this`pinsToPrint
      ensures pinsToPrint == None && PrintView() == None
    {
      pinsToPrint := None;
    }
  }
}

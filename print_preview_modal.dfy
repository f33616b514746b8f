/**
 * The multi-batch print preview: every PIN of every batch flattened into one ordered voucher
 * list carrying its batch's network, amount and id; totals; the six-tile screen preview; and
 * the printable grid.
 */
module PrintPreviewModal {
  import opened Wrappers
  import opened Text
  import opened Types
  import opened Chunking
  import opened PinBatchModal

  /** A PIN together with the network, amount and id of the batch it came from. */
  datatype VoucherItem = VoucherItem(serial: string, pin: string, status: PinStatus, networkId: string, amount: int, batchId: string)

  function ItemOf(b: PrintBatch, p: Pin): VoucherItem {
    VoucherItem(p.serial, p.pin, p.status, b.networkId, b.amount, b.id)
  }

  function BatchItems(b: PrintBatch): (items: seq<VoucherItem>)
    ensures |items| == |b.pins|
    ensures forall k :: 0 <= k < |b.pins| ==> items[k] == ItemOf(b, b.pins[k])
  {
    seq(|b.pins|, k requires 0 <= k < |b.pins| => ItemOf(b, b.pins[k]))
  }

  /** The number of PINs in all batches together. */
  function PinCount(bs: seq<PrintBatch>): nat
    decreases |bs|
  {
    if bs == [] then 0 else |bs[0].pins| + PinCount(bs[1..])
  }

  /** The value of all batches: each batch's amount once per PIN it holds. */
  function BatchesValue(bs: seq<PrintBatch>): int
    decreases |bs|
  {
    if bs == [] then 0 else bs[0].amount * |bs[0].pins| + BatchesValue(bs[1..])
  }

  /** `batches.flatMap(...)`: the vouchers of the first batch, then those of the rest. */
  function AllPins(bs: seq<PrintBatch>): (items: seq<VoucherItem>)
    ensures |items| == PinCount(bs)
    decreases |bs|
  {
    if bs == [] then [] else BatchItems(bs[0]) + AllPins(bs[1..])
  }

  lemma {:induction false} PinCountAppend(a: seq<PrintBatch>, b: seq<PrintBatch>)
    ensures PinCount(a + b) == PinCount(a) + PinCount(b)
    decreases |a|
  {
    if a == [] {
      assert a + b == b;
    } else {
      assert (a + b)[1..] == a[1..] + b;
      PinCountAppend(a[1..], b);
    }
  }

  /** Flattening distributes over joining two lists of batches. */
  lemma {:induction false} AllPinsAppend(a: seq<PrintBatch>, b: seq<PrintBatch>)
    ensures AllPins(a + b) == AllPins(a) + AllPins(b)
    decreases |a|
  {
    if a == [] {
      assert a + b == b;
    } else {
      assert (a + b)[1..] == a[1..] + b;
      AllPinsAppend(a[1..], b);
    }
  }

  /**
   * Order and parentage: the `k`-th PIN of the `j`-th batch sits right after the PINs of the
   * batches before it, with that batch's network, amount and id and its own serial, PIN and status.
   */
  lemma {:induction false} AllPinsAt(bs: seq<PrintBatch>, j: nat, k: nat)
    requires j < |bs| && k < |bs[j].pins|
    ensures PinCount(bs[..j]) + k < |AllPins(bs)|
    ensures AllPins(bs)[PinCount(bs[..j]) + k] == ItemOf(bs[j], bs[j].pins[k])
    decreases j
  {
    var head := BatchItems(bs[0]);
    assert AllPins(bs) == head + AllPins(bs[1..]);
    if j == 0 {
      assert bs[..0] == [];
    } else {
      AllPinsAt(bs[1..], j - 1, k);
      assert bs[..j][1..] == bs[1..][..j - 1];
      assert PinCount(bs[..j]) == |head| + PinCount(bs[1..][..j - 1]);
    }
  }

  /** Every voucher in the flattened list comes from some PIN of some batch, at the position AllPinsAt gives. */
  lemma {:induction false} AllPinsFrom(bs: seq<PrintBatch>, n: nat) returns (j: nat, k: nat)
    requires n < |AllPins(bs)|
    ensures j < |bs| && k < |bs[j].pins| && n == PinCount(bs[..j]) + k
    decreases |bs|
  {
    if n < |bs[0].pins| {
      j, k := 0, n;
      assert bs[..0] == [];
    } else {
      var j', k' := AllPinsFrom(bs[1..], n - |bs[0].pins|);
      j, k := j' + 1, k';
      assert bs[..j] == [bs[0]] + bs[1..][..j'];
      PinCountAppend([bs[0]], bs[1..][..j']);
      assert PinCount([bs[0]]) == |bs[0].pins|;
    }
  }

  /** `allPins.reduce((sum, item) => sum + item.amount, 0)`. */
  function SumAmounts(items: seq<VoucherItem>): int
    decreases |items|
  {
    if items == [] then 0 else items[0].amount + SumAmounts(items[1..])
  }

  lemma {:induction false} SumAmountsAppend(a: seq<VoucherItem>, b: seq<VoucherItem>)
    ensures SumAmounts(a + b) == SumAmounts(a) + SumAmounts(b)
    decreases |a|
  {
    if a == [] {
      assert a + b == b;
    } else {
      assert (a + b)[1..] == a[1..] + b;
      SumAmountsAppend(a[1..], b);
    }
  }

  lemma {:induction false} SumBatchItems(b: PrintBatch, k: nat)
    requires k <= |b.pins|
    ensures SumAmounts(BatchItems(b)[k..]) == b.amount * (|b.pins| - k)
    decreases |b.pins| - k
  {
    if k < |b.pins| {
      SumBatchItems(b, k + 1);
      assert BatchItems(b)[k..][1..] == BatchItems(b)[k + 1..];
    }
  }

  /** The total value is, batch by batch, the amount times the number of PINs in the batch. */
  lemma {:induction false} TotalValueIsBatchesValue(bs: seq<PrintBatch>)
    ensures SumAmounts(AllPins(bs)) == BatchesValue(bs)
    decreases |bs|
  {
    if bs != [] {
      SumAmountsAppend(BatchItems(bs[0]), AllPins(bs[1..]));
      SumBatchItems(bs[0], 0);
      assert BatchItems(bs[0])[0..] == BatchItems(bs[0]);
      TotalValueIsBatchesValue(bs[1..]);
    }
  }

  /** One tile of the on-screen preview. */
  datatype PreviewTile = PreviewTile(networkId: string, pinText: string, amount: int, dial: string)

  /** The preview text of a PIN: its first fourteen formatted characters, then an ellipsis. */
  function PreviewPinText(pin: string): (r: string)
    ensures 3 <= |r| <= 17 && r[|r| - 3..] == "..."
    ensures r[..|r| - 3] <= FormatPin(pin)
    ensures |r| - 3 == if |FormatPin(pin)| <= 14 then |FormatPin(pin)| else 14
  {
    Take(FormatPin(pin), 14) + "..."
  }

  /**
   * A PIN of twelve or more characters (white space aside) is previewed as its first three
   * groups of four, separated by spaces; a shorter one is shown whole.
   */
  lemma PreviewShowsFirstGroups(pin: string)
    ensures var q, r := StripSpaces(pin), PreviewPinText(pin);
      && (|q| >= 12 ==> r == q[..4] + " " + q[4..8] + " " + q[8..12] + "...")
      && (|FormatPin(pin)| <= 14 ==> r == FormatPin(pin) + "...")
  {
    var q := StripSpaces(pin);
    if |q| >= 12 {
      FormatPinIsJoinedChunks(pin);
      JoinChunksFirstGroups(q);
      assert Take(FormatPin(pin), 14) == FormatPin(pin)[..14];
    }
  }

  /** The preview dial code: the first five characters of the load code, then `#`. */
  function PreviewDial(networkId: string): (r: string)
    ensures r == GetUssd(networkId)[..5] + "#"
    ensures |r| == 6 && r[0] == '*' && r[4] == '*' && r[5] == '#'
  {
    Take(GetUssd(networkId), 5) + "#"
  }

  function TileOf(item: VoucherItem): PreviewTile {
    PreviewTile(item.networkId, PreviewPinText(item.pin), item.amount, PreviewDial(item.networkId))
  }

  /** A card of the printable grid. */
  datatype GridCard = GridCard(batchId: string, amount: int, networkId: string, pinText: string, serial: string, load: string)

  function GridCardOf(item: VoucherItem): GridCard {
    GridCard(item.batchId, item.amount, item.networkId, FormatPin(item.pin), item.serial, GetUssd(item.networkId))
  }

  /** What the modal shows for a non-empty list of batches. */
  datatype PreviewView = PreviewView(
    batchCount: nat,
    totalPins: nat,
    totalValue: int,
    tiles: seq<PreviewTile>,
    more: Option<nat>,
    printCount: nat,
    grid: seq<GridCard>)

  /** The "+ N more" line: shown with the number of vouchers beyond the six tiles, exactly when there are more than six. */
  function MoreLine(n: nat): (m: Option<nat>)
    ensures m.Some? <==> n > 6
    ensures m.Some? ==> m.value + 6 == n
  {
    if n > 6 then Some(n - 6) else None
  }

  /** The six preview tiles: the first vouchers, at most six, in order. */
  function Tiles(all: seq<VoucherItem>): (ts: seq<PreviewTile>)
    ensures |ts| == if |all| < 6 then |all| else 6
    ensures forall i :: 0 <= i < |ts| ==> ts[i] == TileOf(all[i])
  {
    var shown := Take(all, 6);
    seq(|shown|, i requires 0 <= i < |shown| => TileOf(shown[i]))
  }

  /** The printable grid: one card per voucher, in order. */
  function Grid(all: seq<VoucherItem>): (g: seq<GridCard>)
    ensures |g| == |all|
    ensures forall i :: 0 <= i < |g| ==> g[i] == GridCardOf(all[i])
  {
    seq(|all|, i requires 0 <= i < |all| => GridCardOf(all[i]))
  }

  /** The modal for optional batches: nothing when the list is missing or empty. */
  function Render(batches: Option<seq<PrintBatch>>): (v: Option<PreviewView>)
    ensures v.None? <==> batches.None? || batches.value == []
    ensures v.Some? ==> var bs, w := batches.value, v.value;
      && w.batchCount == |bs|
      && w.totalPins == w.printCount == PinCount(bs)
      && w.totalValue == BatchesValue(bs)
      && w.tiles == Tiles(AllPins(bs))
      && (w.more.Some? <==> PinCount(bs) > 6)
      && w.more == MoreLine(PinCount(bs))
      && w.grid == Grid(AllPins(bs))
  {
    if batches.None? || batches.value == [] then None
    else
      var bs := batches.value;
      var all := AllPins(bs);
      TotalValueIsBatchesValue(bs);
      Some(PreviewView(|bs|, |all|, SumAmounts(all), Tiles(all), MoreLine(|all|), |all|, Grid(all)))
  }
}

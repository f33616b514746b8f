/**
 * The single-batch voucher sheet: the PIN formatting and load codes it and the multi-batch
 * preview share, the batch header with its total value, and one printable card per PIN.
 */
module PinBatchModal {
  import opened Wrappers
  import opened Text
  import opened Chunking
  import opened Types

  /** The load instruction for a network: `*` code `*PIN#`, where an unknown network gets the code XXX. */
  function GetUssd(networkId: string): (r: string)
    ensures |r| == 9 && r[0] == '*' && r[4..] == "*PIN#"
    ensures networkId !in NetworkIds ==> r[1..4] == "XXX"
    ensures networkId in NetworkIds ==> AllDigits(r[1..4])
  {
    if networkId == "MTN" then "*555*PIN#"
    else if networkId == "AIRTEL" then "*126*PIN#"
    else if networkId == "GLO" then "*123*PIN#"
    else if networkId == "9MOBILE" then "*222*PIN#"
    else "*XXX*PIN#"
  }

  /** Distinct networks get distinct load codes, so a printed code identifies the network. */
  lemma UssdCodesDistinct(a: string, b: string)
    requires a in NetworkIds && b in NetworkIds && a != b
    ensures GetUssd(a)[1..4] != GetUssd(b)[1..4]
  {
    UssdDigits(a);
    UssdDigits(b);
  }

  /** The three code digits of each known network. */
  lemma UssdDigits(n: string)
    requires n in NetworkIds
    ensures GetUssd(n)[1..4] == (if n == "MTN" then "555" else if n == "AIRTEL" then "126"
                                 else if n == "GLO" then "123" else "222")
  {
    var r := GetUssd(n);
    assert r[1..4] == [r[1], r[2], r[3]];
  }

  /**
   * The displayed PIN: all white space removed, a space after every complete group of four,
   * and the result trimmed.
   */
  function FormatPin(pin: string): (r: string)
    ensures r == [] || (!IsSpace(r[0]) && !IsSpace(r[|r| - 1]))
  {
    Trim(GroupFours(StripSpaces(pin)))
  }

  /** Trimming chunks joined by spaces, with or without one trailing space, leaves the joined chunks. */
  lemma TrimJoinedChunks(q: string, tail: string)
    requires NoSpaces(q) && (tail == "" || tail == " ")
    ensures Trim(JoinWith(Chunks(q), " ") + tail) == JoinWith(Chunks(q), " ")
  {
    JoinChunksEnds(q, " ");
    TrimPadded(JoinWith(Chunks(q), " "), tail);
  }

  /** Trimming text with no white space at its ends, with or without one trailing space, gives the text. */
  lemma TrimPadded(j: string, tail: string)
    requires j == [] || (!IsSpace(j[0]) && !IsSpace(j[|j| - 1]))
    requires tail == "" || tail == " "
    ensures Trim(j + tail) == j
  {
    var t := j + tail;
    if j == [] {
      assert t == tail;
      if tail == " " {
        assert TrimStart(t) == TrimStart(t[1..]);
        assert t[1..] == [];
      }
    } else {
      assert t[0] == j[0];
      assert TrimStart(t) == t;
      assert TrimEnd(j) == j;
      if tail == " " {
        assert t[|t| - 1] == ' ' && t[..|t| - 1] == j;
      } else {
        assert t == j;
      }
    }
  }

  /**
   * The displayed PIN is the white-space-free PIN split into groups of four (the last group
   * holding the remaining one to four characters), joined by single spaces.
   */
  lemma FormatPinIsJoinedChunks(pin: string)
    ensures FormatPin(pin) == JoinWith(Chunks(StripSpaces(pin)), " ")
  {
    var q := StripSpaces(pin);
    NoSpacesHasNoLineTerminators(q);
    GroupFoursIsJoinedChunks(q);
    TrimJoinedChunks(q, if q != [] && |q| % 4 == 0 then " " else "");
  }

  /** Removing the spaces from the displayed PIN gives the white-space-free PIN: nothing is dropped or repeated. */
  lemma FormatPinDechunk(pin: string)
    ensures StripSpaces(FormatPin(pin)) == StripSpaces(pin)
  {
    FormatPinIsJoinedChunks(pin);
    StripJoinedChunks(StripSpaces(pin));
  }

  /** Formatting an already formatted PIN changes nothing. */
  lemma FormatPinIdempotent(pin: string)
    ensures FormatPin(FormatPin(pin)) == FormatPin(pin)
  {
    FormatPinIsJoinedChunks(pin);
    FormatPinIsJoinedChunks(FormatPin(pin));
    FormatPinDechunk(pin);
  }

  /** Every group between the spaces of a displayed PIN has four characters, except the last, which has one to four. */
  lemma FormatPinGroups(pin: string)
    ensures var gs := Chunks(StripSpaces(pin));
      FormatPin(pin) == JoinWith(gs, " ") && Concat(gs) == StripSpaces(pin)
      && (forall i :: 0 <= i < |gs| ==> NoSpaces(gs[i]) && 1 <= |gs[i]| <= 4)
      && (forall i :: 0 <= i < |gs| - 1 ==> |gs[i]| == 4)
  {
    FormatPinIsJoinedChunks(pin);
    var q := StripSpaces(pin);
    var gs := Chunks(q);
    forall i | 0 <= i < |gs| ensures NoSpaces(gs[i]) {
      ChunksAreSlices(q, i);
      NoSpacesSlice(q, 4 * i, if |q| < 4 * i + 4 then |q| else 4 * i + 4);
    }
  }

  /** The `i`-th chunk is the slice of four characters at `4 * i`. */
  lemma {:induction false} ChunksAreSlices(s: string, i: nat)
    requires i < |Chunks(s)|
    ensures 4 * i <= |s| && Chunks(s)[i] == s[4 * i..if |s| < 4 * i + 4 then |s| else 4 * i + 4]
    decreases |s|
  {
    var hi := if |s| < 4 * i + 4 then |s| else 4 * i + 4;
    if |s| <= 4 {
      assert Chunks(s) == [s] && i == 0 && hi == |s|;
    } else {
      var cs := Chunks(s);
      assert cs == [s[..4]] + Chunks(s[4..]);
      if i == 0 {
        assert hi == 4;
      } else {
        var t := s[4..];
        assert cs[i] == Chunks(t)[i - 1];
        ChunksAreSlices(t, i - 1);
        var lo := 4 * i;
        assert 4 * (i - 1) == lo - 4;
        assert (if |t| < 4 * (i - 1) + 4 then |t| else 4 * (i - 1) + 4) == hi - 4;
        SliceOfDrop(s, 4, lo, hi);
      }
    }
  }

  /** A card of the printable grid. */
  datatype PrintCard = PrintCard(amount: int, networkId: string, pinText: string, serial: string, load: string)

  /** A card of the on-screen voucher list, which copies the raw PIN when clicked. */
  datatype PreviewCard = PreviewCard(serial: string, pinText: string, load: string, networkId: string, amount: int, copyText: string)

  /** What the sheet shows for a batch, and the printable area beside it. */
  datatype BatchView = BatchView(
    networkId: string,
    amount: int,
    quantity: int,
    totalValue: int,
    previews: seq<PreviewCard>,
    batchId: string,
    cards: seq<PrintCard>)

  /** The printable text of one PIN: the formatted PIN, or N/A when the PIN is empty. */
  function CardPinText(pin: string): (r: string)
    ensures pin == "" ==> r == "N/A"
    ensures pin != "" ==> r == FormatPin(pin)
  {
    if pin == "" then "N/A" else FormatPin(pin)
  }

  function PrintCardOf(b: PrintBatch, p: Pin): PrintCard {
    PrintCard(b.amount, b.networkId, CardPinText(p.pin), p.serial, GetUssd(b.networkId))
  }

  function PreviewCardOf(b: PrintBatch, p: Pin): PreviewCard {
    PreviewCard(p.serial, FormatPin(p.pin), GetUssd(b.networkId), b.networkId, b.amount, p.pin)
  }

  /** The modal for an optional batch: nothing without a batch; otherwise the header, the previews and the printable cards. */
  function Render(batch: Option<PrintBatch>): (v: Option<BatchView>)
    ensures v.None? <==> batch.None?
    ensures v.Some? ==> var b, w := batch.value, v.value;
      && w.totalValue == b.amount * b.quantity
      && w.networkId == b.networkId && w.amount == b.amount && w.quantity == b.quantity && w.batchId == b.id
      && |w.cards| == |b.pins| && |w.previews| == |b.pins|
      && (forall i :: 0 <= i < |b.pins| ==> w.cards[i] == PrintCardOf(b, b.pins[i]))
      && (forall i :: 0 <= i < |b.pins| ==> w.previews[i] == PreviewCardOf(b, b.pins[i]))
  {
    match batch
    case None => None
    case Some(b) =>
      var cards := seq(|b.pins|, i requires 0 <= i < |b.pins| => PrintCardOf(b, b.pins[i]));
      var previews := seq(|b.pins|, i requires 0 <= i < |b.pins| => PreviewCardOf(b, b.pins[i]));
      Some(BatchView(b.networkId, b.amount, b.quantity, b.amount * b.quantity, previews, b.id, cards))
  }

  /**
   * The `i`-th printable card is the `i`-th PIN of the batch: same serial, the batch's amount,
   * network and load code, and the PIN's characters (or N/A for an empty PIN).
   */
  lemma RenderCardAt(b: PrintBatch, i: nat)
    requires i < |b.pins|
    ensures var w := Render(Some(b)).value;
      && i < |w.cards| && w.cards[i].serial == b.pins[i].serial
      && w.cards[i].amount == b.amount && w.cards[i].networkId == b.networkId
      && w.cards[i].load == GetUssd(b.networkId)
      && (b.pins[i].pin == "" ==> w.cards[i].pinText == "N/A")
      && (b.pins[i].pin != "" ==> StripSpaces(w.cards[i].pinText) == StripSpaces(b.pins[i].pin))
      && i < |w.previews| && w.previews[i].serial == b.pins[i].serial
      && w.previews[i].copyText == b.pins[i].pin
      && StripSpaces(w.previews[i].pinText) == StripSpaces(b.pins[i].pin)
  {
    FormatPinDechunk(b.pins[i].pin);
  }
}

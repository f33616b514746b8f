/**
 * The full-screen voucher print view for PINs fetched from the inventory: a colour badge per
 * network, the PIN split into groups of four, and a `*311*` dial string per card.
 */
module VoucherPrintModal {
  import opened Wrappers
  import opened Text
  import opened Chunking
  import opened Types
  import PinBatchModal

  /** A printed PIN as the inventory returns it; `network` may be missing. */
  datatype PrintedPin = PrintedPin(id: string, network: Option<string>, denomination: int, pinCode: string, serialNumber: string)

  /** The badge colour, label and label colour class of a network. */
  datatype NetworkConfig = NetworkConfig(color: string, text: string, textColor: string)

  /**
   * The badge of a network, looked up by its upper-cased name: the label is always that name;
   * the four known networks get their own colour, anything else the default blue.
   */
  function GetNetworkConfig(network: string): (c: NetworkConfig)
    ensures c.text == ToUpper(network)
    ensures c.color == "#2563eb" <==> ToUpper(network) !in NetworkIds
    ensures c.textColor == "text-black" <==> ToUpper(network) == "MTN"
    ensures ToUpper(network) !in NetworkIds ==> c.textColor == "text-white"
  {
    var net := ToUpper(network);
    if net == "MTN" then NetworkConfig("#FFCC00", "MTN", "text-black")
    else if net == "AIRTEL" then NetworkConfig("#FF0000", "AIRTEL", "text-white")
    else if net == "GLO" then NetworkConfig("#1ab31a", "GLO", "text-white")
    else if net == "9MOBILE" then NetworkConfig("#006400", "9MOBILE", "text-white")
    else NetworkConfig("#2563eb", net, "text-white")
  }

  /** The lookup ignores letter case. */
  lemma NetworkConfigIgnoresCase(network: string)
    ensures GetNetworkConfig(ToUpper(network)) == GetNetworkConfig(network)
  {
    ToUpperIdempotent(network);
  }

  /** The four known networks have four different badge colours. */
  lemma NetworkColoursDistinct(a: string, b: string)
    requires a in NetworkIds && b in NetworkIds && a != b
    ensures GetNetworkConfig(a).color != GetNetworkConfig(b).color
  {
    assert ToUpper(a) == a && ToUpper(b) == b;
  }

  /** `pin.network || 'MTN'`: a missing or empty network counts as MTN. */
  function NetworkOf(p: PrintedPin): (n: string)
    ensures n != ""
    ensures p.network.None? || p.network.value == "" ==> n == "MTN"
    ensures p.network.Some? && p.network.value != "" ==> n == p.network.value
  {
    match p.network
    case None => "MTN"
    case Some(n) => if n == "" then "MTN" else n
  }

  /** The PIN text on a card: a space after every group of four, not trimmed. */
  function PinDisplay(pinCode: string): (r: string)
    ensures Chunking.Ungroup(r) == pinCode
  {
    UngroupGroupFours(pinCode);
    GroupFours(pinCode)
  }

  /** On a one-line PIN whose length is a positive multiple of four the display ends in a space, which the sheets' formatting trims. */
  lemma PinDisplayTrailingSpace(pinCode: string)
    requires NoLineTerminators(pinCode) && pinCode != [] && |pinCode| % 4 == 0
    ensures var r := PinDisplay(pinCode); r != [] && r[|r| - 1] == ' '
  {
    GroupFoursIsJoinedChunks(pinCode);
  }

  /** On a PIN without white space, trimming the display gives exactly the sheets' formatted PIN. */
  lemma PinDisplayTrimmed(pinCode: string)
    requires NoSpaces(pinCode)
    ensures Trim(PinDisplay(pinCode)) == PinBatchModal.FormatPin(pinCode)
  {
    StripSpacesNoSpaces(pinCode);
  }

  /** The dial string: `*311*`, the raw PIN and `#`, whatever the network. */
  function DialString(pinCode: string): (r: string)
    ensures |r| == |pinCode| + 6
    ensures r[..5] == "*311*" && r[5..|r| - 1] == pinCode && r[|r| - 1] == '#'
  {
    "*311*" + pinCode + "#"
  }

  /** One voucher card. */
  datatype VoucherCard = VoucherCard(config: NetworkConfig, denomination: int, pinText: string, serial: string, dial: string)

  function CardOf(p: PrintedPin): (c: VoucherCard)
    ensures c.config == GetNetworkConfig(NetworkOf(p))
    ensures c.denomination == p.denomination && c.serial == p.serialNumber
    ensures Chunking.Ungroup(c.pinText) == p.pinCode
    ensures c.dial == DialString(p.pinCode)
  {
    VoucherCard(GetNetworkConfig(NetworkOf(p)), p.denomination, PinDisplay(p.pinCode), p.serialNumber, DialString(p.pinCode))
  }

  /** The header count and the cards. */
  datatype VoucherView = VoucherView(count: nat, cards: seq<VoucherCard>)

  /** The modal for an optional PIN list: nothing when it is missing or empty; otherwise one card per PIN, in order. */
  function Render(pins: Option<seq<PrintedPin>>): (v: Option<VoucherView>)
    ensures v.None? <==> pins.None? || pins.value == []
    ensures v.Some? ==> v.value.count == |pins.value| == |v.value.cards|
    ensures v.Some? ==> forall i :: 0 <= i < |pins.value| ==> v.value.cards[i] == CardOf(pins.value[i])
  {
    if pins.None? || pins.value == [] then None
    else
      var ps := pins.value;
      Some(VoucherView(|ps|, seq(|ps|, i requires 0 <= i < |ps| => CardOf(ps[i]))))
  }
}

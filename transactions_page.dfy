/**
 * The transaction-history page: a row of filter chips, and the list the history action returns
 * for the chosen filter, refetched whenever the filter changes.
 */
module TransactionsPage {
  import opened Wrappers
  import opened Text
  import opened UserActions

  /** The filter chips, in display order. */
  const Filters: seq<string> := ["All", "Data", "Airtime", "Pins", "Funding", "Cable", "Electricity"]

  /** `filterToApiMap[filter] || filter`: the backend's type name for a chip; any other filter passes through. */
  function FilterToApi(filter: string): (t: string)
    ensures filter == "All" ==> t == "All"
    ensures filter == "Data" ==> t == "DATA"
    ensures filter == "Airtime" ==> t == "AIRTIME"
    ensures filter == "Pins" ==> t == "RECHARGE_PIN"
    ensures filter == "Funding" ==> t == "WALLET_FUNDING"
    ensures filter == "Cable" ==> t == "CABLE_TV"
    ensures filter == "Electricity" ==> t == "ELECTRICITY"
    ensures filter !in Filters ==> t == filter
  {
    if filter == "All" then "All"
    else if filter == "Data" then "DATA"
    else if filter == "Airtime" then "AIRTIME"
    else if filter == "Pins" then "RECHARGE_PIN"
    else if filter == "Funding" then "WALLET_FUNDING"
    else if filter == "Cable" then "CABLE_TV"
    else if filter == "Electricity" then "ELECTRICITY"
    else filter
  }

  /** The query `fetchHistory` sends: always page 1 and 50 entries. */
  function FetchQuery(filter: string): seq<(string, string)> {
    HistoryQuery(Some(1), Some(50), Some(FilterToApi(filter)))
  }

  /** Every chip but 'All' sends its backend type name unchanged; 'All' sends no type. */
  lemma FilterChipQueries(filter: string)
    requires filter in Filters
    ensures var q := FetchQuery(filter);
      && NumberOf(q[0].1) == Some(1) && NumberOf(q[1].1) == Some(50)
      && (filter == "All" ==> |q| == 2)
      && (filter != "All" ==> |q| == 3 && q[2] == ("type", FilterToApi(filter)))
  {
    var t := FilterToApi(filter);
    if filter != "All" {
      ToUpperNoLowercase(t);
      TypeParamKeepsTypeName(t);
    }
  }

  /** The badge of a status, matched without regard to case; None for any other status. */
  datatype Badge = SuccessBadge | PendingBadge | FailedBadge

  function StatusBadge(status: string): (b: Option<Badge>)
    ensures b == Some(SuccessBadge) <==> ToUpper(status) == "SUCCESS"
    ensures b == Some(PendingBadge) <==> ToUpper(status) == "PENDING"
    ensures b == Some(FailedBadge) <==> ToUpper(status) == "FAILED"
  {
    var s := ToUpper(status);
    if s == "SUCCESS" then Some(SuccessBadge)
    else if s == "PENDING" then Some(PendingBadge)
    else if s == "FAILED" then Some(FailedBadge)
    else None
  }

  /** The badge ignores case. */
  lemma StatusBadgeIgnoresCase(status: string)
    ensures StatusBadge(ToUpper(status)) == StatusBadge(status)
  {
    ToUpperIdempotent(status);
  }

  /** The amount's sign: '+' for wallet funding, '-' for everything else. */
  function AmountSign(txType: string): (c: char)
    ensures c == '+' <==> txType == "WALLET_FUNDING"
    ensures c in {'+', '-'}
  {
    if txType == "WALLET_FUNDING" then '+' else '-'
  }

  /** A row of the list. */
  datatype Row = Row(title: string, sign: char, amount: int, badge: Option<Badge>, pinsTag: bool)

  /** A row's title: the plan name, else the network, else the type with its first '_' shown as a space. */
  function RowTitle(tx: TxRecord): (t: string)
    ensures tx.planName != "" ==> t == tx.planName
    ensures tx.planName == "" && tx.network != "" ==> t == tx.network
    ensures tx.planName == "" && tx.network == "" ==> t == ReplaceFirst(tx.txType, "_", " ")
    ensures tx.planName == "" && tx.network == "" && !Contains(tx.txType, "_") ==> t == tx.txType
  {
    if tx.planName != "" then tx.planName
    else if tx.network != "" then tx.network
    else ReplaceFirst(tx.txType, "_", " ")
  }

  /** Without a plan name or network, the type's first '_', at position `k`, is shown as a space and nothing else changes. */
  lemma RowTitleShowsFirstUnderscore(tx: TxRecord, k: nat)
    requires tx.planName == "" && tx.network == ""
    requires OccursAt(tx.txType, "_", k) && NoOccurrenceBefore(tx.txType, "_", k)
    ensures RowTitle(tx) == tx.txType[..k] + " " + tx.txType[k + 1..]
  {
    ReplaceFirstAt(tx.txType, "_", " ", k);
  }

  function RowOf(tx: TxRecord): (r: Row)
    ensures r.sign == AmountSign(tx.txType) && r.amount == tx.amount && r.badge == StatusBadge(tx.status)
    ensures r.pinsTag <==> tx.txType == "RECHARGE_PIN"
  {
    Row(RowTitle(tx), AmountSign(tx.txType), tx.amount, StatusBadge(tx.status), tx.txType == "RECHARGE_PIN")
  }

  /** What the content area shows. */
  datatype PageView = Loading | ErrorBanner(message: string) | Empty(message: string) | Rows(rows: seq<Row>)

  /** The empty list's message, which names the filter in lower case. */
  function EmptyMessage(filter: string): string {
    if filter == "All" then "When you make purchases or fund your wallet, they will appear here."
    else "You don't have any recent " + ToLower(filter) + " transactions."
  }

  datatype State = State(filter: string, transactions: seq<TxRecord>, isLoading: bool, error: string)

  /** The content area: the spinner while loading, then the error, then the rows or the empty message. */
  function View(s: State): (v: PageView)
    ensures v.Loading? <==> s.isLoading
    ensures v.ErrorBanner? <==> !s.isLoading && s.error != ""
    ensures v.Rows? ==> |v.rows| == |s.transactions| && forall i :: 0 <= i < |v.rows| ==> v.rows[i] == RowOf(s.transactions[i])
    ensures v.Empty? <==> !s.isLoading && s.error == "" && s.transactions == []
  {
    if s.isLoading then Loading
    else if s.error != "" then ErrorBanner(s.error)
    else if s.transactions == [] then Empty(EmptyMessage(s.filter))
    else Rows(seq(|s.transactions|, i requires 0 <= i < |s.transactions| => RowOf(s.transactions[i])))
  }

  /** `fetchHistory`'s new state: the loaded list, or the error with the previous list kept; loading off either way. */
  function AfterFetch(s: State, r: HistoryResult): (t: State)
    ensures !t.isLoading && t.filter == s.filter
    ensures r.Loaded? ==> t.transactions == r.data && t.error == ""
    ensures r.LoadFailed? ==> t.transactions == s.transactions && t.error != ""
  {
    match r
    case Loaded(data) => s.(transactions := data, isLoading := false, error := "")
    case LoadFailed(e) => s.(isLoading := false, error := if e != "" then e else "Failed to fetch transactions.")
  }

  /** A failed fetch shows its error, never the previous list. */
  lemma FailedFetchShowsError(s: State, r: HistoryResult)
    requires r.LoadFailed?
    ensures View(AfterFetch(s, r)).ErrorBanner?
  {
  }

  class HistoryPage {
    var filter: string
    var transactions: seq<TxRecord>
    var isLoading: bool
    var error: string

    function Snapshot(): State
      reads this
    {
      State(filter, transactions, isLoading, error)
    }

    constructor ()
      ensures Snapshot() == State("All", [], true, "")
    {
      filter, transactions, isLoading, error := "All", [], true, "";
    }

    /** `fetchHistory`; returns the query it sends. */
    method FetchHistory(reply: HistoryReply) returns (query: seq<(string, string)>)
      modifies this
      ensures query == FetchQuery(old(filter))
      ensures Snapshot() == AfterFetch(old(Snapshot()), HistoryResultOf(reply))
    {
      isLoading := true;
      error := "";
      var apiType := FilterToApi(filter);
      query := HistoryQuery(Some(1), Some(50), Some(apiType));
      var result := HistoryResultOf(reply);
      match result {
        case Loaded(data) =>
          transactions := data;
        case LoadFailed(e) =>
          error := if e != "" then e else "Failed to fetch transactions.";
      }
      isLoading := false;
    }

    /**
     * A chip click. A different chip changes the filter, and the effect that depends on the
     * filter refetches; the active chip sets the same value, so the effect does not run and
     * nothing is requested.
     */
    method SelectFilter(f: string, reply: HistoryReply) returns (query: Option<seq<(string, string)>>)
      requires f in Filters
      modifies this
      ensures f == old(filter) ==> query.None? && Snapshot() == old(Snapshot())
      ensures f != old(filter) ==> query == Some(FetchQuery(f))
      ensures f != old(filter) ==> Snapshot() == AfterFetch(old(Snapshot()).(filter := f), HistoryResultOf(reply))
    {
      if f == filter {
        query := None;
      } else {
        filter := f;
        var q := FetchHistory(reply);
        query := Some(q);
      }
    }
  }
}

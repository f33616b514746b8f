/**
 * The transaction-history server action: the query it sends and the result it returns.
 */
module UserActions {
  import opened Wrappers
  import opened Text

  /** A transaction as the history lists it. */
  datatype TxRecord = TxRecord(id: string, txType: string, amount: int, status: string, planName: string, network: string)

  /** How the history request ended: a response (status OK or not, message, data), or an exception. */
  datatype HistoryReply = Response(ok: bool, message: string, data: seq<TxRecord>) | Threw

  datatype HistoryResult = Loaded(data: seq<TxRecord>) | LoadFailed(error: string)

  /** The defaults for an omitted page and limit. */
  const DefaultPage := 1
  const DefaultLimit := 20

  /** The `type` parameter: present when the type is non-empty and not 'All'; upper-cased, with its first 'PINS' replaced by 'RECHARGE_PIN'. */
  function TypeParam(txType: Option<string>): (t: Option<string>)
    ensures t.Some? <==> txType.Some? && txType.value != "" && txType.value != "All"
    ensures t.Some? ==> t.value == ReplaceFirst(ToUpper(txType.value), "PINS", "RECHARGE_PIN")
    ensures t.Some? && !Contains(ToUpper(txType.value), "PINS") ==> t.value == ToUpper(txType.value)
  {
    if txType.None? || txType.value == "" || txType.value == "All" then None
    else Some(ReplaceFirst(ToUpper(txType.value), "PINS", "RECHARGE_PIN"))
  }

  /** The query string's parameters, in order: page, limit and, when present, type. */
  function HistoryQuery(page: Option<int>, limit: Option<int>, txType: Option<string>): (q: seq<(string, string)>)
    ensures |q| >= 2 && q[0].0 == "page" && q[1].0 == "limit"
    ensures NumberOf(q[0].1) == Some(page.GetOr(DefaultPage)) && NumberOf(q[1].1) == Some(limit.GetOr(DefaultLimit))
    ensures |q| == 3 <==> TypeParam(txType).Some?
    ensures |q| == 3 ==> q[2] == ("type", TypeParam(txType).value)
    ensures |q| <= 3
  {
    var base := [("page", IntToString(page.GetOr(DefaultPage))), ("limit", IntToString(limit.GetOr(DefaultLimit)))];
    match TypeParam(txType)
    case None => base
    case Some(t) => base + [("type", t)]
  }

  /** `getTransactionHistory`'s result: the data of an OK response, otherwise an error message. */
  function HistoryResultOf(reply: HistoryReply): (r: HistoryResult)
    ensures reply.Response? && reply.ok ==> r == Loaded(reply.data)
    ensures reply.Response? && !reply.ok ==> r == LoadFailed(if reply.message != "" then reply.message else "Failed to fetch history")
    ensures reply.Threw? ==> r == LoadFailed("Network connection failed")
    ensures r.LoadFailed? ==> r.error != ""
  {
    match reply
    case Response(ok, message, data) =>
      if ok then Loaded(data) else LoadFailed(if message != "" then message else "Failed to fetch history")
    case Threw => LoadFailed("Network connection failed")
  }

  /** An 'All' filter or no type sends no type parameter; the lower-case 'pins' becomes 'RECHARGE_PIN'. */
  lemma TypeParamExamples()
    ensures TypeParam(Some("All")) == None && TypeParam(None) == None && TypeParam(Some("")) == None
    ensures TypeParam(Some("pins")) == Some("RECHARGE_PIN")
  {
    var up := ToUpper("pins");
    assert up == "PINS" by {
      assert up[0] == 'P' && up[1] == 'I' && up[2] == 'N' && up[3] == 'S';
    }
    assert "PINS" <= up;
    assert up[4..] == "";
    assert ReplaceFirst(up, "PINS", "RECHARGE_PIN") == "RECHARGE_PIN";
    assert TypeParam(Some("pins")) == Some(ReplaceFirst(up, "PINS", "RECHARGE_PIN"));
  }

  /** The first 'PINS' of the upper-cased type, at position `k`, is sent as 'RECHARGE_PIN'; the text around it is kept. */
  lemma TypeParamRewritesFirstPins(txType: string, k: nat)
    requires txType != "" && txType != "All"
    requires OccursAt(ToUpper(txType), "PINS", k) && NoOccurrenceBefore(ToUpper(txType), "PINS", k)
    ensures var u := ToUpper(txType); TypeParam(Some(txType)) == Some(u[..k] + "RECHARGE_PIN" + u[k + 4..])
  {
    ReplaceFirstAt(ToUpper(txType), "PINS", "RECHARGE_PIN", k);
  }

  /** An upper-case type name without an 'S' is sent as it is. */
  lemma TypeParamKeepsTypeName(t: string)
    requires t != "" && t != "All" && ToUpper(t) == t && 'S' !in t
    ensures TypeParam(Some(t)) == Some(t)
  {
    if Contains(t, "PINS") {
      ContainsOwnChars(t, "PINS", 3);
    }
  }
}

/**
 * The electricity server actions: fetching the distribution companies, verifying a meter and
 * paying a bill. Each maps the backend's reply to a result record; the payment first rejects an
 * out-of-range amount without contacting the backend.
 */
module ElectricityActions {
  import opened Wrappers

  /** A distribution company. */
  datatype DiscoProvider = DiscoProvider(id: string, name: string, minAmount: int, maxAmount: int)

  /** What the backend answered: the HTTP status was OK or not, the body's `message` ("" when absent) and its data; or the request threw. */
  datatype Reply<T> = Response(ok: bool, message: string, data: T) | NetworkError

  /** A server action's result record: success with the data, or failure with the error text. */
  datatype ActionResult<T> = Succeeded(data: T) | FailedWith(error: string)

  const NetworkFailed := "Network connection failed"

  /** The result of a backend call: its data when OK, else its message or the endpoint's default; a thrown request gives `onThrow`. */
  function MapReply<T>(reply: Reply<T>, default: string, onThrow: string): (r: ActionResult<T>)
    ensures reply.Response? && reply.ok ==> r == Succeeded(reply.data)
    ensures reply.Response? && !reply.ok ==> r == FailedWith(if reply.message != "" then reply.message else default)
    ensures reply.NetworkError? ==> r == FailedWith(onThrow)
  {
    match reply
    case Response(ok, message, data) =>
      if ok then Succeeded(data) else FailedWith(if message != "" then message else default)
    case NetworkError => FailedWith(onThrow)
  }

  /** `getDiscos`. */
  function GetDiscos(reply: Reply<Option<seq<DiscoProvider>>>): (r: ActionResult<Option<seq<DiscoProvider>>>)
    ensures r.Succeeded? <==> reply.Response? && reply.ok
    ensures reply.Response? && reply.ok ==> r == Succeeded(reply.data)
    ensures r.FailedWith? ==> r.error != ""
  {
    MapReply(reply, "Failed to fetch electricity providers.", NetworkFailed)
  }

  /** The meter type code the backend expects. */
  function MeterTypeCode(isPrepaid: bool): (code: string)
    ensures code == "01" || code == "02"
    ensures code == "01" <==> isPrepaid
  {
    if isPrepaid then "01" else "02"
  }

  /** The query string parameters of a meter verification. */
  datatype MeterQuery = MeterQuery(discoCode: string, meterNo: string, meterType: string)

  /** What verification returns about the meter's owner (`customer_name`, possibly missing). */
  datatype MeterData = MeterData(customerName: Option<string>)

  /** `verifyMeter`: the query sent, and the result of the reply. */
  function VerifyMeter(discoCode: string, meterNo: string, isPrepaid: bool, reply: Reply<Option<MeterData>>): (r: (MeterQuery, ActionResult<Option<MeterData>>))
    ensures r.0 == MeterQuery(discoCode, meterNo, MeterTypeCode(isPrepaid))
    ensures r.1.Succeeded? <==> reply.Response? && reply.ok
    ensures reply.Response? && reply.ok ==> r.1 == Succeeded(reply.data)
    ensures r.1.FailedWith? ==> r.1.error != ""
  {
    (MeterQuery(discoCode, meterNo, MeterTypeCode(isPrepaid)),
     MapReply(reply, "Invalid meter number or mismatching provider.", NetworkFailed))
  }

  /** The payment request body; `amount` is None where the caller's number is `NaN`. */
  datatype PaymentPayload = PaymentPayload(discoCode: string, meterNo: string, meterType: string, amount: Option<int>, phoneNo: string)

  /** The body fields of a successful payment ("" when absent). */
  datatype PaymentData = PaymentData(message: string, token: string, customerName: string, transactionId: string)

  /** `ElectricityPaymentResponse`. */
  datatype PaymentResponse = PaymentResponse(success: bool, message: string, token: string, customerName: string, transactionId: string, error: string)

  const MinPayment := 100
  const MaxPayment := 500000

  /** The amount guard: `amount < 100 || amount > 500000`, where every comparison with `NaN` is false. */
  predicate AmountOutOfRange(amount: Option<int>) {
    amount.Some? && (amount.value < MinPayment || amount.value > MaxPayment)
  }

  /**
   * `payElectricity`: whether the request is sent, and the response. An amount outside 100 to
   * 500000 is refused without a request; otherwise the reply decides, and a successful one
   * passes its message, token, customer name and transaction id through.
   */
  function PayElectricity(payload: PaymentPayload, reply: Reply<PaymentData>): (r: (bool, PaymentResponse))
    ensures r.0 <==> !AmountOutOfRange(payload.amount)
    ensures r.1.success <==> r.0 && reply.Response? && reply.ok
    ensures !r.1.success ==> r.1.error != ""
    ensures !r.0 ==> r.1.error == "Amount must be between N100 and N500,000"
    ensures r.1.success ==> && r.1.message == reply.data.message && r.1.token == reply.data.token
                            && r.1.customerName == reply.data.customerName && r.1.transactionId == reply.data.transactionId
    ensures r.0 && reply.NetworkError? ==> r.1.error == "Transaction failed due to network error"
  {
    if AmountOutOfRange(payload.amount) then
      (false, PaymentResponse(false, "", "", "", "", "Amount must be between N100 and N500,000"))
    else
      match MapReply(reply, "Payment failed", "Transaction failed due to network error")
      case Succeeded(d) => (true, PaymentResponse(true, d.message, d.token, d.customerName, d.transactionId, ""))
      case FailedWith(e) => (true, PaymentResponse(false, "", "", "", "", e))
  }
}

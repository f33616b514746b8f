/** The records of types/types.ts that the voucher displays work on. */
module Types {

  /** TransactionStatus. */
  datatype TransactionStatus = Success | Failed | Pending

  /** The `status` of a Pin: 'USED' or 'UNUSED'. */
  datatype PinStatus = Used | Unused

  /** One recharge PIN of a batch. */
  datatype Pin = Pin(serial: string, pin: string, status: PinStatus)

  /**
   * A generated batch of PINs. `networkId` is kept as text: the displays switch over it and
   * give an unknown value its own default.
   */
  datatype PrintBatch = PrintBatch(
    id: string,
    networkId: string,
    amount: int,
    quantity: int,
    date: string,
    status: TransactionStatus,
    pins: seq<Pin>)

  /** The values of the NetworkId enumeration. */
  const NetworkIds: seq<string> := ["MTN", "AIRTEL", "GLO", "9MOBILE"]
}

/** The rows the escrow services rewrite, the enumerations of the schema, and the
    time limits. Identifiers are numbers; times are milliseconds. */
module Rows {

  datatype Option<+T> = None | Some(value: T)

  type UserId = nat
  type ProductId = nat
  type TradeId = nat
  type OrderId = nat
  type PaymentKey = nat
  type IdempotencyKey = string
  type Time = nat

  const DAY_MS: nat := 24 * 60 * 60 * 1000
  const AUTO_CONFIRM_MS: nat := 7 * DAY_MS
  const SETTLEMENT_HOLD_MS: nat := 7 * DAY_MS
  const UNPAID_ACCEPTANCE_TIMEOUT_MS: nat := 7 * DAY_MS
  const CANCELLATION_WINDOW_MS: nat := 7 * DAY_MS

  datatype ProductStatus = Active | Reserved | Sold | Hidden | Deleted

  datatype TradeStatus = Requested | Accepted | Rejected | Delivered | Confirmed | Disputed | Cancelled

  datatype PaymentStatus =
    Ready | Approved | Unconfirmed | Failed | CancelPending | Cancelled | RefundPending | Refunded

  datatype SettlementStatus = Hold | Paused | Ready | Processing | Settled | Failed | SandboxSettled

  datatype EntryType = EscrowCapture | Cancellation | Refund | Settlement | Adjustment

  // The fixed reasons the services write, and the text a user states.
  datatype Reason =
    | NoReason
    | ReservedByAnotherTrade
    | AutoConfirmedAfter7Days
    | AutoCancelledUnpaidAfter7Days
    | SandboxApproved
    | SandboxSettlementReleased
    | PayoutProviderConfirmed
    | Stated(text: string)

  datatype Failure = NoFailure | PayoutFailed | ReconciliationMismatch

  datatype Product = Product(author: UserId, price: nat, status: ProductStatus)

  datatype Trade = Trade(
    product: ProductId, buyer: UserId, seller: UserId, price: nat, status: TradeStatus,
    rejectedAt: Option<Time>, deliveredAt: Option<Time>, autoConfirmAt: Option<Time>,
    confirmedAt: Option<Time>, disputedAt: Option<Time>, cancelledAt: Option<Time>,
    reason: Reason, updatedAt: Time)

  datatype HistoryRow = HistoryRow(
    actor: Option<UserId>, from: Option<TradeStatus>, to: TradeStatus, reason: Reason, at: Time)

  datatype Payment = Payment(
    order: OrderId, key: Option<PaymentKey>, amount: nat,
    status: PaymentStatus, settlement: SettlementStatus,
    approvedAt: Option<Time>, cancelledAt: Option<Time>, refundedAt: Option<Time>,
    availableAt: Option<Time>, settledAt: Option<Time>, failure: Failure, checkedAt: Option<Time>)

  datatype LedgerRow = LedgerRow(entry: EntryType, amount: int, reason: Reason)

  // A settlement claim some worker is acting on: the time its batch started and
  // whether the payout call has returned.
  datatype Claim = Claim(now: Time, paid: bool)

  // Everything the database, the payout provider and the workers hold about one trade.
  datatype Deal = Deal(
    trade: Trade, history: seq<HistoryRow>, payment: Option<Payment>, ledger: seq<LedgerRow>,
    claims: seq<Claim>, transfers: seq<nat>)

  datatype ProviderStatus = Done | Canceled | Refunded

  datatype ProviderRecord = ProviderRecord(order: OrderId, amount: nat, status: ProviderStatus)

  // The chat of a buyer with the seller of a product: one for the three of them.
  datatype Room = Room(product: ProductId, buyer: UserId, seller: UserId)

  // What a payment request hashes: the action together with its payload.
  datatype Request =
    | CreateOrderRequest(trade: TradeId, buyer: UserId)
    | ConfirmRequest(key: PaymentKey, order: OrderId, amount: nat)
    | CancelRequest(order: OrderId, reason: string, actor: UserId)
    | RefundRequest(order: OrderId, reason: string, actor: UserId)

  datatype Response = Response(trade: TradeId, payment: Payment)

  datatype Operation = Operation(request: Request, response: Response)

  // Still owing the seller, or holding the product, as the product page sees it.
  predicate Holds(status: TradeStatus) {
    status.Accepted? || status.Delivered? || status.Confirmed? || status.Disputed?
  }
}

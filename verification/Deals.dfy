/** What each operation does to the rows of the one trade it is about. */
module Deals {
  import opened Rows

  // A trade update and the history row written beside it.
  function Moved(d: Deal, tr: Trade, actor: Option<UserId>, reason: Reason, at: Time): Deal {
    d.(trade := tr.(updatedAt := at),
       history := d.history + [HistoryRow(actor, Some(d.trade.status), tr.status, reason, at)])
  }

  function Opened(product: ProductId, buyer: UserId, seller: UserId, price: nat, at: Time): Deal {
    Deal(Trade(product, buyer, seller, price, TradeStatus.Requested,
               None, None, None, None, None, None, NoReason, at),
         [HistoryRow(Some(buyer), None, TradeStatus.Requested, NoReason, at)],
         None, [], [], [])
  }

  function AcceptedDeal(d: Deal, seller: UserId, at: Time): Deal {
    Moved(d, d.trade.(status := TradeStatus.Accepted), Some(seller), NoReason, at)
  }

  function RejectedDeal(d: Deal, seller: UserId, reason: Reason, at: Time): Deal {
    Moved(d, d.trade.(status := TradeStatus.Rejected, rejectedAt := Some(at), reason := reason),
          Some(seller), reason, at)
  }

  function DeliveredDeal(d: Deal, seller: UserId, at: Time): Deal {
    Moved(d, d.trade.(status := TradeStatus.Delivered, deliveredAt := Some(at),
                      autoConfirmAt := Some(at + AUTO_CONFIRM_MS)),
          Some(seller), NoReason, at)
  }

  // Purchase confirmation by the buyer or by the deadline: only an approved payment starts its hold.
  function ConfirmedDeal(d: Deal, actor: Option<UserId>, confirmedAt: Time, reason: Reason, at: Time): Deal {
    var payment :=
      match d.payment
      case Some(p) =>
        if p.status.Approved? then
          Some(p.(availableAt := Some(confirmedAt + SETTLEMENT_HOLD_MS), settlement := SettlementStatus.Hold))
        else d.payment
      case None => None;
    Moved(d, d.trade.(status := TradeStatus.Confirmed, confirmedAt := Some(confirmedAt)), actor, reason, at)
      .(payment := payment)
  }

  function DisputedDeal(d: Deal, actor: UserId, reason: Reason, at: Time): Deal {
    var payment := match d.payment case Some(p) => Some(p.(settlement := SettlementStatus.Paused)) case None => None;
    Moved(d, d.trade.(status := TradeStatus.Disputed, disputedAt := Some(at), reason := reason),
          Some(actor), reason, at).(payment := payment)
  }

  // Cancelling the trade closes a payment order that has not been approved.
  function ClosedPayment(payment: Option<Payment>, at: Time): Option<Payment> {
    match payment
    case Some(p) =>
      if p.status.Ready? || p.status.Unconfirmed? || p.status.Failed? then
        Some(p.(status := PaymentStatus.Cancelled, settlement := SettlementStatus.Paused, cancelledAt := Some(at)))
      else payment
    case None => None
  }

  function CancelledDeal(d: Deal, actor: Option<UserId>, cancelledAt: Time, reason: Reason, at: Time): Deal {
    Moved(d, d.trade.(status := TradeStatus.Cancelled, cancelledAt := Some(cancelledAt), reason := reason),
          actor, reason, at).(payment := ClosedPayment(d.payment, at))
  }

  function OrderedDeal(d: Deal, order: OrderId): Deal {
    d.(payment := Some(Payment(order, None, d.trade.price, PaymentStatus.Ready, SettlementStatus.Hold,
                               None, None, None, None, None, NoFailure, None)))
  }

  predicate HasEntry(ledger: seq<LedgerRow>, entry: EntryType) {
    exists i :: 0 <= i < |ledger| && ledger[i].entry == entry
  }

  function CapturedDeal(d: Deal, key: PaymentKey, at: Time): Deal
    requires d.payment.Some?
  {
    var p := d.payment.value;
    d.(payment := Some(p.(key := Some(key), status := PaymentStatus.Approved, approvedAt := Some(at))),
       ledger := d.ledger + [LedgerRow(EscrowCapture, p.amount, SandboxApproved)])
  }

  // Cancelling an approved payment cancels the trade with it.
  function VoidedDeal(d: Deal, actor: UserId, reason: string, at: Time): Deal
    requires d.payment.Some?
  {
    var p := d.payment.value;
    Moved(d, d.trade.(status := TradeStatus.Cancelled, cancelledAt := Some(at), reason := Stated(reason)),
          Some(actor), Stated(reason), at)
      .(payment := Some(p.(status := PaymentStatus.Cancelled, settlement := SettlementStatus.Paused,
                           cancelledAt := Some(at))),
        ledger := d.ledger + [LedgerRow(Cancellation, 0 - p.amount, Stated(reason))])
  }

  // Refunding leaves or puts the trade in dispute.
  function RefundedDeal(d: Deal, actor: UserId, reason: string, at: Time): Deal
    requires d.payment.Some?
  {
    var p := d.payment.value;
    var moved :=
      if d.trade.status.Disputed? then d
      else Moved(d, d.trade.(status := TradeStatus.Disputed, disputedAt := Some(at), reason := Stated(reason)),
                 Some(actor), Stated(reason), at);
    moved.(payment := Some(p.(status := PaymentStatus.Refunded, settlement := SettlementStatus.Paused,
                              refundedAt := Some(at))),
           ledger := d.ledger + [LedgerRow(Refund, 0 - p.amount, Stated(reason))])
  }

  // Settlement: the hold expires, a worker claims, the provider pays, the worker records or fails.

  predicate HoldExpired(d: Deal, now: Time) {
    && d.payment.Some? && d.payment.value.status.Approved? && d.payment.value.settlement.Hold?
    && d.payment.value.availableAt.Some? && d.payment.value.availableAt.value <= now
    && d.trade.status.Confirmed?
  }

  function MarkedReadyDeal(d: Deal): Deal
    requires d.payment.Some?
  {
    d.(payment := Some(d.payment.value.(settlement := SettlementStatus.Ready)))
  }

  // The filter of the due query, and the part of it the claim checks again.
  predicate DueForSettlement(d: Deal) {
    && Claimable(d) && d.payment.value.status.Approved? && d.trade.status.Confirmed?
  }

  predicate Claimable(d: Deal) {
    d.payment.Some? && (d.payment.value.settlement.Ready? || d.payment.value.settlement.Failed?)
  }

  function ClaimedDeal(d: Deal, now: Time): Deal
    requires d.payment.Some?
  {
    d.(payment := Some(d.payment.value.(settlement := SettlementStatus.Processing, failure := NoFailure)),
       claims := d.claims + [Claim(now, false)])
  }

  function Without<T>(s: seq<T>, i: nat): seq<T>
    requires i < |s|
  {
    s[..i] + s[i + 1..]
  }

  // The provider honours the idempotency key: it transfers only on the first request it sees.
  function PaidOutDeal(d: Deal, i: nat): Deal
    requires d.payment.Some? && i < |d.claims|
  {
    d.(transfers := if d.transfers == [] then [d.payment.value.amount] else d.transfers,
       claims := d.claims[i := d.claims[i].(paid := true)])
  }

  function SettledDeal(d: Deal, i: nat, sandbox: bool): Deal
    requires d.payment.Some? && i < |d.claims|
  {
    var p := d.payment.value;
    d.(payment := Some(p.(settlement := if sandbox then SandboxSettled else SettlementStatus.Settled,
                          settledAt := Some(d.claims[i].now))),
       ledger := d.ledger + [LedgerRow(Settlement, 0 - p.amount,
                                       if sandbox then SandboxSettlementReleased else PayoutProviderConfirmed)],
       claims := Without(d.claims, i))
  }

  function FailedDeal(d: Deal, i: nat): Deal
    requires d.payment.Some? && i < |d.claims|
  {
    d.(payment := Some(d.payment.value.(settlement := SettlementStatus.Failed, failure := PayoutFailed)),
       claims := Without(d.claims, i))
  }

  function CrashedDeal(d: Deal, i: nat): Deal
    requires i < |d.claims|
  {
    d.(claims := Without(d.claims, i))
  }

  // Deadlines of the maintenance loops.
  predicate AutoConfirmDue(d: Deal, now: Time) {
    d.trade.status.Delivered? && d.trade.autoConfirmAt.Some? && d.trade.autoConfirmAt.value <= now
  }

  predicate UnpaidExpired(d: Deal, now: Time) {
    && d.trade.status.Accepted? && d.payment.None?
    && d.trade.updatedAt + UNPAID_ACCEPTANCE_TIMEOUT_MS <= now
  }
}

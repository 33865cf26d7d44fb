/** The transactions of the services and of the worker, statement by statement over the rows they update.
    Each is proved to do what its step in Market says. */
module Services {
  import opened Rows
  import opened Deals
  import opened Market
  import Toss

  class Database {
    var clock: Time
    var products: map<ProductId, Product>
    var deals: map<TradeId, Deal>
    var orders: map<OrderId, TradeId>
    var operations: map<IdempotencyKey, Operation>
    const toss: Toss.Sandbox
    var rooms: set<Room>

    ghost function View(): State
      reads this, toss
    {
      State(clock, products, deals, orders, operations, toss.records, rooms)
    }

    constructor ()
      ensures fresh(toss) && View() == Empty
    {
      clock, products, deals, orders, operations, rooms := 0, map[], map[], map[], map[], {};
      toss := new Toss.Sandbox();
    }

    // Time passes between the calls.
    method Tick(ms: nat)
      modifies this`clock
      ensures View() == Next(old(View()), Step.Tick(ms)).state
    {
      clock := clock + ms;
    }

    // ---------- Updates of single rows ----------

    // Every update of a trade row sets its updatedAt.
    method UpdateTrade(t: TradeId, tr: Trade)
      requires t in deals
      modifies this`deals
      ensures deals == old(deals)[t := old(deals[t]).(trade := tr.(updatedAt := clock))]
    {
      deals := deals[t := deals[t].(trade := tr.(updatedAt := clock))];
    }

    method AddHistory(t: TradeId, actor: Option<UserId>, from: TradeStatus, to: TradeStatus, reason: Reason)
      requires t in deals
      modifies this`deals
      ensures var row := HistoryRow(actor, Some(from), to, reason, clock);
              deals == old(deals)[t := old(deals[t]).(history := old(deals[t]).history + [row])]
    {
      var row := HistoryRow(actor, Some(from), to, reason, clock);
      deals := deals[t := deals[t].(history := deals[t].history + [row])];
    }

    method UpdatePayment(t: TradeId, p: Payment)
      requires t in deals
      modifies this`deals
      ensures deals == old(deals)[t := old(deals[t]).(payment := Some(p))]
    {
      deals := deals[t := deals[t].(payment := Some(p))];
    }

    method AddLedger(t: TradeId, entry: EntryType, amount: int, reason: Reason)
      requires t in deals
      modifies this`deals
      ensures deals == old(deals)[t := old(deals[t]).(ledger := old(deals[t]).ledger + [LedgerRow(entry, amount, reason)])]
    {
      deals := deals[t := deals[t].(ledger := deals[t].ledger + [LedgerRow(entry, amount, reason)])];
    }

    method UpdateProduct(p: ProductId, status: ProductStatus)
      modifies this`products
      ensures products == ProductSetTo(old(products), p, status)
    {
      if p in products {
        products := products[p := products[p].(status := status)];
      }
    }

    // The conditional update that gives a reserved product back.
    method ReleaseProduct(p: ProductId)
      modifies this`products
      ensures products == ProductReleased(old(products), p)
    {
      if p in products && products[p].status.Reserved? {
        products := products[p := products[p].(status := ProductStatus.Active)];
      }
    }

    // ---------- TradeService ----------

    method Request(user: UserId, p: ProductId, t: TradeId, blocked: bool, hasNeighborhood: bool, nearby: bool)
      returns (outcome: Outcome)
      modifies this`deals, this`rooms
      ensures Result(View(), outcome) == AfterRequest(old(View()), user, p, t, blocked, hasNeighborhood, nearby)
    {
      if p !in products || !products[p].status.Active? {
        return Refused(ProductNotAvailable);
      }
      var product := products[p];
      if product.author == user {
        return Refused(CannotBuyOwnProduct);
      }
      if blocked {
        return Refused(TradeBlocked);
      }
      if !hasNeighborhood {
        return Refused(NeighborhoodRequired);
      }
      if !nearby {
        return Refused(ProductOutsideNeighborhood);
      }
      var duplicate :=
        exists x :: x in deals && deals[x].trade.product == p && deals[x].trade.buyer == user
                    && ActiveTradeStatus(deals[x].trade.status);
      if duplicate {
        return Refused(ActiveTradeExists);
      }
      if t in deals {
        return Refused(UniqueViolation(TradeKey));
      }
      var trade := Trade(p, user, product.author, product.price, TradeStatus.Requested,
                         None, None, None, None, None, None, NoReason, clock);
      var row := HistoryRow(Some(user), None, TradeStatus.Requested, NoReason, clock);
      deals := deals[t := Deal(trade, [row], None, [], [], [])];
      rooms := rooms + {Room(p, user, product.author)};
      outcome := Completed;
    }

    method Accept(user: UserId, t: TradeId) returns (outcome: Outcome)
      modifies this`products, this`deals
      ensures Result(View(), outcome) == AfterAccept(old(View()), user, t)
    {
      if t !in deals || deals[t].trade.seller != user || !deals[t].trade.status.Requested? {
        return Refused(TradeNotFound);
      }
      var trade := deals[t].trade;
      if trade.product !in products || !products[trade.product].status.Active? {
        return Refused(ProductAlreadyReserved);
      }
      UpdateProduct(trade.product, Reserved);
      UpdateTrade(t, trade.(status := TradeStatus.Accepted));
      AddHistory(t, Some(user), TradeStatus.Requested, TradeStatus.Accepted, NoReason);
      RejectCompeting(user, trade.product, t);
      assert deals == AfterAccept(old(View()), user, t).state.deals;
      outcome := Completed;
    }

    // The bulk update of the other requests for a product, and their history rows.
    method RejectCompeting(user: UserId, p: ProductId, t: TradeId)
      modifies this`deals
      ensures deals == map x | x in old(deals) ::
                if x != t && Competes(old(deals)[x], p)
                then RejectedDeal(old(deals)[x], user, ReservedByAnotherTrade, clock) else old(deals)[x]
    {
      var competing := set x | x in deals && deals[x].trade.product == p && x != t && deals[x].trade.status.Requested?;
      deals := map x | x in deals ::
        if x in competing then
          deals[x].(trade := deals[x].trade.(status := TradeStatus.Rejected, rejectedAt := Some(clock),
                                             reason := ReservedByAnotherTrade, updatedAt := clock))
        else deals[x];
      var row := HistoryRow(Some(user), Some(TradeStatus.Requested), TradeStatus.Rejected, ReservedByAnotherTrade, clock);
      deals := map x | x in deals ::
        if x in competing then deals[x].(history := deals[x].history + [row]) else deals[x];
    }

    method Reject(user: UserId, t: TradeId, text: string) returns (outcome: Outcome)
      modifies this`deals
      ensures Result(View(), outcome) == AfterReject(old(View()), user, t, text)
    {
      if t !in deals || deals[t].trade.seller != user || !deals[t].trade.status.Requested? {
        return Refused(TradeNotFound);
      }
      UpdateTrade(t, deals[t].trade.(status := TradeStatus.Rejected, rejectedAt := Some(clock), reason := Stated(text)));
      AddHistory(t, Some(user), TradeStatus.Requested, TradeStatus.Rejected, Stated(text));
      outcome := Completed;
    }

    method Deliver(user: UserId, t: TradeId) returns (outcome: Outcome)
      modifies this`deals
      ensures Result(View(), outcome) == AfterDeliver(old(View()), user, t)
    {
      if t !in deals || deals[t].trade.seller != user || !deals[t].trade.status.Accepted? {
        return Refused(TradeNotFound);
      }
      if deals[t].payment.None? || !deals[t].payment.value.status.Approved? {
        return Refused(EscrowPaymentRequired);
      }
      var deliveredAt := clock;
      UpdateTrade(t, deals[t].trade.(status := TradeStatus.Delivered, deliveredAt := Some(deliveredAt),
                                     autoConfirmAt := Some(deliveredAt + 7 * DAY_MS)));
      AddHistory(t, Some(user), TradeStatus.Accepted, TradeStatus.Delivered, NoReason);
      outcome := Completed;
    }

    method Confirm(user: UserId, t: TradeId) returns (outcome: Outcome)
      modifies this`products, this`deals
      ensures Result(View(), outcome) == AfterConfirmTrade(old(View()), user, t)
    {
      if t !in deals || deals[t].trade.buyer != user || !deals[t].trade.status.Delivered? {
        return Refused(TradeNotFound);
      }
      if deals[t].payment.None? || !deals[t].payment.value.status.Approved? {
        return Refused(EscrowPaymentRequired);
      }
      var trade, payment := deals[t].trade, deals[t].payment.value;
      var confirmedAt := clock;
      UpdateTrade(t, trade.(status := TradeStatus.Confirmed, confirmedAt := Some(confirmedAt)));
      UpdateProduct(trade.product, Sold);
      UpdatePayment(t, payment.(availableAt := Some(confirmedAt + SETTLEMENT_HOLD_MS), settlement := SettlementStatus.Hold));
      AddHistory(t, Some(user), TradeStatus.Delivered, TradeStatus.Confirmed, NoReason);
      outcome := Completed;
    }

    method Dispute(user: UserId, t: TradeId, text: string) returns (outcome: Outcome)
      modifies this`deals
      ensures Result(View(), outcome) == AfterDispute(old(View()), user, t, text)
    {
      if t !in deals || (deals[t].trade.buyer != user && deals[t].trade.seller != user) {
        return Refused(TradeNotFound);
      }
      var trade := deals[t].trade;
      if !trade.status.Accepted? && !trade.status.Delivered? && !trade.status.Confirmed? {
        return Refused(TradeNotFound);
      }
      UpdateTrade(t, trade.(status := TradeStatus.Disputed, disputedAt := Some(clock), reason := Stated(text)));
      if deals[t].payment.Some? {
        UpdatePayment(t, deals[t].payment.value.(settlement := SettlementStatus.Paused));
      }
      AddHistory(t, Some(user), trade.status, TradeStatus.Disputed, Stated(text));
      outcome := Completed;
    }

    method Cancel(user: UserId, t: TradeId, text: string) returns (outcome: Outcome)
      modifies this`products, this`deals
      ensures Result(View(), outcome) == AfterCancelTrade(old(View()), user, t, text)
    {
      hide ClosedPayment, ProductReleased;
      if t !in deals || (deals[t].trade.buyer != user && deals[t].trade.seller != user) {
        return Refused(TradeNotFound);
      }
      var trade := deals[t].trade;
      if !trade.status.Requested? && !trade.status.Accepted? {
        return Refused(TradeNotFound);
      }
      if deals[t].payment.Some? && deals[t].payment.value.status.Approved? {
        return Refused(PaymentReversalRequired);
      }
      if trade.status.Accepted? {
        ReleaseProduct(trade.product);
      }
      ClosePayment(t);
      UpdateTrade(t, trade.(status := TradeStatus.Cancelled, cancelledAt := Some(clock), reason := Stated(text)));
      AddHistory(t, Some(user), trade.status, TradeStatus.Cancelled, Stated(text));
      outcome := Completed;
    }

    // The conditional update that closes a payment order not yet approved.
    method ClosePayment(t: TradeId)
      requires t in deals
      modifies this`deals
      ensures deals == old(deals)[t := old(deals[t]).(payment := ClosedPayment(old(deals[t]).payment, clock))]
    {
      var payment := deals[t].payment;
      if payment.Some? && (payment.value.status.Ready? || payment.value.status.Unconfirmed? || payment.value.status.Failed?) {
        UpdatePayment(t, payment.value.(status := PaymentStatus.Cancelled, settlement := SettlementStatus.Paused,
                                        cancelledAt := Some(clock)));
      } else {
        assert deals == deals[t := deals[t].(payment := payment)];
      }
    }

    // ---------- Deadlines: one transaction per trade ----------

    method AutoConfirm(t: TradeId, now: Time) returns (changed: bool)
      modifies this`products, this`deals
      ensures Result(View(), Counted(changed)) == AfterAutoConfirm(old(View()), t, now)
    {
      if t !in deals || !deals[t].trade.status.Delivered? || deals[t].trade.autoConfirmAt.None?
         || now < deals[t].trade.autoConfirmAt.value
      {
        return false;
      }
      var trade := deals[t].trade;
      UpdateTrade(t, trade.(status := TradeStatus.Confirmed, confirmedAt := Some(now)));
      UpdateProduct(trade.product, Sold);
      if deals[t].payment.Some? && deals[t].payment.value.status.Approved? {
        UpdatePayment(t, deals[t].payment.value.(availableAt := Some(now + SETTLEMENT_HOLD_MS),
                                                 settlement := SettlementStatus.Hold));
      }
      AddHistory(t, None, TradeStatus.Delivered, TradeStatus.Confirmed, AutoConfirmedAfter7Days);
      changed := true;
    }

    method ExpireUnpaid(t: TradeId, now: Time) returns (changed: bool)
      modifies this`products, this`deals
      ensures Result(View(), Counted(changed)) == AfterExpireUnpaid(old(View()), t, now)
    {
      if t !in deals || !deals[t].trade.status.Accepted? || deals[t].payment.Some?
         || now < deals[t].trade.updatedAt + UNPAID_ACCEPTANCE_TIMEOUT_MS
      {
        return false;
      }
      var trade := deals[t].trade;
      UpdateTrade(t, trade.(status := TradeStatus.Cancelled, cancelledAt := Some(now),
                            reason := AutoCancelledUnpaidAfter7Days));
      ReleaseProduct(trade.product);
      AddHistory(t, None, TradeStatus.Accepted, TradeStatus.Cancelled, AutoCancelledUnpaidAfter7Days);
      changed := true;
    }

    // ---------- PaymentService ----------

    // The stored answer to a key, or the refusal of a key that is malformed or belongs to another request.
    method Replay(key: IdempotencyKey, request: Request) returns (answer: Option<Outcome>)
      ensures answer == Market.Replay(View(), key, request)
    {
      if |key| < 8 || |key| > 200 {
        return Some(Refused(IdempotencyKeyRequired));
      }
      if key !in operations {
        return None;
      }
      var operation := operations[key];
      if operation.request != request {
        return Some(Refused(IdempotencyKeyReused));
      }
      answer := Some(Answered(operation.response));
    }

    method Record(t: TradeId, key: IdempotencyKey, request: Request) returns (response: Response)
      requires t in deals && deals[t].payment.Some?
      modifies this`operations
      ensures Result(View(), Answered(response)) == Recorded(old(View()), t, key, request)
    {
      response := Response(t, deals[t].payment.value);
      operations := operations[key := Operation(request, response)];
    }

    method CreateOrder(user: UserId, t: TradeId, key: IdempotencyKey, order: OrderId) returns (outcome: Outcome)
      modifies this`deals, this`orders, this`operations
      ensures Result(View(), outcome) == AfterCreateOrder(old(View()), user, t, key, order)
    {
      var request := CreateOrderRequest(t, user);
      var replay := Replay(key, request);
      hide Market.Replay;
      if replay.Some? {
        return replay.value;
      }
      if t !in deals || deals[t].trade.buyer != user || !deals[t].trade.status.Accepted? {
        return Refused(PayableTradeNotFound);
      }
      if deals[t].payment.Some? {
        return Refused(PaymentOrderExists);
      }
      var trade := deals[t].trade;
      if trade.product !in products || !products[trade.product].status.Reserved? {
        return Refused(TradeProductStateMismatch);
      }
      if order in orders {
        return Refused(UniqueViolation(OrderKey));
      }
      UpdatePayment(t, Payment(order, None, trade.price, PaymentStatus.Ready, SettlementStatus.Hold,
                               None, None, None, None, None, NoFailure, None));
      orders := orders[order := t];
      var response := Record(t, key, request);
      outcome := Answered(response);
    }

    method ConfirmPayment(user: UserId, path: OrderId, paymentKey: PaymentKey, order: OrderId, amount: nat,
                          key: IdempotencyKey)
      returns (outcome: Outcome)
      modifies this`deals, this`operations, toss
      ensures Result(View(), outcome) == AfterConfirmPayment(old(View()), user, path, paymentKey, order, amount, key)
    {
      var request := ConfirmRequest(paymentKey, order, amount);
      var replay := Replay(key, request);
      hide Market.Replay, Toss.RecordAfterConfirm, Toss.AfterConfirm, HasEntry;
      if replay.Some? {
        return replay.value;
      }
      if order != path {
        return Refused(OrderIdMismatch);
      }
      if path !in orders || orders[path] !in deals || deals[orders[path]].payment.None?
         || deals[orders[path]].trade.buyer != user
      {
        return Refused(PaymentNotFound);
      }
      var t := orders[path];
      var trade, payment := deals[t].trade, deals[t].payment.value;
      if payment.amount != amount {
        return Refused(PaymentAmountMismatch);
      }
      if !payment.status.Ready? {
        return Refused(PaymentNotReady);
      }
      if !trade.status.Accepted? || trade.product !in products || !products[trade.product].status.Reserved? {
        return Refused(TradeProductStateMismatch);
      }
      var approved := toss.Confirm(paymentKey, path, payment.amount);
      if approved.order != path || approved.amount != payment.amount || !approved.status.Done? {
        return Refused(ProviderConfirmationMismatch);
      }
      outcome := Capture(t, paymentKey, key, request);
    }

    // The transaction behind an approved payment: a unique index that is hit rolls it back.
    method Capture(t: TradeId, paymentKey: PaymentKey, key: IdempotencyKey, request: Request) returns (outcome: Outcome)
      requires t in deals && deals[t].payment.Some?
      modifies this`deals, this`operations
      ensures Result(View(), outcome) ==
                if KeyTaken(old(View()), paymentKey, t) then Result(old(View()), Refused(UniqueViolation(PaymentKeyIndex)))
                else if HasEntry(old(deals[t]).ledger, EscrowCapture) then
                  Result(old(View()), Refused(UniqueViolation(LedgerIndex)))
                else Recorded(WithDeal(old(View()), t, CapturedDeal(old(deals[t]), paymentKey, clock)), t, key, request)
    {
      var taken :=
        exists x :: x in deals && x != t && deals[x].payment.Some? && deals[x].payment.value.key == Some(paymentKey);
      if taken {
        return Refused(UniqueViolation(PaymentKeyIndex));
      }
      if HasEntry(deals[t].ledger, EscrowCapture) {
        return Refused(UniqueViolation(LedgerIndex));
      }
      hide HasEntry, KeyTaken;
      var payment := deals[t].payment.value.(key := Some(paymentKey), status := PaymentStatus.Approved,
                                             approvedAt := Some(clock));
      UpdatePayment(t, payment);
      AddLedger(t, EscrowCapture, payment.amount, SandboxApproved);
      var response := Record(t, key, request);
      outcome := Answered(response);
    }

    method Reverse(user: UserId, order: OrderId, text: string, key: IdempotencyKey, cancel: bool)
      returns (outcome: Outcome)
      modifies this`products, this`deals, this`operations, toss
      ensures Result(View(), outcome) == AfterReverse(old(View()), user, order, text, key, cancel)
    {
      var request := ReverseRequest(order, text, user, cancel);
      var replay := Replay(key, request);
      hide Market.Replay, ReverseRequest, Toss.AfterReverse, HasEntry, VoidedDeal, RefundedDeal, ProductSetTo;
      if replay.Some? {
        return replay.value;
      }
      if order !in orders || orders[order] !in deals || deals[orders[order]].payment.None?
         || (deals[orders[order]].trade.buyer != user && deals[orders[order]].trade.seller != user)
      {
        return Refused(PaymentNotFound);
      }
      var t := orders[order];
      var trade, payment := deals[t].trade, deals[t].payment.value;
      if !payment.status.Approved? || payment.key.None? {
        return Refused(PaymentNotReversible);
      }
      if cancel && (!trade.status.Accepted? || trade.buyer != user) {
        return Refused(CancellationNotAllowed);
      }
      if cancel && (payment.approvedAt.None? || payment.approvedAt.value + 7 * DAY_MS < clock) {
        return Refused(CancellationWindowExpired);
      }
      if !cancel && !trade.status.Confirmed? && !trade.status.Disputed? {
        return Refused(RefundNotAllowed);
      }
      var sandbox: Option<ProviderRecord>;
      if cancel {
        sandbox := toss.Cancel(payment.key.value);
      } else {
        sandbox := toss.Refund(payment.key.value);
      }
      if sandbox.None? {
        return Refused(SandboxPaymentNotFound);
      }
      if HasEntry(deals[t].ledger, if cancel then Cancellation else Refund) {
        return Refused(UniqueViolation(LedgerIndex));
      }
      if cancel {
        VoidPayment(user, t, text);
      } else {
        RefundPayment(user, t, text);
      }
      var response := Record(t, key, request);
      outcome := Answered(response);
    }

    // The rows a cancellation writes.
    method VoidPayment(user: UserId, t: TradeId, text: string)
      requires t in deals && deals[t].payment.Some?
      modifies this`products, this`deals
      ensures deals == old(deals)[t := VoidedDeal(old(deals[t]), user, text, clock)] && deals[t].payment.Some?
      ensures products == ProductSetTo(old(products), old(deals[t]).trade.product, ProductStatus.Active)
    {
      var trade := deals[t].trade;
      var payment := deals[t].payment.value.(status := PaymentStatus.Cancelled, settlement := SettlementStatus.Paused,
                                             cancelledAt := Some(clock));
      UpdatePayment(t, payment);
      UpdateTrade(t, trade.(status := TradeStatus.Cancelled, cancelledAt := Some(clock), reason := Stated(text)));
      UpdateProduct(trade.product, ProductStatus.Active);
      AddHistory(t, Some(user), trade.status, TradeStatus.Cancelled, Stated(text));
      AddLedger(t, Cancellation, 0 - payment.amount, Stated(text));
    }

    // The rows a refund writes; a trade already in dispute stays as it is.
    method RefundPayment(user: UserId, t: TradeId, text: string)
      requires t in deals && deals[t].payment.Some?
      modifies this`deals
      ensures deals == old(deals)[t := RefundedDeal(old(deals[t]), user, text, clock)] && deals[t].payment.Some?
    {
      var trade := deals[t].trade;
      var payment := deals[t].payment.value.(status := PaymentStatus.Refunded, settlement := SettlementStatus.Paused,
                                             refundedAt := Some(clock));
      UpdatePayment(t, payment);
      if !trade.status.Disputed? {
        UpdateTrade(t, trade.(status := TradeStatus.Disputed, disputedAt := Some(clock), reason := Stated(text)));
        AddHistory(t, Some(user), trade.status, TradeStatus.Disputed, Stated(text));
      }
      AddLedger(t, Refund, 0 - payment.amount, Stated(text));
    }

    // ---------- AdminService, ProductService ----------

    method ReconcilePayment(order: OrderId) returns (outcome: Outcome)
      modifies this`deals
      ensures Result(View(), outcome) == AfterReconcile(old(View()), order)
    {
      if order !in orders || orders[order] !in deals || deals[orders[order]].payment.None? {
        return Refused(PaymentNotReconcilable);
      }
      var t := orders[order];
      var payment := deals[t].payment.value;
      if payment.key.None? {
        return Refused(PaymentNotReconcilable);
      }
      var provider := toss.Lookup(payment.key.value);
      var matched := provider.Some? && provider.value.order == payment.order && provider.value.amount == payment.amount
        && ExpectedStatus(provider.value.status) == payment.status;
      UpdatePayment(t, payment.(failure := if matched then NoFailure else ReconciliationMismatch,
                                 checkedAt := Some(clock)));
      outcome := Reconciled(matched);
    }

    // What a verified webhook writes to its payment, in the transaction of the sequence number.
    method NoteVerifiedWebhook(order: OrderId) returns (outcome: Outcome)
      modifies this`deals
      ensures Result(View(), outcome) == AfterWebhookVerified(old(View()), order)
    {
      if order !in orders || orders[order] !in deals || deals[orders[order]].payment.None? {
        return Refused(PaymentNotFound);
      }
      var t := orders[order];
      UpdatePayment(t, deals[t].payment.value.(failure := NoFailure, checkedAt := Some(clock)));
      outcome := Completed;
    }

    method CreateProduct(user: UserId, p: ProductId, price: nat) returns (outcome: Outcome)
      modifies this`products
      ensures Result(View(), outcome) == AfterCreateProduct(old(View()), user, p, price)
    {
      if p in products {
        return Refused(UniqueViolation(ProductKey));
      }
      products := products[p := Product(user, price, ProductStatus.Active)];
      outcome := Completed;
    }

    method EditPrice(user: UserId, p: ProductId, price: nat) returns (outcome: Outcome)
      modifies this`products
      ensures Result(View(), outcome) == AfterEditPrice(old(View()), user, p, price)
    {
      if p !in products || products[p].author != user || products[p].status.Deleted? {
        return Refused(ProductNotFound);
      }
      if products[p].status.Reserved? {
        return Refused(ProductLockedByActiveTrade);
      }
      products := products[p := products[p].(price := price)];
      outcome := Completed;
    }

    method SetStatus(user: UserId, p: ProductId, visible: bool) returns (outcome: Outcome)
      modifies this`products
      ensures Result(View(), outcome) == AfterSetVisibility(old(View()), user, p, visible)
    {
      if p !in products || products[p].author != user || products[p].status.Deleted? {
        return Refused(ProductNotFound);
      }
      UpdateProduct(p, if visible then ProductStatus.Active else Hidden);
      outcome := Completed;
    }

    method HideProduct(p: ProductId) returns (outcome: Outcome)
      modifies this`products
      ensures Result(View(), outcome) == AfterHideByAdmin(old(View()), p)
    {
      if p !in products {
        return Refused(ProductNotFound);
      }
      UpdateProduct(p, Hidden);
      outcome := Completed;
    }

    method RemoveProduct(user: UserId, p: ProductId) returns (outcome: Outcome)
      modifies this`products
      ensures Result(View(), outcome) == AfterRemoveProduct(old(View()), user, p)
    {
      if p !in products || products[p].author != user || products[p].status.Deleted? {
        return Refused(ProductNotFound);
      }
      var active := exists t :: t in deals && deals[t].trade.product == p && ActiveTradeStatus(deals[t].trade.status);
      if products[p].status.Reserved? || active {
        return Refused(ProductLockedByActiveTrade);
      }
      UpdateProduct(p, Deleted);
      outcome := Completed;
    }
  }
}

/** Which payment calls are answered, exactly, what the answer says, and what the call writes. */
module PaymentCalls {
  import opened Rows
  import opened Deals
  import opened DealInvariant
  import opened Market
  import opened MarketInvariant
  import opened DealChanges
  import opened Acceptance
  import Toss

  // A well-formed key no call has been answered under.
  predicate FreshKey(s: State, key: IdempotencyKey) {
    8 <= |key| <= 200 && key !in s.operations
  }

  lemma FreshKeyIsNotReplayed(s: State, key: IdempotencyKey, request: Request)
    requires FreshKey(s, key)
    ensures Replay(s, key, request) == None
  {
  }

  lemma MalformedKeysAreRefused(s: State, key: IdempotencyKey, user: UserId, t: TradeId, path: OrderId, paymentKey: PaymentKey,
                                order: OrderId, amount: nat, text: string, cancel: bool)
    requires |key| < 8 || 200 < |key|
    ensures AfterCreateOrder(s, user, t, key, order) == Result(s, Refused(IdempotencyKeyRequired))
    ensures AfterConfirmPayment(s, user, path, paymentKey, order, amount, key) == Result(s, Refused(IdempotencyKeyRequired))
    ensures AfterReverse(s, user, order, text, key, cancel) == Result(s, Refused(IdempotencyKeyRequired))
  {
    hide HasEntry, KeyTaken, OrderedDeal, CapturedDeal, VoidedDeal, RefundedDeal, Participant, PaymentOf;
  }

  // The answer is the payment row as the call left it, stored under the key.
  predicate AnswersWith(result: Result, s: State, t: TradeId, key: IdempotencyKey, request: Request, p: Payment) {
    && result.outcome == Answered(Response(t, p)) && t in result.state.deals && result.state.deals[t].payment == Some(p)
    && result.state.operations == s.operations[key := Operation(request, Response(t, p))]
  }

  // ---------- Payment order ----------

  predicate Orderable(s: State, user: UserId, t: TradeId) {
    && t in s.deals && s.deals[t].trade.buyer == user && s.deals[t].trade.status.Accepted? && s.deals[t].payment.None?
    && s.deals[t].trade.product in s.products && s.products[s.deals[t].trade.product].status.Reserved?
  }

  lemma OrderAnsweredExactly(s: State, user: UserId, t: TradeId, key: IdempotencyKey, order: OrderId)
    requires FreshKey(s, key)
    ensures var result := AfterCreateOrder(s, user, t, key, order);
            && (result.outcome.Answered? <==> Orderable(s, user, t) && order !in s.orders)
            && (!result.outcome.Answered? ==> result.state == s)
            && (result.outcome.Answered? ==>
                  && t in s.deals && result.state.products == s.products && result.state.orders == s.orders[order := t]
                  && AnswersWith(result, s, t, key, CreateOrderRequest(t, user),
                       Payment(order, None, s.deals[t].trade.price, PaymentStatus.Ready, SettlementStatus.Hold,
                               None, None, None, None, None, NoFailure, None)))
  {
    hide Replay;
    FreshKeyIsNotReplayed(s, key, CreateOrderRequest(t, user));
  }

  // ---------- Confirmation ----------

  // The stated amount and the caller are those of the payment, which waits for its confirmation.
  predicate Payable(s: State, user: UserId, order: OrderId, amount: nat) {
    && order in s.orders && s.orders[order] in s.deals
    && var d := s.deals[s.orders[order]];
       && d.payment.Some? && d.trade.buyer == user && d.payment.value.amount == amount
       && d.payment.value.status.Ready? && d.trade.status.Accepted?
       && d.trade.product in s.products && s.products[d.trade.product].status.Reserved?
  }

  predicate ProviderAccepts(s: State, paymentKey: PaymentKey, order: OrderId, amount: nat) {
    paymentKey in s.provider ==> s.provider[paymentKey] == ProviderRecord(order, amount, ProviderStatus.Done)
  }

  lemma WaitingPayment(s: State, t: TradeId)
    requires Inv(s) && t in s.deals && s.deals[t].payment.Some? && s.deals[t].payment.value.status.Ready?
    ensures s.deals[t].payment.value.key.None? && !HasEntry(s.deals[t].ledger, EscrowCapture)
  {
    hide DealOk, OrdersIndexed, ProviderAgrees, HasEntry;
    WaitingDeal(s.deals[t], s.clock);
  }

  lemma WaitingDeal(d: Deal, at: Time)
    requires DealOk(d, at) && d.payment.Some? && d.payment.value.status.Ready?
    ensures d.payment.value.key.None? && !HasEntry(d.ledger, EscrowCapture)
  {
    hide HistoryReplays, TradeTimely, SettlementSound, PaymentTimely, HasReason, HasEntry, NoEntryTwice, Balance, Held;
    assert !Expects(d.payment.value, EscrowCapture);
  }

  // The provider knows a key only from a payment that has it.
  lemma KnownKeyHasPayment(s: State, paymentKey: PaymentKey)
    requires Inv(s) && paymentKey in s.provider
    ensures var order := s.provider[paymentKey].order;
            PaymentOf(s, order) && s.deals[s.orders[order]].payment.value.key == Some(paymentKey)
  {
    hide DealsOk, OrdersIndexed;
  }

  lemma TakenKeyIsKnown(s: State, paymentKey: PaymentKey, t: TradeId)
    requires Inv(s) && KeyTaken(s, paymentKey, t)
    ensures paymentKey in s.provider
  {
    hide DealsOk, OrdersIndexed;
    var x :| x in s.deals && x != t && s.deals[x].payment.Some? && s.deals[x].payment.value.key == Some(paymentKey);
    assert ProviderMatches(s, s.deals[x].payment.value);
  }

  lemma UnknownKey(s: State, t: TradeId, paymentKey: PaymentKey, order: OrderId, amount: nat)
    requires Inv(s) && t in s.deals && order in s.orders && s.orders[order] == t
    requires s.deals[t].payment.Some? && s.deals[t].payment.value.key.None?
    requires ProviderAccepts(s, paymentKey, order, amount)
    ensures paymentKey !in s.provider && !KeyTaken(s, paymentKey, t)
  {
    hide Inv, KeyTaken;
    if paymentKey in s.provider {
      KnownKeyHasPayment(s, paymentKey);
    }
    if KeyTaken(s, paymentKey, t) {
      TakenKeyIsKnown(s, paymentKey, t);
    }
  }

  lemma ConfirmationUnfolds(s: State, user: UserId, path: OrderId, paymentKey: PaymentKey, order: OrderId, amount: nat,
                            key: IdempotencyKey)
    requires FreshKey(s, key) && PaymentOf(s, path)
    requires var t := s.orders[path];
             Payable(s, user, path, amount) && ProviderAccepts(s, paymentKey, path, amount) ==>
               paymentKey !in s.provider && !KeyTaken(s, paymentKey, t) && !HasEntry(s.deals[t].ledger, EscrowCapture)
    ensures var result := AfterConfirmPayment(s, user, path, paymentKey, order, amount, key);
            && (result.outcome.Answered? <==>
                  order == path && Payable(s, user, path, amount) && ProviderAccepts(s, paymentKey, path, amount))
            && (!result.outcome.Answered? ==> result.state == s)
            && (result.outcome.Answered? ==>
                  var t := s.orders[path];
                  && result.state.deals == s.deals[t := CapturedDeal(s.deals[t], paymentKey, s.clock)]
                  && AnswersWith(result, s, t, key, ConfirmRequest(paymentKey, order, amount),
                       s.deals[t].payment.value.(key := Some(paymentKey), status := PaymentStatus.Approved,
                                                 approvedAt := Some(s.clock)))
                  && result.state.products == s.products && result.state.orders == s.orders
                  && result.state.provider == s.provider[paymentKey := ProviderRecord(path, amount, ProviderStatus.Done)])
  {
    hide Replay, HasEntry, KeyTaken;
    FreshKeyIsNotReplayed(s, key, ConfirmRequest(paymentKey, order, amount));
    assert paymentKey in s.provider ==> Toss.AfterConfirm(s.provider, paymentKey, path, amount) == s.provider;
  }

  // In a reachable state a fresh confirmation is answered if and only if it states the payment's own order and
  // amount, comes from the buyer, the payment is waiting, its trade accepted, the product reserved, and the
  // provider does not know the key for anything else. It then captures exactly that amount; otherwise
  // nothing changes, at the provider neither.
  lemma ConfirmationAnsweredExactly(s: State, user: UserId, path: OrderId, paymentKey: PaymentKey, order: OrderId,
                                    amount: nat, key: IdempotencyKey)
    requires Inv(s) && FreshKey(s, key)
    ensures var result := AfterConfirmPayment(s, user, path, paymentKey, order, amount, key);
            && (result.outcome.Answered? <==>
                  order == path && Payable(s, user, path, amount) && ProviderAccepts(s, paymentKey, path, amount))
            && (!result.outcome.Answered? ==> result.state == s)
            && (result.outcome.Answered? ==>
                  && path in s.orders && s.orders[path] in s.deals
                  && var t := s.orders[path];
                     && s.deals[t].payment.Some? && t in result.state.deals
                     && AnswersWith(result, s, t, key, ConfirmRequest(paymentKey, order, amount),
                          s.deals[t].payment.value.(key := Some(paymentKey), status := PaymentStatus.Approved,
                                                    approvedAt := Some(s.clock)))
                     && result.state.deals[t].trade == s.deals[t].trade && result.state.products == s.products
                     && |result.state.deals[t].ledger| == |s.deals[t].ledger| + 1
                     && result.state.deals[t].ledger[|s.deals[t].ledger|] == LedgerRow(EscrowCapture, amount, SandboxApproved)
                     && result.state.provider == s.provider[paymentKey := ProviderRecord(path, amount, ProviderStatus.Done)])
  {
    hide Inv, AfterConfirmPayment, HasEntry, KeyTaken, Payable, ProviderAccepts;
    if PaymentOf(s, path) {
      if Payable(s, user, path, amount) && ProviderAccepts(s, paymentKey, path, amount) {
        PayableWaits(s, user, path, amount);
        WaitingPayment(s, s.orders[path]);
        UnknownKey(s, s.orders[path], paymentKey, path, amount);
      }
      ConfirmationUnfolds(s, user, path, paymentKey, order, amount, key);
      if AfterConfirmPayment(s, user, path, paymentKey, order, amount, key).outcome.Answered? {
        PayableWaits(s, user, path, amount);
      }
    } else {
      UnknownOrder(s, user, path, paymentKey, order, amount, key);
    }
  }

  lemma PayableWaits(s: State, user: UserId, path: OrderId, amount: nat)
    requires PaymentOf(s, path) && Payable(s, user, path, amount)
    ensures s.deals[s.orders[path]].payment.value.status.Ready? && s.deals[s.orders[path]].payment.value.amount == amount
  {
  }

  lemma UnknownOrder(s: State, user: UserId, path: OrderId, paymentKey: PaymentKey, order: OrderId, amount: nat,
                     key: IdempotencyKey)
    requires FreshKey(s, key) && !PaymentOf(s, path)
    ensures !Payable(s, user, path, amount)
    ensures var result := AfterConfirmPayment(s, user, path, paymentKey, order, amount, key);
            !result.outcome.Answered? && result.state == s
  {
    hide Replay;
    FreshKeyIsNotReplayed(s, key, ConfirmRequest(paymentKey, order, amount));
  }

  // ---------- Cancellation and refund ----------

  // From the buyer of an accepted trade, within seven days of the payment.
  predicate Cancellable(s: State, user: UserId, order: OrderId) {
    && order in s.orders && s.orders[order] in s.deals
    && var d := s.deals[s.orders[order]];
       && d.payment.Some? && d.payment.value.status.Approved? && d.trade.buyer == user && d.trade.status.Accepted?
       && d.payment.value.approvedAt.Some? && s.clock <= d.payment.value.approvedAt.value + SEVEN_DAYS
  }

  // From either side at any time after the confirmation or in dispute. The requirement names the buyer and
  // seven days; the service checks neither.
  predicate Refundable(s: State, user: UserId, order: OrderId) {
    && order in s.orders && s.orders[order] in s.deals
    && var d := s.deals[s.orders[order]];
       && d.payment.Some? && d.payment.value.status.Approved? && (d.trade.buyer == user || d.trade.seller == user)
       && (d.trade.status.Confirmed? || d.trade.status.Disputed?)
  }

  lemma ApprovedDeal(d: Deal, at: Time)
    requires DealOk(d, at) && d.payment.Some? && d.payment.value.status.Approved?
    ensures d.payment.value.key.Some? && d.payment.value.approvedAt.Some?
  {
    hide HistoryReplays, TradeTimely, MoneyOk;
  }

  // What the checks of a reversal rely on: the key, the provider's record of it, and no row of the kind yet.
  predicate Reversible(s: State, t: TradeId, entry: EntryType) {
    && t in s.deals && s.deals[t].payment.Some? && s.deals[t].payment.value.key.Some?
    && s.deals[t].payment.value.approvedAt.Some? && s.deals[t].payment.value.key.value in s.provider
    && s.deals[t].trade.product in s.products && !HasEntry(s.deals[t].ledger, entry)
  }

  lemma ApprovedIsReversible(s: State, t: TradeId, cancel: bool)
    requires Inv(s) && t in s.deals && s.deals[t].payment.Some? && s.deals[t].payment.value.status.Approved?
    requires if cancel then s.deals[t].trade.status.Accepted?
             else s.deals[t].trade.status.Confirmed? || s.deals[t].trade.status.Disputed?
    ensures Reversible(s, t, if cancel then Cancellation else EntryType.Refund)
  {
    hide DealOk, OrdersIndexed, ProviderAgrees, HasEntry;
    ReversalPossible(s, t, cancel);
    ApprovedDeal(s.deals[t], s.clock);
    KeyKnown(s, t);
  }

  lemma CancellationUnfolds(s: State, user: UserId, order: OrderId, text: string, key: IdempotencyKey)
    requires FreshKey(s, key)
    requires Cancellable(s, user, order) ==> Reversible(s, s.orders[order], Cancellation)
    ensures var result := AfterReverse(s, user, order, text, key, true);
            && (result.outcome.Answered? <==> Cancellable(s, user, order))
            && (!result.outcome.Answered? ==> result.state == s)
            && (result.outcome.Answered? ==>
                  var t := s.orders[order];
                  var d := s.deals[t];
                  var p := d.payment.value;
                  && d.trade.product in s.products && p.key.Some? && p.key.value in s.provider
                  && AnswersWith(result, s, t, key, CancelRequest(order, text, user),
                       p.(status := PaymentStatus.Cancelled, settlement := SettlementStatus.Paused,
                          cancelledAt := Some(s.clock)))
                  && result.state.deals[t].trade
                     == d.trade.(status := TradeStatus.Cancelled, cancelledAt := Some(s.clock), reason := Stated(text),
                                 updatedAt := s.clock)
                  && result.state.deals[t].ledger == d.ledger + [LedgerRow(Cancellation, 0 - p.amount, Stated(text))]
                  && result.state.products
                     == s.products[d.trade.product := s.products[d.trade.product].(status := ProductStatus.Active)]
                  && result.state.provider
                     == s.provider[p.key.value := s.provider[p.key.value].(status := ProviderStatus.Canceled)])
  {
    hide Replay, HasEntry;
    FreshKeyIsNotReplayed(s, key, CancelRequest(order, text, user));
  }

  // In a reachable state a fresh cancellation is answered if and only if it is allowed; it then gives the
  // money back and the product too. Otherwise nothing changes, at the provider neither.
  lemma CancellationAnsweredExactly(s: State, user: UserId, order: OrderId, text: string, key: IdempotencyKey)
    requires Inv(s) && FreshKey(s, key)
    ensures var result := AfterReverse(s, user, order, text, key, true);
            && (result.outcome.Answered? <==> Cancellable(s, user, order))
            && (!result.outcome.Answered? ==> result.state == s)
            && (result.outcome.Answered? ==>
                  && order in s.orders && s.orders[order] in s.deals
                  && var t := s.orders[order];
                     var d := s.deals[t];
                     && d.payment.Some? && t in result.state.deals
                     && var p := d.payment.value;
                        && d.trade.product in s.products && p.key.Some? && p.key.value in s.provider
                        && AnswersWith(result, s, t, key, CancelRequest(order, text, user),
                             p.(status := PaymentStatus.Cancelled, settlement := SettlementStatus.Paused,
                                cancelledAt := Some(s.clock)))
                        && result.state.deals[t].trade
                           == d.trade.(status := TradeStatus.Cancelled, cancelledAt := Some(s.clock),
                                       reason := Stated(text), updatedAt := s.clock)
                        && result.state.deals[t].ledger == d.ledger + [LedgerRow(Cancellation, 0 - p.amount, Stated(text))]
                        && result.state.products
                           == s.products[d.trade.product := s.products[d.trade.product].(status := ProductStatus.Active)]
                        && result.state.provider
                           == s.provider[p.key.value := s.provider[p.key.value].(status := ProviderStatus.Canceled)])
  {
    hide Inv, AfterReverse, Reversible;
    if Cancellable(s, user, order) {
      ApprovedIsReversible(s, s.orders[order], true);
    }
    CancellationUnfolds(s, user, order, text, key);
  }

  lemma RefundUnfolds(s: State, user: UserId, order: OrderId, text: string, key: IdempotencyKey)
    requires FreshKey(s, key)
    requires Refundable(s, user, order) ==> Reversible(s, s.orders[order], EntryType.Refund)
    ensures var result := AfterReverse(s, user, order, text, key, false);
            && (result.outcome.Answered? <==> Refundable(s, user, order))
            && (!result.outcome.Answered? ==> result.state == s)
            && (result.outcome.Answered? ==>
                  var t := s.orders[order];
                  var d := s.deals[t];
                  var p := d.payment.value;
                  && p.key.Some? && p.key.value in s.provider && result.state.products == s.products
                  && AnswersWith(result, s, t, key, RefundRequest(order, text, user),
                       p.(status := PaymentStatus.Refunded, settlement := SettlementStatus.Paused,
                          refundedAt := Some(s.clock)))
                  && result.state.deals[t].trade
                     == (if d.trade.status.Disputed? then d.trade
                         else d.trade.(status := TradeStatus.Disputed, disputedAt := Some(s.clock), reason := Stated(text),
                                       updatedAt := s.clock))
                  && result.state.deals[t].ledger == d.ledger + [LedgerRow(EntryType.Refund, 0 - p.amount, Stated(text))]
                  && result.state.provider
                     == s.provider[p.key.value := s.provider[p.key.value].(status := ProviderStatus.Refunded)])
  {
    hide Replay, HasEntry;
    FreshKeyIsNotReplayed(s, key, RefundRequest(order, text, user));
  }

  lemma RefundAnsweredExactly(s: State, user: UserId, order: OrderId, text: string, key: IdempotencyKey)
    requires Inv(s) && FreshKey(s, key)
    ensures var result := AfterReverse(s, user, order, text, key, false);
            && (result.outcome.Answered? <==> Refundable(s, user, order))
            && (!result.outcome.Answered? ==> result.state == s)
            && (result.outcome.Answered? ==>
                  && order in s.orders && s.orders[order] in s.deals
                  && var t := s.orders[order];
                     var d := s.deals[t];
                     && d.payment.Some? && t in result.state.deals
                     && var p := d.payment.value;
                        && p.key.Some? && p.key.value in s.provider && result.state.products == s.products
                        && AnswersWith(result, s, t, key, RefundRequest(order, text, user),
                             p.(status := PaymentStatus.Refunded, settlement := SettlementStatus.Paused,
                                refundedAt := Some(s.clock)))
                        && result.state.deals[t].trade
                           == (if d.trade.status.Disputed? then d.trade
                               else d.trade.(status := TradeStatus.Disputed, disputedAt := Some(s.clock),
                                             reason := Stated(text), updatedAt := s.clock))
                        && result.state.deals[t].ledger
                           == d.ledger + [LedgerRow(EntryType.Refund, 0 - p.amount, Stated(text))]
                        && result.state.provider
                           == s.provider[p.key.value := s.provider[p.key.value].(status := ProviderStatus.Refunded)])
  {
    hide Inv, AfterReverse, Reversible;
    if Refundable(s, user, order) {
      ApprovedIsReversible(s, s.orders[order], false);
    }
    RefundUnfolds(s, user, order, text, key);
  }

  // ---------- Reconciliation ----------

  // It is open to every payment that has been confirmed once, and then always finds the provider in agreement:
  // it clears the failure code, notes the time, and changes nothing else.
  lemma ReconciledExactly(s: State, order: OrderId)
    requires Inv(s)
    ensures var result := AfterReconcile(s, order);
            if order in s.orders && s.orders[order] in s.deals && s.deals[s.orders[order]].payment.Some?
               && s.deals[s.orders[order]].payment.value.approvedAt.Some?
            then
              var t := s.orders[order];
              var checked := s.deals[t].payment.value.(failure := NoFailure, checkedAt := Some(s.clock));
              result == Result(s.(deals := s.deals[t := s.deals[t].(payment := Some(checked))]), Reconciled(true))
            else result == Result(s, Refused(PaymentNotReconcilable))
  {
    hide DealOk, OrdersIndexed, ProviderAgrees, ProviderMatches;
    if PaymentOf(s, order) {
      KeyedOnceApproved(s.deals[s.orders[order]], s.clock);
      if s.deals[s.orders[order]].payment.value.key.Some? {
        KeyKnown(s, s.orders[order]);
      }
    }
  }

  lemma KeyedOnceApproved(d: Deal, at: Time)
    requires DealOk(d, at) && d.payment.Some?
    ensures d.payment.value.key.Some? <==> d.payment.value.approvedAt.Some?
  {
    hide HistoryReplays, TradeTimely, MoneyOk;
  }

  // A verified webhook clears the failure code of its payment and notes the time, and changes nothing else.
  lemma WebhookNotedExactly(s: State, order: OrderId)
    ensures var result := AfterWebhookVerified(s, order);
            if order in s.orders && s.orders[order] in s.deals && s.deals[s.orders[order]].payment.Some? then
              var t := s.orders[order];
              var noted := s.deals[t].payment.value.(failure := NoFailure, checkedAt := Some(s.clock));
              result == Result(s.(deals := s.deals[t := s.deals[t].(payment := Some(noted))]), Completed)
            else result == Result(s, Refused(PaymentNotFound))
  {
  }
}

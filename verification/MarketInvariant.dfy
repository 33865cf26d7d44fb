/** The invariant of the whole market, kept by every step of every run. */
module MarketInvariant {
  import opened Rows
  import opened Deals
  import opened DealInvariant
  import opened Market
  import opened DealChanges
  import Toss

  ghost predicate DealsOk(s: State) {
    forall t :: t in s.deals ==> s.deals[t].trade.product in s.products && DealOk(s.deals[t], s.clock)
  }

  // The order index and the payment rows describe each other.
  ghost predicate OrdersIndexed(s: State) {
    && (forall o :: o in s.orders ==> PaymentOf(s, o) && s.deals[s.orders[o]].payment.value.order == o)
    && (forall t :: t in s.deals && s.deals[t].payment.Some? ==>
          s.deals[t].payment.value.order in s.orders && s.orders[s.deals[t].payment.value.order] == t)
  }

  // Every approved key has its provider record, and every provider record its payment.
  ghost predicate ProviderAgrees(s: State) {
    && (forall t :: t in s.deals && s.deals[t].payment.Some? && s.deals[t].payment.value.key.Some? ==>
          ProviderMatches(s, s.deals[t].payment.value))
    && (forall k :: k in s.provider ==>
          PaymentOf(s, s.provider[k].order) && s.deals[s.orders[s.provider[k].order]].payment.value.key == Some(k))
  }

  ghost predicate Inv(s: State) {
    DealsOk(s) && OrdersIndexed(s) && ProviderAgrees(s)
  }

  // ---------- The rows of every trade ----------

  lemma SettledWholeOk(d: Deal, now: Time, attempt: Attempt, at: Time)
    requires DealOk(d, at) && Claimable(d)
    ensures DealOk(SettledWhole(d, now, attempt), at)
  {
    var claimed, i := ClaimedDeal(d, now), |d.claims|;
    assert claimed.payment.Some? && |claimed.claims| == i + 1 && !claimed.claims[i].paid;
    assert PaidOutDeal(claimed, i).payment.Some? && |PaidOutDeal(claimed, i).claims| == i + 1;
    assert PaidOutDeal(claimed, i).claims[i].paid;
    hide DealOk, ClaimedDeal, PaidOutDeal, SettledDeal, FailedDeal;
    ClaimedOk(d, now, at);
    match attempt
    case SandboxRelease => SettledOk(claimed, i, true, at);
    case ProviderPays => PaidOutOk(claimed, i, at); SettledOk(PaidOutDeal(claimed, i), i, false, at);
    case ProviderFails => FailedOk(claimed, i, at);
    case ProviderPaysThenFails => PaidOutOk(claimed, i, at); FailedOk(PaidOutDeal(claimed, i), i, at);
  }

  lemma ChangeKeeps(d: Deal, c: Change, at: Time)
    requires DealOk(d, at) && Permitted(d, c, at)
    ensures DealOk(Apply(d, c, at), at)
  {
    hide DealOk, HasEntry;
    match c
    case Keep =>
    case Accept(user) => AcceptedOk(d, user, at);
    case Reject(user, reason) => RejectedOk(d, user, reason, at);
    case Deliver(user) => DeliveredOk(d, user, at);
    case Confirm(actor, confirmedAt, reason) => ConfirmedOk(d, actor, confirmedAt, reason, at);
    case Dispute(user, reason) => DisputedOk(d, user, reason.text, at);
    case Cancel(actor, cancelledAt, reason) => CancelledOk(d, actor, cancelledAt, reason, at);
    case Order(order) => OrderedOk(d, order, at);
    case Capture(key) => CapturedOk(d, key, at);
    case Void(user, text) => VoidedOk(d, user, text, at);
    case Refund(user, text) => RefundedOk(d, user, text, at);
    case Check(failure) => CheckedOk(d, failure, at);
    case MarkReady(now) => MarkedReadyOk(d, now, at);
    case Claim(now) => ClaimedOk(d, now, at);
    case PayOut(i) => PaidOutOk(d, i, at);
    case Settle(i, sandbox) => SettledOk(d, i, sandbox, at);
    case Fail(i) => FailedOk(d, i, at);
    case Crash(i) => CrashedOk(d, i, at);
    case SettleWhole(now, attempt) => SettledWholeOk(d, now, attempt, at);
  }

  lemma NewTrade(s: State, step: Step, t: TradeId)
    requires step.RequestTrade? && t !in s.deals && t in Next(s, step).state.deals
    ensures step.product in s.products && Next(s, step).state.products == s.products
    ensures Next(s, step).state.deals[t] ==
              Opened(step.product, step.user, s.products[step.product].author, s.products[step.product].price, s.clock)
  {
    hide HasActiveTradeOf, Opened;
  }

  lemma DealsStayOk(s: State, step: Step)
    requires DealsOk(s)
    ensures DealsOk(Next(s, step).state)
  {
    var after := Next(s, step).state;
    hide DealOk, Next, Permitted, Apply;
    Frame(s, step);
    forall t | t in after.deals
      ensures after.deals[t].trade.product in after.products && DealOk(after.deals[t], after.clock)
    {
      if t in s.deals {
        var c := StepActs(s, step, t);
        ChangeKeeps(s.deals[t], c, s.clock);
        ChangeKeepsProduct(s.deals[t], c, s.clock);
        LaterIsOk(after.deals[t], s.clock, after.clock);
      } else {
        NewTrade(s, step, t);
        OpenedOk(step.product, step.user, s.products[step.product].author, s.products[step.product].price, s.clock);
      }
    }
  }

  lemma ChangeKeepsProduct(d: Deal, c: Change, at: Time)
    requires Permitted(d, c, at)
    ensures Apply(d, c, at).trade.product == d.trade.product
  {
    hide HasEntry;
  }

  // ---------- The order index and the provider ----------

  // The parts of a payment row that the order index and the provider know about.
  predicate SameOrder(before: Deal, after: Deal) {
    && before.payment.Some? == after.payment.Some?
    && (before.payment.Some? ==> before.payment.value.order == after.payment.value.order)
  }

  predicate SamePayment(before: Deal, after: Deal) {
    && SameOrder(before, after)
    && (before.payment.Some? ==>
          var p, q := before.payment.value, after.payment.value;
          p.key == q.key && p.amount == q.amount && (p.key.Some? ==> p.status == q.status))
  }

  lemma ChangeKeepsPayment(d: Deal, c: Change, at: Time)
    requires Permitted(d, c, at) && !c.Order? && !c.Capture? && !c.Void? && !c.Refund?
    requires Coherent(d.trade.status, d.trade.price, d.payment)
    ensures SamePayment(d, Apply(d, c, at))
  {
    hide HasEntry;
  }

  lemma IndexKept(s: State, after: State)
    requires OrdersIndexed(s) && after.orders == s.orders && after.deals.Keys == s.deals.Keys
    requires forall t :: t in s.deals ==> SameOrder(s.deals[t], after.deals[t])
    ensures OrdersIndexed(after)
  {
  }

  lemma ProviderKept(s: State, after: State)
    requires ProviderAgrees(s)
    requires after.orders == s.orders && after.deals.Keys == s.deals.Keys && after.provider == s.provider
    requires forall t :: t in s.deals ==> SamePayment(s.deals[t], after.deals[t])
    ensures ProviderAgrees(after)
  {
    forall t | t in after.deals && after.deals[t].payment.Some? && after.deals[t].payment.value.key.Some?
      ensures ProviderMatches(after, after.deals[t].payment.value)
    {
      assert SamePayment(s.deals[t], after.deals[t]) && ProviderMatches(s, s.deals[t].payment.value);
    }
  }

  lemma OpenedIndexed(s: State, after: State, t: TradeId)
    requires OrdersIndexed(s) && ProviderAgrees(s)
    requires t !in s.deals && t in after.deals && after.deals == s.deals[t := after.deals[t]]
    requires after.orders == s.orders && after.provider == s.provider && after.deals[t].payment.None?
    ensures OrdersIndexed(after) && ProviderAgrees(after)
  {
    assert OrdersIndexed(after) by { hide ProviderAgrees; }
    forall x | x in after.deals && after.deals[x].payment.Some? && after.deals[x].payment.value.key.Some?
      ensures ProviderMatches(after, after.deals[x].payment.value)
    {
      assert ProviderMatches(s, s.deals[x].payment.value);
    }
  }

  lemma OrderIndexed(s: State, t: TradeId, order: OrderId)
    requires OrdersIndexed(s) && ProviderAgrees(s) && t in s.deals && s.deals[t].payment.None? && order !in s.orders
    ensures var after := WithDeal(s, t, OrderedDeal(s.deals[t], order)).(orders := s.orders[order := t]);
            OrdersIndexed(after) && ProviderAgrees(after)
  {
    var after := WithDeal(s, t, OrderedDeal(s.deals[t], order)).(orders := s.orders[order := t]);
    assert OrdersIndexed(after) by { hide ProviderAgrees; }
    forall x | x in after.deals && after.deals[x].payment.Some? && after.deals[x].payment.value.key.Some?
      ensures ProviderMatches(after, after.deals[x].payment.value)
    {
      assert ProviderMatches(s, s.deals[x].payment.value);
    }
  }

  // The provider record of a payment key follows the payment row.
  lemma ProviderReplaced(s: State, after: State, t: TradeId, key: PaymentKey)
    requires OrdersIndexed(s) && ProviderAgrees(s) && t in s.deals && s.deals[t].payment.Some?
    requires after.orders == s.orders && after.deals.Keys == s.deals.Keys
    requires forall x :: x in s.deals && x != t ==> after.deals[x] == s.deals[x]
    requires after.deals[t].payment.Some? && after.deals[t].payment.value.key == Some(key)
    requires after.deals[t].payment.value.order == s.deals[t].payment.value.order
    requires s.deals[t].payment.value.key.Some? ==> s.deals[t].payment.value.key.value == key
    requires key in after.provider && after.provider == s.provider[key := after.provider[key]]
    requires ProviderMatches(after, after.deals[t].payment.value)
    requires key in s.provider ==> s.provider[key].order == after.deals[t].payment.value.order
    ensures ProviderAgrees(after)
  {
    forall x | x in after.deals && after.deals[x].payment.Some? && after.deals[x].payment.value.key.Some?
      ensures ProviderMatches(after, after.deals[x].payment.value)
    {
      if x != t {
        assert ProviderMatches(s, s.deals[x].payment.value);
      }
    }
    forall k | k in after.provider
      ensures PaymentOf(after, after.provider[k].order)
      ensures after.deals[after.orders[after.provider[k].order]].payment.value.key == Some(k)
    {
      if k != key {
        assert after.provider[k] == s.provider[k] && PaymentOf(s, s.provider[k].order);
      }
    }
  }

  // No two payments share a key, so the unique index on it never fires.
  lemma KeyNeverTaken(s: State, t: TradeId, key: PaymentKey, order: OrderId)
    requires OrdersIndexed(s) && ProviderAgrees(s)
    requires order in s.orders && s.orders[order] == t
    requires key in s.provider ==> s.provider[key].order == order
    ensures !KeyTaken(s, key, t)
  {
    hide DealOk;
  }

  lemma RequestIndexed(s: State, step: Step)
    requires OrdersIndexed(s) && ProviderAgrees(s) && step.RequestTrade?
    ensures OrdersIndexed(Next(s, step).state) && ProviderAgrees(Next(s, step).state)
  {
    hide OrdersIndexed, ProviderAgrees, HasActiveTradeOf;
    if Next(s, step).state != s {
      OpenedIndexed(s, Next(s, step).state, step.trade);
    }
  }

  lemma CreateOrderIndexed(s: State, user: UserId, t: TradeId, key: IdempotencyKey, order: OrderId)
    requires OrdersIndexed(s) && ProviderAgrees(s)
    ensures var after := AfterCreateOrder(s, user, t, key, order).state; OrdersIndexed(after) && ProviderAgrees(after)
  {
    var after := AfterCreateOrder(s, user, t, key, order).state;
    if after != s {
      OrderIndexed(s, t, order);
      var indexed := WithDeal(s, t, OrderedDeal(s.deals[t], order)).(orders := s.orders[order := t]);
      hide OrderedDeal;
      OperationsAside(indexed, after);
    }
  }

  // Neither index reads the products or the operation rows.
  lemma OperationsAside(s: State, after: State)
    requires OrdersIndexed(s) && ProviderAgrees(s)
    requires after == s.(operations := after.operations, products := after.products)
    ensures OrdersIndexed(after) && ProviderAgrees(after)
  {
    IndexKept(s, after);
    ProviderKept(s, after);
  }

  // An answered confirmation has met no taken key; it and its provider record agree.
  lemma ConfirmPaymentIndexed(s: State, user: UserId, path: OrderId, paymentKey: PaymentKey,
                              order: OrderId, amount: nat, key: IdempotencyKey)
    requires Inv(s)
    ensures var result := AfterConfirmPayment(s, user, path, paymentKey, order, amount, key);
            && OrdersIndexed(result.state) && ProviderAgrees(result.state)
            && forall index :: result.outcome != Refused(UniqueViolation(index))
  {
    hide Inv, OrdersIndexed, ProviderAgrees, HasEntry, KeyTaken, CapturedDeal;
    if paymentKey in s.provider {
      assert forall a :: Toss.AfterConfirm(s.provider, paymentKey, path, a) == s.provider;
    }
    assert OrdersIndexed(s) && ProviderAgrees(s) by { InvParts(s); }
    var after := AfterConfirmPayment(s, user, path, paymentKey, order, amount, key).state;
    if Replay(s, key, ConfirmRequest(paymentKey, order, amount)).None? && PaymentOf(s, path) {
      var t := s.orders[path];
      if s.deals[t].payment.value.status.Ready? && s.deals[t].trade.status.Accepted?
         && s.deals[t].payment.value.amount == amount
         && Toss.RecordAfterConfirm(s.provider, paymentKey, path, amount)
              == ProviderRecord(path, amount, ProviderStatus.Done)
      {
        CaptureIndexed(s, t, path, paymentKey, amount);
        var captured := s.(deals := s.deals[t := CapturedDeal(s.deals[t], paymentKey, s.clock)],
                           provider := Toss.AfterConfirm(s.provider, paymentKey, path, amount));
        OperationsAside(captured, captured.(operations := after.operations));
      }
    }
  }

  lemma InvParts(s: State)
    requires Inv(s)
    ensures DealsOk(s) && OrdersIndexed(s) && ProviderAgrees(s)
  {
    hide DealsOk, OrdersIndexed, ProviderAgrees;
  }

  lemma CaptureIndexed(s: State, t: TradeId, path: OrderId, paymentKey: PaymentKey, amount: nat)
    requires Inv(s) && PaymentOf(s, path) && s.orders[path] == t
    requires s.deals[t].payment.value.status.Ready? && s.deals[t].trade.status.Accepted?
    requires s.deals[t].payment.value.amount == amount
    requires Toss.RecordAfterConfirm(s.provider, paymentKey, path, amount)
          == ProviderRecord(path, amount, ProviderStatus.Done)
    ensures !KeyTaken(s, paymentKey, t) && !HasEntry(s.deals[t].ledger, EscrowCapture)
    ensures var after := s.(deals := s.deals[t := CapturedDeal(s.deals[t], paymentKey, s.clock)],
                            provider := Toss.AfterConfirm(s.provider, paymentKey, path, amount));
            OrdersIndexed(after) && ProviderAgrees(after)
  {
    hide DealsOk, DealOk, OrdersIndexed, ProviderAgrees, HasEntry, KeyTaken, CapturedDeal;
    DealAt(s, t);
    OrderAt(s, path);
    CapturedOk(s.deals[t], paymentKey, s.clock);
    KeyNeverTaken(s, t, paymentKey, path);
    CaptureAgrees(s, t, path, paymentKey, amount);
  }

  lemma DealAt(s: State, t: TradeId)
    requires DealsOk(s) && t in s.deals
    ensures DealOk(s.deals[t], s.clock)
  {
    hide DealOk;
  }

  lemma OrderAt(s: State, order: OrderId)
    requires OrdersIndexed(s) && PaymentOf(s, order)
    ensures s.deals[s.orders[order]].payment.value.order == order
  {
  }

  lemma CaptureAgrees(s: State, t: TradeId, path: OrderId, paymentKey: PaymentKey, amount: nat)
    requires OrdersIndexed(s) && ProviderAgrees(s) && PaymentOf(s, path) && s.orders[path] == t
    requires s.deals[t].payment.value.key.None? && s.deals[t].payment.value.amount == amount
    requires Toss.RecordAfterConfirm(s.provider, paymentKey, path, amount)
          == ProviderRecord(path, amount, ProviderStatus.Done)
    ensures var after := s.(deals := s.deals[t := CapturedDeal(s.deals[t], paymentKey, s.clock)],
                            provider := Toss.AfterConfirm(s.provider, paymentKey, path, amount));
            OrdersIndexed(after) && ProviderAgrees(after)
  {
    var after := s.(deals := s.deals[t := CapturedDeal(s.deals[t], paymentKey, s.clock)],
                    provider := Toss.AfterConfirm(s.provider, paymentKey, path, amount));
    hide ProviderAgrees;
    IndexKept(s, after);
    ProviderReplaced(s, after, t, paymentKey);
  }

  // An approved payment is known to the provider, and its reversal is not yet in the ledger.
  lemma ReversalPossible(s: State, t: TradeId, cancel: bool)
    requires Inv(s) && t in s.deals && PaymentApproved(s.deals[t])
    requires if cancel then s.deals[t].trade.status.Accepted?
             else s.deals[t].trade.status.Confirmed? || s.deals[t].trade.status.Disputed?
    ensures !HasEntry(s.deals[t].ledger, if cancel then Cancellation else EntryType.Refund)
  {
    hide DealsOk, DealOk, OrdersIndexed, ProviderAgrees, HasEntry;
    DealAt(s, t);
    if cancel {
      VoidedOk(s.deals[t], 0, "", s.clock);
    } else {
      RefundedOk(s.deals[t], 0, "", s.clock);
    }
  }

  lemma KeyKnown(s: State, t: TradeId)
    requires ProviderAgrees(s) && t in s.deals && s.deals[t].payment.Some? && s.deals[t].payment.value.key.Some?
    ensures ProviderMatches(s, s.deals[t].payment.value)
  {
  }

  lemma ReverseIndexed(s: State, user: UserId, order: OrderId, text: string, key: IdempotencyKey, cancel: bool)
    requires Inv(s)
    ensures var result := AfterReverse(s, user, order, text, key, cancel);
            && OrdersIndexed(result.state) && ProviderAgrees(result.state)
            && (forall index :: result.outcome != Refused(UniqueViolation(index)))
            && result.outcome != Refused(SandboxPaymentNotFound)
  {
    hide DealsOk, OrdersIndexed, ProviderAgrees, HasEntry;
    if PaymentOf(s, order) && s.deals[s.orders[order]].payment.value.key.Some? {
      var t := s.orders[order];
      var d := s.deals[t];
      KeyKnown(s, t);
      if d.payment.value.status.Approved? && (if cancel then d.trade.status.Accepted?
           else d.trade.status.Confirmed? || d.trade.status.Disputed?)
      {
        ReversalPossible(s, t, cancel);
        var after := AfterReverse(s, user, order, text, key, cancel).state;
        if after != s {
          assert after.deals.Keys == s.deals.Keys;
          IndexKept(s, after);
          ProviderReplaced(s, after, t, d.payment.value.key.value);
        }
      }
    }
  }

  // ---------- Every step, every run ----------

  lemma NextKeeps(s: State, step: Step)
    requires Inv(s)
    ensures Inv(Next(s, step).state)
  {
    DealsStayOk(s, step);
    var after := Next(s, step).state;
    hide AfterCreateOrder, AfterConfirmPayment, AfterReverse, NextTrade, NextSettlement, NextProduct;
    match step
    case RequestTrade(_, _, _, _, _, _) => hide DealsOk; RequestIndexed(s, step);
    case CreateOrder(user, t, key, order) => hide DealsOk; CreateOrderIndexed(s, user, t, key, order);
    case ConfirmPayment(user, path, paymentKey, order, amount, key) =>
      hide DealsOk; ConfirmPaymentIndexed(s, user, path, paymentKey, order, amount, key);
    case ReversePayment(user, order, text, key, cancel) =>
      hide DealsOk; ReverseIndexed(s, user, order, text, key, cancel);
    case _ => PlainStepIndexed(s, step);
  }

  lemma PlainStepKeepsPayments(s: State, step: Step, t: TradeId)
    requires DealsOk(s) && t in s.deals
    requires !step.CreateOrder? && !step.ConfirmPayment? && !step.ReversePayment?
    ensures t in Next(s, step).state.deals && SamePayment(s.deals[t], Next(s, step).state.deals[t])
  {
    hide Next, Permitted, Apply, Coherent, DealsOk, HistoryReplays, MoneyOk, TradeTimely, SamePayment;
    DealAt(s, t);
    var c := StepActs(s, step, t);
    ChangeKeepsPayment(s.deals[t], c, s.clock);
  }

  lemma PlainStepIndexed(s: State, step: Step)
    requires Inv(s) && !step.RequestTrade? && !step.CreateOrder? && !step.ConfirmPayment? && !step.ReversePayment?
    ensures OrdersIndexed(Next(s, step).state) && ProviderAgrees(Next(s, step).state)
  {
    var after := Next(s, step).state;
    hide DealsOk, OrdersIndexed, ProviderAgrees, Next, SamePayment;
    Frame(s, step);
    forall t | t in s.deals ensures SamePayment(s.deals[t], after.deals[t]) && SameOrder(s.deals[t], after.deals[t]) {
      PlainStepKeepsPayments(s, step, t);
      SameIsSameOrder(s.deals[t], after.deals[t]);
    }
    IndexKept(s, after);
    ProviderKept(s, after);
  }

  lemma SameIsSameOrder(d: Deal, e: Deal)
    requires SamePayment(d, e)
    ensures SameOrder(d, e)
  {
  }

  lemma {:induction false} RunKeeps(s: State, steps: seq<Step>)
    requires Inv(s)
    ensures Inv(Run(s, steps))
    decreases |steps|
  {
    hide Inv, Next;
    if steps != [] {
      NextKeeps(s, steps[0]);
      RunKeeps(Next(s, steps[0]).state, steps[1..]);
    }
  }

  lemma Reachable(steps: seq<Step>)
    ensures Inv(Run(Empty, steps))
  {
    assert Inv(Empty) by { hide DealOk; }
    hide Inv, Next;
    RunKeeps(Empty, steps);
  }
}

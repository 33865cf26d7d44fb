/** What a refund leaves in the ledger and in real money, in the documented seven days and after them. */
module Refunds {
  import opened Rows
  import opened Deals
  import opened DealInvariant
  import opened Market
  import opened MarketInvariant
  import opened DealChanges
  import opened Escrow
  import opened SettlementRuns

  // Before the seven days after the confirmation are over, or without one.
  predicate InWindow(s: State, t: TradeId) {
    t in s.deals
    && (s.deals[t].trade.confirmedAt.None? || s.clock < s.deals[t].trade.confirmedAt.value + SETTLEMENT_HOLD_MS)
  }

  // Inside the documented window nothing has been released yet.
  lemma NothingReleasedInWindow(steps: seq<Step>, t: TradeId)
    requires InWindow(Run(Empty, steps), t) && Run(Empty, steps).deals[t].payment.Some?
    ensures var d := Run(Empty, steps).deals[t];
            d.payment.value.settledAt.None? && d.claims == []
  {
    var d := Run(Empty, steps).deals[t];
    if Released(d.payment.value, d.claims) {
      ReleaseWaits(steps, t);
    }
    hide Run, HasRow;
  }

  lemma RefundParks(s: State, user: UserId, order: OrderId, text: string, key: IdempotencyKey)
    requires AfterReverse(s, user, order, text, key, false).outcome.Answered? && key !in s.operations
    ensures PaymentOf(s, order)
    ensures var t, after := s.orders[order], AfterReverse(s, user, order, text, key, false).state;
            && t in after.deals && after.deals[t].payment.Some? && after.deals[t].payment.value.status.Refunded?
            && after.deals[t].payment.value.settlement.Paused?
            && after.deals[t].payment.value.settledAt == s.deals[t].payment.value.settledAt
            && after.deals[t].claims == s.deals[t].claims && after.deals[t].transfers == s.deals[t].transfers
            && (s.deals[t].claims == [] ==> Parked(after.deals[t]))
  {
    hide HasEntry;
  }

  // ---------- What a refund leaves in the ledger ----------

  ghost function BalanceOf(s: State, t: TradeId): int {
    if t in s.deals then Balance(s.deals[t].ledger) else 0
  }

  // An answered refund that is not a repeat, and the trade it is about.
  ghost predicate FreshRefund(s: State, user: UserId, order: OrderId, text: string, key: IdempotencyKey, t: TradeId) {
    && key !in s.operations && AfterReverse(s, user, order, text, key, false).outcome.Answered?
    && PaymentOf(s, order) && s.orders[order] == t
  }

  lemma RefundRuns(steps: seq<Step>, user: UserId, order: OrderId, text: string, key: IdempotencyKey, more: seq<Step>)
    ensures var step := ReversePayment(user, order, text, key, false);
            && Next(Run(Empty, steps), step) == AfterReverse(Run(Empty, steps), user, order, text, key, false)
            && Run(AfterReverse(Run(Empty, steps), user, order, text, key, false).state, more)
            == Run(Empty, steps + [step] + more)
  {
    hide Run, AfterReverse;
    var step := ReversePayment(user, order, text, key, false);
    RunOne(Run(Empty, steps), step);
    RunConcat(Empty, steps, [step]);
    RunConcat(Empty, steps + [step], more);
  }

  lemma ChangeKeepsRefunded(d: Deal, c: Change, at: Time)
    requires PaymentRefunded(d) && Permitted(d, c, at)
    ensures PaymentRefunded(Apply(d, c, at)) && Apply(d, c, at).payment.value.amount == d.payment.value.amount
  {
    hide HasEntry;
  }

  predicate PaymentRefunded(d: Deal) {
    d.payment.Some? && d.payment.value.status.Refunded?
  }

  lemma {:induction false} RunKeepsRefunded(s: State, steps: seq<Step>, t: TradeId)
    requires t in s.deals && PaymentRefunded(s.deals[t])
    ensures t in Run(s, steps).deals && PaymentRefunded(Run(s, steps).deals[t])
    ensures Run(s, steps).deals[t].payment.value.amount == s.deals[t].payment.value.amount
    decreases |steps|
  {
    hide Next, Permitted, Apply;
    if steps != [] {
      var c := StepActs(s, steps[0], t);
      ChangeKeepsRefunded(s.deals[t], c, s.clock);
      RunKeepsRefunded(Next(s, steps[0]).state, steps[1..], t);
    }
  }

  // A refunded payment's ledger is at zero, or below it once the payment is settled.
  lemma RefundedBalance(steps: seq<Step>, t: TradeId)
    requires t in Run(Empty, steps).deals && PaymentRefunded(Run(Empty, steps).deals[t])
    ensures var p := Run(Empty, steps).deals[t].payment.value;
            BalanceOf(Run(Empty, steps), t) == if p.settledAt.None? then 0 else 0 - p.amount
  {
    hide Run, MoneyOk, HistoryReplays, TradeTimely, Balance, HasEntry, NoEntryTwice, Expects, Signed;
    LedgerAgreesWithPayment(steps, t);
    ReachedDeal(steps, t);
  }

  lemma QuietRefundStaysAtZero(steps: seq<Step>, user: UserId, order: OrderId, text: string, key: IdempotencyKey,
                               t: TradeId, more: seq<Step>)
    requires FreshRefund(Run(Empty, steps), user, order, text, key, t)
    requires var d := Run(Empty, steps).deals[t]; d.payment.value.settledAt.None? && d.claims == []
    ensures var last := Run(AfterReverse(Run(Empty, steps), user, order, text, key, false).state, more);
            && BalanceOf(last, t) == 0 && !SettledIn(last, t)
            && t in last.deals && last.deals[t].transfers == Run(Empty, steps).deals[t].transfers
  {
    hide Run, AfterReverse, BalanceOf, Parked;
    RefundParks(Run(Empty, steps), user, order, text, key);
    var after := AfterReverse(Run(Empty, steps), user, order, text, key, false).state;
    RunKeepsParked(after, more, t);
    RunKeepsRefunded(after, more, t);
    RefundRuns(steps, user, order, text, key, more);
    RefundedBalance(steps + [ReversePayment(user, order, text, key, false)] + more, t);
  }

  // A refund of a settled payment overdraws at once; one while a claim is in flight, when it finishes.
  lemma LoudRefundOverdraws(steps: seq<Step>, user: UserId, order: OrderId, text: string, key: IdempotencyKey, t: TradeId)
    returns (more: seq<Step>)
    requires FreshRefund(Run(Empty, steps), user, order, text, key, t) && Run(Empty, steps).deals[t].payment.value.amount > 0
    requires var d := Run(Empty, steps).deals[t]; d.payment.value.settledAt.Some? || d.claims != []
    ensures BalanceOf(Run(AfterReverse(Run(Empty, steps), user, order, text, key, false).state, more), t) < 0
  {
    hide Run, AfterReverse, BalanceOf, Parked, CanSettle;
    var step := ReversePayment(user, order, text, key, false);
    var after := AfterReverse(Run(Empty, steps), user, order, text, key, false).state;
    RefundParks(Run(Empty, steps), user, order, text, key);
    more := [];
    if after.deals[t].payment.value.settledAt.None? {
      RefundRuns(steps, user, order, text, key, []);
      assert steps + [step] + [] == steps + [step];
      EmptyRun(after);
      HeldSettlesExactlyInFlight(steps + [step], t);
      more := Settling(after, t);
    } else {
      EmptyRun(after);
    }
    RunKeepsRefunded(after, more, t);
    RefundRuns(steps, user, order, text, key, more);
    RefundedBalance(steps + [step] + more, t);
    AmountKept(Run(Empty, steps), user, order, text, key);
  }

  lemma EmptyRun(s: State)
    ensures Run(s, []) == s
  {
  }

  lemma Settling(s: State, t: TradeId) returns (more: seq<Step>)
    requires CanSettle(s, t)
    ensures SettledIn(Run(s, more), t)
  {
    hide Run, SettledIn;
    more :| SettledIn(Run(s, more), t);
  }

  lemma AmountKept(s: State, user: UserId, order: OrderId, text: string, key: IdempotencyKey)
    requires AfterReverse(s, user, order, text, key, false).outcome.Answered? && key !in s.operations
    ensures PaymentOf(s, order)
    ensures var t, after := s.orders[order], AfterReverse(s, user, order, text, key, false).state;
            t in after.deals && after.deals[t].payment.Some?
            && after.deals[t].payment.value.amount == s.deals[t].payment.value.amount
  {
    hide HasEntry;
  }

  // What a caller can check before the refund of a positive amount: the account stays at zero however the
  // run goes on if and only if the payment is neither settled nor claimed.
  lemma RefundEndsAtZeroExactly(steps: seq<Step>, user: UserId, order: OrderId, text: string, key: IdempotencyKey, t: TradeId)
    requires FreshRefund(Run(Empty, steps), user, order, text, key, t) && Run(Empty, steps).deals[t].payment.value.amount > 0
    ensures var s := Run(Empty, steps);
            var after := AfterReverse(s, user, order, text, key, false).state;
            (forall more :: BalanceOf(Run(after, more), t) == 0)
            <==> s.deals[t].payment.value.settledAt.None? && s.deals[t].claims == []
  {
    var s := Run(Empty, steps);
    hide Run, AfterReverse, BalanceOf;
    if s.deals[t].payment.value.settledAt.None? && s.deals[t].claims == [] {
      forall more ensures BalanceOf(Run(AfterReverse(s, user, order, text, key, false).state, more), t) == 0 {
        QuietRefundStaysAtZero(steps, user, order, text, key, t, more);
      }
    } else {
      var more := LoudRefundOverdraws(steps, user, order, text, key, t);
    }
  }

  // So a refund before the seven days are over ends the matter. At their last instant the payment may
  // already be settled: Examples.SettledPaymentIsRefunded.
  lemma RefundInWindowEndsAtZero(steps: seq<Step>, user: UserId, order: OrderId, text: string, key: IdempotencyKey,
                                 t: TradeId, more: seq<Step>)
    requires FreshRefund(Run(Empty, steps), user, order, text, key, t) && InWindow(Run(Empty, steps), t)
    ensures var last := Run(AfterReverse(Run(Empty, steps), user, order, text, key, false).state, more);
            && BalanceOf(last, t) == 0 && !SettledIn(last, t)
            && t in last.deals && last.deals[t].transfers == Run(Empty, steps).deals[t].transfers
  {
    hide Run, AfterReverse, BalanceOf;
    NothingReleasedInWindow(steps, t);
    QuietRefundStaysAtZero(steps, user, order, text, key, t, more);
  }

  // ---------- Real money ----------

  function Sum(transfers: seq<nat>): nat {
    if transfers == [] then 0 else transfers[0] + Sum(transfers[1..])
  }

  // What the card provider still holds of the payment, less what the payout provider has transferred.
  ghost function Cash(s: State, t: TradeId): int {
    if t in s.deals && s.deals[t].payment.Some? then
      var key := s.deals[t].payment.value.key;
      (if key.Some? && key.value in s.provider && s.provider[key.value].status.Done?
       then s.provider[key.value].amount else 0) - Sum(s.deals[t].transfers)
    else 0
  }

  // Money goes out only for a payment that was approved, and of a trade that was confirmed.
  ghost predicate PaidOutSound(d: Deal) {
    d.transfers != [] ==>
      && d.payment.Some? && (d.payment.value.status.Approved? || d.payment.value.status.Refunded?)
      && (d.trade.status.Confirmed? || d.trade.status.Disputed?)
  }

  lemma ChangeKeepsPaidOut(d: Deal, c: Change, at: Time)
    requires PaidOutSound(d) && DealOk(d, at) && Permitted(d, c, at)
    ensures PaidOutSound(Apply(d, c, at))
  {
    hide HistoryReplays, LedgerExact, TradeTimely, PaymentTimely, HasReason, HasEntry;
  }

  lemma NextKeepsPaidOut(s: State, step: Step)
    requires Inv(s) && forall t :: t in s.deals ==> PaidOutSound(s.deals[t])
    ensures forall t :: t in Next(s, step).state.deals ==> PaidOutSound(Next(s, step).state.deals[t])
  {
    hide Inv, Next, DealOk, Permitted, Apply, PaidOutSound, OrdersIndexed, ProviderAgrees;
    var after := Next(s, step).state;
    InvParts(s);
    Frame(s, step);
    forall t | t in after.deals ensures PaidOutSound(after.deals[t]) {
      if t in s.deals {
        var c := StepActs(s, step, t);
        ChangeKeepsPaidOut(s.deals[t], c, s.clock);
      } else {
        NewTrade(s, step, t);
        OpenedPaidNothing(step.product, step.user, s.products[step.product].author, s.products[step.product].price, s.clock);
      }
    }
  }

  lemma OpenedPaidNothing(product: ProductId, buyer: UserId, seller: UserId, price: nat, at: Time)
    ensures PaidOutSound(Opened(product, buyer, seller, price, at))
  {
  }

  lemma {:induction false} RunKeepsPaidOut(s: State, steps: seq<Step>)
    requires Inv(s) && forall t :: t in s.deals ==> PaidOutSound(s.deals[t])
    ensures forall t :: t in Run(s, steps).deals ==> PaidOutSound(Run(s, steps).deals[t])
    decreases |steps|
  {
    hide Inv, PaidOutSound, Next;
    if steps != [] {
      NextKeeps(s, steps[0]);
      NextKeepsPaidOut(s, steps[0]);
      RunKeepsPaidOut(Next(s, steps[0]).state, steps[1..]);
    }
  }

  lemma PaidOutReached(steps: seq<Step>, t: TradeId)
    requires t in Run(Empty, steps).deals
    ensures PaidOutSound(Run(Empty, steps).deals[t])
  {
    hide Inv, PaidOutSound, Run;
    Reachable([]);
    EmptyRun(Empty);
    RunKeepsPaidOut(Empty, steps);
  }

  lemma ProviderHolds(steps: seq<Step>, t: TradeId)
    requires t in Run(Empty, steps).deals && Run(Empty, steps).deals[t].payment.Some?
    ensures var s := Run(Empty, steps);
            var p := s.deals[t].payment.value;
            && (PaymentApproved(s.deals[t]) || p.status.Refunded? ==> p.key.Some?)
            && (p.key.Some? ==>
                  && p.key.value in s.provider && s.provider[p.key.value].amount == p.amount
                  && (s.provider[p.key.value].status.Done? <==> p.status.Approved?))
  {
    hide Run, MoneyOk, HistoryReplays, TradeTimely, DealsOk, OrdersIndexed;
    ReachedDeal(steps, t);
    Reachable(steps);
    assert Run(Empty, steps).deals[t].payment.value.key.Some? ==>
      ProviderMatches(Run(Empty, steps), Run(Empty, steps).deals[t].payment.value);
  }

  // Real money is missing exactly for a refunded payment of a positive amount that was also paid out,
  // whatever its ledger says.
  lemma CashNegativeExactly(steps: seq<Step>, t: TradeId)
    requires t in Run(Empty, steps).deals && Run(Empty, steps).deals[t].payment.Some?
    ensures var s := Run(Empty, steps);
            var p := s.deals[t].payment.value;
            && (Cash(s, t) < 0 <==> p.amount > 0 && p.status.Refunded? && s.deals[t].transfers != [])
            && Cash(s, t) == (if p.status.Approved? then p.amount else 0)
                             - (if s.deals[t].transfers == [] then 0 else p.amount)
  {
    hide Run, HasReason;
    ProviderHolds(steps, t);
    PaidOutReached(steps, t);
    SoundSettlement(steps, t);
    var d := Run(Empty, steps).deals[t];
    assert d.transfers == [d.payment.value.amount] ==> Sum(d.transfers) == d.payment.value.amount;
  }

  lemma PayoutInFlight(s: State, t: TradeId)
    requires InFlight(s, t, 0) && !s.deals[t].claims[0].paid
    ensures var after := Run(s, [Payout(t, 0)]);
            t in after.deals && after.deals[t].payment == s.deals[t].payment && after.deals[t].transfers != []
  {
    hide Next;
    RunOne(s, Payout(t, 0));
    assert Next(s, Payout(t, 0)).state == AfterPayout(s, t, 0).state by { PayoutStep(s, t); }
  }

  lemma PayoutStep(s: State, t: TradeId)
    ensures Next(s, Payout(t, 0)) == AfterPayout(s, t, 0)
  {
  }

  // A claim in flight that has not paid yet can still pay after the refund.
  lemma ClaimCanPay(steps: seq<Step>, user: UserId, order: OrderId, text: string, key: IdempotencyKey, t: TradeId)
    returns (more: seq<Step>)
    requires FreshRefund(Run(Empty, steps), user, order, text, key, t)
    requires var d := Run(Empty, steps).deals[t]; d.transfers != [] || d.claims != []
    ensures var last := Run(AfterReverse(Run(Empty, steps), user, order, text, key, false).state, more);
            t in last.deals && last.deals[t].transfers != []
  {
    hide Run, AfterReverse, HasReason, Parked;
    RefundParks(Run(Empty, steps), user, order, text, key);
    var after := AfterReverse(Run(Empty, steps), user, order, text, key, false).state;
    more := [];
    EmptyRun(after);
    if after.deals[t].transfers == [] {
      SoundSettlement(steps, t);
      PayoutInFlight(after, t);
      more := [Payout(t, 0)];
    }
  }

  // What a caller can check before the refund of a positive amount: no real money is ever missing if and
  // only if nothing has been paid out and no claim is in flight.
  lemma RefundKeepsCashExactly(steps: seq<Step>, user: UserId, order: OrderId, text: string, key: IdempotencyKey, t: TradeId)
    requires FreshRefund(Run(Empty, steps), user, order, text, key, t) && Run(Empty, steps).deals[t].payment.value.amount > 0
    ensures var s := Run(Empty, steps);
            var after := AfterReverse(s, user, order, text, key, false).state;
            (forall more :: Cash(Run(after, more), t) >= 0) <==> s.deals[t].transfers == [] && s.deals[t].claims == []
  {
    var s := Run(Empty, steps);
    hide Run, AfterReverse, Cash, Parked;
    var after := AfterReverse(s, user, order, text, key, false).state;
    RefundParks(s, user, order, text, key);
    AmountKept(s, user, order, text, key);
    if s.deals[t].transfers == [] && s.deals[t].claims == [] {
      forall more ensures Cash(Run(after, more), t) >= 0 {
        RunKeepsParked(after, more, t);
        RunKeepsRefunded(after, more, t);
        RefundRuns(steps, user, order, text, key, more);
        CashNegativeExactly(steps + [ReversePayment(user, order, text, key, false)] + more, t);
      }
    } else {
      var more := ClaimCanPay(steps, user, order, text, key, t);
      RunKeepsRefunded(after, more, t);
      RefundRuns(steps, user, order, text, key, more);
      CashNegativeExactly(steps + [ReversePayment(user, order, text, key, false)] + more, t);
    }
  }
}

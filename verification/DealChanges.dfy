/** Every step acts on every existing trade by one of the changes below, or not at all.
    What each change keeps is then kept by every run. */
module DealChanges {
  import opened Rows
  import opened Deals
  import opened Market

  datatype Change =
    | Keep
    | Accept(user: UserId)
    | Reject(user: UserId, reason: Reason)
    | Deliver(user: UserId)
    | Confirm(actor: Option<UserId>, confirmedAt: Time, reason: Reason)
    | Dispute(user: UserId, reason: Reason)
    | Cancel(actor: Option<UserId>, cancelledAt: Time, reason: Reason)
    | Order(order: OrderId)
    | Capture(key: PaymentKey)
    | Void(user: UserId, text: string)
    | Refund(user: UserId, text: string)
    | Check(failure: Failure)
    | MarkReady(now: Time)
    | Claim(now: Time)
    | PayOut(i: nat)
    | Settle(i: nat, sandbox: bool)
    | Fail(i: nat)
    | Crash(i: nat)
    | SettleWhole(now: Time, attempt: Attempt)

  predicate Party(tr: Trade, user: UserId) {
    user == tr.buyer || user == tr.seller
  }

  // Who may make the change. A competitor is rejected by the seller of the accepted trade.
  predicate Entitled(tr: Trade, c: Change) {
    match c
    case Accept(user) => user == tr.seller
    case Reject(user, reason) => reason.Stated? ==> user == tr.seller
    case Deliver(user) => user == tr.seller
    case Confirm(actor, _, reason) => actor == if reason == NoReason then Some(tr.buyer) else None
    case Dispute(user, _) => Party(tr, user)
    case Cancel(actor, _, reason) =>
      if reason.Stated? then actor.Some? && Party(tr, actor.value) else actor.None?
    case Void(user, _) => user == tr.buyer
    case Refund(user, _) => Party(tr, user)
    case _ => true
  }

  // When a step may make the change.
  ghost predicate Permitted(d: Deal, c: Change, at: Time) {
    Entitled(d.trade, c) &&
    match c
    case Keep => true
    case Accept(_) => d.trade.status.Requested?
    case Reject(_, reason) => d.trade.status.Requested? && (reason.Stated? || reason == ReservedByAnotherTrade)
    case Deliver(_) => d.trade.status.Accepted? && PaymentApproved(d)
    case Confirm(_, confirmedAt, reason) =>
      && d.trade.status.Delivered? && confirmedAt <= at
      && (if reason == NoReason then PaymentApproved(d) && confirmedAt == at
          else reason == AutoConfirmedAfter7Days && AutoConfirmDue(d, confirmedAt))
    case Dispute(_, reason) =>
      reason.Stated? && (d.trade.status.Accepted? || d.trade.status.Delivered? || d.trade.status.Confirmed?)
    case Cancel(_, cancelledAt, reason) =>
      && (d.trade.status.Requested? || d.trade.status.Accepted?) && !PaymentApproved(d) && cancelledAt <= at
      && ((reason.Stated? && cancelledAt == at) || (reason == AutoCancelledUnpaidAfter7Days && UnpaidExpired(d, at)))
    case Order(_) => d.trade.status.Accepted? && d.payment.None?
    case Capture(_) => d.trade.status.Accepted? && d.payment.Some? && d.payment.value.status.Ready?
    case Void(_, _) => d.trade.status.Accepted? && PaymentApproved(d)
    case Refund(_, _) => (d.trade.status.Confirmed? || d.trade.status.Disputed?) && PaymentApproved(d)
    case Check(_) => d.payment.Some?
    case MarkReady(now) => HoldExpired(d, now) && now <= at
    case Claim(now) => Claimable(d) && now <= at
    case PayOut(i) => d.payment.Some? && i < |d.claims| && !d.claims[i].paid
    case Settle(i, sandbox) =>
      d.payment.Some? && i < |d.claims| && d.claims[i].paid != sandbox && !HasEntry(d.ledger, Settlement)
    case Fail(i) => d.payment.Some? && i < |d.claims|
    case Crash(i) => d.payment.Some? && i < |d.claims|
    case SettleWhole(now, attempt) =>
      && Claimable(d) && now <= at
      && (attempt.SandboxRelease? || attempt.ProviderPays? ==> !HasEntry(d.ledger, Settlement))
  }

  function SettledWhole(d: Deal, now: Time, attempt: Attempt): Deal
    requires d.payment.Some?
  {
    var claimed, i := ClaimedDeal(d, now), |d.claims|;
    match attempt
    case SandboxRelease => SettledDeal(claimed, i, true)
    case ProviderPays => SettledDeal(PaidOutDeal(claimed, i), i, false)
    case ProviderFails => FailedDeal(claimed, i)
    case ProviderPaysThenFails => FailedDeal(PaidOutDeal(claimed, i), i)
  }

  ghost function Apply(d: Deal, c: Change, at: Time): Deal
    requires Permitted(d, c, at)
  {
    match c
    case Keep => d
    case Accept(user) => AcceptedDeal(d, user, at)
    case Reject(user, reason) => RejectedDeal(d, user, reason, at)
    case Deliver(user) => DeliveredDeal(d, user, at)
    case Confirm(actor, confirmedAt, reason) => ConfirmedDeal(d, actor, confirmedAt, reason, at)
    case Dispute(user, reason) => DisputedDeal(d, user, reason, at)
    case Cancel(actor, cancelledAt, reason) => CancelledDeal(d, actor, cancelledAt, reason, at)
    case Order(order) => OrderedDeal(d, order)
    case Capture(key) => CapturedDeal(d, key, at)
    case Void(user, text) => VoidedDeal(d, user, text, at)
    case Refund(user, text) => RefundedDeal(d, user, text, at)
    case Check(failure) => d.(payment := Some(d.payment.value.(failure := failure, checkedAt := Some(at))))
    case MarkReady(_) => MarkedReadyDeal(d)
    case Claim(now) => ClaimedDeal(d, now)
    case PayOut(i) => PaidOutDeal(d, i)
    case Settle(i, sandbox) => SettledDeal(d, i, sandbox)
    case Fail(i) => FailedDeal(d, i)
    case Crash(i) => CrashedDeal(d, i)
    case SettleWhole(now, attempt) => SettledWhole(d, now, attempt)
  }

  ghost predicate Acts(s: State, after: State, t: TradeId, c: Change) {
    && t in s.deals && t in after.deals
    && Permitted(s.deals[t], c, s.clock) && after.deals[t] == Apply(s.deals[t], c, s.clock)
  }

  // ---------- One lemma for each operation ----------

  lemma RejectActs(s: State, user: UserId, x: TradeId, text: string, t: TradeId) returns (c: Change)
    requires t in s.deals
    ensures Acts(s, AfterReject(s, user, x, text).state, t, c)
    ensures c.Keep? || (c == Change.Reject(user, Stated(text)) && x == t)
  {
    c := if AfterReject(s, user, x, text).outcome.Completed? && x == t then Reject(user, Stated(text)) else Keep;
  }

  lemma DeliverActs(s: State, user: UserId, x: TradeId, t: TradeId) returns (c: Change)
    requires t in s.deals
    ensures Acts(s, AfterDeliver(s, user, x).state, t, c)
    ensures c.Keep? || (c.Deliver? && x == t)
  {
    c := if AfterDeliver(s, user, x).outcome.Completed? && x == t then Deliver(user) else Keep;
  }

  lemma ConfirmTradeActs(s: State, user: UserId, x: TradeId, t: TradeId) returns (c: Change)
    requires t in s.deals
    ensures Acts(s, AfterConfirmTrade(s, user, x).state, t, c)
    ensures c.Keep? || (c.Confirm? && x == t)
  {
    c := if AfterConfirmTrade(s, user, x).outcome.Completed? && x == t
         then Confirm(Some(user), s.clock, NoReason) else Keep;
  }

  lemma DisputeActs(s: State, user: UserId, x: TradeId, text: string, t: TradeId) returns (c: Change)
    requires t in s.deals
    ensures Acts(s, AfterDispute(s, user, x, text).state, t, c)
    ensures c.Keep? || (c.Dispute? && x == t)
  {
    c := if AfterDispute(s, user, x, text).outcome.Completed? && x == t then Dispute(user, Stated(text)) else Keep;
  }

  lemma CancelTradeActs(s: State, user: UserId, x: TradeId, text: string, t: TradeId) returns (c: Change)
    requires t in s.deals
    ensures Acts(s, AfterCancelTrade(s, user, x, text).state, t, c)
    ensures c.Keep? || (c.Cancel? && x == t)
  {
    c := if AfterCancelTrade(s, user, x, text).outcome.Completed? && x == t
         then Cancel(Some(user), s.clock, Stated(text)) else Keep;
  }

  lemma AcceptActs(s: State, user: UserId, x: TradeId, t: TradeId) returns (c: Change)
    requires t in s.deals
    ensures Acts(s, AfterAccept(s, user, x).state, t, c)
    ensures c.Keep? || c.Accept? || c == Change.Reject(user, ReservedByAnotherTrade)
  {
    c := if !AfterAccept(s, user, x).outcome.Completed? then Keep
         else if x == t then Accept(user)
         else if Competes(s.deals[t], s.deals[x].trade.product) then Reject(user, ReservedByAnotherTrade)
         else Keep;
  }

  lemma AutoConfirmActs(s: State, x: TradeId, now: Time, t: TradeId) returns (c: Change)
    requires t in s.deals && now <= s.clock
    ensures Acts(s, AfterAutoConfirm(s, x, now).state, t, c)
    ensures c.Keep? || (c.Confirm? && x == t)
  {
    c := if x == t && AutoConfirmDue(s.deals[t], now) then Confirm(None, now, AutoConfirmedAfter7Days) else Keep;
  }

  lemma ExpireUnpaidActs(s: State, x: TradeId, now: Time, t: TradeId) returns (c: Change)
    requires t in s.deals && now <= s.clock
    ensures Acts(s, AfterExpireUnpaid(s, x, now).state, t, c)
    ensures c.Keep? || (c.Cancel? && x == t)
  {
    c := if x == t && UnpaidExpired(s.deals[t], now) then Cancel(None, now, AutoCancelledUnpaidAfter7Days) else Keep;
  }

  lemma CreateOrderActs(s: State, user: UserId, x: TradeId, key: IdempotencyKey, order: OrderId, t: TradeId)
    returns (c: Change)
    requires t in s.deals
    ensures Acts(s, AfterCreateOrder(s, user, x, key, order).state, t, c)
    ensures c.Keep? || (c.Order? && x == t)
  {
    c := if AfterCreateOrder(s, user, x, key, order).state != s && x == t then Order(order) else Keep;
  }

  lemma ConfirmPaymentActs(s: State, user: UserId, path: OrderId, paymentKey: PaymentKey, order: OrderId,
                           amount: nat, key: IdempotencyKey, t: TradeId) returns (c: Change)
    requires t in s.deals
    ensures Acts(s, AfterConfirmPayment(s, user, path, paymentKey, order, amount, key).state, t, c)
    ensures c.Keep? || c.Capture?
  {
    hide HasEntry, KeyTaken;
    c := if AfterConfirmPayment(s, user, path, paymentKey, order, amount, key).state.deals != s.deals
              && s.orders[path] == t
         then Capture(paymentKey) else Keep;
  }

  lemma ReverseActs(s: State, user: UserId, order: OrderId, text: string, key: IdempotencyKey, cancel: bool, t: TradeId)
    returns (c: Change)
    requires t in s.deals
    ensures Acts(s, AfterReverse(s, user, order, text, key, cancel).state, t, c)
    ensures c.Keep? || (if cancel then c.Void? else c.Refund?)
  {
    hide HasEntry, VoidedDeal, RefundedDeal;
    c := if key !in s.operations && AfterReverse(s, user, order, text, key, cancel).outcome.Answered? && s.orders[order] == t
         then (if cancel then Void(user, text) else Change.Refund(user, text)) else Keep;
  }

  lemma ReconcileActs(s: State, order: OrderId, t: TradeId) returns (c: Change)
    requires t in s.deals
    ensures Acts(s, AfterReconcile(s, order).state, t, c)
    ensures c.Keep? || c.Check?
  {
    c := if AfterReconcile(s, order).outcome.Reconciled? && s.orders[order] == t
         then Check(AfterReconcile(s, order).state.deals[t].payment.value.failure) else Keep;
  }

  lemma WebhookVerifiedActs(s: State, order: OrderId, t: TradeId) returns (c: Change)
    requires t in s.deals
    ensures Acts(s, AfterWebhookVerified(s, order).state, t, c)
    ensures c.Keep? || c.Check?
  {
    c := if PaymentOf(s, order) && s.orders[order] == t then Check(NoFailure) else Keep;
  }

  lemma MarkReadyActs(s: State, now: Time, t: TradeId) returns (c: Change)
    requires t in s.deals && now <= s.clock
    ensures Acts(s, AfterMarkReady(s, now).state, t, c)
    ensures c.Keep? || c == Change.MarkReady(now)
  {
    c := if HoldExpired(s.deals[t], now) then Change.MarkReady(now) else Keep;
  }

  lemma ClaimActs(s: State, x: TradeId, now: Time, t: TradeId) returns (c: Change)
    requires t in s.deals && now <= s.clock
    ensures Acts(s, AfterClaim(s, x, now).state, t, c)
    ensures c.Keep? || (c == Change.Claim(now) && x == t)
  {
    c := if x == t && Claimable(s.deals[t]) then Change.Claim(now) else Keep;
  }

  lemma PayoutActs(s: State, x: TradeId, i: nat, t: TradeId) returns (c: Change)
    requires t in s.deals
    ensures Acts(s, AfterPayout(s, x, i).state, t, c)
    ensures c.Keep? || (c.PayOut? && x == t)
  {
    c := if x == t && InFlight(s, t, i) && !s.deals[t].claims[i].paid then PayOut(i) else Keep;
  }

  lemma FinishActs(s: State, x: TradeId, i: nat, sandbox: bool, t: TradeId) returns (c: Change)
    requires t in s.deals
    ensures Acts(s, AfterFinish(s, x, i, sandbox).state, t, c)
    ensures c.Keep? || ((c.Settle? || c.Fail?) && x == t)
  {
    hide HasEntry;
    c := if x != t || !InFlight(s, t, i) || s.deals[t].claims[i].paid == sandbox then Keep
         else if HasEntry(s.deals[t].ledger, Settlement) then Fail(i)
         else Settle(i, sandbox);
  }

  lemma FailActs(s: State, x: TradeId, i: nat, t: TradeId) returns (c: Change)
    requires t in s.deals
    ensures Acts(s, AfterFail(s, x, i).state, t, c)
    ensures c.Keep? || (c.Fail? && x == t)
  {
    c := if x == t && InFlight(s, t, i) then Fail(i) else Keep;
  }

  lemma CrashActs(s: State, x: TradeId, i: nat, t: TradeId) returns (c: Change)
    requires t in s.deals
    ensures Acts(s, AfterCrash(s, x, i).state, t, c)
    ensures c.Keep? || (c.Crash? && x == t)
  {
    c := if x == t && InFlight(s, t, i) then Crash(i) else Keep;
  }

  // A settlement step is about one trade.
  lemma OthersUntouched(s: State, x: TradeId, now: Time, i: nat, sandbox: bool, t: TradeId)
    requires t in s.deals && x != t
    ensures t in AfterClaim(s, x, now).state.deals && AfterClaim(s, x, now).state.deals[t] == s.deals[t]
    ensures t in AfterPayout(s, x, i).state.deals && AfterPayout(s, x, i).state.deals[t] == s.deals[t]
    ensures t in AfterFail(s, x, i).state.deals && AfterFail(s, x, i).state.deals[t] == s.deals[t]
    ensures t in AfterFinish(s, x, i, sandbox).state.deals && AfterFinish(s, x, i, sandbox).state.deals[t] == s.deals[t]
  {
    hide HasEntry, ClaimedDeal, PaidOutDeal, SettledDeal, FailedDeal;
  }

  lemma SettleOneActs(s: State, x: TradeId, now: Time, attempt: Attempt, t: TradeId) returns (c: Change)
    requires t in s.deals && now <= s.clock
    ensures Acts(s, AfterSettleOne(s, x, now, attempt).state, t, c)
    ensures c.Keep? || (c.SettleWhole? && c.now == now && x == t)
  {
    hide AfterSettleOne, Claimable;
    if x != t {
      c := Keep;
      OthersOfSettleOne(s, x, now, attempt, t);
    } else if Claimable(s.deals[t]) {
      c := SettleWholeActs(s, now, attempt, t);
    } else {
      c := Keep;
      NothingToSettle(s, x, now, attempt);
    }
  }

  // The stages of one attempt, on the one trade.
  lemma ClaimStage(s: State, t: TradeId, now: Time)
    requires t in s.deals && Claimable(s.deals[t])
    ensures AfterClaim(s, t, now) == Result(WithDeal(s, t, ClaimedDeal(s.deals[t], now)), Counted(true))
  {
  }

  lemma PayoutStage(s: State, t: TradeId, d: Deal, i: nat)
    requires d.payment.Some? && i < |d.claims| && !d.claims[i].paid
    ensures AfterPayout(WithDeal(s, t, d), t, i).state == WithDeal(s, t, PaidOutDeal(d, i))
  {
    hide PaidOutDeal;
  }

  lemma FailStage(s: State, t: TradeId, d: Deal, i: nat)
    requires d.payment.Some? && i < |d.claims|
    ensures AfterFail(WithDeal(s, t, d), t, i) == Result(WithDeal(s, t, FailedDeal(d, i)), Counted(false))
  {
    hide FailedDeal;
  }

  lemma FinishStage(s: State, t: TradeId, d: Deal, i: nat, sandbox: bool)
    requires d.payment.Some? && i < |d.claims| && d.claims[i].paid != sandbox
    ensures AfterFinish(WithDeal(s, t, d), t, i, sandbox) ==
              if HasEntry(d.ledger, Settlement) then Result(WithDeal(s, t, FailedDeal(d, i)), Counted(false))
              else Result(WithDeal(s, t, SettledDeal(d, i, sandbox)), Counted(true))
  {
    hide FailedDeal, SettledDeal, HasEntry, AfterFail;
    FailStage(s, t, d, i);
  }

  // With a settlement row in the ledger already, an attempt that reaches its transaction fails.
  function AttemptMade(d: Deal, attempt: Attempt): Attempt {
    if !HasEntry(d.ledger, Settlement) then attempt
    else
      match attempt
      case SandboxRelease => ProviderFails
      case ProviderPays => ProviderPaysThenFails
      case _ => attempt
  }

  lemma SettleOneIs(s: State, t: TradeId, now: Time, attempt: Attempt)
    requires t in s.deals && Claimable(s.deals[t])
    ensures var made := AttemptMade(s.deals[t], attempt);
            AfterSettleOne(s, t, now, attempt) ==
              Result(WithDeal(s, t, SettledWhole(s.deals[t], now, made)),
                     Counted(made.SandboxRelease? || made.ProviderPays?))
  {
    hide AfterClaim, AfterPayout, AfterFinish, AfterFail, HasEntry, SettledDeal, FailedDeal;
    var d := s.deals[t];
    var claimed, i := ClaimedDeal(d, now), |d.claims|;
    ClaimedFacts(d, now);
    ClaimStage(s, t, now);
    match attempt
    case SandboxRelease => FinishStage(s, t, claimed, i, true);
    case ProviderPays => PayoutStage(s, t, claimed, i); FinishStage(s, t, PaidOutDeal(claimed, i), i, false);
    case ProviderFails => FailStage(s, t, claimed, i);
    case ProviderPaysThenFails => PayoutStage(s, t, claimed, i); FailStage(s, t, PaidOutDeal(claimed, i), i);
  }

  lemma ClaimedFacts(d: Deal, now: Time)
    requires Claimable(d)
    ensures var claimed, i := ClaimedDeal(d, now), |d.claims|;
            && claimed.payment.Some? && |claimed.claims| == i + 1 && !claimed.claims[i].paid && claimed.ledger == d.ledger
            && var paid := PaidOutDeal(claimed, i);
               paid.payment.Some? && |paid.claims| == i + 1 && paid.claims[i].paid && paid.ledger == d.ledger
  {
  }

  lemma SettleWholeActs(s: State, now: Time, attempt: Attempt, t: TradeId) returns (c: Change)
    requires t in s.deals && now <= s.clock && Claimable(s.deals[t])
    ensures Acts(s, AfterSettleOne(s, t, now, attempt).state, t, c)
    ensures c.SettleWhole? && c.now == now
  {
    hide HasEntry, AfterSettleOne, SettledWhole, Claimable;
    SettleOneIs(s, t, now, attempt);
    c := SettleWhole(now, AttemptMade(s.deals[t], attempt));
  }

  lemma ProductStepsLeaveTrades(s: State, step: Step, t: TradeId)
    requires t in s.deals && !TradeStep(step) && !PaymentStep(step) && !SettlementStep(step)
    ensures t in NextProduct(s, step).state.deals && NextProduct(s, step).state.deals[t] == s.deals[t]
  {
    hide HasActiveTrade, HasActiveTradeOf;
  }

  // ---------- The case analysis over all steps ----------

  // The change a step makes to trade t, if any, and the trade it is about.
  predicate FromStep(step: Step, c: Change, t: TradeId) {
    c.Keep? ||
    match step
    case AcceptTrade(user, _) => c.Accept? || c == Change.Reject(user, ReservedByAnotherTrade)
    case RejectTrade(user, x, text) => c == Change.Reject(user, Stated(text)) && x == t
    case DeliverTrade(_, x) => c.Deliver? && x == t
    case ConfirmTrade(_, x) => c.Confirm? && x == t
    case AutoConfirm(x, _) => c.Confirm? && x == t
    case DisputeTrade(_, x, _) => c.Dispute? && x == t
    case CancelTrade(_, x, _) => c.Cancel? && x == t
    case ExpireUnpaid(x, _) => c.Cancel? && x == t
    case CreateOrder(_, x, _, _) => c.Order? && x == t
    case ConfirmPayment(_, _, _, _, _, _) => c.Capture?
    case ReversePayment(_, _, _, _, cancel) => if cancel then c.Void? else c.Refund?
    case Reconcile(_) => c.Check?
    case WebhookVerified(_) => c.Check?
    case MarkReady(now) => c == Change.MarkReady(now)
    case ClaimSettlement(x, now) => c == Change.Claim(now) && x == t
    case Payout(x, _) => c.PayOut? && x == t
    case FinishSettlement(x, _, _) => (c.Settle? || c.Fail?) && x == t
    case FailSettlement(x, _) => c.Fail? && x == t
    case CrashWorker(x, _) => c.Crash? && x == t
    case SettleOne(x, now, _) => c.SettleWhole? && c.now == now && x == t
    case _ => false
  }

  lemma TradeStepActs(s: State, step: Step, t: TradeId) returns (c: Change)
    requires t in s.deals && TradeStep(step) && !StampInFuture(s, step)
    ensures Acts(s, NextTrade(s, step).state, t, c)
    ensures FromStep(step, c, t)
  {
    hide AfterAccept, AfterReject, AfterDeliver, AfterConfirmTrade;
    hide AfterDispute, AfterCancelTrade, AfterAutoConfirm, AfterExpireUnpaid, Acts;
    match step
    case AcceptTrade(user, x) => c := AcceptActs(s, user, x, t);
    case RejectTrade(user, x, text) => c := RejectActs(s, user, x, text, t);
    case DeliverTrade(user, x) => c := DeliverActs(s, user, x, t);
    case ConfirmTrade(user, x) => c := ConfirmTradeActs(s, user, x, t);
    case DisputeTrade(user, x, text) => c := DisputeActs(s, user, x, text, t);
    case CancelTrade(user, x, text) => c := CancelTradeActs(s, user, x, text, t);
    case AutoConfirm(x, now) => c := AutoConfirmActs(s, x, now, t);
    case ExpireUnpaid(x, now) => c := ExpireUnpaidActs(s, x, now, t);
  }

  lemma PaymentStepActs(s: State, step: Step, t: TradeId) returns (c: Change)
    requires t in s.deals && PaymentStep(step)
    ensures Acts(s, NextPayment(s, step).state, t, c)
    ensures FromStep(step, c, t)
  {
    hide AfterCreateOrder, AfterConfirmPayment, AfterReverse, AfterReconcile, AfterWebhookVerified, Acts;
    match step
    case CreateOrder(user, x, key, order) => c := CreateOrderActs(s, user, x, key, order, t);
    case ConfirmPayment(user, path, paymentKey, order, amount, key) =>
      c := ConfirmPaymentActs(s, user, path, paymentKey, order, amount, key, t);
    case ReversePayment(user, order, text, key, cancel) =>
      c := ReverseActs(s, user, order, text, key, cancel, t);
    case Reconcile(order) => c := ReconcileActs(s, order, t);
    case WebhookVerified(order) => c := WebhookVerifiedActs(s, order, t);
  }

  lemma SettlementStepActs(s: State, step: Step, t: TradeId) returns (c: Change)
    requires t in s.deals && SettlementStep(step) && !StampInFuture(s, step)
    ensures Acts(s, NextSettlement(s, step).state, t, c)
    ensures FromStep(step, c, t)
  {
    hide AfterMarkReady, AfterClaim, AfterPayout, AfterFinish, AfterFail, AfterCrash, AfterSettleOne, Acts;
    match step
    case MarkReady(now) => c := MarkReadyActs(s, now, t);
    case ClaimSettlement(x, now) => c := ClaimActs(s, x, now, t);
    case Payout(x, i) => c := PayoutActs(s, x, i, t);
    case FinishSettlement(x, i, sandbox) => c := FinishActs(s, x, i, sandbox, t);
    case FailSettlement(x, i) => c := FailActs(s, x, i, t);
    case CrashWorker(x, i) => c := CrashActs(s, x, i, t);
    case SettleOne(x, now, attempt) => c := SettleOneActs(s, x, now, attempt, t);
  }

  lemma StepActs(s: State, step: Step, t: TradeId) returns (c: Change)
    requires t in s.deals
    ensures Acts(s, Next(s, step).state, t, c)
    ensures FromStep(step, c, t)
  {
    hide NextTrade, NextPayment, NextSettlement, NextProduct;
    if StampInFuture(s, step) {
      c := Keep;
    } else if TradeStep(step) {
      c := TradeStepActs(s, step, t);
    } else if PaymentStep(step) {
      c := PaymentStepActs(s, step, t);
    } else if SettlementStep(step) {
      c := SettlementStepActs(s, step, t);
    } else {
      ProductStepsLeaveTrades(s, step, t);
      c := Keep;
    }
  }

  // ---------- What steps leave alone ----------

  ghost predicate OnlyDealRows(s: State, after: State) {
    after == s.(deals := after.deals) && after.deals.Keys == s.deals.Keys
  }

  ghost predicate OnlyDealAndProductRows(s: State, after: State) {
    && after == s.(deals := after.deals, products := after.products)
    && after.deals.Keys == s.deals.Keys && after.products.Keys == s.products.Keys
  }

  lemma AgreementFrame(s: State, step: Step)
    requires step.AcceptTrade? || step.RejectTrade? || step.DeliverTrade? || step.ConfirmTrade?
    ensures OnlyDealAndProductRows(s, NextTrade(s, step).state)
  {
    hide AcceptedDeal, RejectedDeal, DeliveredDeal, ConfirmedDeal, PaymentApproved, Competes;
    hide AfterDispute, AfterCancelTrade, AfterAutoConfirm, AfterExpireUnpaid;
  }

  lemma EndingFrame(s: State, step: Step)
    requires step.DisputeTrade? || step.CancelTrade? || step.AutoConfirm? || step.ExpireUnpaid?
    ensures OnlyDealAndProductRows(s, NextTrade(s, step).state)
  {
    hide ConfirmedDeal, DisputedDeal, CancelledDeal, PaymentApproved, AutoConfirmDue, UnpaidExpired;
    hide AfterAccept, AfterReject, AfterDeliver, AfterConfirmTrade;
  }

  lemma TradeFrame(s: State, step: Step)
    requires TradeStep(step)
    ensures OnlyDealAndProductRows(s, NextTrade(s, step).state)
  {
    hide NextTrade, OnlyDealAndProductRows;
    if step.AcceptTrade? || step.RejectTrade? || step.DeliverTrade? || step.ConfirmTrade? {
      AgreementFrame(s, step);
    } else {
      EndingFrame(s, step);
    }
  }

  lemma AttemptFrame(s: State, t: TradeId, now: Time, i: nat, sandbox: bool)
    ensures OnlyDealRows(s, AfterClaim(s, t, now).state) && OnlyDealRows(s, AfterPayout(s, t, i).state)
    ensures OnlyDealRows(s, AfterFail(s, t, i).state) && OnlyDealRows(s, AfterCrash(s, t, i).state)
    ensures OnlyDealRows(s, AfterFinish(s, t, i, sandbox).state)
  {
    hide ClaimedDeal, PaidOutDeal, SettledDeal, FailedDeal, CrashedDeal, HasEntry, Claimable;
  }

  lemma SettleOneFrame(s: State, t: TradeId, now: Time, attempt: Attempt)
    ensures OnlyDealRows(s, AfterSettleOne(s, t, now, attempt).state)
  {
    var i := if t in s.deals then |s.deals[t].claims| else 0;
    var claimed := AfterClaim(s, t, now).state;
    AttemptFrame(s, t, now, i, true);
    AttemptFrame(claimed, t, now, i, true);
    AttemptFrame(AfterPayout(claimed, t, i).state, t, now, i, false);
    assert t !in s.deals ==> AfterClaim(s, t, now).outcome == Counted(false);
    hide AfterClaim, AfterPayout, AfterFail, AfterFinish;
  }

  lemma SettlementFrame(s: State, step: Step)
    requires SettlementStep(step)
    ensures OnlyDealRows(s, NextSettlement(s, step).state)
  {
    assert step.MarkReady? ==> OnlyDealRows(s, AfterMarkReady(s, step.now).state);
    hide OnlyDealRows, AfterMarkReady, AfterClaim, AfterPayout, AfterFinish, AfterFail, AfterCrash, AfterSettleOne;
    match step
    case MarkReady(now) =>
    case ClaimSettlement(t, now) => AttemptFrame(s, t, now, 0, true);
    case Payout(t, i) => AttemptFrame(s, t, 0, i, true);
    case FinishSettlement(t, i, sandbox) => AttemptFrame(s, t, 0, i, sandbox);
    case FailSettlement(t, i) => AttemptFrame(s, t, 0, i, true);
    case CrashWorker(t, i) => AttemptFrame(s, t, 0, i, true);
    case SettleOne(t, now, attempt) => SettleOneFrame(s, t, now, attempt);
  }

  lemma ReconcileFrame(s: State, order: OrderId)
    ensures OnlyDealRows(s, AfterReconcile(s, order).state) && OnlyDealRows(s, AfterWebhookVerified(s, order).state)
  {
    hide ProviderMatches;
  }

  lemma CreateOrderFrame(s: State, user: UserId, t: TradeId, key: IdempotencyKey, order: OrderId)
    ensures var after := AfterCreateOrder(s, user, t, key, order).state;
            after.clock == s.clock && after.products == s.products && after.rooms == s.rooms
            && after.deals.Keys == s.deals.Keys
  {
    hide OrderedDeal, Replay;
  }

  lemma ConfirmPaymentFrame(s: State, user: UserId, path: OrderId, paymentKey: PaymentKey,
                            order: OrderId, amount: nat, key: IdempotencyKey)
    ensures var after := AfterConfirmPayment(s, user, path, paymentKey, order, amount, key).state;
            after.clock == s.clock && after.products == s.products && after.rooms == s.rooms
            && after.deals.Keys == s.deals.Keys
  {
    hide CapturedDeal, Replay, HasEntry, KeyTaken;
  }

  lemma ReverseFrame(s: State, user: UserId, order: OrderId, text: string, key: IdempotencyKey, cancel: bool)
    ensures var after := AfterReverse(s, user, order, text, key, cancel).state;
            after.clock == s.clock && after.products.Keys == s.products.Keys && after.rooms == s.rooms
            && after.deals.Keys == s.deals.Keys
  {
    hide VoidedDeal, RefundedDeal, Replay, HasEntry;
  }

  lemma ProductFrame(s: State, step: Step)
    requires !TradeStep(step) && !PaymentStep(step) && !SettlementStep(step)
    ensures var after := NextProduct(s, step).state;
            && after == s.(clock := after.clock, deals := after.deals, products := after.products, rooms := after.rooms)
            && after.clock == (if step.Tick? then s.clock + step.ms else s.clock)
            && s.products.Keys <= after.products.Keys
            && s.rooms <= after.rooms && (!step.RequestTrade? ==> after.deals == s.deals && after.rooms == s.rooms)
  {
    hide HasActiveTrade, HasActiveTradeOf, Opened;
  }

  // Only a tick moves the clock, no product row disappears, and only a request makes a trade.
  lemma Frame(s: State, step: Step)
    ensures var after := Next(s, step).state;
            && after.clock == (if step.Tick? then s.clock + step.ms else s.clock)
            && s.products.Keys <= after.products.Keys
            && s.rooms <= after.rooms && (!step.RequestTrade? ==> after.rooms == s.rooms)
            && (!step.RequestTrade? ==> after.deals.Keys == s.deals.Keys)
            && (!step.CreateOrder? && !step.ConfirmPayment? && !step.ReversePayment? ==>
                  after.orders == s.orders && after.provider == s.provider && after.operations == s.operations)
  {
    hide NextTrade, NextSettlement, NextProduct;
    hide AfterCreateOrder, AfterConfirmPayment, AfterReverse, AfterReconcile, AfterWebhookVerified;
    if TradeStep(step) {
      TradeFrame(s, step);
    } else if SettlementStep(step) {
      SettlementFrame(s, step);
    } else if PaymentStep(step) {
      match step
      case CreateOrder(user, t, key, order) => CreateOrderFrame(s, user, t, key, order);
      case ConfirmPayment(user, path, paymentKey, order, amount, key) =>
        ConfirmPaymentFrame(s, user, path, paymentKey, order, amount, key);
      case ReversePayment(user, order, text, key, cancel) => ReverseFrame(s, user, order, text, key, cancel);
      case Reconcile(order) => ReconcileFrame(s, order);
      case WebhookVerified(order) => ReconcileFrame(s, order);
    } else {
      ProductFrame(s, step);
    }
  }

  // ---------- What a step is about ----------

  predicate OrderOf(s: State, order: OrderId, t: TradeId) {
    order in s.orders && s.orders[order] == t
  }

  // The trades a step may change.
  predicate Concerns(s: State, step: Step, t: TradeId) {
    match step
    case AcceptTrade(_, x) =>
      x == t || (x in s.deals && t in s.deals && Competes(s.deals[t], s.deals[x].trade.product))
    case RejectTrade(_, x, _) => x == t
    case DeliverTrade(_, x) => x == t
    case ConfirmTrade(_, x) => x == t
    case DisputeTrade(_, x, _) => x == t
    case CancelTrade(_, x, _) => x == t
    case AutoConfirm(x, _) => x == t
    case ExpireUnpaid(x, _) => x == t
    case CreateOrder(_, x, _, _) => x == t
    case ConfirmPayment(_, path, _, _, _, _) => OrderOf(s, path, t)
    case ReversePayment(_, order, _, _, _) => OrderOf(s, order, t)
    case Reconcile(order) => OrderOf(s, order, t)
    case WebhookVerified(order) => OrderOf(s, order, t)
    case MarkReady(now) => t in s.deals && HoldExpired(s.deals[t], now)
    case ClaimSettlement(x, _) => x == t
    case Payout(x, _) => x == t
    case FinishSettlement(x, _, _) => x == t
    case FailSettlement(x, _) => x == t
    case CrashWorker(x, _) => x == t
    case SettleOne(x, _, _) => x == t
    case _ => false
  }

  lemma OtherTradesOfTrade(s: State, step: Step, t: TradeId)
    requires t in s.deals && TradeStep(step) && !Concerns(s, step, t)
    ensures t in NextTrade(s, step).state.deals && NextTrade(s, step).state.deals[t] == s.deals[t]
  {
    hide AcceptedDeal, RejectedDeal, DeliveredDeal, ConfirmedDeal, DisputedDeal, CancelledDeal, PaymentApproved;
    hide AutoConfirmDue, UnpaidExpired, Competes, ProductSetTo, ProductReleased;
  }

  lemma OtherTradesOfOrder(s: State, step: Step, t: TradeId)
    requires t in s.deals && (step.CreateOrder? || step.Reconcile? || step.WebhookVerified?) && !Concerns(s, step, t)
    ensures t in NextPayment(s, step).state.deals && NextPayment(s, step).state.deals[t] == s.deals[t]
  {
    hide AfterConfirmPayment, AfterReverse, OrderedDeal, Replay, ProviderMatches;
  }

  lemma OtherTradesOfPayment(s: State, step: Step, t: TradeId)
    requires t in s.deals && (step.ConfirmPayment? || step.ReversePayment?) && !Concerns(s, step, t)
    ensures t in NextPayment(s, step).state.deals && NextPayment(s, step).state.deals[t] == s.deals[t]
  {
    hide CapturedDeal, VoidedDeal, RefundedDeal, Replay, HasEntry, KeyTaken, ProductSetTo, AfterCreateOrder, AfterReconcile;
  }

  lemma OtherTradesOfSettlement(s: State, step: Step, t: TradeId)
    requires t in s.deals && SettlementStep(step) && !Concerns(s, step, t)
    ensures t in NextSettlement(s, step).state.deals && NextSettlement(s, step).state.deals[t] == s.deals[t]
  {
    hide AfterClaim, AfterPayout, AfterFail, AfterFinish, AfterSettleOne, HoldExpired, CrashedDeal;
    match step
    case MarkReady(_) =>
    case ClaimSettlement(x, now) => OthersUntouched(s, x, now, 0, true, t);
    case Payout(x, i) => OthersUntouched(s, x, 0, i, true, t);
    case FinishSettlement(x, i, sandbox) => OthersUntouched(s, x, 0, i, sandbox, t);
    case FailSettlement(x, i) => OthersUntouched(s, x, 0, i, true, t);
    case CrashWorker(x, i) =>
    case SettleOne(x, now, attempt) => OthersOfSettleOne(s, x, now, attempt, t);
  }

  lemma OthersOfSettleOne(s: State, x: TradeId, now: Time, attempt: Attempt, t: TradeId)
    requires t in s.deals && x != t
    ensures t in AfterSettleOne(s, x, now, attempt).state.deals
         && AfterSettleOne(s, x, now, attempt).state.deals[t] == s.deals[t]
  {
    hide AfterSettleOne, Claimable, SettledWhole, HasEntry;
    if x in s.deals && Claimable(s.deals[x]) {
      SettleOneIs(s, x, now, attempt);
    } else {
      NothingToSettle(s, x, now, attempt);
    }
  }

  lemma NothingToSettle(s: State, x: TradeId, now: Time, attempt: Attempt)
    requires x !in s.deals || !Claimable(s.deals[x])
    ensures AfterSettleOne(s, x, now, attempt).state == s
  {
    hide Claimable, AfterPayout, AfterFinish, AfterFail;
  }

  // A step changes no trade it is not about.
  lemma OtherTradesStay(s: State, step: Step, t: TradeId)
    requires t in s.deals && !Concerns(s, step, t)
    ensures t in Next(s, step).state.deals && Next(s, step).state.deals[t] == s.deals[t]
  {
    hide NextTrade, NextPayment, NextSettlement, NextProduct, Concerns;
    if TradeStep(step) {
      OtherTradesOfTrade(s, step, t);
    } else if step.ConfirmPayment? || step.ReversePayment? {
      OtherTradesOfPayment(s, step, t);
    } else if PaymentStep(step) {
      OtherTradesOfOrder(s, step, t);
    } else if SettlementStep(step) {
      OtherTradesOfSettlement(s, step, t);
    } else {
      ProductStepsLeaveTrades(s, step, t);
    }
  }

  predicate ProductOf(s: State, x: TradeId, p: ProductId) {
    x in s.deals && s.deals[x].trade.product == p
  }

  // The products a step may change.
  predicate ConcernsProduct(s: State, step: Step, p: ProductId) {
    match step
    case AcceptTrade(_, x) => ProductOf(s, x, p)
    case ConfirmTrade(_, x) => ProductOf(s, x, p)
    case CancelTrade(_, x, _) => ProductOf(s, x, p)
    case AutoConfirm(x, _) => ProductOf(s, x, p)
    case ExpireUnpaid(x, _) => ProductOf(s, x, p)
    case ReversePayment(_, order, _, _, cancel) => cancel && order in s.orders && ProductOf(s, s.orders[order], p)
    case EditPrice(_, q, _) => q == p
    case SetVisibility(_, q, _) => q == p
    case HideByAdmin(q) => q == p
    case RemoveProduct(_, q) => q == p
    case _ => false
  }

  lemma OtherProductsOfTrade(s: State, step: Step, p: ProductId)
    requires p in s.products && TradeStep(step) && !ConcernsProduct(s, step, p)
    ensures p in NextTrade(s, step).state.products && NextTrade(s, step).state.products[p] == s.products[p]
  {
    hide AcceptedDeal, RejectedDeal, DeliveredDeal, ConfirmedDeal, DisputedDeal, CancelledDeal, PaymentApproved;
    hide AutoConfirmDue, UnpaidExpired, Competes;
  }

  lemma OtherProductsOfReverse(s: State, step: Step, p: ProductId)
    requires p in s.products && step.ReversePayment? && !ConcernsProduct(s, step, p)
    ensures p in NextPayment(s, step).state.products && NextPayment(s, step).state.products[p] == s.products[p]
  {
    hide VoidedDeal, RefundedDeal, Replay, HasEntry, AfterConfirmPayment, AfterCreateOrder, AfterReconcile;
  }

  lemma OtherProductsOfPayment(s: State, step: Step)
    requires PaymentStep(step) && !step.ReversePayment?
    ensures NextPayment(s, step).state.products == s.products
  {
    hide AfterCreateOrder, AfterConfirmPayment, AfterReverse, AfterReconcile, AfterWebhookVerified;
    match step
    case CreateOrder(user, t, key, order) => CreateOrderFrame(s, user, t, key, order);
    case ConfirmPayment(user, path, paymentKey, order, amount, key) =>
      ConfirmPaymentFrame(s, user, path, paymentKey, order, amount, key);
    case Reconcile(order) => ReconcileFrame(s, order);
    case WebhookVerified(order) => ReconcileFrame(s, order);
  }

  lemma OtherProductsOfProduct(s: State, step: Step, p: ProductId)
    requires p in s.products && !TradeStep(step) && !PaymentStep(step) && !SettlementStep(step)
    requires !ConcernsProduct(s, step, p)
    ensures p in NextProduct(s, step).state.products && NextProduct(s, step).state.products[p] == s.products[p]
  {
    hide HasActiveTrade, HasActiveTradeOf, Opened;
  }

  // And no product.
  lemma OtherProductsStay(s: State, step: Step, p: ProductId)
    requires p in s.products && !ConcernsProduct(s, step, p)
    ensures p in Next(s, step).state.products && Next(s, step).state.products[p] == s.products[p]
  {
    hide NextTrade, NextPayment, NextSettlement, NextProduct, ConcernsProduct;
    if TradeStep(step) {
      OtherProductsOfTrade(s, step, p);
    } else if step.ReversePayment? {
      OtherProductsOfReverse(s, step, p);
    } else if PaymentStep(step) {
      OtherProductsOfPayment(s, step);
    } else if SettlementStep(step) {
      SettlementFrame(s, step);
    } else {
      OtherProductsOfProduct(s, step, p);
    }
  }
}

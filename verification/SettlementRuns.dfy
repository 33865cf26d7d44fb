/** Settlement over whole runs: each payment at most once, after its hold, and what a dispute stops. */
module SettlementRuns {
  import opened Rows
  import opened Deals
  import opened DealInvariant
  import opened Market
  import opened MarketInvariant
  import opened DealChanges
  import opened Escrow

  // ---------- Once settled or stopped, always so ----------

  // Nothing in flight and nothing a claim would accept, on a trade that cannot be confirmed again.
  ghost predicate Parked(d: Deal) {
    && d.payment.Some? && d.claims == []
    && (d.payment.value.settlement.Paused? || d.payment.value.settlement.Processing?
        || d.payment.value.settlement.Settled? || d.payment.value.settlement.SandboxSettled?)
    && (d.trade.status.Confirmed? || d.trade.status.Disputed? || d.trade.status.Cancelled?)
  }

  lemma ChangeKeepsParked(d: Deal, c: Change, at: Time)
    requires Parked(d) && Permitted(d, c, at)
    ensures var e := Apply(d, c, at);
            && Parked(e) && e.payment.value.settledAt == d.payment.value.settledAt && e.transfers == d.transfers
            && (d.payment.value.status.Refunded? ==> e.payment.value.status.Refunded?)
  {
    hide HasEntry;
  }

  lemma {:induction false} RunKeepsParked(s: State, steps: seq<Step>, t: TradeId)
    requires t in s.deals && Parked(s.deals[t])
    ensures t in Run(s, steps).deals && Parked(Run(s, steps).deals[t])
    ensures Run(s, steps).deals[t].payment.value.settledAt == s.deals[t].payment.value.settledAt
    ensures Run(s, steps).deals[t].transfers == s.deals[t].transfers
    ensures s.deals[t].payment.value.status.Refunded? ==> Run(s, steps).deals[t].payment.value.status.Refunded?
    decreases |steps|
  {
    hide Next, Permitted, Apply;
    if steps != [] {
      var c := StepActs(s, steps[0], t);
      ChangeKeepsParked(s.deals[t], c, s.clock);
      RunKeepsParked(Next(s, steps[0]).state, steps[1..], t);
    }
  }

  lemma SoundSettlement(steps: seq<Step>, t: TradeId)
    requires t in Run(Empty, steps).deals && Run(Empty, steps).deals[t].payment.Some?
    ensures var d := Run(Empty, steps).deals[t];
            SettlementSound(d.trade.status, d.payment.value, HasReason(d.ledger, PayoutProviderConfirmed),
                            d.claims, d.transfers)
  {
    hide Run, TradeOk, SettlementSound, LedgerExact, PaymentTimely, HasReason;
    ReachedDeal(steps, t);
  }

  // However many attempts failed before or after paying: never two claims in flight, never a second
  // transfer or one of another amount; recorded as paid by the provider only if it did pay.
  lemma NeverPaidTwice(steps: seq<Step>, t: TradeId)
    requires t in Run(Empty, steps).deals && Run(Empty, steps).deals[t].payment.Some?
    ensures var d := Run(Empty, steps).deals[t];
            var p := d.payment.value;
            && |d.claims| <= 1
            && (d.transfers == [] || d.transfers == [p.amount])
            && (p.settlement.Settled? || HasReason(d.ledger, PayoutProviderConfirmed) ==> d.transfers == [p.amount])
            && (d.claims != [] ==> p.settledAt.None? && !Claimable(d))
  {
    SoundSettlement(steps, t);
    hide Run, HasReason;
  }

  // A settled payment has exactly one settlement row, of its full amount, and however the run goes on
  // it is never claimable again, never settled anew, and never paid out again.
  lemma SettledExactlyOnce(steps: seq<Step>, more: seq<Step>, t: TradeId)
    requires t in Run(Empty, steps).deals && Run(Empty, steps).deals[t].payment.Some?
    requires Run(Empty, steps).deals[t].payment.value.settledAt.Some?
    ensures var d := Run(Empty, steps).deals[t];
            && t in Run(Run(Empty, steps), more).deals
            && var e := Run(Run(Empty, steps), more).deals[t];
            && e.payment.Some? && e.payment.value.settledAt == d.payment.value.settledAt
            && e.transfers == d.transfers && e.claims == [] && !Claimable(e)
            && HasEntry(e.ledger, Settlement) && NoEntryTwice(e.ledger)
            && forall i :: 0 <= i < |e.ledger| && e.ledger[i].entry.Settlement? ==>
                 e.ledger[i].amount == 0 - e.payment.value.amount
  {
    var s := Run(Empty, steps);
    SoundSettlement(steps, t);
    assert Parked(s.deals[t]);
    hide SettlementSound, HasReason;
    RunKeepsParked(s, more, t);
    RunConcat(Empty, steps, more);
    LedgerAgreesWithPayment(steps + more, t);
    hide Run, HasEntry, NoEntryTwice, Balance, Held;
  }

  // ---------- A dispute stops settlement exactly when no claim is in flight ----------

  ghost predicate SettledIn(s: State, t: TradeId) {
    t in s.deals && s.deals[t].payment.Some? && s.deals[t].payment.value.settledAt.Some?
  }

  // Some continuation settles the payment.
  ghost predicate CanSettle(s: State, t: TradeId) {
    exists more :: SettledIn(Run(s, more), t)
  }

  lemma FinishMarks(s: State, t: TradeId, i: nat, sandbox: bool)
    requires AfterFinish(s, t, i, sandbox).outcome == Counted(true)
    ensures SettledIn(AfterFinish(s, t, i, sandbox).state, t)
  {
    hide HasEntry;
  }

  lemma FinishSettles(s: State, t: TradeId)
    requires Inv(s) && InFlight(s, t, 0)
    ensures CanSettle(s, t)
  {
    var sandbox := !s.deals[t].claims[0].paid;
    hide Inv, AfterFinish, SettledIn, Next, CanSettle;
    FinishRecords(s, t, 0, sandbox);
    FinishMarks(s, t, 0, sandbox);
    NextFinish(s, t, 0, sandbox);
    SettledByOneStep(s, FinishSettlement(t, 0, sandbox), t);
  }

  lemma NextFinish(s: State, t: TradeId, i: nat, sandbox: bool)
    ensures Next(s, FinishSettlement(t, i, sandbox)) == AfterFinish(s, t, i, sandbox)
  {
    hide AfterFinish;
  }

  lemma SettledByOneStep(s: State, step: Step, t: TradeId)
    requires SettledIn(Next(s, step).state, t)
    ensures CanSettle(s, t)
  {
    hide Next, SettledIn, Run;
    RunOne(s, step);
    assert SettledIn(Run(s, [step]), t);
  }

  // A payment that is paused, or left in processing by a worker that crashed, settles only by a claim in
  // flight: nothing takes up a claim that was given up.
  lemma HeldSettlesExactlyInFlight(steps: seq<Step>, t: TradeId)
    requires t in Run(Empty, steps).deals && Run(Empty, steps).deals[t].payment.Some?
    requires var p := Run(Empty, steps).deals[t].payment.value; p.settlement.Paused? || p.settlement.Processing?
    requires Run(Empty, steps).deals[t].payment.value.settledAt.None?
    ensures CanSettle(Run(Empty, steps), t) <==> Run(Empty, steps).deals[t].claims != []
  {
    var s := Run(Empty, steps);
    if s.deals[t].claims != [] {
      Reachable(steps);
      hide Inv, Run;
      FinishSettles(s, t);
    } else {
      SoundSettlement(steps, t);
      hide HasReason;
      assert Parked(s.deals[t]);
      forall more ensures !SettledIn(Run(s, more), t) {
        RunKeepsParked(s, more, t);
      }
    }
  }

  // A dispute or a refund is meant to stop settlement. It does so unless, when it is accepted, a worker
  // holds a claim on the payment: that worker can still settle it.
  lemma DisputeStopsSettlementExactly(steps: seq<Step>, step: Step, t: TradeId)
    requires t in Run(Empty, steps).deals && Run(Empty, steps).deals[t].payment.Some?
    requires Run(Empty, steps).deals[t].payment.value.settledAt.None?
    requires (step.DisputeTrade? && step.trade == t)
          || (step.ReversePayment? && !step.cancel && step.order == Run(Empty, steps).deals[t].payment.value.order)
    requires Next(Run(Empty, steps), step).state.deals != Run(Empty, steps).deals
    ensures CanSettle(Next(Run(Empty, steps), step).state, t) <==> Run(Empty, steps).deals[t].claims != []
  {
    var s := Run(Empty, steps);
    var after := Next(s, step).state;
    DisputePauses(steps, step, t);
    assert PausedAs(s.deals[t], after, t);
    assert after == Run(Empty, steps + [step]) by {
      RunConcat(Empty, steps, [step]);
      RunOne(s, step);
    }
    hide Next, CanSettle;
    HeldSettlesExactlyInFlight(steps + [step], t);
  }

  // What can be read in the payment row: a dispute accepted while the settlement is not in processing is
  // never followed by a settlement; nor is a refund, if the settlement was not already paused either.
  lemma DisputeOutsideProcessingStops(steps: seq<Step>, step: Step, t: TradeId)
    requires t in Run(Empty, steps).deals && Run(Empty, steps).deals[t].payment.Some?
    requires Run(Empty, steps).deals[t].payment.value.settledAt.None?
    requires (step.DisputeTrade? && step.trade == t)
          || (step.ReversePayment? && !step.cancel && step.order == Run(Empty, steps).deals[t].payment.value.order
              && !Run(Empty, steps).deals[t].payment.value.settlement.Paused?)
    requires Next(Run(Empty, steps), step).state.deals != Run(Empty, steps).deals
    requires !Run(Empty, steps).deals[t].payment.value.settlement.Processing?
    ensures forall more :: !SettledIn(Run(Next(Run(Empty, steps), step).state, more), t)
  {
    var s := Run(Empty, steps);
    SoundSettlement(steps, t);
    if step.DisputeTrade? {
      DisputedFromActive(s, step.user, t, step.text);
    }
    hide Run, HasReason, CanSettle;
    DisputeStopsSettlementExactly(steps, step, t);
    NoContinuation(Next(s, step).state, t);
  }

  lemma DisputedFromActive(s: State, user: UserId, t: TradeId, text: string)
    requires t in s.deals && Next(s, DisputeTrade(user, t, text)).state.deals != s.deals
    ensures !s.deals[t].trade.status.Disputed? && !s.deals[t].trade.status.Cancelled?
  {
  }

  lemma NoContinuation(s: State, t: TradeId)
    requires !CanSettle(s, t)
    ensures forall more :: !SettledIn(Run(s, more), t)
  {
    hide Run, SettledIn;
  }

  ghost predicate PausedAs(d: Deal, s: State, t: TradeId) {
    && t in s.deals && d.payment.Some? && s.deals[t].payment.Some? && s.deals[t].payment.value.settlement.Paused?
    && s.deals[t].payment.value.settledAt == d.payment.value.settledAt && s.deals[t].claims == d.claims
  }

  lemma DisputeTradePauses(s: State, user: UserId, t: TradeId, text: string)
    requires t in s.deals && s.deals[t].payment.Some? && AfterDispute(s, user, t, text).state.deals != s.deals
    ensures PausedAs(s.deals[t], AfterDispute(s, user, t, text).state, t)
  {
  }

  lemma RefundPauses(s: State, user: UserId, order: OrderId, text: string, key: IdempotencyKey, t: TradeId)
    requires t in s.deals && order in s.orders && s.orders[order] == t
    requires AfterReverse(s, user, order, text, key, false).state.deals != s.deals
    ensures PausedAs(s.deals[t], AfterReverse(s, user, order, text, key, false).state, t)
  {
    hide HasEntry, Replay;
  }

  lemma DisputePauses(steps: seq<Step>, step: Step, t: TradeId)
    requires t in Run(Empty, steps).deals && Run(Empty, steps).deals[t].payment.Some?
    requires (step.DisputeTrade? && step.trade == t)
          || (step.ReversePayment? && !step.cancel && step.order == Run(Empty, steps).deals[t].payment.value.order)
    requires Next(Run(Empty, steps), step).state.deals != Run(Empty, steps).deals
    ensures PausedAs(Run(Empty, steps).deals[t], Next(Run(Empty, steps), step).state, t)
  {
    var s := Run(Empty, steps);
    Reachable(steps);
    hide DealsOk, ProviderAgrees, Run, AfterDispute, AfterReverse, PausedAs, PaymentOf;
    match step
    case DisputeTrade(user, _, text) => DisputeTradePauses(s, user, t, text);
    case ReversePayment(user, order, text, key, _) => RefundPauses(s, user, order, text, key, t);
  }

  // ---------- Claim, payout and recording without a gap ----------

  predicate Coarse(s: State, step: Step) {
    && !step.ClaimSettlement? && !step.Payout? && !step.FinishSettlement? && !step.FailSettlement?
    && !step.CrashWorker?
  }

  ghost predicate CoarseDeal(d: Deal) {
    && d.claims == []
    && (d.payment.Some? ==>
          && !d.payment.value.settlement.Processing?
          && (d.payment.value.settlement.Failed? ==> PaymentApproved(d) && d.trade.status.Confirmed?))
  }

  ghost predicate CoarseState(s: State) {
    forall t :: t in s.deals ==> CoarseDeal(s.deals[t])
  }

  lemma ReadyIsConfirmed(d: Deal, at: Time)
    requires DealOk(d, at)
    ensures d.payment.Some? && d.payment.value.settlement.Ready? ==> PaymentApproved(d) && d.trade.status.Confirmed?
  {
    hide TradeOk, LedgerExact, PaymentTimely, HasReason;
  }

  lemma ChangeKeepsCoarse(d: Deal, c: Change, at: Time)
    requires CoarseDeal(d) && Permitted(d, c, at) && DealOk(d, at)
    requires !c.Claim? && !c.PayOut? && !c.Settle? && !c.Fail? && !c.Crash?
    ensures CoarseDeal(Apply(d, c, at))
  {
    hide DealOk, HasEntry;
    ReadyIsConfirmed(d, at);
  }

  lemma CoarseChange(s: State, step: Step, c: Change, t: TradeId)
    requires Coarse(s, step) && FromStep(step, c, t)
    ensures !c.Claim? && !c.PayOut? && !c.Settle? && !c.Fail? && !c.Crash?
  {
  }

  lemma NextKeepsCoarse(s: State, step: Step)
    requires Inv(s) && CoarseState(s) && Coarse(s, step)
    ensures CoarseState(Next(s, step).state)
  {
    var after := Next(s, step).state;
    InvParts(s);
    hide Inv, Next, DealOk, Permitted, Apply, CoarseDeal, OrdersIndexed, ProviderAgrees, FromStep, Coarse;
    Frame(s, step);
    forall t | t in after.deals ensures CoarseDeal(after.deals[t]) {
      if t in s.deals {
        var c := StepActs(s, step, t);
        CoarseChange(s, step, c, t);
        ChangeKeepsCoarse(s.deals[t], c, s.clock);
      } else {
        NewTrade(s, step, t);
        OpenedIsCoarse(step.product, step.user, s.products[step.product].author, s.products[step.product].price, s.clock);
      }
    }
  }

  lemma OpenedIsCoarse(product: ProductId, buyer: UserId, seller: UserId, price: nat, at: Time)
    ensures CoarseDeal(Opened(product, buyer, seller, price, at))
  {
  }

  lemma {:induction false} RunKeepsCoarse(s: State, steps: seq<Step>)
    requires Inv(s) && CoarseState(s) && Obeys(s, steps, Coarse)
    ensures CoarseState(Run(s, steps))
    decreases |steps|
  {
    hide Inv, CoarseState, Next, Coarse;
    if steps != [] {
      NextKeeps(s, steps[0]);
      NextKeepsCoarse(s, steps[0]);
      RunKeepsCoarse(Next(s, steps[0]).state, steps[1..]);
    }
  }

  lemma CoarseReached(steps: seq<Step>, t: TradeId)
    requires Obeys(Empty, steps, Coarse) && t in Run(Empty, steps).deals
    ensures CoarseDeal(Run(Empty, steps).deals[t])
  {
    assert CoarseState(Empty);
    Reachable([]);
    hide Inv, CoarseDeal, Obeys;
    RunKeepsCoarse(Empty, steps);
  }

  // The claim checks one column again; without gaps that is as strong as the whole due filter, so
  // working through a stale list of due payments settles nothing a fresh query would not return.
  lemma StaleDueListIsHarmless(steps: seq<Step>, t: TradeId)
    requires Obeys(Empty, steps, Coarse) && t in Run(Empty, steps).deals
    ensures var d := Run(Empty, steps).deals[t];
            && (Claimable(d) <==> DueForSettlement(d))
            && (Claimable(d) ==> d.payment.value.settledAt.None?)
  {
    var d := Run(Empty, steps).deals[t];
    CoarseReached(steps, t);
    hide Obeys, Run;
    if d.payment.Some? {
      SoundSettlement(steps, t);
      hide HasReason;
    }
  }

  // Without gaps nothing is settled after a dispute, a cancellation or a refund, whatever steps follow.
  lemma NothingSettlesAfterDispute(steps: seq<Step>, more: seq<Step>, t: TradeId)
    requires Obeys(Empty, steps, Coarse) && t in Run(Empty, steps).deals && Run(Empty, steps).deals[t].payment.Some?
    requires var d := Run(Empty, steps).deals[t];
             d.trade.status.Disputed? || d.trade.status.Cancelled? || d.payment.value.status.Refunded?
    ensures SettledIn(Run(Run(Empty, steps), more), t) <==> SettledIn(Run(Empty, steps), t)
    ensures t in Run(Run(Empty, steps), more).deals
         && Run(Run(Empty, steps), more).deals[t].transfers == Run(Empty, steps).deals[t].transfers
  {
    var s := Run(Empty, steps);
    CoarseReached(steps, t);
    SoundSettlement(steps, t);
    TradeAndPaymentCohere(steps, t);
    hide Obeys, HasReason;
    assert Parked(s.deals[t]);
    hide SettlementSound, CoarseDeal;
    RunKeepsParked(s, more, t);
  }

  // ---------- Time gates ----------

  // At any granularity: a payment released for payout, in flight or settled was confirmed at least the
  // hold ago, and, if the deadline confirmed it, delivered at least both periods ago.
  lemma ReleaseWaits(steps: seq<Step>, t: TradeId)
    requires t in Run(Empty, steps).deals && Run(Empty, steps).deals[t].payment.Some?
    requires Released(Run(Empty, steps).deals[t].payment.value, Run(Empty, steps).deals[t].claims)
    ensures var d := Run(Empty, steps).deals[t];
            && d.trade.deliveredAt.Some? && d.trade.confirmedAt.Some?
            && d.payment.value.availableAt == Some(d.trade.confirmedAt.value + SETTLEMENT_HOLD_MS)
            && d.trade.confirmedAt.value + SETTLEMENT_HOLD_MS <= Run(Empty, steps).clock
            && (HasRow(d.history, AutoConfirmedAfter7Days) ==>
                  && d.trade.deliveredAt.value + AUTO_CONFIRM_MS <= d.trade.confirmedAt.value
                  && d.trade.deliveredAt.value + 14 * DAY_MS <= Run(Empty, steps).clock)
  {
    hide Run, HistoryReplays, LedgerExact, SettlementSound, Coherent, HasRow, HasReason, Released;
    ReachedDeal(steps, t);
  }

  // A trade cancelled as unpaid waited the timeout after its acceptance and never had a payment order.
  lemma ExpiryWaited(steps: seq<Step>, t: TradeId)
    requires t in Run(Empty, steps).deals && HasRow(Run(Empty, steps).deals[t].history, AutoCancelledUnpaidAfter7Days)
    ensures var d := Run(Empty, steps).deals[t];
            var n := |d.history|;
            && d.payment.None? && d.trade.status.Cancelled? && n >= 3
            && d.history[n - 1].reason == AutoCancelledUnpaidAfter7Days && d.history[n - 2].to.Accepted?
            && d.history[n - 2].at + UNPAID_ACCEPTANCE_TIMEOUT_MS <= d.history[n - 1].at == d.trade.updatedAt
  {
    var d := Run(Empty, steps).deals[t];
    ReachedDeal(steps, t);
    hide Run, MoneyOk, Coherent, TradeTimely;
    var i :| 0 <= i < |d.history| && d.history[i].reason == AutoCancelledUnpaidAfter7Days;
    forall k | 0 <= k < |d.history| - 1 ensures !d.history[k].to.Cancelled? {
      assert LegalEdge(d.history[k].to, d.history[k + 1].to);
    }
    assert i == |d.history| - 1;
  }
}

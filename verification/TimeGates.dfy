/** When the recorded settlement time itself is past the hold: a batch records the time it started, so this
    depends on the stamp of the claim. */
module TimeGates {
  import opened Rows
  import opened Deals
  import opened DealInvariant
  import opened Market
  import opened MarketInvariant
  import opened DealChanges
  import opened Escrow
  import opened SettlementRuns

  // What a worker can check before it claims: the time its batch started is past the end of the hold.
  predicate Stamped(s: State, step: Step) {
    (step.ClaimSettlement? || step.SettleOne?) && step.trade in s.deals ==> StampFits(s.deals[step.trade], step.now)
  }

  predicate StampFits(d: Deal, now: Time) {
    Claimable(d) && d.payment.value.availableAt.Some? ==> d.payment.value.availableAt.value <= now
  }

  ghost predicate StampedDeal(d: Deal) {
    d.payment.Some? ==>
      var p := d.payment.value;
      && (p.settledAt.Some? ==> p.availableAt.Some? && p.availableAt.value <= p.settledAt.value)
      && (d.claims != [] ==> p.availableAt.Some? && ClaimedSince(d.claims, p.availableAt.value))
  }

  ghost predicate ClaimedSince(claims: seq<Claim>, from: Time) {
    forall i :: 0 <= i < |claims| ==> from <= claims[i].now
  }

  ghost predicate StampedState(s: State) {
    forall t :: t in s.deals ==> StampedDeal(s.deals[t])
  }

  // What the invariant says about a claimable payment and about one that can still be confirmed.
  lemma ClaimableWaited(d: Deal, at: Time)
    requires DealOk(d, at)
    ensures Claimable(d) ==> d.payment.value.availableAt.Some? && d.payment.value.availableAt.value <= at
    ensures d.trade.status.Delivered? && d.payment.Some? ==> d.payment.value.settledAt.None? && d.claims == []
    ensures d.payment.None? ==> d.claims == []
  {
    hide HistoryReplays, LedgerExact, HasReason, HasRow;
  }

  lemma ClaimsKeepStamped(d: Deal, i: nat, sandbox: bool)
    requires StampedDeal(d) && d.payment.Some? && i < |d.claims|
    ensures StampedDeal(PaidOutDeal(d, i)) && StampedDeal(SettledDeal(d, i, sandbox))
    ensures StampedDeal(FailedDeal(d, i)) && StampedDeal(CrashedDeal(d, i))
  {
  }

  lemma ClaimingKeepsStamped(d: Deal, now: Time)
    requires StampedDeal(d) && Claimable(d) && d.payment.value.availableAt.Some?
    requires d.payment.value.availableAt.value <= now
    ensures StampedDeal(ClaimedDeal(d, now))
  {
  }

  lemma SettleWholeKeepsStamped(d: Deal, now: Time, attempt: Attempt)
    requires StampedDeal(d) && Claimable(d) && d.payment.value.availableAt.Some?
    requires d.payment.value.availableAt.value <= now
    ensures StampedDeal(SettledWhole(d, now, attempt))
  {
    var claimed, i := ClaimedDeal(d, now), |d.claims|;
    ClaimingKeepsStamped(d, now);
    ClaimsKeepStamped(claimed, i, true);
    ClaimsKeepStamped(PaidOutDeal(claimed, i), i, false);
    hide StampedDeal;
  }

  lemma OtherChangeKeepsStamped(d: Deal, c: Change, at: Time)
    requires StampedDeal(d) && Permitted(d, c, at)
    requires !c.Claim? && !c.PayOut? && !c.Settle? && !c.Fail? && !c.Crash? && !c.SettleWhole?
    requires d.trade.status.Delivered? && d.payment.Some? ==> d.payment.value.settledAt.None? && d.claims == []
    requires d.payment.None? ==> d.claims == []
    ensures StampedDeal(Apply(d, c, at))
  {
    hide HasEntry, ClaimedSince;
  }

  lemma ChangeKeepsStamped(d: Deal, c: Change, at: Time)
    requires StampedDeal(d) && Permitted(d, c, at) && DealOk(d, at)
    requires (c.Claim? ==> StampFits(d, c.now)) && (c.SettleWhole? ==> StampFits(d, c.now))
    ensures StampedDeal(Apply(d, c, at))
  {
    hide DealOk, StampedDeal, HasEntry;
    ClaimableWaited(d, at);
    match c
    case Claim(now) => ClaimingKeepsStamped(d, now);
    case PayOut(i) => ClaimsKeepStamped(d, i, true);
    case Settle(i, sandbox) => ClaimsKeepStamped(d, i, sandbox);
    case Fail(i) => ClaimsKeepStamped(d, i, true);
    case Crash(i) => ClaimsKeepStamped(d, i, true);
    case SettleWhole(now, attempt) => SettleWholeKeepsStamped(d, now, attempt);
    case _ => OtherChangeKeepsStamped(d, c, at); hide Permitted, Apply;
  }

  lemma StampedChange(s: State, step: Step, c: Change, t: TradeId)
    requires Stamped(s, step) && FromStep(step, c, t) && t in s.deals
    ensures (c.Claim? ==> StampFits(s.deals[t], c.now)) && (c.SettleWhole? ==> StampFits(s.deals[t], c.now))
  {
  }

  lemma NextKeepsStamped(s: State, step: Step)
    requires Inv(s) && StampedState(s) && Stamped(s, step)
    ensures StampedState(Next(s, step).state)
  {
    var after := Next(s, step).state;
    InvParts(s);
    hide Inv, Next, DealOk, Permitted, Apply, StampedDeal, OrdersIndexed, ProviderAgrees, FromStep, Stamped;
    Frame(s, step);
    forall t | t in after.deals ensures StampedDeal(after.deals[t]) {
      if t in s.deals {
        var c := StepActs(s, step, t);
        StampedChange(s, step, c, t);
        ChangeKeepsStamped(s.deals[t], c, s.clock);
      } else {
        NewTrade(s, step, t);
        OpenedIsStamped(step.product, step.user, s.products[step.product].author, s.products[step.product].price, s.clock);
      }
    }
  }

  lemma OpenedIsStamped(product: ProductId, buyer: UserId, seller: UserId, price: nat, at: Time)
    ensures StampedDeal(Opened(product, buyer, seller, price, at))
  {
  }

  lemma {:induction false} RunKeepsStamped(s: State, steps: seq<Step>)
    requires Inv(s) && StampedState(s) && Obeys(s, steps, Stamped)
    ensures StampedState(Run(s, steps))
    decreases |steps|
  {
    hide Inv, StampedState, Next, Stamped;
    if steps != [] {
      NextKeeps(s, steps[0]);
      NextKeepsStamped(s, steps[0]);
      RunKeepsStamped(Next(s, steps[0]).state, steps[1..]);
    }
  }

  // In such runs the recorded settlement time itself is past the hold, and past both periods for a
  // trade the deadline confirmed.
  lemma SettlementTimeIsPastTheHold(steps: seq<Step>, t: TradeId)
    requires Obeys(Empty, steps, Stamped) && SettledIn(Run(Empty, steps), t)
    ensures var d := Run(Empty, steps).deals[t];
            && d.trade.deliveredAt.Some? && d.trade.confirmedAt.Some?
            && d.trade.confirmedAt.value + SETTLEMENT_HOLD_MS <= d.payment.value.settledAt.value
            && (HasRow(d.history, AutoConfirmedAfter7Days) ==>
                  d.trade.deliveredAt.value + 14 * DAY_MS <= d.payment.value.settledAt.value)
  {
    assert StampedState(Empty);
    Reachable([]);
    RunKeepsStamped(Empty, steps);
    ReleaseWaits(steps, t);
    hide Inv, Obeys, Run, HasRow;
    assert StampedDeal(Run(Empty, steps).deals[t]);
  }

  // ---------- At a single claim ----------

  lemma ChangeKeepsAvailable(d: Deal, c: Change, at: Time)
    requires d.payment.Some? && (d.trade.status.Confirmed? || d.trade.status.Disputed?) && Permitted(d, c, at)
    ensures var e := Apply(d, c, at);
            && e.payment.Some? && e.payment.value.availableAt == d.payment.value.availableAt
            && (e.trade.status.Confirmed? || e.trade.status.Disputed?)
  {
    hide HasEntry;
  }

  lemma {:induction false} RunKeepsAvailable(s: State, steps: seq<Step>, t: TradeId)
    requires t in s.deals && s.deals[t].payment.Some?
    requires s.deals[t].trade.status.Confirmed? || s.deals[t].trade.status.Disputed?
    ensures t in Run(s, steps).deals && Run(s, steps).deals[t].payment.Some?
    ensures Run(s, steps).deals[t].payment.value.availableAt == s.deals[t].payment.value.availableAt
    decreases |steps|
  {
    hide Next, Permitted, Apply;
    if steps != [] {
      var c := StepActs(s, steps[0], t);
      ChangeKeepsAvailable(s.deals[t], c, s.clock);
      RunKeepsAvailable(Next(s, steps[0]).state, steps[1..], t);
    }
  }

  // After some further run the claim with this stamp is still in flight and its settlement is recorded.
  ghost predicate RecordedUnder(s: State, more: seq<Step>, t: TradeId, now: Time, sandbox: bool) {
    var last := Run(s, more);
    && InFlight(last, t, 0) && last.deals[t].claims[0].now == now
    && AfterFinish(last, t, 0, sandbox).outcome == Counted(true)
  }

  ghost predicate PastHold(s: State, t: TradeId) {
    && SettledIn(s, t) && s.deals[t].payment.value.availableAt.Some?
    && s.deals[t].payment.value.availableAt.value <= s.deals[t].payment.value.settledAt.value
  }

  lemma FinishRecordsStamp(s: State, t: TradeId, sandbox: bool)
    requires InFlight(s, t, 0) && AfterFinish(s, t, 0, sandbox).outcome == Counted(true)
    ensures var after := AfterFinish(s, t, 0, sandbox).state;
            && SettledIn(after, t) && after.deals[t].payment.value.settledAt == Some(s.deals[t].claims[0].now)
            && after.deals[t].payment.value.availableAt == s.deals[t].payment.value.availableAt
  {
    hide HasEntry;
  }

  // A claimable payment's hold is over, and claiming it leaves one unpaid claim with the stamp.
  lemma ClaimLeaves(steps: seq<Step>, t: TradeId, now: Time)
    requires t in Run(Empty, steps).deals && Claimable(Run(Empty, steps).deals[t])
    ensures var s := Run(Empty, steps);
            var claimed := AfterClaim(s, t, now).state;
            && s.deals[t].payment.value.availableAt.Some?
            && t in claimed.deals && claimed.deals[t].payment.Some? && claimed.deals[t].claims == [Claim.Claim(now, false)]
            && claimed.deals[t].payment.value.availableAt == s.deals[t].payment.value.availableAt
            && (claimed.deals[t].trade.status.Confirmed? || claimed.deals[t].trade.status.Disputed?)
  {
    hide Run, HistoryReplays, LedgerExact, TradeTimely, Coherent, HasReason;
    ReachedDeal(steps, t);
    assert MoneyOk(Run(Empty, steps).deals[t], Run(Empty, steps).clock);
  }

  lemma ClaimKeepsInv(steps: seq<Step>, t: TradeId, now: Time)
    requires now <= Run(Empty, steps).clock
    ensures Next(Run(Empty, steps), ClaimSettlement(t, now)) == AfterClaim(Run(Empty, steps), t, now)
    ensures Inv(AfterClaim(Run(Empty, steps), t, now).state)
  {
    hide Inv, Run, AfterClaim;
    Reachable(steps);
    NextKeeps(Run(Empty, steps), ClaimSettlement(t, now));
  }

  lemma EveryRecordPastHold(s: State, t: TradeId, now: Time)
    requires t in s.deals && s.deals[t].payment.Some? && s.deals[t].payment.value.availableAt.Some?
    requires s.deals[t].trade.status.Confirmed? || s.deals[t].trade.status.Disputed?
    requires s.deals[t].payment.value.availableAt.value <= now
    ensures forall more, sandbox :: RecordedUnder(s, more, t, now, sandbox) ==>
              PastHold(AfterFinish(Run(s, more), t, 0, sandbox).state, t)
  {
    hide Run, AfterFinish;
    forall more, sandbox | RecordedUnder(s, more, t, now, sandbox)
      ensures PastHold(AfterFinish(Run(s, more), t, 0, sandbox).state, t)
    {
      RunKeepsAvailable(s, more, t);
      FinishRecordsStamp(Run(s, more), t, sandbox);
    }
  }

  lemma SomeRecordAtStamp(s: State, t: TradeId, now: Time)
    requires Inv(s) && t in s.deals && s.deals[t].payment.Some? && s.deals[t].claims == [Claim.Claim(now, false)]
    ensures RecordedUnder(s, [], t, now, true)
    ensures PastHold(AfterFinish(Run(s, []), t, 0, true).state, t) ==>
              s.deals[t].payment.value.availableAt.Some? && s.deals[t].payment.value.availableAt.value <= now
  {
    hide Inv, AfterFinish;
    assert Run(s, []) == s;
    FinishRecords(s, t, 0, true);
    FinishRecordsStamp(s, t, true);
  }

  // At a claim: every settlement ever recorded under it is past the hold if and only if the hold had ended
  // when the claiming batch started.
  lemma ClaimIsPastHoldExactly(steps: seq<Step>, t: TradeId, now: Time)
    requires now <= Run(Empty, steps).clock
    requires t in Run(Empty, steps).deals && Claimable(Run(Empty, steps).deals[t])
    ensures var s := Run(Empty, steps);
            var claimed := Next(s, ClaimSettlement(t, now)).state;
            && s.deals[t].payment.value.availableAt.Some?
            && ((forall more, sandbox :: RecordedUnder(claimed, more, t, now, sandbox) ==>
                   PastHold(AfterFinish(Run(claimed, more), t, 0, sandbox).state, t))
                <==> s.deals[t].payment.value.availableAt.value <= now)
  {
    hide Run, Next, AfterClaim, AfterFinish, Inv, Claimable, RecordedUnder, PastHold;
    ClaimKeepsInv(steps, t, now);
    ClaimLeaves(steps, t, now);
    var claimed := AfterClaim(Run(Empty, steps), t, now).state;
    SomeRecordAtStamp(claimed, t, now);
    if claimed.deals[t].payment.value.availableAt.value <= now {
      EveryRecordPastHold(claimed, t, now);
    }
  }

  // ---------- Batches in order ----------

  // No batch claims that started before another batch that has already marked payments ready.
  predicate InOrder(steps: seq<Step>, last: Time)
    decreases |steps|
  {
    steps == []
    || (((steps[0].ClaimSettlement? || steps[0].SettleOne?) ==> last <= steps[0].now)
        && InOrder(steps[1..], Later(steps[0], last)))
  }

  function Later(step: Step, last: Time): Time {
    if step.MarkReady? && last < step.now then step.now else last
  }

  // What has been released was available by the latest of those starts.
  ghost predicate MarkedDeal(d: Deal, last: Time) {
    d.payment.Some? && Released(d.payment.value, d.claims) ==>
      d.payment.value.availableAt.Some? && d.payment.value.availableAt.value <= last
  }

  ghost predicate MarkedBy(s: State, last: Time) {
    forall t :: t in s.deals ==> MarkedDeal(s.deals[t], last)
  }

  // Only the marking releases a payment, and a released payment's availability stays.
  lemma ReleasesKeepAvailable(d: Deal, c: Change, at: Time)
    requires DealOk(d, at) && Permitted(d, c, at)
    ensures var e := Apply(d, c, at);
            e.payment.Some? && Released(e.payment.value, e.claims) && !c.MarkReady? ==>
              d.payment.Some? && Released(d.payment.value, d.claims)
              && e.payment.value.availableAt == d.payment.value.availableAt
  {
    hide HistoryReplays, LedgerExact, TradeTimely, PaymentTimely, HasReason, HasEntry;
  }

  lemma ChangeKeepsMarked(d: Deal, c: Change, at: Time, last: Time, later: Time)
    requires DealOk(d, at) && Permitted(d, c, at) && MarkedDeal(d, last) && last <= later
    requires c.MarkReady? ==> c.now <= later
    ensures MarkedDeal(Apply(d, c, at), later)
  {
    hide DealOk, Released;
    if c.MarkReady? {
    } else {
      ReleasesKeepAvailable(d, c, at);
      hide Permitted, Apply;
    }
  }

  lemma MarksLater(step: Step, c: Change, t: TradeId, last: Time)
    requires FromStep(step, c, t)
    ensures last <= Later(step, last) && (c.MarkReady? ==> c.now <= Later(step, last))
  {
  }

  lemma TradeKeepsMarked(s: State, step: Step, last: Time, t: TradeId)
    requires DealsOk(s) && t in s.deals && MarkedDeal(s.deals[t], last)
    ensures t in Next(s, step).state.deals && MarkedDeal(Next(s, step).state.deals[t], Later(step, last))
  {
    hide Next, DealOk, Permitted, Apply, MarkedDeal, FromStep, Later;
    var c := StepActs(s, step, t);
    MarksLater(step, c, t, last);
    ChangeKeepsMarked(s.deals[t], c, s.clock, last, Later(step, last));
  }

  lemma NextKeepsMarked(s: State, step: Step, last: Time)
    requires Inv(s) && MarkedBy(s, last)
    ensures MarkedBy(Next(s, step).state, Later(step, last))
  {
    hide Inv, Next, DealOk, MarkedDeal, OrdersIndexed, ProviderAgrees, Later;
    var after := Next(s, step).state;
    InvParts(s);
    Frame(s, step);
    forall t | t in after.deals ensures MarkedDeal(after.deals[t], Later(step, last)) {
      if t in s.deals {
        TradeKeepsMarked(s, step, last, t);
      } else {
        NewTrade(s, step, t);
        OpenedIsMarked(step.product, step.user, s.products[step.product].author, s.products[step.product].price, s.clock,
                       Later(step, last));
      }
    }
  }

  lemma OpenedIsMarked(product: ProductId, buyer: UserId, seller: UserId, price: nat, at: Time, last: Time)
    ensures MarkedDeal(Opened(product, buyer, seller, price, at), last)
  {
  }

  lemma MarkedFits(d: Deal, now: Time, last: Time)
    requires MarkedDeal(d, last) && last <= now
    ensures StampFits(d, now)
  {
  }

  lemma {:induction false} InOrderIsStamped(s: State, steps: seq<Step>, last: Time)
    requires Inv(s) && MarkedBy(s, last) && InOrder(steps, last)
    ensures Obeys(s, steps, Stamped)
    decreases |steps|
  {
    hide Inv, MarkedDeal, Next, StampFits;
    if steps != [] {
      var step := steps[0];
      if (step.ClaimSettlement? || step.SettleOne?) && step.trade in s.deals {
        MarkedFits(s.deals[step.trade], step.now, last);
      }
      NextKeeps(s, step);
      NextKeepsMarked(s, step, last);
      InOrderIsStamped(Next(s, step).state, steps[1..], Later(step, last));
    }
  }

  // So batches that do not overtake one another, as those of a single worker, record only settlements past
  // the hold.
  lemma BatchesInOrderSettlePastTheHold(steps: seq<Step>, t: TradeId)
    requires InOrder(steps, 0) && SettledIn(Run(Empty, steps), t)
    ensures var d := Run(Empty, steps).deals[t];
            && d.trade.confirmedAt.Some?
            && d.trade.confirmedAt.value + SETTLEMENT_HOLD_MS <= d.payment.value.settledAt.value
  {
    hide Run, Inv, InOrder, Obeys, HasRow;
    Reachable([]);
    assert Run(Empty, []) == Empty by { NothingRun(); }
    assert MarkedBy(Empty, 0);
    InOrderIsStamped(Empty, steps, 0);
    SettlementTimeIsPastTheHold(steps, t);
  }

  lemma NothingRun()
    ensures Run(Empty, []) == Empty
  {
  }
}

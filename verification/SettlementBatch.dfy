/** One settlement batch: mark the expired holds ready, take the fifty longest due, settle one after the
    other. Its outcome is a closed form that does not depend on the order. */
module SettlementBatch {
  import opened Rows
  import opened Deals
  import opened DealInvariant
  import opened Market
  import opened MarketInvariant
  import opened DealChanges
  import opened Escrow

  const BATCH_SIZE: nat := 50

  // Payments whose hold ended earlier come first; one without a time comes last.
  predicate NoLater(a: Option<Time>, b: Option<Time>) {
    b.None? || (a.Some? && a.value <= b.value)
  }

  function AvailableAt(deals: map<TradeId, Deal>, t: TradeId): Option<Time> {
    if t in deals && deals[t].payment.Some? then deals[t].payment.value.availableAt else None
  }

  ghost predicate NoneTwice(ts: seq<TradeId>) {
    forall i, j :: 0 <= i < j < |ts| ==> ts[i] != ts[j]
  }

  // What the due query may return: at most fifty due payments, none passed over for a later one.
  ghost predicate DueBatch(deals: map<TradeId, Deal>, due: seq<TradeId>) {
    && NoneTwice(due) && |due| <= BATCH_SIZE
    && (forall t :: t in due ==> t in deals && DueForSettlement(deals[t]))
    && (forall i, j :: 0 <= i < j < |due| ==> NoLater(AvailableAt(deals, due[i]), AvailableAt(deals, due[j])))
    && (forall t :: t in deals && DueForSettlement(deals[t]) && t !in due ==>
          |due| == BATCH_SIZE && forall u :: u in due ==> NoLater(AvailableAt(deals, u), AvailableAt(deals, t)))
  }

  // The loop over the due list, and how many payments it counts as settled.
  function SettleAll(s: State, due: seq<TradeId>, now: Time, attempt: TradeId -> Attempt): (State, nat)
    decreases |due|
  {
    if due == [] then (s, 0)
    else
      var t := due[|due| - 1];
      var (before, settled) := SettleAll(s, due[..|due| - 1], now, attempt);
      var result := AfterSettleOne(before, t, now, attempt(t));
      (result.state, if result.outcome == Counted(true) then settled + 1 else settled)
  }

  predicate Pays(attempt: Attempt) {
    attempt.SandboxRelease? || attempt.ProviderPays?
  }

  // What is left of one attempt: a settlement row of the full amount, or a failure to be tried again.
  function Attempted(d: Deal, now: Time, attempt: Attempt): Deal
    requires d.payment.Some?
  {
    var p := d.payment.value;
    var sandbox := attempt.SandboxRelease?;
    d.(payment := Some(if Pays(attempt)
                       then p.(settlement := if sandbox then SandboxSettled else SettlementStatus.Settled,
                               failure := NoFailure, settledAt := Some(now))
                       else p.(settlement := SettlementStatus.Failed, failure := PayoutFailed)),
       ledger := if Pays(attempt)
                 then d.ledger + [LedgerRow(Settlement, 0 - p.amount,
                                            if sandbox then SandboxSettlementReleased else PayoutProviderConfirmed)]
                 else d.ledger,
       transfers := if (attempt.ProviderPays? || attempt.ProviderPaysThenFails?) && d.transfers == []
                    then [p.amount] else d.transfers)
  }

  // The claim is gone again after every attempt.
  lemma ClaimGone(claims: seq<Claim>, now: Time)
    ensures Without(claims + [Claim.Claim(now, false)], |claims|) == claims
    ensures Without((claims + [Claim.Claim(now, false)])[|claims| := Claim.Claim(now, true)], |claims|) == claims
  {
  }

  lemma WholeIsAttempted(d: Deal, now: Time, attempt: Attempt)
    requires d.payment.Some?
    ensures SettledWhole(d, now, attempt) == Attempted(d, now, attempt)
  {
    hide Without;
    ClaimGone(d.claims, now);
    match attempt
    case SandboxRelease =>
    case ProviderPays =>
    case ProviderFails =>
    case ProviderPaysThenFails =>
  }

  lemma AttemptLeaves(s: State, t: TradeId, now: Time, attempt: Attempt)
    requires t in s.deals && Claimable(s.deals[t]) && !HasEntry(s.deals[t].ledger, Settlement)
    ensures AfterSettleOne(s, t, now, attempt)
         == Result(WithDeal(s, t, Attempted(s.deals[t], now, attempt)), Counted(Pays(attempt)))
  {
    hide HasEntry, AfterSettleOne, SettledWhole, Attempted;
    SettleOneIs(s, t, now, attempt);
    WholeIsAttempted(s.deals[t], now, attempt);
  }

  lemma DueDealIsUnsettled(d: Deal, at: Time)
    requires DealOk(d, at) && Claimable(d)
    ensures !HasEntry(d.ledger, Settlement)
  {
    hide TradeOk, HasEntry, HasReason, NoEntryTwice, PaymentTimely, Balance, Held;
    assert !Expects(d.payment.value, Settlement);
  }

  lemma DueIsUnsettled(s: State, t: TradeId)
    requires Inv(s) && t in s.deals && Claimable(s.deals[t])
    ensures !HasEntry(s.deals[t].ledger, Settlement)
  {
    hide DealOk, Claimable, HasEntry, OrdersIndexed, ProviderAgrees;
    DueDealIsUnsettled(s.deals[t], s.clock);
  }

  function Settling(s: State, due: set<TradeId>, now: Time, attempt: TradeId -> Attempt): State {
    s.(deals := map t | t in s.deals ::
         if t in due && s.deals[t].payment.Some? then Attempted(s.deals[t], now, attempt(t)) else s.deals[t])
  }

  ghost function PaidAmong(due: set<TradeId>, attempt: TradeId -> Attempt): set<TradeId> {
    set t | t in due && Pays(attempt(t))
  }

  function Members(due: seq<TradeId>): set<TradeId> {
    set t | t in due
  }

  lemma OneMoreSettled(s: State, due: set<TradeId>, t: TradeId, now: Time, attempt: TradeId -> Attempt)
    requires t in s.deals && Claimable(s.deals[t]) && !HasEntry(s.deals[t].ledger, Settlement) && t !in due
    ensures AfterSettleOne(Settling(s, due, now, attempt), t, now, attempt(t))
         == Result(Settling(s, due + {t}, now, attempt), Counted(Pays(attempt(t))))
    ensures |PaidAmong(due + {t}, attempt)| == |PaidAmong(due, attempt)| + (if Pays(attempt(t)) then 1 else 0)
  {
    var part := Settling(s, due, now, attempt);
    AttemptLeaves(part, t, now, attempt(t));
    hide AfterSettleOne, Attempted, HasEntry;
    assert WithDeal(part, t, Attempted(s.deals[t], now, attempt(t))).deals == Settling(s, due + {t}, now, attempt).deals;
    assert PaidAmong(due + {t}, attempt)
        == if Pays(attempt(t)) then PaidAmong(due, attempt) + {t} else PaidAmong(due, attempt);
  }

  lemma LastOfList(due: seq<TradeId>)
    requires NoneTwice(due) && due != []
    ensures var t, before := due[|due| - 1], due[..|due| - 1];
            && NoneTwice(before) && t in due && t !in Members(before) && (forall x :: x in before ==> x in due)
            && Members(due) == Members(before) + {t}
  {
    var t, before := due[|due| - 1], due[..|due| - 1];
    assert due == before + [t];
  }

  // The batch settles exactly the due payments whose payout succeeds, marks exactly the others failed,
  // touches no other row, and its count is exact.
  lemma {:induction false} BatchIsExact(s: State, due: seq<TradeId>, now: Time, attempt: TradeId -> Attempt)
    requires Inv(s) && NoneTwice(due) && (forall t :: t in due ==> t in s.deals && DueForSettlement(s.deals[t]))
    ensures SettleAll(s, due, now, attempt)
         == (Settling(s, Members(due), now, attempt), |PaidAmong(Members(due), attempt)|)
    decreases |due|
  {
    hide Inv, AfterSettleOne, Attempted, HasEntry;
    if due == [] {
      assert Settling(s, {}, now, attempt).deals == s.deals;
      assert Members(due) == {} && PaidAmong({}, attempt) == {};
    } else {
      var t, before := due[|due| - 1], due[..|due| - 1];
      LastOfList(due);
      assert t in s.deals && DueForSettlement(s.deals[t]);
      hide NoneTwice, Members, Settling, PaidAmong;
      BatchIsExact(s, before, now, attempt);
      DueIsUnsettled(s, t);
      OneMoreSettled(s, Members(before), t, now, attempt);
    }
  }

  // The order in which the workers go through the list does not matter.
  lemma BatchOrderIsIrrelevant(s: State, due: seq<TradeId>, other: seq<TradeId>, now: Time, attempt: TradeId -> Attempt)
    requires Inv(s) && NoneTwice(due) && NoneTwice(other) && (forall t :: t in due <==> t in other)
    requires forall t :: t in due ==> t in s.deals && DueForSettlement(s.deals[t])
    ensures SettleAll(s, due, now, attempt) == SettleAll(s, other, now, attempt)
  {
    BatchIsExact(s, due, now, attempt);
    BatchIsExact(s, other, now, attempt);
    assert Members(due) == Members(other);
    hide Inv, SettleAll, Settling, PaidAmong;
  }

  // A payout that succeeds settles the payment and empties its account; one that fails leaves the
  // payment due and its account as it was.
  ghost predicate LeftBy(d: Deal, e: Deal, now: Time, attempt: Attempt) {
    if Pays(attempt) then
      !DueForSettlement(e) && e.payment.Some? && e.payment.value.settledAt == Some(now) && Balance(e.ledger) == 0
    else DueForSettlement(e) && e.ledger == d.ledger
  }

  lemma AttemptedDeal(d: Deal, now: Time, attempt: Attempt, at: Time)
    requires DealOk(d, at) && DueForSettlement(d)
    ensures LeftBy(d, Attempted(d, now, attempt), now, attempt)
  {
    hide HistoryReplays, HasEntry, HasReason, NoEntryTwice, Expects, PaymentTimely, TradeTimely;
    if Pays(attempt) {
      var row := Attempted(d, now, attempt).ledger[|d.ledger|];
      assert (d.ledger + [row])[..|d.ledger|] == d.ledger;
      assert Held(d.payment.value) == d.payment.value.amount;
    }
  }

  lemma SettlingLeaves(s: State, due: set<TradeId>, now: Time, attempt: TradeId -> Attempt, t: TradeId)
    requires DealsOk(s) && t in due && t in s.deals && DueForSettlement(s.deals[t])
    ensures LeftBy(s.deals[t], Settling(s, due, now, attempt).deals[t], now, attempt(t))
  {
    hide DealOk, LeftBy, Attempted;
    AttemptedDeal(s.deals[t], now, attempt(t), s.clock);
  }

  // What one pass over a due list leaves, trade by trade.
  lemma PassIsExact(s: State, due: seq<TradeId>, now: Time, attempt: TradeId -> Attempt)
    requires Inv(s) && NoneTwice(due) && (forall t :: t in due ==> t in s.deals && DueForSettlement(s.deals[t]))
    ensures var (after, settled) := SettleAll(s, due, now, attempt);
            && settled == |PaidAmong(Members(due), attempt)| && after.deals.Keys == s.deals.Keys
            && (forall t :: t in s.deals && t !in due ==> after.deals[t] == s.deals[t])
            && (forall t :: t in due ==> LeftBy(s.deals[t], after.deals[t], now, attempt(t)))
  {
    hide DueForSettlement, LeftBy, Attempted, PaidAmong, SettleAll, DealsOk, NoneTwice;
    BatchIsExact(s, due, now, attempt);
    InvParts(s);
    hide Inv;
    forall t | t in due ensures LeftBy(s.deals[t], Settling(s, Members(due), now, attempt).deals[t], now, attempt(t)) {
      SettlingLeaves(s, Members(due), now, attempt, t);
    }
  }

  // The loop starts from such a state whenever it runs in a reachable market.
  lemma ReadyIsSound(steps: seq<Step>, now: Time)
    requires now <= Run(Empty, steps).clock
    ensures Inv(AfterMarkReady(Run(Empty, steps), now).state)
  {
    hide Inv, Run, AfterMarkReady;
    Reachable(steps);
    MarkedKeeps(Run(Empty, steps), now);
  }

  // ---------- The transactions of one attempt, each on its own ----------

  // The claim is taken on a payment that is READY or FAILED, once: the claimed payment is neither.
  lemma ClaimTakenExactly(s: State, t: TradeId, now: Time)
    ensures var result := AfterClaim(s, t, now);
            && (result.outcome == Counted(true) <==>
                  && t in s.deals && s.deals[t].payment.Some?
                  && (s.deals[t].payment.value.settlement.Ready? || s.deals[t].payment.value.settlement.Failed?))
            && (result.outcome != Counted(true) ==> result.state == s)
            && (result.outcome == Counted(true) ==>
                  && t in s.deals && s.deals[t].payment.Some?
                  && AfterClaim(result.state, t, now) == Result(result.state, Counted(false))
                  && var d := s.deals[t];
                     var taken := d.payment.value.(settlement := SettlementStatus.Processing, failure := NoFailure);
                     result.state
                     == s.(deals := s.deals[t := d.(payment := Some(taken), claims := d.claims + [Claim.Claim(now, false)])]))
  {
  }

  // In a reachable market an attempt that gets to its transaction records the settlement of the full amount,
  // stamped with the time of its batch; one that fails leaves the payment to be claimed again.
  lemma AttemptEndsExactly(s: State, t: TradeId, i: nat, sandbox: bool)
    requires Inv(s) && t in s.deals && s.deals[t].payment.Some? && i < |s.deals[t].claims|
    ensures var d := s.deals[t];
            var p, claims := d.payment.value, d.claims[..i] + d.claims[i + 1..];
            && (d.claims[i].paid != sandbox ==>
                  AfterFinish(s, t, i, sandbox)
                  == Result(s.(deals := s.deals[t := d.(
                       payment := Some(p.(settlement := if sandbox then SandboxSettled else SettlementStatus.Settled,
                                          settledAt := Some(d.claims[i].now))),
                       ledger := d.ledger + [LedgerRow(Settlement, 0 - p.amount, if sandbox then SandboxSettlementReleased
                                                                                 else PayoutProviderConfirmed)],
                       claims := claims)]), Counted(true)))
            && AfterFail(s, t, i)
               == Result(s.(deals := s.deals[t := d.(
                    payment := Some(p.(settlement := SettlementStatus.Failed, failure := PayoutFailed)), claims := claims)]),
                         Counted(false))
  {
    hide Inv, HasEntry;
    if s.deals[t].claims[i].paid != sandbox {
      FinishRecords(s, t, i, sandbox);
    }
  }

  // ---------- Whom a pass pays, in the columns of the rows ----------

  // Marking releases every hold that is over, and touches nothing else.
  lemma MarkingIsExact(s: State, now: Time)
    ensures var after := AfterMarkReady(s, now).state;
            && after == s.(deals := after.deals) && after.deals.Keys == s.deals.Keys
            && forall t :: t in s.deals ==>
                 var d := s.deals[t];
                 if d.payment.Some? && d.payment.value.status.Approved? && d.payment.value.settlement.Hold?
                    && d.payment.value.availableAt.Some? && d.payment.value.availableAt.value <= now
                    && d.trade.status.Confirmed?
                 then after.deals[t] == d.(payment := Some(d.payment.value.(settlement := SettlementStatus.Ready)))
                 else after.deals[t] == d
  {
  }

  // The seller is owed: the trade is confirmed, the payment approved, and its hold over, or it is ready, or
  // an earlier payout failed.
  predicate Owed(d: Deal, now: Time) {
    && d.trade.status.Confirmed? && d.payment.Some? && d.payment.value.status.Approved?
    && match d.payment.value.settlement
       case Hold => d.payment.value.availableAt.Some? && d.payment.value.availableAt.value <= now
       case Ready => true
       case Failed => true
       case _ => false
  }

  lemma OwedIsDue(s: State, now: Time, t: TradeId)
    requires t in s.deals
    ensures var after := AfterMarkReady(s, now).state;
            && t in after.deals && (DueForSettlement(after.deals[t]) <==> Owed(s.deals[t], now))
            && (Owed(s.deals[t], now) ==> s.deals[t].payment.Some?)
  {
  }

  // A pass takes up at most fifty, only such as are owed, and passes someone over only for fifty others whose
  // holds ended no later.
  lemma PassTakesAllOwed(s: State, now: Time, due: seq<TradeId>)
    requires DueBatch(AfterMarkReady(s, now).state.deals, due)
    ensures |due| <= 50 && forall t :: t in due ==> t in s.deals && Owed(s.deals[t], now)
    ensures |due| < 50 ==> forall t :: t in s.deals && Owed(s.deals[t], now) ==> t in due
    ensures forall t, u :: t in due && u in s.deals && Owed(s.deals[u], now) && u !in due ==>
              var first, other := s.deals[t].payment.value.availableAt, s.deals[u].payment.value.availableAt;
              other.Some? ==> first.Some? && first.value <= other.value
  {
    hide DueForSettlement, Owed, AfterMarkReady;
    MarkingIsExact(s, now);
    forall t | t in s.deals
      ensures DueForSettlement(AfterMarkReady(s, now).state.deals[t]) <==> Owed(s.deals[t], now)
      ensures Owed(s.deals[t], now) ==> s.deals[t].payment.Some?
      ensures AvailableAt(AfterMarkReady(s, now).state.deals, t) == AvailableAt(s.deals, t)
    {
      OwedIsDue(s, now, t);
    }
  }

  // What a pass makes of the deal of someone it pays, in the sandbox or through the provider, or fails to pay.
  ghost predicate Paid(d: Deal, after: Deal, now: Time, sandbox: bool) {
    && d.payment.Some? && after.trade == d.trade && after.claims == d.claims
    && after.payment == Some(d.payment.value.(settlement := if sandbox then SandboxSettled else SettlementStatus.Settled,
                                              failure := NoFailure, settledAt := Some(now)))
    && after.ledger == d.ledger + [LedgerRow(Settlement, 0 - d.payment.value.amount,
                                             if sandbox then SandboxSettlementReleased else PayoutProviderConfirmed)]
    && after.transfers == if !sandbox && d.transfers == [] then [d.payment.value.amount] else d.transfers
  }

  ghost predicate Unpaid(d: Deal, after: Deal) {
    && d.payment.Some? && after.trade == d.trade && after.ledger == d.ledger && after.claims == d.claims
    && after.payment == Some(d.payment.value.(settlement := SettlementStatus.Failed, failure := PayoutFailed))
  }

  lemma AttemptPays(s: State, t: TradeId, now: Time, attempt: Attempt)
    requires t in s.deals && Owed(s.deals[t], now)
    ensures var d, ready := s.deals[t], AfterMarkReady(s, now).state;
            && t in ready.deals
            && ready.deals[t].payment.Some?
            && if attempt.SandboxRelease? || attempt.ProviderPays?
               then Paid(d, Attempted(ready.deals[t], now, attempt), now, attempt.SandboxRelease?)
               else Unpaid(d, Attempted(ready.deals[t], now, attempt))
  {
  }

  // From the state before the pass to the state after it. If fewer than fifty are owed, every one of them is
  // paid in full or recorded as failed, as the payout goes, and no other deal changes.
  lemma PassPaysAllOwed(s: State, now: Time, due: seq<TradeId>, attempt: TradeId -> Attempt)
    requires Inv(s) && now <= s.clock && DueBatch(AfterMarkReady(s, now).state.deals, due) && |due| < 50
    ensures var after := SettleAll(AfterMarkReady(s, now).state, due, now, attempt).0;
            && after.deals.Keys == s.deals.Keys
            && forall t :: t in s.deals ==>
                 if !Owed(s.deals[t], now) then after.deals[t] == s.deals[t]
                 else if attempt(t).SandboxRelease? || attempt(t).ProviderPays?
                   then Paid(s.deals[t], after.deals[t], now, attempt(t).SandboxRelease?)
                 else Unpaid(s.deals[t], after.deals[t])
  {
    hide Inv, Owed, Paid, Unpaid, AfterMarkReady, Attempted, SettleAll, PaidAmong;
    var ready := AfterMarkReady(s, now).state;
    MarkedKeeps(s, now);
    PassTakesAllOwed(s, now, due);
    BatchIsExact(ready, due, now, attempt);
    var after := SettleAll(ready, due, now, attempt).0;
    MarkingIsExact(s, now);
    forall t | t in s.deals
      ensures if !Owed(s.deals[t], now) then after.deals[t] == s.deals[t]
              else if attempt(t).SandboxRelease? || attempt(t).ProviderPays?
                then Paid(s.deals[t], after.deals[t], now, attempt(t).SandboxRelease?)
              else Unpaid(s.deals[t], after.deals[t])
    {
      if Owed(s.deals[t], now) {
        AttemptPays(s, t, now, attempt(t));
      } else {
        NotOwedStays(s, now, t);
      }
    }
  }

  lemma NotOwedStays(s: State, now: Time, t: TradeId)
    requires t in s.deals && !Owed(s.deals[t], now)
    ensures AfterMarkReady(s, now).state.deals[t] == s.deals[t]
  {
  }

  lemma MarkedKeeps(s: State, now: Time)
    requires Inv(s) && now <= s.clock
    ensures Inv(AfterMarkReady(s, now).state)
  {
    assert Next(s, Step.MarkReady(now)).state == AfterMarkReady(s, now).state;
    hide Inv, Next, AfterMarkReady;
    NextKeeps(s, Step.MarkReady(now));
  }
}

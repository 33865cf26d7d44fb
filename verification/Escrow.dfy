/** What holds in every state any run of the market can reach: the ledger, the provider,
    trade against payment, and the history. */
module Escrow {
  import opened Rows
  import opened Deals
  import opened DealInvariant
  import opened Market
  import opened MarketInvariant
  import opened DealChanges

  lemma ReachedDeal(steps: seq<Step>, t: TradeId)
    requires t in Run(Empty, steps).deals
    ensures DealOk(Run(Empty, steps).deals[t], Run(Empty, steps).clock)
  {
    hide DealOk, OrdersIndexed, ProviderAgrees;
    Reachable(steps);
  }

  // ---------- Ledger ----------

  // The rows of a payment sum to what its row says is held, one row for each thing that happened to it.
  lemma LedgerAgreesWithPayment(steps: seq<Step>, t: TradeId)
    requires t in Run(Empty, steps).deals && Run(Empty, steps).deals[t].payment.Some?
    ensures var d := Run(Empty, steps).deals[t];
            var p := d.payment.value;
            && Balance(d.ledger) == Held(p)
            && NoEntryTwice(d.ledger)
            && (forall entry :: HasEntry(d.ledger, entry) <==> Expects(p, entry))
            && forall i :: 0 <= i < |d.ledger| ==> d.ledger[i].amount == Signed(d.ledger[i].entry, p.amount)
  {
    ReachedDeal(steps, t);
    hide Run, TradeOk, SettlementSound, PaymentTimely, HasEntry, Held, Balance, NoEntryTwice, Expects, Signed;
  }

  // A settled payment can still be refunded: exactly then the ledger goes below zero.
  lemma NegativeBalanceExactly(steps: seq<Step>, t: TradeId)
    requires t in Run(Empty, steps).deals && Run(Empty, steps).deals[t].payment.Some?
    ensures var d := Run(Empty, steps).deals[t];
            var p := d.payment.value;
            && (Balance(d.ledger) < 0 <==> p.amount > 0 && p.status.Refunded? && p.settledAt.Some?)
            && Balance(d.ledger) >= -(p.amount as int)
  {
    ReachedDeal(steps, t);
    hide Run, HistoryReplays, TradeTimely, HasEntry, Balance, NoEntryTwice, Expects, HasReason;
  }

  // The insertions are guarded by facts kept elsewhere: no run ever meets a unique index of the
  // ledger or of the payment keys, and a settlement attempt that reaches its transaction records it.
  lemma UniqueIndexesNeverFire(steps: seq<Step>, step: Step)
    ensures var s := Run(Empty, steps);
            var outcome := Next(s, step).outcome;
            && outcome != Refused(UniqueViolation(LedgerIndex))
            && outcome != Refused(UniqueViolation(PaymentKeyIndex))
            && ((step.FinishSettlement? && InFlight(s, step.trade, step.claim)
                 && s.deals[step.trade].claims[step.claim].paid != step.sandbox) ==> outcome == Counted(true))
  {
    var s := Run(Empty, steps);
    Reachable(steps);
    hide Inv, Run, AfterConfirmPayment, AfterReverse;
    match step
    case ConfirmPayment(user, path, paymentKey, order, amount, key) =>
      ConfirmPaymentIndexed(s, user, path, paymentKey, order, amount, key);
    case ReversePayment(user, order, text, key, cancel) =>
      ReverseIndexed(s, user, order, text, key, cancel);
    case FinishSettlement(t, i, sandbox) => FinishRecords(s, t, i, sandbox);
    case _ => hide Next; OtherStepsInsertNothingUnique(s, step);
  }

  lemma FinishRecords(s: State, t: TradeId, i: nat, sandbox: bool)
    requires Inv(s)
    ensures InFlight(s, t, i) && s.deals[t].claims[i].paid != sandbox
            ==> AfterFinish(s, t, i, sandbox).outcome == Counted(true)
  {
    hide DealOk, OrdersIndexed, ProviderAgrees, HasEntry;
    if InFlight(s, t, i) && s.deals[t].claims[i].paid != sandbox {
      SettledOk(s.deals[t], i, sandbox, s.clock);
    }
  }

  lemma OtherStepsInsertNothingUnique(s: State, step: Step)
    requires !step.ConfirmPayment? && !step.ReversePayment? && !step.FinishSettlement?
    ensures Next(s, step).outcome != Refused(UniqueViolation(LedgerIndex))
    ensures Next(s, step).outcome != Refused(UniqueViolation(PaymentKeyIndex))
  {
  }

  // ---------- Provider ----------

  lemma PaymentKeysAreUnique(steps: seq<Step>, t: TradeId, u: TradeId)
    requires var s := Run(Empty, steps);
             && t in s.deals && s.deals[t].payment.Some? && s.deals[t].payment.value.key.Some?
             && u in s.deals && s.deals[u].payment.Some? && s.deals[u].payment.value.key == s.deals[t].payment.value.key
    ensures t == u
  {
    var s := Run(Empty, steps);
    Reachable(steps);
    hide Run, DealsOk;
    assert ProviderMatches(s, s.deals[t].payment.value) && ProviderMatches(s, s.deals[u].payment.value);
  }

  // Neither reversal ever finds the provider without the record it needs.
  lemma ReversalFindsItsRecord(steps: seq<Step>, user: UserId, order: OrderId, text: string,
                               key: IdempotencyKey, cancel: bool)
    ensures AfterReverse(Run(Empty, steps), user, order, text, key, cancel).outcome != Refused(SandboxPaymentNotFound)
  {
    Reachable(steps);
    hide Inv, Run, AfterReverse;
    ReverseIndexed(Run(Empty, steps), user, order, text, key, cancel);
  }

  // ---------- Trade against payment ----------

  lemma TradeAndPaymentCohere(steps: seq<Step>, t: TradeId)
    requires t in Run(Empty, steps).deals
    ensures var d := Run(Empty, steps).deals[t];
            && (d.trade.status.Delivered? || d.trade.status.Confirmed? ==> PaymentApproved(d))
            && (d.payment.Some? ==>
                  var p := d.payment.value;
                  && p.amount == d.trade.price
                  && (p.status.Refunded? ==> d.trade.status.Disputed?)
                  && (p.status.Cancelled? <==> d.trade.status.Cancelled?)
                  && (p.status.Ready? ==> d.trade.status.Accepted? || d.trade.status.Disputed?)
                  && (p.settlement.Settled? || p.settlement.SandboxSettled? ==>
                        d.trade.status.Confirmed? || d.trade.status.Disputed?))
  {
    ReachedDeal(steps, t);
    hide Run, HistoryReplays, TradeTimely, LedgerExact, PaymentTimely, HasReason;
  }

  // The payment check of the buyer's confirmation never fires, and the deadline, which has no such
  // check, confirms only paid trades and starts their hold.
  lemma ConfirmationIsAlwaysPaid(steps: seq<Step>, t: TradeId, user: UserId, now: Time)
    ensures var s := Run(Empty, steps);
            && AfterConfirmTrade(s, user, t).outcome != Refused(EscrowPaymentRequired)
            && (AfterAutoConfirm(s, t, now).outcome == Counted(true) ==>
                  && PaymentApproved(s.deals[t])
                  && var p := AfterAutoConfirm(s, t, now).state.deals[t].payment.value;
                     p.settlement.Hold? && p.availableAt == Some(now + SETTLEMENT_HOLD_MS))
  {
    if t in Run(Empty, steps).deals {
      TradeAndPaymentCohere(steps, t);
    }
    hide Run;
  }

  // ---------- History ----------

  // The status a history leads to, read row by row; None as soon as a row does not follow.
  ghost function Replayed(h: seq<HistoryRow>): Option<TradeStatus>
    decreases |h|
  {
    if h == [] then None
    else
      var before, row := Replayed(h[..|h| - 1]), h[|h| - 1];
      if |h| == 1 then (if row.from.None? && row.to.Requested? then Some(row.to) else None)
      else if before.Some? && row.from == before && LegalEdge(before.value, row.to) then Some(row.to)
      else None
  }

  function Rank(status: TradeStatus): nat {
    match status
    case Requested => 1
    case Accepted => 2
    case Rejected => 2
    case Cancelled => 3
    case Delivered => 3
    case Confirmed => 4
    case Disputed => 5
  }

  lemma {:induction false} ChainReplays(h: seq<HistoryRow>)
    requires Chain(h)
    ensures Replayed(h) == Some(h[|h| - 1].to)
    ensures |h| <= Rank(h[|h| - 1].to)
    decreases |h|
  {
    if |h| > 1 {
      var before := h[..|h| - 1];
      assert forall i :: 0 <= i < |before| ==> before[i] == h[i];
      ChainReplays(before);
    }
  }

  lemma HistoryReplaysToStatus(steps: seq<Step>, t: TradeId)
    requires t in Run(Empty, steps).deals
    ensures var d := Run(Empty, steps).deals[t];
            && Replayed(d.history) == Some(d.trade.status)
            && 1 <= |d.history| <= Rank(d.trade.status) <= 5
            && d.history[|d.history| - 1].at == d.trade.updatedAt
  {
    ReachedDeal(steps, t);
    hide Run, MoneyOk, Coherent, TradeTimely, ExpiriesWaited;
    ChainReplays(Run(Empty, steps).deals[t].history);
  }

  // ---------- Rows are only added ----------

  // What one step may do to the rows of a trade that exists.
  ghost predicate Extends(d: Deal, e: Deal) {
    && d.history <= e.history && |e.history| <= |d.history| + 1
    && (d.trade.status != e.trade.status ==> |e.history| == |d.history| + 1)
    && d.ledger <= e.ledger && d.transfers <= e.transfers
    && e.trade.product == d.trade.product && e.trade.buyer == d.trade.buyer
    && e.trade.seller == d.trade.seller && e.trade.price == d.trade.price
    && (d.payment.Some? ==>
          && e.payment.Some? && e.payment.value.order == d.payment.value.order
          && e.payment.value.amount == d.payment.value.amount)
  }

  lemma ChangeExtends(d: Deal, c: Change, at: Time)
    requires Permitted(d, c, at)
    ensures Extends(d, Apply(d, c, at))
  {
    hide HasEntry;
  }

  lemma StepExtends(s: State, step: Step, t: TradeId)
    requires t in s.deals
    ensures t in Next(s, step).state.deals && Extends(s.deals[t], Next(s, step).state.deals[t])
  {
    hide Next, Permitted, Apply;
    var c := StepActs(s, step, t);
    ChangeExtends(s.deals[t], c, s.clock);
  }

  // How often a run changes the status of a trade.
  ghost function StatusChanges(s: State, steps: seq<Step>, t: TradeId): nat
    requires t in s.deals
    decreases |steps|
  {
    if steps == [] then 0
    else
      var after := Next(s, steps[0]).state;
      StepExtends(s, steps[0], t);
      (if after.deals[t].trade.status != s.deals[t].trade.status then 1 else 0) + StatusChanges(after, steps[1..], t)
  }

  lemma {:induction false} ChangesAreRows(s: State, steps: seq<Step>, t: TradeId)
    requires t in s.deals
    ensures t in Run(s, steps).deals
    ensures s.deals[t].history <= Run(s, steps).deals[t].history
    ensures s.deals[t].ledger <= Run(s, steps).deals[t].ledger
    ensures |s.deals[t].history| + StatusChanges(s, steps, t) <= |Run(s, steps).deals[t].history|
    decreases |steps|
  {
    hide Next;
    if steps != [] {
      StepExtends(s, steps[0], t);
      ChangesAreRows(Next(s, steps[0]).state, steps[1..], t);
    }
  }

  // However a reachable market goes on, a trade changes status at most four more times, and what
  // its history and its ledger already say stays said.
  lemma TradesTerminate(steps: seq<Step>, more: seq<Step>, t: TradeId)
    requires t in Run(Empty, steps).deals
    ensures var s := Run(Empty, steps);
            && t in Run(s, more).deals
            && s.deals[t].history <= Run(s, more).deals[t].history
            && s.deals[t].ledger <= Run(s, more).deals[t].ledger
            && StatusChanges(s, more, t) <= 5 - |s.deals[t].history| <= 4
  {
    var s := Run(Empty, steps);
    HistoryReplaysToStatus(steps, t);
    ChangesAreRows(s, more, t);
    RunConcat(Empty, steps, more);
    HistoryReplaysToStatus(steps + more, t);
  }

  // ---------- Chat rooms ----------

  ghost predicate RoomsOpen(s: State) {
    forall t :: t in s.deals ==> Room(s.deals[t].trade.product, s.deals[t].trade.buyer, s.deals[t].trade.seller) in s.rooms
  }

  lemma NextKeepsRooms(s: State, step: Step)
    requires RoomsOpen(s)
    ensures RoomsOpen(Next(s, step).state)
  {
    hide Next, Extends;
    Frame(s, step);
    var after := Next(s, step).state;
    forall t | t in after.deals
      ensures Room(after.deals[t].trade.product, after.deals[t].trade.buyer, after.deals[t].trade.seller) in after.rooms
    {
      if t in s.deals {
        SameParties(s, step, t);
      } else {
        NewRoom(s, step, t);
      }
    }
  }

  lemma SameParties(s: State, step: Step, t: TradeId)
    requires t in s.deals
    ensures t in Next(s, step).state.deals
    ensures var tr, now := s.deals[t].trade, Next(s, step).state.deals[t].trade;
            now.product == tr.product && now.buyer == tr.buyer && now.seller == tr.seller
  {
    hide Next;
    StepExtends(s, step, t);
  }

  lemma NewRoom(s: State, step: Step, t: TradeId)
    requires t in Next(s, step).state.deals && t !in s.deals
    ensures var tr := Next(s, step).state.deals[t].trade;
            Room(tr.product, tr.buyer, tr.seller) in Next(s, step).state.rooms
  {
    Frame(s, step);
    hide NextTrade, NextPayment, NextSettlement, HasActiveTradeOf, HasActiveTrade;
  }

  lemma {:induction false} RunKeepsRooms(s: State, steps: seq<Step>)
    requires RoomsOpen(s)
    ensures RoomsOpen(Run(s, steps)) && s.rooms <= Run(s, steps).rooms
    decreases |steps|
  {
    hide RoomsOpen, Next;
    if steps != [] {
      Frame(s, steps[0]);
      NextKeepsRooms(s, steps[0]);
      RunKeepsRooms(Next(s, steps[0]).state, steps[1..]);
    }
  }

  // Every trade, whatever became of it, has the chat room of its product, buyer and seller, and no room is
  // ever taken away.
  lemma EveryTradeHasItsRoom(steps: seq<Step>, more: seq<Step>, t: TradeId)
    requires t in Run(Empty, steps).deals
    ensures var s := Run(Empty, steps);
            && Room(s.deals[t].trade.product, s.deals[t].trade.buyer, s.deals[t].trade.seller) in s.rooms
            && s.rooms <= Run(s, more).rooms
  {
    hide Run;
    assert RoomsOpen(Empty);
    RunKeepsRooms(Empty, steps);
    RunKeepsRooms(Run(Empty, steps), more);
  }
}

/** Which calls the market accepts, exactly, and what it then writes, in the columns of the rows. Refused
    trade calls change nothing. */
module Acceptance {
  import opened Rows
  import opened Deals
  import opened DealInvariant
  import opened Market
  import opened MarketInvariant
  import opened DealChanges
  import Toss

  const SEVEN_DAYS: nat := 7 * 24 * 60 * 60 * 1000

  // ---------- Requests ----------

  // A trade of this buyer for this product that is not over.
  predicate Pending(s: State, p: ProductId, buyer: UserId, x: TradeId) {
    && x in s.deals && s.deals[x].trade.product == p && s.deals[x].trade.buyer == buyer
    && (s.deals[x].trade.status.Requested? || s.deals[x].trade.status.Accepted? || s.deals[x].trade.status.Delivered?
        || s.deals[x].trade.status.Disputed?)
  }

  lemma RequestAcceptedExactly(s: State, user: UserId, p: ProductId, t: TradeId, blocked: bool, hasNeighborhood: bool,
                               nearby: bool)
    ensures var result := AfterRequest(s, user, p, t, blocked, hasNeighborhood, nearby);
            && (result.outcome == Completed <==>
                  && p in s.products && s.products[p].status.Active? && s.products[p].author != user
                  && !blocked && hasNeighborhood && nearby && t !in s.deals && forall x :: !Pending(s, p, user, x))
            && (result.outcome != Completed ==> result.state == s)
            && (result.outcome == Completed ==>
                  && t in result.state.deals && p in s.products
                  && var tr := result.state.deals[t].trade;
                     && tr.product == p && tr.buyer == user && tr.seller == s.products[p].author
                     && tr.price == s.products[p].price && tr.status.Requested? && tr.updatedAt == s.clock
                     && result.state.deals == s.deals[t := result.state.deals[t]]
                     && result.state.deals[t].payment.None? && result.state.deals[t].ledger == []
                     && result.state.products == s.products
                     && result.state.rooms == s.rooms + {Room(p, user, s.products[p].author)})
  {
    hide HasActiveTradeOf, Pending;
    PendingIsActive(s, p, user);
  }

  lemma PendingIsActive(s: State, p: ProductId, buyer: UserId)
    ensures HasActiveTradeOf(s, p, buyer) <==> exists x :: Pending(s, p, buyer, x)
  {
    if HasActiveTradeOf(s, p, buyer) {
      var x :| x in s.deals && s.deals[x].trade.product == p && s.deals[x].trade.buyer == buyer
               && ActiveTradeStatus(s.deals[x].trade.status);
      assert Pending(s, p, buyer, x);
    }
  }

  // ---------- One open purchase of a product ----------

  predicate Open(tr: Trade) {
    tr.status.Requested? || tr.status.Accepted? || tr.status.Delivered?
  }

  predicate SameBuy(tr: Trade, other: Trade) {
    tr.product == other.product && tr.buyer == other.buyer
  }

  ghost predicate OneOpenEach(s: State) {
    forall x, y :: x in s.deals && y in s.deals && x != y && SameBuy(s.deals[x].trade, s.deals[y].trade) ==>
      !(Open(s.deals[x].trade) && Open(s.deals[y].trade))
  }

  lemma ChangeOpensNothing(d: Deal, c: Change, at: Time)
    requires Permitted(d, c, at)
    ensures SameBuy(Apply(d, c, at).trade, d.trade) && (Open(Apply(d, c, at).trade) ==> Open(d.trade))
  {
    hide HasEntry;
  }

  lemma StepOpensNothing(s: State, step: Step, t: TradeId)
    requires t in s.deals
    ensures t in Next(s, step).state.deals
    ensures SameBuy(Next(s, step).state.deals[t].trade, s.deals[t].trade)
    ensures Open(Next(s, step).state.deals[t].trade) ==> Open(s.deals[t].trade)
  {
    hide Next, Permitted, Apply, Open, SameBuy;
    var c := StepActs(s, step, t);
    ChangeOpensNothing(s.deals[t], c, s.clock);
  }

  // A new trade is a request, and finds none open for its buyer and product.
  lemma OpenedAlone(s: State, step: Step, t: TradeId, x: TradeId)
    requires t !in s.deals && t in Next(s, step).state.deals && x in s.deals
    requires SameBuy(Next(s, step).state.deals[t].trade, s.deals[x].trade)
    ensures !Open(s.deals[x].trade)
  {
    hide Next;
    Frame(s, step);
    RequestStep(s, step);
    RequestAcceptedExactly(s, step.user, step.product, step.trade, step.blocked, step.hasNeighborhood, step.nearby);
    NewTrade(s, step, t);
    hide AfterRequest, OneOpenEach;
    assert !Pending(s, step.product, step.user, x);
  }

  lemma RequestStep(s: State, step: Step)
    ensures step.RequestTrade? ==>
              Next(s, step)
              == AfterRequest(s, step.user, step.product, step.trade, step.blocked, step.hasNeighborhood, step.nearby)
  {
    hide AfterRequest;
  }

  lemma NextKeepsOneOpen(s: State, step: Step)
    requires OneOpenEach(s)
    ensures OneOpenEach(Next(s, step).state)
  {
    hide Next, Open;
    var after := Next(s, step).state;
    forall x, y | x in after.deals && y in after.deals && x != y && SameBuy(after.deals[x].trade, after.deals[y].trade)
      ensures !(Open(after.deals[x].trade) && Open(after.deals[y].trade))
    {
      if x in s.deals {
        StepOpensNothing(s, step, x);
      }
      if y in s.deals {
        StepOpensNothing(s, step, y);
      }
      if x !in s.deals && y !in s.deals {
        OneTradeAtATime(s, step, x, y);
      } else if x !in s.deals {
        OpenedAlone(s, step, x, y);
      } else if y !in s.deals {
        OpenedAlone(s, step, y, x);
      }
    }
  }

  lemma OneTradeAtATime(s: State, step: Step, x: TradeId, y: TradeId)
    requires x !in s.deals && y !in s.deals && x in Next(s, step).state.deals && y in Next(s, step).state.deals
    ensures x == y
  {
    hide Next;
    Frame(s, step);
    RequestStep(s, step);
    hide HasActiveTradeOf;
  }

  lemma {:induction false} RunKeepsOneOpen(s: State, steps: seq<Step>)
    requires OneOpenEach(s)
    ensures OneOpenEach(Run(s, steps))
    decreases |steps|
  {
    hide Next, OneOpenEach;
    if steps != [] {
      NextKeepsOneOpen(s, steps[0]);
      RunKeepsOneOpen(Next(s, steps[0]).state, steps[1..]);
    }
  }

  // In every run, with visibility changed at any time, a buyer has at most one purchase of a product that is
  // requested, accepted or delivered.
  lemma OneOpenPurchase(steps: seq<Step>, x: TradeId, y: TradeId)
    requires var s := Run(Empty, steps);
             && x in s.deals && y in s.deals && s.deals[x].trade.product == s.deals[y].trade.product
             && s.deals[x].trade.buyer == s.deals[y].trade.buyer
             && (s.deals[x].trade.status.Requested? || s.deals[x].trade.status.Accepted? || s.deals[x].trade.status.Delivered?)
             && (s.deals[y].trade.status.Requested? || s.deals[y].trade.status.Accepted? || s.deals[y].trade.status.Delivered?)
    ensures x == y
  {
    hide Run;
    RunKeepsOneOpen(Empty, steps);
  }

  // ---------- The seller's answers ----------

  lemma AcceptAcceptedExactly(s: State, user: UserId, t: TradeId)
    ensures var result := AfterAccept(s, user, t);
            && (result.outcome == Completed <==>
                  && t in s.deals && s.deals[t].trade.seller == user && s.deals[t].trade.status.Requested?
                  && s.deals[t].trade.product in s.products && s.products[s.deals[t].trade.product].status.Active?)
            && (result.outcome != Completed ==> result.state == s)
            && (result.outcome == Completed ==>
                  && t in s.deals && result.state.deals.Keys == s.deals.Keys
                  && result.state.deals[t].trade.status.Accepted?
                  && var p := s.deals[t].trade.product;
                     && p in s.products && result.state.products == s.products[p := s.products[p].(status := Reserved)]
                     && forall x :: x in s.deals && x != t ==>
                          if s.deals[x].trade.product == p && s.deals[x].trade.status.Requested? then
                            result.state.deals[x].trade.status.Rejected?
                            && result.state.deals[x].trade.reason == ReservedByAnotherTrade
                          else result.state.deals[x] == s.deals[x])
  {
  }

  lemma RejectAcceptedExactly(s: State, user: UserId, t: TradeId, text: string)
    ensures var result := AfterReject(s, user, t, text);
            && (result.outcome == Completed <==>
                  t in s.deals && s.deals[t].trade.seller == user && s.deals[t].trade.status.Requested?)
            && (result.outcome != Completed ==> result.state == s)
            && (result.outcome == Completed ==>
                  && result.state.products == s.products && t in result.state.deals
                  && result.state.deals[t].trade.status.Rejected? && result.state.deals[t].trade.reason == Stated(text))
  {
  }

  lemma DeliverAcceptedExactly(s: State, user: UserId, t: TradeId)
    ensures var result := AfterDeliver(s, user, t);
            && (result.outcome == Completed <==>
                  && t in s.deals && s.deals[t].trade.seller == user && s.deals[t].trade.status.Accepted?
                  && s.deals[t].payment.Some? && s.deals[t].payment.value.status.Approved?)
            && (result.outcome != Completed ==> result.state == s)
            && (result.outcome == Completed ==>
                  && result.state.products == s.products && t in result.state.deals
                  && var tr := result.state.deals[t].trade;
                     && tr.status.Delivered? && tr.deliveredAt == Some(s.clock)
                     && tr.autoConfirmAt == Some(s.clock + SEVEN_DAYS))
  {
  }

  // ---------- Confirmation, dispute, cancellation ----------

  // The hold a confirmation starts.
  predicate HoldStarted(p: Payment, from: Time) {
    p.status.Approved? && p.settlement.Hold? && p.availableAt == Some(from + SEVEN_DAYS)
  }

  // Only the buyer confirms, and whatever was delivered was paid.
  lemma ConfirmAcceptedExactly(s: State, user: UserId, t: TradeId)
    requires Inv(s)
    ensures var result := AfterConfirmTrade(s, user, t);
            && (result.outcome == Completed <==>
                  t in s.deals && s.deals[t].trade.buyer == user && s.deals[t].trade.status.Delivered?)
            && (result.outcome != Completed ==> result.state == s)
            && (result.outcome == Completed ==>
                  && t in s.deals && t in result.state.deals
                  && var d, p := result.state.deals[t], s.deals[t].trade.product;
                     && d.trade.status.Confirmed? && d.trade.confirmedAt == Some(s.clock)
                     && d.payment.Some? && HoldStarted(d.payment.value, s.clock)
                     && p in s.products && result.state.products == s.products[p := s.products[p].(status := Sold)])
  {
    hide Inv, DealOk;
    if t in s.deals {
      DeliveredIsPaid(s, t);
    }
  }

  lemma DeliveredIsPaid(s: State, t: TradeId)
    requires Inv(s) && t in s.deals
    ensures s.deals[t].trade.product in s.products
    ensures s.deals[t].trade.status.Delivered? ==>
              && s.deals[t].payment.Some? && s.deals[t].payment.value.status.Approved?
              && s.deals[t].trade.deliveredAt.Some?
              && s.deals[t].trade.autoConfirmAt == Some(s.deals[t].trade.deliveredAt.value + SEVEN_DAYS)
  {
    hide DealOk, OrdersIndexed, ProviderAgrees;
    DealIsOk(s.deals[t], s.clock);
  }

  lemma DealIsOk(d: Deal, at: Time)
    requires DealOk(d, at)
    ensures d.trade.status.Delivered? ==>
              && d.payment.Some? && d.payment.value.status.Approved? && d.trade.deliveredAt.Some?
              && d.trade.autoConfirmAt == Some(d.trade.deliveredAt.value + SEVEN_DAYS)
    ensures d.history != [] && d.history[|d.history| - 1].to == d.trade.status
    ensures d.history[|d.history| - 1].at == d.trade.updatedAt
  {
    hide MoneyOk, ExpiriesWaited, HasRow;
  }

  lemma DisputeAcceptedExactly(s: State, user: UserId, t: TradeId, text: string)
    ensures var result := AfterDispute(s, user, t, text);
            && (result.outcome == Completed <==>
                  && t in s.deals && (s.deals[t].trade.buyer == user || s.deals[t].trade.seller == user)
                  && (s.deals[t].trade.status.Accepted? || s.deals[t].trade.status.Delivered?
                      || s.deals[t].trade.status.Confirmed?))
            && (result.outcome != Completed ==> result.state == s)
            && (result.outcome == Completed ==>
                  && t in s.deals && t in result.state.deals && result.state.products == s.products
                  && var d := result.state.deals[t];
                     && d.trade.status.Disputed? && d.trade.disputedAt == Some(s.clock) && d.trade.reason == Stated(text)
                     && (d.payment.Some? <==> s.deals[t].payment.Some?)
                     && (d.payment.Some? ==>
                           d.payment.value == s.deals[t].payment.value.(settlement := SettlementStatus.Paused)))
  {
  }

  // An approved payment must be reversed instead; a payment order is closed with the trade.
  lemma CancelAcceptedExactly(s: State, user: UserId, t: TradeId, text: string)
    requires Inv(s)
    ensures var result := AfterCancelTrade(s, user, t, text);
            && (result.outcome == Completed <==>
                  && t in s.deals && (s.deals[t].trade.buyer == user || s.deals[t].trade.seller == user)
                  && (s.deals[t].trade.status.Requested? || s.deals[t].trade.status.Accepted?)
                  && !(s.deals[t].payment.Some? && s.deals[t].payment.value.status.Approved?))
            && (result.outcome != Completed ==> result.state == s)
            && (result.outcome == Completed ==>
                  && t in s.deals && t in result.state.deals
                  && var d, p := result.state.deals[t], s.deals[t].trade.product;
                     && d.trade.status.Cancelled? && d.trade.cancelledAt == Some(s.clock) && d.trade.reason == Stated(text)
                     && (d.payment.Some? ==>
                           && d.payment.value.status.Cancelled? && d.payment.value.settlement.Paused?
                           && d.payment.value.cancelledAt == Some(s.clock))
                     && p in s.products
                     && result.state.products == if s.deals[t].trade.status.Accepted? && s.products[p].status.Reserved?
                          then s.products[p := s.products[p].(status := ProductStatus.Active)] else s.products)
  {
    hide DealOk, OrdersIndexed, ProviderAgrees;
    if t in s.deals {
      CancellablePayment(s.deals[t], s.clock);
    }
  }

  lemma CancellablePayment(d: Deal, at: Time)
    requires DealOk(d, at)
    ensures (d.trade.status.Requested? || d.trade.status.Accepted?) && d.payment.Some? ==>
              d.payment.value.status.Ready? || d.payment.value.status.Approved?
  {
    hide MoneyOk, HistoryReplays, TradeTimely;
  }

  // ---------- Deadlines ----------

  // A pass at some time confirms a trade if and only if it was delivered at least seven days before and is
  // neither confirmed nor in dispute.
  lemma DeadlineConfirmsExactly(s: State, t: TradeId, now: Time)
    requires Inv(s)
    ensures var result := AfterAutoConfirm(s, t, now);
            && (result.outcome == Counted(true) <==>
                  && t in s.deals && s.deals[t].trade.status.Delivered?
                  && s.deals[t].trade.deliveredAt.Some? && s.deals[t].trade.deliveredAt.value + SEVEN_DAYS <= now)
            && (result.outcome != Counted(true) ==> result.state == s)
            && (result.outcome == Counted(true) ==>
                  && t in s.deals && t in result.state.deals
                  && var d, p := result.state.deals[t], s.deals[t].trade.product;
                     && d.trade.status.Confirmed? && d.trade.confirmedAt == Some(now)
                     && d.payment.Some? && HoldStarted(d.payment.value, now)
                     && p in s.products && result.state.products == s.products[p := s.products[p].(status := Sold)])
  {
    hide Inv, DealOk;
    if t in s.deals {
      DeliveredIsPaid(s, t);
    }
  }

  // A pass at some time cancels a trade if and only if it is accepted, has no payment order, and its
  // acceptance is at least seven days old.
  lemma ExpiryCancelsExactly(s: State, t: TradeId, now: Time)
    requires Inv(s)
    ensures var result := AfterExpireUnpaid(s, t, now);
            && (result.outcome == Counted(true) <==>
                  && t in s.deals && s.deals[t].payment.None? && s.deals[t].history != []
                  && var last := s.deals[t].history[|s.deals[t].history| - 1];
                     last.to.Accepted? && last.at + SEVEN_DAYS <= now)
            && (result.outcome != Counted(true) ==> result.state == s)
            && (result.outcome == Counted(true) ==>
                  && t in s.deals && t in result.state.deals
                  && var d, p := result.state.deals[t], s.deals[t].trade.product;
                     && d.trade.status.Cancelled? && d.trade.cancelledAt == Some(now) && d.payment.None?
                     && p in s.products
                     && result.state.products == if s.products[p].status.Reserved?
                          then s.products[p := s.products[p].(status := ProductStatus.Active)] else s.products)
  {
    hide Inv, DealOk;
    if t in s.deals {
      LastRow(s, t);
    }
  }

  lemma LastRow(s: State, t: TradeId)
    requires Inv(s) && t in s.deals
    ensures s.deals[t].trade.product in s.products && s.deals[t].history != []
    ensures var last := s.deals[t].history[|s.deals[t].history| - 1];
            last.to == s.deals[t].trade.status && last.at == s.deals[t].trade.updatedAt
  {
    hide DealOk, OrdersIndexed, ProviderAgrees;
    DealIsOk(s.deals[t], s.clock);
  }

  // ---------- Products ----------

  lemma ProductOffered(s: State, user: UserId, p: ProductId, price: nat)
    ensures var result := AfterCreateProduct(s, user, p, price);
            && (result.outcome == Completed <==> p !in s.products)
            && result.state == if p in s.products then s
                 else s.(products := s.products[p := Product(user, price, ProductStatus.Active)])
  {
  }

  lemma PriceEditedExactly(s: State, user: UserId, p: ProductId, price: nat)
    ensures var result := AfterEditPrice(s, user, p, price);
            && (result.outcome == Completed <==>
                  && p in s.products && s.products[p].author == user && !s.products[p].status.Deleted?
                  && !s.products[p].status.Reserved?)
            && (result.outcome != Completed ==> result.state == s)
            && (result.outcome == Completed ==>
                  && p in s.products
                  && result.state == s.(products := s.products[p := s.products[p].(price := price)]))
  {
  }

  lemma VisibilityChangedExactly(s: State, user: UserId, p: ProductId, visible: bool)
    ensures var result := AfterSetVisibility(s, user, p, visible);
            && (result.outcome == Completed <==>
                  p in s.products && s.products[p].author == user && !s.products[p].status.Deleted?)
            && (result.outcome != Completed ==> result.state == s)
            && (result.outcome == Completed ==>
                  && p in s.products
                  && var status := if visible then ProductStatus.Active else Hidden;
                     result.state == s.(products := s.products[p := s.products[p].(status := status)]))
  {
  }

  lemma HiddenByAdminExactly(s: State, p: ProductId)
    ensures var result := AfterHideByAdmin(s, p);
            && (result.outcome == Completed <==> p in s.products)
            && result.state == if p in s.products then s.(products := s.products[p := s.products[p].(status := Hidden)]) else s
  {
  }

  lemma RemovedExactly(s: State, user: UserId, p: ProductId)
    ensures var result := AfterRemoveProduct(s, user, p);
            && (result.outcome == Completed <==>
                  && p in s.products && s.products[p].author == user && !s.products[p].status.Deleted?
                  && !s.products[p].status.Reserved? && forall x, buyer :: !Pending(s, p, buyer, x))
            && (result.outcome != Completed ==> result.state == s)
            && (result.outcome == Completed ==>
                  && p in s.products
                  && result.state == s.(products := s.products[p := s.products[p].(status := Deleted)]))
  {
    hide HasActiveTrade, Pending;
    PendingIsOpen(s, p);
  }

  lemma PendingIsOpen(s: State, p: ProductId)
    ensures HasActiveTrade(s, p) <==> exists x, buyer :: Pending(s, p, buyer, x)
  {
    if HasActiveTrade(s, p) {
      var x :| x in s.deals && s.deals[x].trade.product == p && ActiveTradeStatus(s.deals[x].trade.status);
      assert Pending(s, p, s.deals[x].trade.buyer, x);
    }
  }
}

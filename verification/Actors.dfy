/** Who may move a trade, read off its history in every run, and that every date and reason a trade row shows
    is that of the history row it was written with. */
module Actors {
  import opened Rows
  import opened Deals
  import opened DealInvariant
  import opened Market
  import opened MarketInvariant
  import opened DealChanges
  import opened Escrow

  // ---------- Who ----------

  predicate WrittenBy(row: HistoryRow, buyer: UserId, seller: UserId) {
    match row.to
    case Requested => row.actor == Some(buyer)
    case Accepted => row.actor == Some(seller)
    case Rejected => row.actor == Some(seller)
    case Delivered => row.actor == Some(seller)
    case Confirmed => row.actor == if row.reason == AutoConfirmedAfter7Days then None else Some(buyer)
    case Disputed => row.actor == Some(buyer) || row.actor == Some(seller)
    case Cancelled =>
      if row.reason == AutoCancelledUnpaidAfter7Days then row.actor == None
      else row.actor == Some(buyer) || row.actor == Some(seller)
  }

  ghost predicate Authored(d: Deal) {
    forall i :: 0 <= i < |d.history| ==> WrittenBy(d.history[i], d.trade.buyer, d.trade.seller)
  }

  // ---------- When and why ----------

  predicate Dates(row: HistoryRow, tr: Trade) {
    match row.to
    case Delivered => tr.deliveredAt == Some(row.at)
    case Confirmed => tr.confirmedAt.Some? && (row.actor.Some? ==> tr.confirmedAt == Some(row.at))
    case Rejected => tr.rejectedAt == Some(row.at) && tr.reason == row.reason
    case Disputed => tr.disputedAt == Some(row.at) && tr.reason == row.reason
    case Cancelled => tr.cancelledAt.Some? && (row.actor.Some? ==> tr.cancelledAt == Some(row.at)) && tr.reason == row.reason
    case _ => true
  }

  ghost predicate Dated(d: Deal) {
    forall i :: 0 <= i < |d.history| ==> Dates(d.history[i], d.trade)
  }

  // No status comes twice: what a new row says no earlier row has said, and no earlier row was an end.
  lemma {:induction false} RanksGrow(h: seq<HistoryRow>, i: nat)
    requires Chain(h) && i < |h|
    ensures Rank(h[i].to) <= Rank(h[|h| - 1].to)
    ensures i < |h| - 1 ==> Rank(h[i].to) < Rank(h[|h| - 1].to) && exists to :: LegalEdge(h[i].to, to)
    decreases |h| - i
  {
    if i < |h| - 1 {
      assert LegalEdge(h[i].to, h[i + 1].to);
      RanksGrow(h, i + 1);
    }
  }

  // The change that writes a row, and what it leaves of the earlier ones.
  predicate Moves(c: Change) {
    c.Accept? || c.Reject? || c.Deliver? || c.Confirm? || c.Dispute? || c.Cancel? || c.Void? || c.Refund?
  }

  lemma QuietChangeKeeps(d: Deal, c: Change, at: Time)
    requires Permitted(d, c, at) && !Moves(c)
    ensures Apply(d, c, at).history == d.history && Apply(d, c, at).trade == d.trade
  {
    hide HasEntry;
  }

  lemma MoveAppends(d: Deal, c: Change, at: Time)
    requires Permitted(d, c, at) && Moves(c) && DealOk(d, at)
    requires c.Reject? && !c.reason.Stated? ==> c.user == d.trade.seller
    ensures var e := Apply(d, c, at);
            && e.trade.buyer == d.trade.buyer && e.trade.seller == d.trade.seller
            && ((e.history == d.history && e.trade == d.trade)
                || (|e.history| == |d.history| + 1 && e.history[..|d.history|] == d.history
                    && LegalEdge(d.trade.status, e.history[|d.history|].to)
                    && WrittenBy(e.history[|d.history|], d.trade.buyer, d.trade.seller)
                    && Dates(e.history[|d.history|], e.trade)))
  {
    hide HistoryReplays, MoneyOk, TradeTimely;
  }

  // The columns an earlier row speaks of are not written again.
  lemma EarlierDatesStay(d: Deal, c: Change, at: Time, row: HistoryRow)
    requires Permitted(d, c, at) && Moves(c) && Dates(row, d.trade)
    requires !row.to.Rejected? && !row.to.Disputed? && !row.to.Cancelled?
    requires c.Deliver? ==> !row.to.Delivered?
    requires c.Confirm? ==> !row.to.Confirmed?
    ensures Dates(row, Apply(d, c, at).trade)
  {
  }

  lemma EarlierRow(d: Deal, at: Time, i: nat)
    requires DealOk(d, at) && i < |d.history|
    ensures Rank(d.history[i].to) <= Rank(d.trade.status)
    ensures d.history[i].to == d.trade.status || exists to :: LegalEdge(d.history[i].to, to)
  {
    hide MoneyOk, TradeTimely, Coherent, ExpiriesWaited;
    RanksGrow(d.history, i);
  }

  lemma RefundOfDisputed(d: Deal, c: Change, at: Time)
    requires Permitted(d, c, at) && c.Refund? && d.trade.status.Disputed?
    ensures Apply(d, c, at).history == d.history && Apply(d, c, at).trade == d.trade
  {
  }

  lemma MovingStatus(d: Deal, c: Change, at: Time)
    requires Permitted(d, c, at) && Moves(c)
    ensures d.trade.status.Disputed? ==> c.Refund?
    ensures !d.trade.status.Rejected? && !d.trade.status.Cancelled?
    ensures c.Deliver? ==> d.trade.status.Accepted?
    ensures c.Confirm? ==> d.trade.status.Delivered?
  {
  }

  lemma ChangeKeepsAuthored(d: Deal, c: Change, at: Time)
    requires Permitted(d, c, at) && DealOk(d, at) && Authored(d)
    requires c.Reject? && !c.reason.Stated? ==> c.user == d.trade.seller
    ensures Authored(Apply(d, c, at))
  {
    hide Permitted, Apply, DealOk, WrittenBy, Dates;
    if Moves(c) {
      MoveAppends(d, c, at);
      var e := Apply(d, c, at);
      assert e.history == d.history || forall i :: 0 <= i < |d.history| ==> e.history[i] == e.history[..|d.history|][i];
    } else {
      QuietChangeKeeps(d, c, at);
    }
  }

  lemma ChangeKeepsDated(d: Deal, c: Change, at: Time)
    requires Permitted(d, c, at) && DealOk(d, at) && Dated(d)
    requires c.Reject? && !c.reason.Stated? ==> c.user == d.trade.seller
    ensures Dated(Apply(d, c, at))
  {
    hide Permitted, Apply, DealOk, WrittenBy, Dates;
    var e := Apply(d, c, at);
    if !Moves(c) {
      QuietChangeKeeps(d, c, at);
    } else if c.Refund? && d.trade.status.Disputed? {
      RefundOfDisputed(d, c, at);
    } else {
      MoveAppends(d, c, at);
      MovingStatus(d, c, at);
      forall i | 0 <= i < |e.history| ensures Dates(e.history[i], e.trade) {
        if i < |d.history| && e.history != d.history {
          assert e.history[i] == e.history[..|d.history|][i];
          EarlierRow(d, at, i);
          EarlierDatesStay(d, c, at, d.history[i]);
        }
      }
    }
  }

  // ---------- The seller of every trade is the author of its product ----------

  ghost predicate SellersOwn(s: State) {
    forall t :: t in s.deals ==>
      s.deals[t].trade.product in s.products && s.products[s.deals[t].trade.product].author == s.deals[t].trade.seller
  }

  ghost predicate SameAuthors(s: State, after: State) {
    forall p :: p in s.products ==> p in after.products && after.products[p].author == s.products[p].author
  }

  lemma TradeKeepsAuthors(s: State, step: Step)
    requires TradeStep(step)
    ensures SameAuthors(s, NextTrade(s, step).state)
  {
    hide AcceptedDeal, RejectedDeal, DeliveredDeal, ConfirmedDeal, DisputedDeal, CancelledDeal, PaymentApproved;
    hide AutoConfirmDue, UnpaidExpired, Competes;
  }

  lemma ReverseKeepsAuthors(s: State, step: Step)
    requires step.ReversePayment?
    ensures SameAuthors(s, NextPayment(s, step).state)
  {
    hide VoidedDeal, RefundedDeal, Replay, HasEntry, AfterConfirmPayment, AfterCreateOrder, AfterReconcile;
  }

  lemma ProductKeepsAuthors(s: State, step: Step)
    requires !TradeStep(step) && !PaymentStep(step) && !SettlementStep(step)
    ensures SameAuthors(s, NextProduct(s, step).state)
  {
    hide HasActiveTrade, HasActiveTradeOf, Opened;
  }

  lemma NextKeepsAuthors(s: State, step: Step)
    ensures SameAuthors(s, Next(s, step).state)
  {
    hide NextTrade, NextPayment, NextSettlement, NextProduct;
    if TradeStep(step) {
      TradeKeepsAuthors(s, step);
    } else if step.ReversePayment? {
      ReverseKeepsAuthors(s, step);
    } else if PaymentStep(step) {
      OtherProductsOfPayment(s, step);
    } else if SettlementStep(step) {
      SettlementFrame(s, step);
    } else {
      ProductKeepsAuthors(s, step);
    }
  }

  // The seller who accepts a trade rejects only requests for a product of his own.
  lemma AcceptanceRejects(s: State, user: UserId, x: TradeId, t: TradeId)
    requires t in s.deals && AfterAccept(s, user, x).state.deals != s.deals
    ensures x in s.deals && s.deals[x].trade.seller == user
    ensures t in AfterAccept(s, user, x).state.deals
    ensures AfterAccept(s, user, x).state.deals[t] != s.deals[t] ==>
              s.deals[t].trade.product == s.deals[x].trade.product
  {
    hide AcceptedDeal, RejectedDeal;
  }

  // ---------- Every run ----------

  ghost predicate Kept(s: State) {
    SellersOwn(s) && forall t :: t in s.deals ==> Authored(s.deals[t]) && Dated(s.deals[t])
  }

  lemma RejecterIsSeller(s: State, step: Step, t: TradeId, c: Change)
    requires SellersOwn(s) && t in s.deals && FromStep(step, c, t) && Acts(s, Next(s, step).state, t, c)
    requires c.Reject? && !c.reason.Stated?
    ensures c.user == s.deals[t].trade.seller
  {
    hide Next, SellersOwn;
    RejectionIsCompetition(s, step, t, c);
    AcceptStep(s, step);
    AcceptanceRejects(s, step.user, step.trade, t);
    BothSellersOwn(s, t, step.trade);
  }

  lemma BothSellersOwn(s: State, t: TradeId, x: TradeId)
    requires SellersOwn(s) && t in s.deals && x in s.deals && s.deals[t].trade.product == s.deals[x].trade.product
    ensures s.deals[t].trade.seller == s.deals[x].trade.seller
  {
  }

  lemma AcceptStep(s: State, step: Step)
    ensures step.AcceptTrade? ==> Next(s, step) == AfterAccept(s, step.user, step.trade)
  {
    hide AfterAccept;
  }

  lemma RejectionIsCompetition(s: State, step: Step, t: TradeId, c: Change)
    requires t in s.deals && FromStep(step, c, t) && Acts(s, Next(s, step).state, t, c)
    requires c.Reject? && !c.reason.Stated?
    ensures Next(s, step).state.deals[t] != s.deals[t]
    ensures step.AcceptTrade? && step.user == c.user
  {
    hide Next;
  }

  lemma NextKeepsKept(s: State, step: Step)
    requires Inv(s) && Kept(s)
    ensures Kept(Next(s, step).state)
  {
    hide Inv, Next, DealOk, Permitted, Apply, Authored, Dated, OrdersIndexed, ProviderAgrees;
    var after := Next(s, step).state;
    InvParts(s);
    Frame(s, step);
    NextKeepsAuthors(s, step);
    forall t | t in after.deals
      ensures Authored(after.deals[t]) && Dated(after.deals[t]) && after.deals[t].trade.product in after.products
      ensures after.products[after.deals[t].trade.product].author == after.deals[t].trade.seller
    {
      if t in s.deals {
        SameParties(s, step, t);
        TradeKeepsKept(s, step, t);
      } else {
        NewTrade(s, step, t);
        OpenedKept(step.product, step.user, s.products[step.product].author, s.products[step.product].price, s.clock);
      }
    }
  }

  lemma TradeKeepsKept(s: State, step: Step, t: TradeId)
    requires Inv(s) && Kept(s) && t in s.deals
    ensures t in Next(s, step).state.deals
    ensures Authored(Next(s, step).state.deals[t]) && Dated(Next(s, step).state.deals[t])
  {
    hide Inv, Next, DealOk, Permitted, Apply, Authored, Dated, OrdersIndexed, ProviderAgrees;
    InvParts(s);
    var c := StepActs(s, step, t);
    if c.Reject? && !c.reason.Stated? {
      RejecterIsSeller(s, step, t, c);
    }
    ChangeKeepsAuthored(s.deals[t], c, s.clock);
    ChangeKeepsDated(s.deals[t], c, s.clock);
  }

  lemma OpenedKept(product: ProductId, buyer: UserId, seller: UserId, price: nat, at: Time)
    ensures Authored(Opened(product, buyer, seller, price, at)) && Dated(Opened(product, buyer, seller, price, at))
  {
  }

  lemma {:induction false} RunKeepsKept(s: State, steps: seq<Step>)
    requires Inv(s) && Kept(s)
    ensures Kept(Run(s, steps))
    decreases |steps|
  {
    hide Inv, Kept, Next;
    if steps != [] {
      NextKeeps(s, steps[0]);
      NextKeepsKept(s, steps[0]);
      RunKeepsKept(Next(s, steps[0]).state, steps[1..]);
    }
  }

  lemma KeptReached(steps: seq<Step>)
    ensures Kept(Run(Empty, steps))
  {
    hide Inv, Run;
    Reachable([]);
    EmptyRun(Empty);
    RunKeepsKept(Empty, steps);
  }

  lemma EmptyRun(s: State)
    ensures Run(s, []) == s
  {
  }

  // In every run: a request is signed by the buyer; acceptance, rejection and delivery by the seller; a
  // confirmation by the buyer, or by nobody when the deadline made it; a dispute by one of the two; a
  // cancellation by one of the two, or by nobody when the unpaid trade expired.
  lemma HistoryNamesWhoMay(steps: seq<Step>, t: TradeId, i: nat)
    requires t in Run(Empty, steps).deals && i < |Run(Empty, steps).deals[t].history|
    ensures var d := Run(Empty, steps).deals[t];
            var row := d.history[i];
            && (row.to.Requested? ==> row.actor == Some(d.trade.buyer))
            && (row.to.Accepted? || row.to.Rejected? || row.to.Delivered? ==> row.actor == Some(d.trade.seller))
            && (row.to.Confirmed? ==> row.actor == if row.reason == AutoConfirmedAfter7Days then None else Some(d.trade.buyer))
            && (row.to.Disputed? ==> row.actor == Some(d.trade.buyer) || row.actor == Some(d.trade.seller))
            && (row.to.Cancelled? ==>
                  if row.reason == AutoCancelledUnpaidAfter7Days then row.actor == None
                  else row.actor == Some(d.trade.buyer) || row.actor == Some(d.trade.seller))
  {
    hide Run, SellersOwn, Dated;
    KeptReached(steps);
  }

  // In every run the dates and the reason of a trade are those of the history rows they were written with; a
  // loop's own stamp is the only one that may be earlier than its row.
  lemma DatesMatchHistory(steps: seq<Step>, t: TradeId, i: nat)
    requires t in Run(Empty, steps).deals && i < |Run(Empty, steps).deals[t].history|
    ensures var tr, row := Run(Empty, steps).deals[t].trade, Run(Empty, steps).deals[t].history[i];
            && (row.to.Delivered? ==> tr.deliveredAt == Some(row.at))
            && (row.to.Confirmed? && row.actor.Some? ==> tr.confirmedAt == Some(row.at))
            && (row.to.Rejected? ==> tr.rejectedAt == Some(row.at) && tr.reason == row.reason)
            && (row.to.Disputed? ==> tr.disputedAt == Some(row.at) && tr.reason == row.reason)
            && (row.to.Cancelled? ==> tr.reason == row.reason && (row.actor.Some? ==> tr.cancelledAt == Some(row.at)))
  {
    hide Run, SellersOwn, Authored;
    KeptReached(steps);
  }

  // The seller of every trade is the author of its product.
  lemma SellerIsAuthor(steps: seq<Step>, t: TradeId)
    requires t in Run(Empty, steps).deals
    ensures var s := Run(Empty, steps);
            var p := s.deals[t].trade.product;
            p in s.products && s.products[p].author == s.deals[t].trade.seller
  {
    hide Run, Authored, Dated;
    KeptReached(steps);
  }
}

/** One product, at most one buyer: the reservation a seller's acceptance makes. */
module Reservation {
  import opened Rows
  import opened Deals
  import opened DealInvariant
  import opened Market
  import opened MarketInvariant
  import opened DealChanges

  predicate HoldsProduct(d: Deal, p: ProductId) {
    d.trade.product == p && Holds(d.trade.status)
  }

  // The product statuses a trade of a given status leaves possible.
  predicate Fits(status: TradeStatus, product: ProductStatus) {
    match status
    case Requested => product.Active? || product.Hidden?
    case Accepted => product.Reserved?
    case Delivered => product.Reserved?
    case Confirmed => product.Sold? || product.Deleted?
    case Disputed => product.Reserved? || product.Sold? || product.Deleted?
    case _ => true
  }

  ghost predicate HasHolder(s: State, p: ProductId) {
    exists t :: t in s.deals && HoldsProduct(s.deals[t], p)
  }

  ghost predicate AllFit(s: State) {
    forall t :: t in s.deals ==>
      && s.deals[t].trade.product in s.products
      && Fits(s.deals[t].trade.status, s.products[s.deals[t].trade.product].status)
  }

  ghost predicate OneHolder(s: State) {
    forall t, u :: t in s.deals && u in s.deals
      && Holds(s.deals[t].trade.status) && HoldsProduct(s.deals[u], s.deals[t].trade.product)
      ==> t == u
  }

  ghost predicate HolderBehind(s: State) {
    forall p :: p in s.products && (s.products[p].status.Reserved? || s.products[p].status.Sold?) ==> HasHolder(s, p)
  }

  ghost predicate ReservationOk(s: State) {
    AllFit(s) && OneHolder(s) && HolderBehind(s)
  }

  // ---------- Steps that leave holders and product statuses alone ----------

  predicate QuietStatus(before: TradeStatus, after: TradeStatus) {
    || before == after
    || (before.Requested? && (after.Rejected? || after.Cancelled?))
    || (before.Accepted? && (after.Delivered? || after.Disputed?))
    || (before.Delivered? && after.Disputed?)
    || (before.Confirmed? && after.Disputed?)
  }

  ghost predicate QuietDeals(s: State, after: State) {
    forall t :: t in s.deals ==>
      && t in after.deals && after.deals[t].trade.product == s.deals[t].trade.product
      && QuietStatus(s.deals[t].trade.status, after.deals[t].trade.status)
  }

  ghost predicate NewOnesRequested(s: State, after: State) {
    forall t :: t in after.deals && t !in s.deals ==>
      && after.deals[t].trade.status.Requested? && after.deals[t].trade.product in s.products
      && s.products[after.deals[t].trade.product].status.Active?
  }

  ghost predicate QuietProducts(s: State, after: State) {
    && (forall p :: p in s.products ==> p in after.products && after.products[p].status == s.products[p].status)
    && (forall p :: p in after.products && p !in s.products ==> after.products[p].status.Active?)
  }

  lemma QuietOneHolder(s: State, after: State)
    requires OneHolder(s) && QuietDeals(s, after) && NewOnesRequested(s, after)
    ensures OneHolder(after)
  {
    forall t, u | t in after.deals && u in after.deals && Holds(after.deals[t].trade.status)
                  && HoldsProduct(after.deals[u], after.deals[t].trade.product)
      ensures t == u
    {
      assert Holds(s.deals[t].trade.status) && HoldsProduct(s.deals[u], s.deals[t].trade.product);
    }
  }

  // Whoever still holds what he held before stands behind the products that were held.
  lemma HoldersStay(s: State, after: State)
    requires HolderBehind(s)
    requires forall t :: t in s.deals && HoldsProduct(s.deals[t], s.deals[t].trade.product) ==>
               t in after.deals && HoldsProduct(after.deals[t], s.deals[t].trade.product)
    ensures forall p :: p in s.products && (s.products[p].status.Reserved? || s.products[p].status.Sold?)
              ==> HasHolder(after, p)
  {
    forall p | p in s.products && (s.products[p].status.Reserved? || s.products[p].status.Sold?)
      ensures HasHolder(after, p)
    {
      var t :| t in s.deals && HoldsProduct(s.deals[t], p);
      assert HoldsProduct(after.deals[t], p);
    }
  }

  lemma QuietAllFit(s: State, after: State)
    requires AllFit(s) && QuietDeals(s, after) && NewOnesRequested(s, after) && QuietProducts(s, after)
    ensures AllFit(after)
  {
  }

  lemma QuietHolders(s: State, after: State)
    requires HolderBehind(s) && QuietDeals(s, after) && QuietProducts(s, after)
    ensures HolderBehind(after)
  {
    hide HasHolder;
    HoldersStay(s, after);
  }

  lemma Quiet(s: State, after: State)
    requires ReservationOk(s) && QuietDeals(s, after) && NewOnesRequested(s, after) && QuietProducts(s, after)
    ensures ReservationOk(after)
  {
    hide AllFit, OneHolder, HolderBehind, QuietDeals, NewOnesRequested, QuietProducts;
    QuietAllFit(s, after);
    QuietOneHolder(s, after);
    QuietHolders(s, after);
  }

  // ---------- Steps that move the holder together with its product ----------

  lemma HolderMoves(s: State, after: State, t: TradeId, status: ProductStatus)
    requires ReservationOk(s) && t in s.deals && t in after.deals
    requires var p := s.deals[t].trade.product;
             && HoldsProduct(s.deals[t], p) && s.products[p].status.Reserved?
             && after.products == s.products[p := s.products[p].(status := status)]
             && after.deals == s.deals[t := after.deals[t]] && after.deals[t].trade.product == p
             && Fits(after.deals[t].trade.status, status)
             && (if Holds(after.deals[t].trade.status) then status.Sold?
                 else status.Active? && after.deals[t].trade.status.Cancelled?)
    ensures ReservationOk(after)
  {
    var p := s.deals[t].trade.product;
    forall u | u in s.deals && u != t && s.deals[u].trade.product == p
      ensures s.deals[u].trade.status.Rejected? || s.deals[u].trade.status.Cancelled?
    {
      assert Fits(s.deals[u].trade.status, s.products[p].status);
      assert !HoldsProduct(s.deals[u], p);
    }
    forall q | q in after.products && (after.products[q].status.Reserved? || after.products[q].status.Sold?)
      ensures HasHolder(after, q)
    {
      if q == p {
        assert HoldsProduct(after.deals[t], p);
      } else {
        var u :| u in s.deals && HoldsProduct(s.deals[u], q);
        assert HoldsProduct(after.deals[u], q);
      }
    }
  }

  // The accepted trade becomes the only holder; every other request for the product is rejected.
  ghost predicate Reserves(s: State, after: State, t: TradeId, p: ProductId) {
    && t in s.deals && s.deals[t].trade.product == p && p in s.products && s.products[p].status.Active?
    && after.products == s.products[p := s.products[p].(status := ProductStatus.Reserved)]
    && after.deals.Keys == s.deals.Keys
    && (forall u :: u in s.deals ==> after.deals[u].trade.product == s.deals[u].trade.product)
    && (forall u :: u in s.deals ==>
          after.deals[u].trade.status == (if u == t then TradeStatus.Accepted
                                          else if Competes(s.deals[u], p) then TradeStatus.Rejected
                                          else s.deals[u].trade.status))
  }

  lemma ReservesFit(s: State, after: State, t: TradeId, p: ProductId)
    requires AllFit(s) && Reserves(s, after, t, p)
    ensures AllFit(after)
  {
    assert forall u :: u in s.deals && s.deals[u].trade.product == p ==>
      Fits(s.deals[u].trade.status, ProductStatus.Active);
  }

  lemma ReservesOne(s: State, after: State, t: TradeId, p: ProductId)
    requires AllFit(s) && OneHolder(s) && Reserves(s, after, t, p)
    ensures OneHolder(after)
  {
    assert forall u :: u in s.deals && s.deals[u].trade.product == p ==>
      Fits(s.deals[u].trade.status, ProductStatus.Active);
    hide AllFit;
  }

  lemma ReservesHolder(s: State, after: State, t: TradeId, p: ProductId)
    requires HolderBehind(s) && Reserves(s, after, t, p)
    ensures HolderBehind(after)
  {
    assert HoldsProduct(after.deals[t], p);
    HoldersStay(s, after);
  }

  lemma Reserved(s: State, after: State, t: TradeId, p: ProductId)
    requires ReservationOk(s) && Reserves(s, after, t, p)
    ensures ReservationOk(after)
  {
    hide AllFit, OneHolder, HolderBehind, Reserves;
    ReservesFit(s, after, t, p);
    ReservesOne(s, after, t, p);
    ReservesHolder(s, after, t, p);
  }

  lemma AcceptReserves(s: State, user: UserId, t: TradeId)
    requires ReservationOk(s)
    ensures ReservationOk(AfterAccept(s, user, t).state)
  {
    hide ReservationOk;
    if AfterAccept(s, user, t).outcome.Completed? {
      Reserved(s, AfterAccept(s, user, t).state, t, s.deals[t].trade.product);
    }
  }

  // ---------- Product steps ----------

  lemma ProductAloneMoves(s: State, after: State, p: ProductId, status: ProductStatus)
    requires ReservationOk(s) && p in s.products && !status.Reserved? && !status.Sold?
    requires after == s.(products := s.products[p := s.products[p].(status := status)])
    requires forall t :: t in s.deals && s.deals[t].trade.product == p ==> Fits(s.deals[t].trade.status, status)
    ensures ReservationOk(after)
  {
    forall q | q in after.products && (after.products[q].status.Reserved? || after.products[q].status.Sold?)
      ensures HasHolder(after, q)
    {
      var u :| u in s.deals && HoldsProduct(s.deals[u], q);
      assert HoldsProduct(after.deals[u], q);
    }
  }

  // Showing or hiding a product keeps the reservations exactly when no trade holds it. The service and
  // the administrator's action do not check this.
  lemma VisibilityKeepsExactly(s: State, p: ProductId, visible: bool)
    requires ReservationOk(s) && p in s.products
    ensures ReservationOk(s.(products := ProductSetTo(s.products, p, if visible then ProductStatus.Active else Hidden)))
       <==> !HasHolder(s, p)
  {
    var status := if visible then ProductStatus.Active else Hidden;
    var after := s.(products := ProductSetTo(s.products, p, status));
    if HasHolder(s, p) {
      var t :| t in s.deals && HoldsProduct(s.deals[t], p);
      assert !Fits(s.deals[t].trade.status, status);
      assert t in after.deals && !Fits(after.deals[t].trade.status, after.products[p].status);
    } else {
      forall t | t in s.deals && s.deals[t].trade.product == p ensures Fits(s.deals[t].trade.status, status) {
        assert !HoldsProduct(s.deals[t], p);
      }
      ProductAloneMoves(s, after, p, status);
    }
  }

  // What a seller or administrator can look at: the product's own status.
  lemma HolderShowsInStatus(s: State, p: ProductId)
    requires ReservationOk(s) && p in s.products && !s.products[p].status.Deleted?
    ensures HasHolder(s, p) <==> s.products[p].status.Reserved? || s.products[p].status.Sold?
  {
  }

  lemma RemoveKeeps(s: State, user: UserId, p: ProductId)
    requires ReservationOk(s)
    ensures ReservationOk(AfterRemoveProduct(s, user, p).state)
  {
    if AfterRemoveProduct(s, user, p).outcome.Completed? {
      forall t | t in s.deals && s.deals[t].trade.product == p ensures Fits(s.deals[t].trade.status, Deleted) {
        assert !ActiveTradeStatus(s.deals[t].trade.status) by { assert !HasActiveTrade(s, p); }
      }
      ProductAloneMoves(s, AfterRemoveProduct(s, user, p).state, p, Deleted);
    }
  }

  // ---------- Every disciplined run ----------

  // The environment assumption: visibility is changed only while no trade holds the product.
  ghost predicate Disciplined(s: State, step: Step) {
    (step.SetVisibility? || step.HideByAdmin?) ==> !HasHolder(s, step.product)
  }

  predicate QuietStep(s: State, step: Step) {
    !step.AcceptTrade? && !step.ConfirmTrade? && !step.AutoConfirm? && !step.ExpireUnpaid?
    && !step.SetVisibility? && !step.HideByAdmin? && !step.RemoveProduct?
    && !(step.ReversePayment? && step.cancel)
    && !(step.CancelTrade? && TradeIn(s, step.trade, TradeStatus.Accepted))
  }

  lemma QuietChange(d: Deal, c: Change, at: Time)
    requires Permitted(d, c, at) && !c.Accept? && !c.Confirm? && !c.Void? && !(c.Cancel? && d.trade.status.Accepted?)
    ensures Apply(d, c, at).trade.product == d.trade.product
    ensures QuietStatus(d.trade.status, Apply(d, c, at).trade.status)
  {
    hide HasEntry;
  }

  lemma QuietStepChange(s: State, step: Step, c: Change, t: TradeId)
    requires t in s.deals && QuietStep(s, step) && FromStep(step, c, t)
    ensures !c.Accept? && !c.Confirm? && !c.Void? && !(c.Cancel? && s.deals[t].trade.status.Accepted?)
  {
  }

  lemma QuietStepDeals(s: State, step: Step)
    requires QuietStep(s, step)
    ensures QuietDeals(s, Next(s, step).state)
  {
    hide Next, Permitted, Apply, FromStep, QuietStep, QuietStatus;
    forall t | t in s.deals
      ensures t in Next(s, step).state.deals
      ensures Next(s, step).state.deals[t].trade.product == s.deals[t].trade.product
      ensures QuietStatus(s.deals[t].trade.status, Next(s, step).state.deals[t].trade.status)
    {
      var c := StepActs(s, step, t);
      QuietStepChange(s, step, c, t);
      QuietChange(s.deals[t], c, s.clock);
    }
  }

  lemma QuietTradeProducts(s: State, step: Step)
    requires TradeStep(step) && QuietStep(s, step)
    ensures NextTrade(s, step).state.products == s.products
  {
    hide RejectedDeal, DeliveredDeal, DisputedDeal, CancelledDeal, PaymentApproved, Participant;
  }

  lemma QuietPaymentProducts(s: State, step: Step)
    requires PaymentStep(step) && QuietStep(s, step)
    ensures NextPayment(s, step).state.products == s.products
  {
    hide RefundedDeal, VoidedDeal, CapturedDeal, OrderedDeal, HasEntry, KeyTaken, Replay, ProviderMatches, Participant;
  }

  lemma QuietStepProducts(s: State, step: Step)
    requires QuietStep(s, step)
    ensures QuietProducts(s, Next(s, step).state)
  {
    hide NextTrade, NextPayment, NextSettlement, NextProduct, QuietProducts, QuietStep;
    SameProductsAreQuiet(s, Next(s, step).state);
    if SettlementStep(step) {
      SettlementFrame(s, step);
    } else if TradeStep(step) {
      QuietTradeProducts(s, step);
    } else if PaymentStep(step) {
      QuietPaymentProducts(s, step);
    } else {
      QuietProductSteps(s, step);
    }
  }

  lemma SameProductsAreQuiet(s: State, after: State)
    ensures after.products == s.products ==> QuietProducts(s, after)
  {
  }

  lemma QuietProductSteps(s: State, step: Step)
    requires QuietStep(s, step) && !TradeStep(step) && !PaymentStep(step) && !SettlementStep(step)
    ensures QuietProducts(s, NextProduct(s, step).state)
  {
    hide HasActiveTradeOf, HasActiveTrade, Opened;
  }

  lemma NewOnesAreRequested(s: State, step: Step)
    ensures NewOnesRequested(s, Next(s, step).state)
  {
    Frame(s, step);
    if step.RequestTrade? {
      hide HasActiveTradeOf;
    } else {
      hide Next;
    }
  }

  lemma QuietStepKeeps(s: State, step: Step)
    requires ReservationOk(s) && QuietStep(s, step)
    ensures ReservationOk(Next(s, step).state)
  {
    hide Next, QuietDeals, QuietProducts, NewOnesRequested, ReservationOk, QuietStep;
    QuietStepDeals(s, step);
    QuietStepProducts(s, step);
    NewOnesAreRequested(s, step);
    Quiet(s, Next(s, step).state);
  }

  lemma ConfirmKeeps(s: State, t: TradeId, actor: Option<UserId>, confirmedAt: Time, reason: Reason)
    requires ReservationOk(s) && TradeIn(s, t, TradeStatus.Delivered)
    ensures ReservationOk(s.(products := ProductSetTo(s.products, s.deals[t].trade.product, Sold),
                             deals := s.deals[t := ConfirmedDeal(s.deals[t], actor, confirmedAt, reason, s.clock)]))
  {
    HolderMoves(s, s.(products := ProductSetTo(s.products, s.deals[t].trade.product, Sold),
                      deals := s.deals[t := ConfirmedDeal(s.deals[t], actor, confirmedAt, reason, s.clock)]), t, Sold);
  }

  lemma ReleaseKeeps(s: State, after: State, t: TradeId)
    requires ReservationOk(s) && TradeIn(s, t, TradeStatus.Accepted) && t in after.deals
    requires after.deals == s.deals[t := after.deals[t]] && after.deals[t].trade.status.Cancelled?
    requires after.deals[t].trade.product == s.deals[t].trade.product
    requires after.products == ProductReleased(s.products, s.deals[t].trade.product)
          || after.products == ProductSetTo(s.products, s.deals[t].trade.product, ProductStatus.Active)
    ensures ReservationOk(after)
  {
    HolderMoves(s, after, t, ProductStatus.Active);
  }

  lemma VoidKeeps(s: State, user: UserId, order: OrderId, text: string, key: IdempotencyKey)
    requires ReservationOk(s)
    ensures ReservationOk(AfterReverse(s, user, order, text, key, true).state)
  {
    hide ReservationOk, HasEntry, Replay;
    var after := AfterReverse(s, user, order, text, key, true).state;
    if after.deals != s.deals {
      ReleaseKeeps(s, after, s.orders[order]);
    } else {
      SameRowsKeep(s, after);
    }
  }

  lemma SameRowsKeep(s: State, after: State)
    requires ReservationOk(s) && after.deals == s.deals && after.products == s.products
    ensures ReservationOk(after)
  {
    Quiet(s, after);
  }

  lemma LoudStepKeeps(s: State, step: Step)
    requires ReservationOk(s) && Disciplined(s, step) && !QuietStep(s, step)
    ensures ReservationOk(Next(s, step).state)
  {
    hide ReservationOk, HasHolder, AfterAccept, AfterRemoveProduct, AfterReverse, ConfirmedDeal, CancelledDeal;
    match step
    case AcceptTrade(user, t) => AcceptReserves(s, user, t);
    case ConfirmTrade(user, t) =>
      if TradeIn(s, t, TradeStatus.Delivered) { ConfirmKeeps(s, t, Some(user), s.clock, NoReason); }
    case AutoConfirm(t, now) =>
      if TradeIn(s, t, TradeStatus.Delivered) { ConfirmKeeps(s, t, None, now, AutoConfirmedAfter7Days); }
    case ExpireUnpaid(t, now) => ExpireKeeps(s, t, now);
    case CancelTrade(user, t, text) => CancelKeeps(s, user, t, text);
    case ReversePayment(user, order, text, key, cancel) => VoidKeeps(s, user, order, text, key);
    case SetVisibility(_, p, visible) => if p in s.products { VisibilityKeepsExactly(s, p, visible); }
    case HideByAdmin(p) => if p in s.products { VisibilityKeepsExactly(s, p, false); }
    case RemoveProduct(user, p) => RemoveKeeps(s, user, p);
  }

  lemma CancelKeeps(s: State, user: UserId, t: TradeId, text: string)
    requires ReservationOk(s) && TradeIn(s, t, TradeStatus.Accepted)
    ensures ReservationOk(AfterCancelTrade(s, user, t, text).state)
  {
    hide ReservationOk;
    if AfterCancelTrade(s, user, t, text).outcome.Completed? {
      ReleaseKeeps(s, AfterCancelTrade(s, user, t, text).state, t);
    }
  }

  lemma ExpireKeeps(s: State, t: TradeId, now: Time)
    requires ReservationOk(s)
    ensures ReservationOk(AfterExpireUnpaid(s, t, now).state)
  {
    hide ReservationOk;
    if t in s.deals && UnpaidExpired(s.deals[t], now) {
      ReleaseKeeps(s, AfterExpireUnpaid(s, t, now).state, t);
    }
  }

  lemma {:induction false} RunKeepsReservations(s: State, steps: seq<Step>)
    requires ReservationOk(s) && Obeys(s, steps, Disciplined)
    ensures ReservationOk(Run(s, steps))
    decreases |steps|
  {
    hide ReservationOk, Next, Disciplined, QuietStep;
    if steps != [] {
      if QuietStep(s, steps[0]) {
        QuietStepKeeps(s, steps[0]);
      } else {
        LoudStepKeeps(s, steps[0]);
      }
      RunKeepsReservations(Next(s, steps[0]).state, steps[1..]);
    }
  }

  // In every disciplined run: never two trades hold one product; exactly one when it is reserved or
  // sold, none when it is on offer or hidden; and only products on offer or hidden have open requests.
  lemma ReservationsExclude(steps: seq<Step>, p: ProductId)
    requires Obeys(Empty, steps, Disciplined) && p in Run(Empty, steps).products
    ensures var s := Run(Empty, steps);
            var status := s.products[p].status;
            && (forall t, u :: t in s.deals && u in s.deals && HoldsProduct(s.deals[t], p) && HoldsProduct(s.deals[u], p)
                  ==> t == u)
            && (status.Reserved? || status.Sold? ==> HasHolder(s, p))
            && (status.Active? || status.Hidden? ==> !HasHolder(s, p))
            && (forall t :: t in s.deals && s.deals[t].trade.product == p && s.deals[t].trade.status.Requested?
                  ==> status.Active? || status.Hidden?)
  {
    RunKeepsReservations(Empty, steps);
    hide Obeys, Run;
  }

  // The product check of both payment calls therefore never fires.
  lemma PayableTradeIsReserved(steps: seq<Step>, t: TradeId)
    requires Obeys(Empty, steps, Disciplined) && TradeIn(Run(Empty, steps), t, TradeStatus.Accepted)
    ensures var s := Run(Empty, steps);
            s.deals[t].trade.product in s.products && s.products[s.deals[t].trade.product].status.Reserved?
  {
    RunKeepsReservations(Empty, steps);
    hide Obeys, Run;
  }

  // Without that discipline a product is sold twice: whenever a trade is accepted, its seller can show
  // the reserved product again and accept a second buyer.
  lemma UnguardedVisibilitySellsTwice(s: State, t: TradeId, buyer: UserId, u: TradeId)
    requires TradeIn(s, t, TradeStatus.Accepted) && Owned(s, s.deals[t].trade.seller, s.deals[t].trade.product)
    requires buyer != s.deals[t].trade.seller && u !in s.deals
    requires !HasActiveTradeOf(s, s.deals[t].trade.product, buyer)
    ensures var p, seller := s.deals[t].trade.product, s.deals[t].trade.seller;
            var after := Run(s, [SetVisibility(seller, p, true), RequestTrade(buyer, p, u, false, true, true),
                                 AcceptTrade(seller, u)]);
            && TradeIn(after, t, TradeStatus.Accepted) && after.deals[t].trade.product == p
            && TradeIn(after, u, TradeStatus.Accepted) && after.deals[u].trade.product == p && t != u
  {
    var p, seller := s.deals[t].trade.product, s.deals[t].trade.seller;
    SecondBuyerAccepted(s, t, buyer, u);
    hide AfterSetVisibility, AfterRequest, AfterAccept, Run, TradeIn, HasActiveTradeOf, Owned;
    NextSale(s, seller, buyer, p, u);
  }

  lemma SecondBuyerAccepted(s: State, t: TradeId, buyer: UserId, u: TradeId)
    requires TradeIn(s, t, TradeStatus.Accepted) && Owned(s, s.deals[t].trade.seller, s.deals[t].trade.product)
    requires buyer != s.deals[t].trade.seller && u !in s.deals
    requires !HasActiveTradeOf(s, s.deals[t].trade.product, buyer)
    ensures var p, seller := s.deals[t].trade.product, s.deals[t].trade.seller;
            var shown := AfterSetVisibility(s, seller, p, true).state;
            var requested := AfterRequest(shown, buyer, p, u, false, true, true).state;
            var after := AfterAccept(requested, seller, u).state;
            && TradeIn(after, t, TradeStatus.Accepted) && after.deals[t].trade.product == p
            && TradeIn(after, u, TradeStatus.Accepted) && after.deals[u].trade.product == p && t != u
  {
    var p, seller := s.deals[t].trade.product, s.deals[t].trade.seller;
    var shown := s.(products := ProductSetTo(s.products, p, ProductStatus.Active));
    assert AfterSetVisibility(s, seller, p, true).state == shown;
    assert !HasActiveTradeOf(shown, p, buyer);
    assert AfterRequest(shown, buyer, p, u, false, true, true).state
        == WithDeal(shown, u, Opened(p, buyer, seller, s.products[p].price, s.clock))
             .(rooms := s.rooms + {Room(p, buyer, seller)});
    hide HasActiveTradeOf, Owned, AfterSetVisibility, AfterRequest;
  }

  // Show, request, accept: the three calls behind a sale, one after the other.
  lemma NextSale(s: State, seller: UserId, buyer: UserId, p: ProductId, u: TradeId)
    ensures var shown := AfterSetVisibility(s, seller, p, true).state;
            var requested := AfterRequest(shown, buyer, p, u, false, true, true).state;
            Run(s, [SetVisibility(seller, p, true), RequestTrade(buyer, p, u, false, true, true), AcceptTrade(seller, u)])
              == AfterAccept(requested, seller, u).state
  {
    hide AfterSetVisibility, AfterRequest, AfterAccept;
    RunThree(s, SetVisibility(seller, p, true), RequestTrade(buyer, p, u, false, true, true), AcceptTrade(seller, u));
    hide Run;
  }

  // Such a state is three calls away from the empty market.
  lemma AcceptedTradeReached()
    ensures var s := Run(Empty, [CreateProduct(1, 7, 100), RequestTrade(2, 7, 20, false, true, true), AcceptTrade(1, 20)]);
            && TradeIn(s, 20, TradeStatus.Accepted) && s.deals[20].trade.seller == 1
            && s.deals[20].trade.product == 7 && Owned(s, 1, 7)
            && 30 !in s.deals && !HasActiveTradeOf(s, 7, 3)
  {
    var requested := Empty.(products := map[7 := Product(1, 100, ProductStatus.Active)],
                            deals := map[20 := Opened(7, 2, 1, 100, 0)], rooms := {Room(7, 2, 1)});
    FirstAcceptance(requested);
    hide AfterCreateProduct, AfterRequest, AfterAccept, TradeIn, HasActiveTradeOf, Owned, Run;
    FirstRequest(requested);
    FirstSale(Empty, 1, 2, 7, 100, 20);
  }

  lemma FirstSale(s: State, seller: UserId, buyer: UserId, p: ProductId, price: nat, t: TradeId)
    ensures var made := AfterCreateProduct(s, seller, p, price).state;
            var requested := AfterRequest(made, buyer, p, t, false, true, true).state;
            Run(s, [CreateProduct(seller, p, price), RequestTrade(buyer, p, t, false, true, true), AcceptTrade(seller, t)])
              == AfterAccept(requested, seller, t).state
  {
    hide AfterCreateProduct, AfterRequest, AfterAccept;
    RunThree(s, CreateProduct(seller, p, price), RequestTrade(buyer, p, t, false, true, true), AcceptTrade(seller, t));
    hide Run;
  }

  lemma FirstRequest(requested: State)
    requires requested == Empty.(products := map[7 := Product(1, 100, ProductStatus.Active)],
                                 deals := map[20 := Opened(7, 2, 1, 100, 0)], rooms := {Room(7, 2, 1)})
    ensures AfterRequest(AfterCreateProduct(Empty, 1, 7, 100).state, 2, 7, 20, false, true, true).state == requested
  {
    hide Opened;
  }

  lemma FirstAcceptance(requested: State)
    requires requested == Empty.(products := map[7 := Product(1, 100, ProductStatus.Active)],
                                 deals := map[20 := Opened(7, 2, 1, 100, 0)], rooms := {Room(7, 2, 1)})
    ensures var s := AfterAccept(requested, 1, 20).state;
            && TradeIn(s, 20, TradeStatus.Accepted) && s.deals[20].trade.seller == 1
            && s.deals[20].trade.product == 7 && Owned(s, 1, 7)
            && 30 !in s.deals && !HasActiveTradeOf(s, 7, 3)
  {
    assert requested.deals.Keys == {20};
    assert AfterAccept(requested, 1, 20).state.deals.Keys == {20};
  }

  lemma RunThree(s: State, a: Step, b: Step, c: Step)
    ensures Run(s, [a, b, c]) == Next(Next(Next(s, a).state, b).state, c).state
  {
    hide Next;
    assert [a, b, c][1..] == [b, c] && [b, c][1..] == [c];
    RunOne(Next(Next(s, a).state, b).state, c);
  }
}

/** Why a call is refused: in every state an error names something that is the case, in the columns of the rows. */
module Refusals {
  import opened Rows
  import opened Deals
  import opened DealInvariant
  import opened Market
  import opened MarketInvariant
  import opened DealChanges
  import opened Acceptance
  import opened PaymentCalls
  import opened Idempotency

  ghost predicate StatusIn(s: State, t: TradeId, status: TradeStatus) {
    t in s.deals && s.deals[t].trade.status == status
  }

  ghost predicate Buyer(s: State, t: TradeId, user: UserId) {
    t in s.deals && s.deals[t].trade.buyer == user
  }

  ghost predicate Seller(s: State, t: TradeId, user: UserId) {
    t in s.deals && s.deals[t].trade.seller == user
  }

  ghost predicate Approved(s: State, t: TradeId) {
    t in s.deals && s.deals[t].payment.Some? && s.deals[t].payment.value.status.Approved?
  }

  ghost predicate ProductIs(s: State, p: ProductId, status: ProductStatus) {
    p in s.products && s.products[p].status == status
  }

  ghost predicate OwnedBy(s: State, p: ProductId, user: UserId) {
    p in s.products && s.products[p].author == user && !s.products[p].status.Deleted?
  }

  // What an error of a trade call says.
  ghost predicate TradeJustified(s: State, step: Step, error: Error) {
    match step
    case RequestTrade(user, p, t, blocked, hasNeighborhood, nearby) =>
      (match error
       case ProductNotAvailable => !ProductIs(s, p, ProductStatus.Active)
       case CannotBuyOwnProduct => p in s.products && s.products[p].author == user
       case TradeBlocked => blocked
       case NeighborhoodRequired => !hasNeighborhood
       case ProductOutsideNeighborhood => !nearby
       case ActiveTradeExists => exists x :: Pending(s, p, user, x)
       case UniqueViolation(index) => index == TradeKey && t in s.deals
       case _ => false)
    case AcceptTrade(user, t) =>
      if error.TradeNotFound? then !(Seller(s, t, user) && StatusIn(s, t, TradeStatus.Requested))
      else error.ProductAlreadyReserved? && t in s.deals && !ProductIs(s, s.deals[t].trade.product, ProductStatus.Active)
    case RejectTrade(user, t, _) =>
      error.TradeNotFound? && !(Seller(s, t, user) && StatusIn(s, t, TradeStatus.Requested))
    case DeliverTrade(user, t) =>
      if error.TradeNotFound? then !(Seller(s, t, user) && StatusIn(s, t, TradeStatus.Accepted))
      else error.EscrowPaymentRequired? && !Approved(s, t)
    case ConfirmTrade(user, t) =>
      if error.TradeNotFound? then !(Buyer(s, t, user) && StatusIn(s, t, TradeStatus.Delivered))
      else error.EscrowPaymentRequired? && !Approved(s, t)
    case DisputeTrade(user, t, _) =>
      && error.TradeNotFound?
      && !((Buyer(s, t, user) || Seller(s, t, user))
           && (StatusIn(s, t, TradeStatus.Accepted) || StatusIn(s, t, TradeStatus.Delivered)
               || StatusIn(s, t, TradeStatus.Confirmed)))
    case CancelTrade(user, t, _) =>
      if error.TradeNotFound? then
        !((Buyer(s, t, user) || Seller(s, t, user))
          && (StatusIn(s, t, TradeStatus.Requested) || StatusIn(s, t, TradeStatus.Accepted)))
      else error.PaymentReversalRequired? && Approved(s, t)
    case _ => true
  }

  // What an error of a product call says.
  ghost predicate ProductJustified(s: State, step: Step, error: Error) {
    match step
    case CreateProduct(_, p, _) => error == UniqueViolation(ProductKey) && p in s.products
    case EditPrice(user, p, _) =>
      if error.ProductNotFound? then !OwnedBy(s, p, user)
      else error.ProductLockedByActiveTrade? && ProductIs(s, p, Reserved)
    case SetVisibility(user, p, _) => error.ProductNotFound? && !OwnedBy(s, p, user)
    case HideByAdmin(p) => error.ProductNotFound? && p !in s.products
    case RemoveProduct(user, p) =>
      if error.ProductNotFound? then !OwnedBy(s, p, user)
      else error.ProductLockedByActiveTrade? && (ProductIs(s, p, Reserved) || exists x, buyer :: Pending(s, p, buyer, x))
    case _ => true
  }

  // The trade of an order that has a payment.
  ghost predicate OrderedIn(s: State, order: OrderId, t: TradeId) {
    order in s.orders && s.orders[order] == t && t in s.deals && s.deals[t].payment.Some?
  }

  ghost predicate KeyJustified(s: State, step: Step, error: Error)
    requires step.CreateOrder? || step.ConfirmPayment? || step.ReversePayment?
  {
    match error
    case IdempotencyKeyRequired => |step.key| < 8 || |step.key| > 200
    case IdempotencyKeyReused => step.key in s.operations && s.operations[step.key].request != RequestOf(step)
    case _ => false
  }

  // What an error of a payment call says.
  ghost predicate OrderJustified(s: State, user: UserId, t: TradeId, order: OrderId, error: Error) {
    match error
    case PayableTradeNotFound => !(Buyer(s, t, user) && StatusIn(s, t, TradeStatus.Accepted))
    case PaymentOrderExists => t in s.deals && s.deals[t].payment.Some?
    case TradeProductStateMismatch => t in s.deals && !ProductIs(s, s.deals[t].trade.product, Reserved)
    case UniqueViolation(index) => index == OrderKey && order in s.orders
    case _ => false
  }

  ghost predicate ConfirmJustified(s: State, user: UserId, path: OrderId, paymentKey: PaymentKey, order: OrderId,
                                   amount: nat, error: Error)
  {
    match error
    case OrderIdMismatch => order != path
    case PaymentNotFound => !exists t :: OrderedIn(s, path, t) && Buyer(s, t, user)
    case PaymentAmountMismatch => exists t :: OrderedIn(s, path, t) && s.deals[t].payment.value.amount != amount
    case PaymentNotReady => exists t :: OrderedIn(s, path, t) && !s.deals[t].payment.value.status.Ready?
    case TradeProductStateMismatch =>
      exists t :: OrderedIn(s, path, t)
                  && !(StatusIn(s, t, TradeStatus.Accepted) && ProductIs(s, s.deals[t].trade.product, Reserved))
    case ProviderConfirmationMismatch =>
      paymentKey in s.provider && s.provider[paymentKey] != ProviderRecord(path, amount, ProviderStatus.Done)
    case _ => false
  }

  ghost predicate ReverseJustified(s: State, user: UserId, order: OrderId, cancel: bool, error: Error) {
    match error
    case PaymentNotFound => !exists t :: OrderedIn(s, order, t) && (Buyer(s, t, user) || Seller(s, t, user))
    case PaymentNotReversible => exists t :: OrderedIn(s, order, t) && !Approved(s, t)
    case CancellationNotAllowed =>
      cancel && exists t :: OrderedIn(s, order, t) && !(StatusIn(s, t, TradeStatus.Accepted) && Buyer(s, t, user))
    case CancellationWindowExpired =>
      cancel && exists t :: OrderedIn(s, order, t) && s.deals[t].payment.value.approvedAt.Some?
                            && s.deals[t].payment.value.approvedAt.value + SEVEN_DAYS < s.clock
    case RefundNotAllowed =>
      !cancel && exists t :: OrderedIn(s, order, t) && !StatusIn(s, t, TradeStatus.Confirmed)
                             && !StatusIn(s, t, TradeStatus.Disputed)
    case _ => false
  }

  ghost predicate PaymentJustified(s: State, step: Step, error: Error) {
    match step
    case CreateOrder(user, t, _, order) => KeyJustified(s, step, error) || OrderJustified(s, user, t, order, error)
    case ConfirmPayment(user, path, paymentKey, order, amount, _) =>
      KeyJustified(s, step, error) || ConfirmJustified(s, user, path, paymentKey, order, amount, error)
    case ReversePayment(user, order, _, _, cancel) =>
      KeyJustified(s, step, error) || ReverseJustified(s, user, order, cancel, error)
    case Reconcile(order) =>
      && error.PaymentNotReconcilable?
      && !exists t :: OrderedIn(s, order, t) && s.deals[t].payment.value.key.Some?
    case WebhookVerified(order) => error.PaymentNotFound? && !exists t :: OrderedIn(s, order, t)
    case _ => true
  }

  // ---------- Trade calls ----------

  lemma RequestRefusals(s: State, user: UserId, p: ProductId, t: TradeId, blocked: bool, has: bool, nearby: bool)
    ensures var outcome := AfterRequest(s, user, p, t, blocked, has, nearby).outcome;
            outcome.Refused? ==> TradeJustified(s, RequestTrade(user, p, t, blocked, has, nearby), outcome.error)
  {
    hide HasActiveTradeOf, Pending;
    PendingIsActive(s, p, user);
  }

  lemma TradeRefusals(s: State, step: Step)
    requires TradeStep(step) && NextTrade(s, step).outcome.Refused?
    ensures TradeJustified(s, step, NextTrade(s, step).outcome.error)
  {
    hide AcceptedDeal, RejectedDeal, DeliveredDeal, ConfirmedDeal, DisputedDeal, CancelledDeal;
  }

  // ---------- Product calls ----------

  lemma ProductRefusals(s: State, step: Step)
    requires !TradeStep(step) && !PaymentStep(step) && !SettlementStep(step) && !step.RequestTrade?
    requires NextProduct(s, step).outcome.Refused?
    ensures ProductJustified(s, step, NextProduct(s, step).outcome.error)
  {
    hide HasActiveTrade, Pending, AfterRequest;
    if step.RemoveProduct? {
      PendingIsOpen(s, step.product);
    }
  }

  // ---------- Payment calls ----------

  lemma OrderRefusals(s: State, user: UserId, t: TradeId, key: IdempotencyKey, order: OrderId)
    ensures var outcome := AfterCreateOrder(s, user, t, key, order).outcome;
            outcome.Refused? ==> PaymentJustified(s, CreateOrder(user, t, key, order), outcome.error)
  {
    hide OrderedDeal;
  }

  lemma OrderOfPayment(s: State, order: OrderId)
    ensures PaymentOf(s, order) ==> OrderedIn(s, order, s.orders[order])
    ensures forall t :: OrderedIn(s, order, t) ==> PaymentOf(s, order) && t == s.orders[order]
  {
  }

  lemma ConfirmErrors(s: State, user: UserId, path: OrderId, paymentKey: PaymentKey, order: OrderId, amount: nat,
                      key: IdempotencyKey)
    requires PaymentOf(s, path) ==> OrderedIn(s, path, s.orders[path])
    requires forall t :: OrderedIn(s, path, t) ==> PaymentOf(s, path) && t == s.orders[path]
    ensures var outcome := AfterConfirmPayment(s, user, path, paymentKey, order, amount, key).outcome;
            outcome.Refused? && !outcome.error.UniqueViolation? ==>
              PaymentJustified(s, ConfirmPayment(user, path, paymentKey, order, amount, key), outcome.error)
  {
    hide OrderedIn, HasEntry, KeyTaken, CapturedDeal;
  }

  lemma ConfirmRefusals(s: State, user: UserId, path: OrderId, paymentKey: PaymentKey, order: OrderId, amount: nat,
                        key: IdempotencyKey)
    requires Inv(s)
    ensures var outcome := AfterConfirmPayment(s, user, path, paymentKey, order, amount, key).outcome;
            outcome.Refused? ==>
              PaymentJustified(s, ConfirmPayment(user, path, paymentKey, order, amount, key), outcome.error)
  {
    hide Inv, OrderedIn, AfterConfirmPayment, PaymentJustified, OrdersIndexed, ProviderAgrees, PaymentOf;
    ConfirmPaymentIndexed(s, user, path, paymentKey, order, amount, key);
    OrderOfPayment(s, path);
    ConfirmErrors(s, user, path, paymentKey, order, amount, key);
  }

  lemma ReverseErrors(s: State, user: UserId, order: OrderId, text: string, key: IdempotencyKey, cancel: bool)
    requires PaymentOf(s, order) ==> OrderedIn(s, order, s.orders[order])
    requires forall t :: OrderedIn(s, order, t) ==> PaymentOf(s, order) && t == s.orders[order]
    requires PaymentOf(s, order) && Approved(s, s.orders[order]) ==>
               var p := s.deals[s.orders[order]].payment.value; p.key.Some? && p.approvedAt.Some?
    ensures var outcome := AfterReverse(s, user, order, text, key, cancel).outcome;
            outcome.Refused? && !outcome.error.UniqueViolation? && !outcome.error.SandboxPaymentNotFound? ==>
              PaymentJustified(s, ReversePayment(user, order, text, key, cancel), outcome.error)
  {
    hide OrderedIn, HasEntry, VoidedDeal, RefundedDeal;
  }

  lemma ReverseRefusals(s: State, user: UserId, order: OrderId, text: string, key: IdempotencyKey, cancel: bool)
    requires Inv(s)
    ensures var outcome := AfterReverse(s, user, order, text, key, cancel).outcome;
            outcome.Refused? ==> PaymentJustified(s, ReversePayment(user, order, text, key, cancel), outcome.error)
  {
    hide OrderedIn, AfterReverse, PaymentJustified, DealOk, OrdersIndexed, ProviderAgrees;
    ReverseIndexed(s, user, order, text, key, cancel);
    OrderOfPayment(s, order);
    if PaymentOf(s, order) && Approved(s, s.orders[order]) {
      ApprovedDeal(s.deals[s.orders[order]], s.clock);
    }
    ReverseErrors(s, user, order, text, key, cancel);
  }

  lemma CheckRefusals(s: State, order: OrderId)
    ensures AfterReconcile(s, order).outcome.Refused? ==>
              PaymentJustified(s, Reconcile(order), AfterReconcile(s, order).outcome.error)
    ensures AfterWebhookVerified(s, order).outcome.Refused? ==>
              PaymentJustified(s, WebhookVerified(order), AfterWebhookVerified(s, order).outcome.error)
  {
    OrderOfPayment(s, order);
    hide OrderedIn, ProviderMatches;
  }

  // ---------- Every call ----------

  // In every reachable state the error of a refused call is one of that call's own, and what it says is so.
  lemma RefusalsAreJustified(steps: seq<Step>, step: Step)
    requires Next(Run(Empty, steps), step).outcome.Refused? && !StampInFuture(Run(Empty, steps), step)
    ensures var s, error := Run(Empty, steps), Next(Run(Empty, steps), step).outcome.error;
            TradeJustified(s, step, error) && ProductJustified(s, step, error) && PaymentJustified(s, step, error)
  {
    var s := Run(Empty, steps);
    Reachable(steps);
    hide Run, Inv, NextTrade, AfterRequest, AfterCreateOrder, AfterConfirmPayment, AfterReverse, AfterReconcile;
    hide AfterWebhookVerified, NextSettlement, Pending, KeyJustified, OrderJustified, ConfirmJustified, ReverseJustified;
    if TradeStep(step) {
      TradeRefusals(s, step);
    } else {
      match step
      case RequestTrade(user, p, t, blocked, has, nearby) => RequestRefusals(s, user, p, t, blocked, has, nearby);
      case CreateOrder(user, t, key, order) => OrderRefusals(s, user, t, key, order);
      case ConfirmPayment(user, path, paymentKey, order, amount, key) =>
        ConfirmRefusals(s, user, path, paymentKey, order, amount, key);
      case ReversePayment(user, order, text, key, cancel) => ReverseRefusals(s, user, order, text, key, cancel);
      case Reconcile(order) => CheckRefusals(s, order);
      case WebhookVerified(order) => CheckRefusals(s, order);
      case _ =>
        if !SettlementStep(step) {
          ProductRefusals(s, step);
        }
    }
  }
}

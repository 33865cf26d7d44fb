/** The whole market as one state, every service call and worker transaction as one step,
    and the runs they make together. */
module Market {
  import opened Rows
  import opened Deals
  import Toss

  datatype State = State(
    clock: Time,
    products: map<ProductId, Product>,
    deals: map<TradeId, Deal>,
    orders: map<OrderId, TradeId>,
    operations: map<IdempotencyKey, Operation>,
    provider: map<PaymentKey, ProviderRecord>,
    rooms: set<Room>)

  const Empty := State(0, map[], map[], map[], map[], map[], {})

  datatype UniqueIndex = ProductKey | TradeKey | OrderKey | PaymentKeyIndex | LedgerIndex

  datatype Error =
    | ProductNotAvailable | CannotBuyOwnProduct | TradeBlocked | NeighborhoodRequired
    | ProductOutsideNeighborhood | ActiveTradeExists | TradeNotFound | ProductAlreadyReserved
    | EscrowPaymentRequired | PaymentReversalRequired | ProductNotFound | ProductLockedByActiveTrade
    | IdempotencyKeyRequired | IdempotencyKeyReused | PayableTradeNotFound | PaymentOrderExists
    | TradeProductStateMismatch | OrderIdMismatch | PaymentNotFound | PaymentAmountMismatch
    | PaymentNotReady | ProviderConfirmationMismatch | PaymentNotReversible | CancellationNotAllowed
    | CancellationWindowExpired | RefundNotAllowed | SandboxPaymentNotFound | PaymentNotReconcilable
    | NotReady
    | UniqueViolation(index: UniqueIndex)

  datatype Outcome =
    | Completed
    | Answered(response: Response)
    | Counted(changed: bool)
    | Reconciled(matched: bool)
    | Refused(error: Error)

  datatype Result = Result(state: State, outcome: Outcome)

  // How one payout attempt of the settlement loop ends.
  datatype Attempt = SandboxRelease | ProviderPays | ProviderFails | ProviderPaysThenFails

  datatype Step =
    | Tick(ms: nat)
    | CreateProduct(user: UserId, product: ProductId, price: nat)
    | EditPrice(user: UserId, product: ProductId, price: nat)
    | SetVisibility(user: UserId, product: ProductId, visible: bool)
    | HideByAdmin(product: ProductId)
    | RemoveProduct(user: UserId, product: ProductId)
    | RequestTrade(user: UserId, product: ProductId, trade: TradeId,
                   blocked: bool, hasNeighborhood: bool, nearby: bool)
    | AcceptTrade(user: UserId, trade: TradeId)
    | RejectTrade(user: UserId, trade: TradeId, text: string)
    | DeliverTrade(user: UserId, trade: TradeId)
    | ConfirmTrade(user: UserId, trade: TradeId)
    | DisputeTrade(user: UserId, trade: TradeId, text: string)
    | CancelTrade(user: UserId, trade: TradeId, text: string)
    | AutoConfirm(trade: TradeId, now: Time)
    | ExpireUnpaid(trade: TradeId, now: Time)
    | CreateOrder(user: UserId, trade: TradeId, key: IdempotencyKey, order: OrderId)
    | ConfirmPayment(user: UserId, path: OrderId, paymentKey: PaymentKey, order: OrderId, amount: nat,
                     key: IdempotencyKey)
    | ReversePayment(user: UserId, order: OrderId, text: string, key: IdempotencyKey, cancel: bool)
    | Reconcile(order: OrderId)
    | WebhookVerified(order: OrderId)
    | MarkReady(now: Time)
    | ClaimSettlement(trade: TradeId, now: Time)
    | Payout(trade: TradeId, claim: nat)
    | FinishSettlement(trade: TradeId, claim: nat, sandbox: bool)
    | FailSettlement(trade: TradeId, claim: nat)
    | CrashWorker(trade: TradeId, claim: nat)
    | SettleOne(trade: TradeId, now: Time, attempt: Attempt)

  // ---------- Rows by key ----------

  function WithDeal(s: State, t: TradeId, d: Deal): State {
    s.(deals := s.deals[t := d])
  }

  function ProductSetTo(products: map<ProductId, Product>, p: ProductId, status: ProductStatus)
    : map<ProductId, Product>
  {
    if p in products then products[p := products[p].(status := status)] else products
  }

  // The conditional update that gives a reserved product back.
  function ProductReleased(products: map<ProductId, Product>, p: ProductId): map<ProductId, Product> {
    if p in products && products[p].status.Reserved?
    then products[p := products[p].(status := ProductStatus.Active)] else products
  }

  predicate TradeIn(s: State, t: TradeId, status: TradeStatus) {
    t in s.deals && s.deals[t].trade.status == status
  }

  predicate Participant(s: State, t: TradeId, user: UserId) {
    t in s.deals && (s.deals[t].trade.buyer == user || s.deals[t].trade.seller == user)
  }

  predicate PaymentApproved(d: Deal) {
    d.payment.Some? && d.payment.value.status.Approved?
  }

  // ---------- Products ----------

  function AfterCreateProduct(s: State, user: UserId, p: ProductId, price: nat): Result {
    if p in s.products then Result(s, Refused(UniqueViolation(ProductKey)))
    else Result(s.(products := s.products[p := Product(user, price, ProductStatus.Active)]), Completed)
  }

  predicate Owned(s: State, user: UserId, p: ProductId) {
    p in s.products && s.products[p].author == user && !s.products[p].status.Deleted?
  }

  function AfterEditPrice(s: State, user: UserId, p: ProductId, price: nat): Result {
    if !Owned(s, user, p) then Result(s, Refused(ProductNotFound))
    else if s.products[p].status.Reserved? then Result(s, Refused(ProductLockedByActiveTrade))
    else Result(s.(products := s.products[p := s.products[p].(price := price)]), Completed)
  }

  function AfterSetVisibility(s: State, user: UserId, p: ProductId, visible: bool): Result {
    if !Owned(s, user, p) then Result(s, Refused(ProductNotFound))
    else Result(s.(products := ProductSetTo(s.products, p, if visible then ProductStatus.Active else Hidden)), Completed)
  }

  function AfterHideByAdmin(s: State, p: ProductId): Result {
    if p !in s.products then Result(s, Refused(ProductNotFound))
    else Result(s.(products := ProductSetTo(s.products, p, Hidden)), Completed)
  }

  predicate ActiveTradeStatus(status: TradeStatus) {
    status.Requested? || status.Accepted? || status.Delivered? || status.Disputed?
  }

  predicate HasActiveTrade(s: State, p: ProductId) {
    exists t :: t in s.deals && s.deals[t].trade.product == p && ActiveTradeStatus(s.deals[t].trade.status)
  }

  function AfterRemoveProduct(s: State, user: UserId, p: ProductId): Result {
    if !Owned(s, user, p) then Result(s, Refused(ProductNotFound))
    else if s.products[p].status.Reserved? || HasActiveTrade(s, p) then
      Result(s, Refused(ProductLockedByActiveTrade))
    else Result(s.(products := ProductSetTo(s.products, p, Deleted)), Completed)
  }

  // ---------- Trades ----------

  predicate HasActiveTradeOf(s: State, p: ProductId, buyer: UserId) {
    exists t :: t in s.deals && s.deals[t].trade.product == p && s.deals[t].trade.buyer == buyer
      && ActiveTradeStatus(s.deals[t].trade.status)
  }

  function AfterRequest(s: State, user: UserId, p: ProductId, t: TradeId,
                        blocked: bool, hasNeighborhood: bool, nearby: bool): Result
  {
    if p !in s.products || !s.products[p].status.Active? then Result(s, Refused(ProductNotAvailable))
    else if s.products[p].author == user then Result(s, Refused(CannotBuyOwnProduct))
    else if blocked then Result(s, Refused(TradeBlocked))
    else if !hasNeighborhood then Result(s, Refused(NeighborhoodRequired))
    else if !nearby then Result(s, Refused(ProductOutsideNeighborhood))
    else if HasActiveTradeOf(s, p, user) then Result(s, Refused(ActiveTradeExists))
    else if t in s.deals then Result(s, Refused(UniqueViolation(TradeKey)))
    else
      Result(WithDeal(s, t, Opened(p, user, s.products[p].author, s.products[p].price, s.clock))
               .(rooms := s.rooms + {Room(p, user, s.products[p].author)}),
             Completed)
  }

  predicate Competes(d: Deal, p: ProductId) {
    d.trade.product == p && d.trade.status.Requested?
  }

  function AfterAccept(s: State, user: UserId, t: TradeId): Result {
    if !TradeIn(s, t, TradeStatus.Requested) || s.deals[t].trade.seller != user then Result(s, Refused(TradeNotFound))
    else
      var p := s.deals[t].trade.product;
      if p !in s.products || !s.products[p].status.Active? then Result(s, Refused(ProductAlreadyReserved))
      else
        Result(s.(products := ProductSetTo(s.products, p, Reserved),
                  deals := map x | x in s.deals ::
                    if x == t then AcceptedDeal(s.deals[x], user, s.clock)
                    else if Competes(s.deals[x], p) then
                      RejectedDeal(s.deals[x], user, ReservedByAnotherTrade, s.clock)
                    else s.deals[x]),
               Completed)
  }

  function AfterReject(s: State, user: UserId, t: TradeId, text: string): Result {
    if !TradeIn(s, t, TradeStatus.Requested) || s.deals[t].trade.seller != user then Result(s, Refused(TradeNotFound))
    else Result(WithDeal(s, t, RejectedDeal(s.deals[t], user, Stated(text), s.clock)), Completed)
  }

  function AfterDeliver(s: State, user: UserId, t: TradeId): Result {
    if !TradeIn(s, t, TradeStatus.Accepted) || s.deals[t].trade.seller != user then Result(s, Refused(TradeNotFound))
    else if !PaymentApproved(s.deals[t]) then Result(s, Refused(EscrowPaymentRequired))
    else Result(WithDeal(s, t, DeliveredDeal(s.deals[t], user, s.clock)), Completed)
  }

  function AfterConfirmTrade(s: State, user: UserId, t: TradeId): Result {
    if !TradeIn(s, t, TradeStatus.Delivered) || s.deals[t].trade.buyer != user then Result(s, Refused(TradeNotFound))
    else if !PaymentApproved(s.deals[t]) then Result(s, Refused(EscrowPaymentRequired))
    else
      Result(s.(products := ProductSetTo(s.products, s.deals[t].trade.product, Sold),
                deals := s.deals[t := ConfirmedDeal(s.deals[t], Some(user), s.clock, NoReason, s.clock)]),
             Completed)
  }

  function AfterDispute(s: State, user: UserId, t: TradeId, text: string): Result {
    if !Participant(s, t, user)
       || !(TradeIn(s, t, TradeStatus.Accepted) || TradeIn(s, t, TradeStatus.Delivered)
            || TradeIn(s, t, TradeStatus.Confirmed))
    then Result(s, Refused(TradeNotFound))
    else Result(WithDeal(s, t, DisputedDeal(s.deals[t], user, Stated(text), s.clock)), Completed)
  }

  function AfterCancelTrade(s: State, user: UserId, t: TradeId, text: string): Result {
    if !Participant(s, t, user) || !(TradeIn(s, t, TradeStatus.Requested) || TradeIn(s, t, TradeStatus.Accepted))
    then Result(s, Refused(TradeNotFound))
    else if PaymentApproved(s.deals[t]) then Result(s, Refused(PaymentReversalRequired))
    else
      Result(s.(products := if s.deals[t].trade.status.Accepted?
                            then ProductReleased(s.products, s.deals[t].trade.product) else s.products,
                deals := s.deals[t := CancelledDeal(s.deals[t], Some(user), s.clock, Stated(text), s.clock)]),
             Completed)
  }

  function AfterAutoConfirm(s: State, t: TradeId, now: Time): Result {
    if t !in s.deals || !AutoConfirmDue(s.deals[t], now) then Result(s, Counted(false))
    else
      Result(s.(products := ProductSetTo(s.products, s.deals[t].trade.product, Sold),
                deals := s.deals[t := ConfirmedDeal(s.deals[t], None, now, AutoConfirmedAfter7Days, s.clock)]),
             Counted(true))
  }

  function AfterExpireUnpaid(s: State, t: TradeId, now: Time): Result {
    if t !in s.deals || !UnpaidExpired(s.deals[t], now) then Result(s, Counted(false))
    else
      Result(s.(products := ProductReleased(s.products, s.deals[t].trade.product),
                deals := s.deals[t := CancelledDeal(s.deals[t], None, now, AutoCancelledUnpaidAfter7Days, s.clock)]),
             Counted(true))
  }

  // ---------- Payments ----------

  predicate ValidKey(key: IdempotencyKey) {
    8 <= |key| <= 200
  }

  // The stored answer to a key, or the refusal of a key that is malformed or belongs to another request.
  function Replay(s: State, key: IdempotencyKey, request: Request): Option<Outcome> {
    if !ValidKey(key) then Some(Refused(IdempotencyKeyRequired))
    else if key !in s.operations then None
    else if s.operations[key].request != request then Some(Refused(IdempotencyKeyReused))
    else Some(Answered(s.operations[key].response))
  }

  // The operation row that makes an answer repeatable.
  function Recorded(s: State, t: TradeId, key: IdempotencyKey, request: Request): Result
    requires t in s.deals && s.deals[t].payment.Some?
  {
    var response := Response(t, s.deals[t].payment.value);
    Result(s.(operations := s.operations[key := Operation(request, response)]), Answered(response))
  }

  function AfterCreateOrder(s: State, user: UserId, t: TradeId, key: IdempotencyKey, order: OrderId): Result {
    var request := CreateOrderRequest(t, user);
    match Replay(s, key, request)
    case Some(outcome) => Result(s, outcome)
    case None =>
      if !TradeIn(s, t, TradeStatus.Accepted) || s.deals[t].trade.buyer != user then
        Result(s, Refused(PayableTradeNotFound))
      else if s.deals[t].payment.Some? then Result(s, Refused(PaymentOrderExists))
      else
        var p := s.deals[t].trade.product;
        if p !in s.products || !s.products[p].status.Reserved? then Result(s, Refused(TradeProductStateMismatch))
        else if order in s.orders then Result(s, Refused(UniqueViolation(OrderKey)))
        else
          Recorded(WithDeal(s, t, OrderedDeal(s.deals[t], order)).(orders := s.orders[order := t]),
                   t, key, request)
  }

  predicate PaymentOf(s: State, order: OrderId) {
    order in s.orders && s.orders[order] in s.deals && s.deals[s.orders[order]].payment.Some?
  }

  predicate KeyTaken(s: State, key: PaymentKey, except: TradeId) {
    exists t :: t in s.deals && t != except && s.deals[t].payment.Some? && s.deals[t].payment.value.key == Some(key)
  }

  function AfterConfirmPayment(s: State, user: UserId, path: OrderId, paymentKey: PaymentKey,
                               order: OrderId, amount: nat, key: IdempotencyKey): Result
  {
    var request := ConfirmRequest(paymentKey, order, amount);
    match Replay(s, key, request)
    case Some(outcome) => Result(s, outcome)
    case None =>
      if order != path then Result(s, Refused(OrderIdMismatch))
      else if !PaymentOf(s, path) || s.deals[s.orders[path]].trade.buyer != user then
        Result(s, Refused(PaymentNotFound))
      else
        var t := s.orders[path];
        var d := s.deals[t];
        var payment := d.payment.value;
        if payment.amount != amount then Result(s, Refused(PaymentAmountMismatch))
        else if !payment.status.Ready? then Result(s, Refused(PaymentNotReady))
        else if !d.trade.status.Accepted? || d.trade.product !in s.products
                || !s.products[d.trade.product].status.Reserved?
        then Result(s, Refused(TradeProductStateMismatch))
        else
          var record := Toss.RecordAfterConfirm(s.provider, paymentKey, path, payment.amount);
          var told := s.(provider := Toss.AfterConfirm(s.provider, paymentKey, path, payment.amount));
          if record.order != path || record.amount != payment.amount || !record.status.Done? then
            Result(told, Refused(ProviderConfirmationMismatch))
          else if KeyTaken(s, paymentKey, t) then Result(told, Refused(UniqueViolation(PaymentKeyIndex)))
          else if HasEntry(d.ledger, EscrowCapture) then Result(told, Refused(UniqueViolation(LedgerIndex)))
          else Recorded(WithDeal(told, t, CapturedDeal(d, paymentKey, s.clock)), t, key, request)
  }

  function ReverseRequest(order: OrderId, text: string, user: UserId, cancel: bool): Request {
    if cancel then CancelRequest(order, text, user) else RefundRequest(order, text, user)
  }

  function AfterReverse(s: State, user: UserId, order: OrderId, text: string, key: IdempotencyKey, cancel: bool)
    : Result
  {
    var request := ReverseRequest(order, text, user, cancel);
    match Replay(s, key, request)
    case Some(outcome) => Result(s, outcome)
    case None =>
      if !PaymentOf(s, order) || !Participant(s, s.orders[order], user) then Result(s, Refused(PaymentNotFound))
      else
        var t := s.orders[order];
        var d := s.deals[t];
        var payment := d.payment.value;
        if !payment.status.Approved? || payment.key.None? then Result(s, Refused(PaymentNotReversible))
        else if cancel && (!d.trade.status.Accepted? || d.trade.buyer != user) then
          Result(s, Refused(CancellationNotAllowed))
        else if cancel && (payment.approvedAt.None? || payment.approvedAt.value + CANCELLATION_WINDOW_MS < s.clock) then
          Result(s, Refused(CancellationWindowExpired))
        else if !cancel && !d.trade.status.Confirmed? && !d.trade.status.Disputed? then
          Result(s, Refused(RefundNotAllowed))
        else if payment.key.value !in s.provider then Result(s, Refused(SandboxPaymentNotFound))
        else
          var told := s.(provider := Toss.AfterReverse(s.provider, payment.key.value,
                           if cancel then ProviderStatus.Canceled else ProviderStatus.Refunded));
          if HasEntry(d.ledger, if cancel then Cancellation else Refund) then
            Result(told, Refused(UniqueViolation(LedgerIndex)))
          else
            var products := if cancel then ProductSetTo(s.products, d.trade.product, ProductStatus.Active) else s.products;
            var reversed := if cancel then VoidedDeal(d, user, text, s.clock) else RefundedDeal(d, user, text, s.clock);
            Recorded(WithDeal(told, t, reversed).(products := products), t, key, request)
  }

  function ExpectedStatus(status: ProviderStatus): PaymentStatus {
    match status
    case Done => PaymentStatus.Approved
    case Canceled => PaymentStatus.Cancelled
    case Refunded => PaymentStatus.Refunded
  }

  predicate ProviderMatches(s: State, payment: Payment) {
    && payment.key.Some? && payment.key.value in s.provider
    && var record := s.provider[payment.key.value];
       record.order == payment.order && record.amount == payment.amount
       && ExpectedStatus(record.status) == payment.status
  }

  function AfterReconcile(s: State, order: OrderId): Result {
    if !PaymentOf(s, order) || s.deals[s.orders[order]].payment.value.key.None? then
      Result(s, Refused(PaymentNotReconcilable))
    else
      var t := s.orders[order];
      var payment := s.deals[t].payment.value;
      var matched := ProviderMatches(s, payment);
      var checked := payment.(failure := if matched then NoFailure else ReconciliationMismatch, checkedAt := Some(s.clock));
      Result(WithDeal(s, t, s.deals[t].(payment := Some(checked))), Reconciled(matched))
  }

  // What a verified webhook writes to the payment beside its sequence number.
  function AfterWebhookVerified(s: State, order: OrderId): Result {
    if !PaymentOf(s, order) then Result(s, Refused(PaymentNotFound))
    else
      var t := s.orders[order];
      var checked := s.deals[t].payment.value.(failure := NoFailure, checkedAt := Some(s.clock));
      Result(WithDeal(s, t, s.deals[t].(payment := Some(checked))), Completed)
  }

  // ---------- Settlement ----------

  function AfterMarkReady(s: State, now: Time): Result {
    Result(s.(deals := map t | t in s.deals ::
                if HoldExpired(s.deals[t], now) then MarkedReadyDeal(s.deals[t]) else s.deals[t]),
           Completed)
  }

  function AfterClaim(s: State, t: TradeId, now: Time): Result {
    if t !in s.deals || !Claimable(s.deals[t]) then Result(s, Counted(false))
    else Result(WithDeal(s, t, ClaimedDeal(s.deals[t], now)), Counted(true))
  }

  predicate InFlight(s: State, t: TradeId, claim: nat) {
    t in s.deals && s.deals[t].payment.Some? && claim < |s.deals[t].claims|
  }

  function AfterPayout(s: State, t: TradeId, claim: nat): Result {
    if !InFlight(s, t, claim) || s.deals[t].claims[claim].paid then Result(s, Refused(NotReady))
    else Result(WithDeal(s, t, PaidOutDeal(s.deals[t], claim)), Completed)
  }

  function AfterFail(s: State, t: TradeId, claim: nat): Result {
    if !InFlight(s, t, claim) then Result(s, Refused(NotReady))
    else Result(WithDeal(s, t, FailedDeal(s.deals[t], claim)), Counted(false))
  }

  // A settlement row that already exists aborts the transaction, and the attempt is recorded as failed.
  function AfterFinish(s: State, t: TradeId, claim: nat, sandbox: bool): Result {
    if !InFlight(s, t, claim) || s.deals[t].claims[claim].paid == sandbox then Result(s, Refused(NotReady))
    else if HasEntry(s.deals[t].ledger, Settlement) then AfterFail(s, t, claim)
    else Result(WithDeal(s, t, SettledDeal(s.deals[t], claim, sandbox)), Counted(true))
  }

  function AfterCrash(s: State, t: TradeId, claim: nat): Result {
    if !InFlight(s, t, claim) then Result(s, Refused(NotReady))
    else Result(WithDeal(s, t, CrashedDeal(s.deals[t], claim)), Completed)
  }

  // Claim, payout and recording of one payment, with nothing in between.
  function AfterSettleOne(s: State, t: TradeId, now: Time, attempt: Attempt): Result {
    var claimed := AfterClaim(s, t, now);
    if claimed.outcome == Counted(false) then claimed
    else
      var claim := |s.deals[t].claims|;
      match attempt
      case SandboxRelease => AfterFinish(claimed.state, t, claim, true)
      case ProviderPays => AfterFinish(AfterPayout(claimed.state, t, claim).state, t, claim, false)
      case ProviderFails => AfterFail(claimed.state, t, claim)
      case ProviderPaysThenFails => AfterFail(AfterPayout(claimed.state, t, claim).state, t, claim)
  }

  // ---------- Steps and runs ----------

  // A batch stamps its work with the time it started, which is never in the future.
  predicate StampInFuture(s: State, step: Step) {
    match step
    case AutoConfirm(_, now) => s.clock < now
    case ExpireUnpaid(_, now) => s.clock < now
    case MarkReady(now) => s.clock < now
    case ClaimSettlement(_, now) => s.clock < now
    case SettleOne(_, now, _) => s.clock < now
    case _ => false
  }

  predicate TradeStep(step: Step) {
    step.AcceptTrade? || step.RejectTrade? || step.DeliverTrade? || step.ConfirmTrade? || step.DisputeTrade?
    || step.CancelTrade? || step.AutoConfirm? || step.ExpireUnpaid?
  }

  predicate PaymentStep(step: Step) {
    step.CreateOrder? || step.ConfirmPayment? || step.ReversePayment? || step.Reconcile?
    || step.WebhookVerified?
  }

  predicate SettlementStep(step: Step) {
    step.MarkReady? || step.ClaimSettlement? || step.Payout? || step.FinishSettlement? || step.FailSettlement?
    || step.CrashWorker? || step.SettleOne?
  }

  function NextTrade(s: State, step: Step): Result
    requires TradeStep(step)
  {
    match step
    case AcceptTrade(user, t) => AfterAccept(s, user, t)
    case RejectTrade(user, t, text) => AfterReject(s, user, t, text)
    case DeliverTrade(user, t) => AfterDeliver(s, user, t)
    case ConfirmTrade(user, t) => AfterConfirmTrade(s, user, t)
    case DisputeTrade(user, t, text) => AfterDispute(s, user, t, text)
    case CancelTrade(user, t, text) => AfterCancelTrade(s, user, t, text)
    case AutoConfirm(t, now) => AfterAutoConfirm(s, t, now)
    case ExpireUnpaid(t, now) => AfterExpireUnpaid(s, t, now)
  }

  function NextPayment(s: State, step: Step): Result
    requires PaymentStep(step)
  {
    match step
    case CreateOrder(user, t, key, order) => AfterCreateOrder(s, user, t, key, order)
    case ConfirmPayment(user, path, paymentKey, order, amount, key) =>
      AfterConfirmPayment(s, user, path, paymentKey, order, amount, key)
    case ReversePayment(user, order, text, key, cancel) => AfterReverse(s, user, order, text, key, cancel)
    case Reconcile(order) => AfterReconcile(s, order)
    case WebhookVerified(order) => AfterWebhookVerified(s, order)
  }

  function NextSettlement(s: State, step: Step): Result
    requires SettlementStep(step)
  {
    match step
    case MarkReady(now) => AfterMarkReady(s, now)
    case ClaimSettlement(t, now) => AfterClaim(s, t, now)
    case Payout(t, claim) => AfterPayout(s, t, claim)
    case FinishSettlement(t, claim, sandbox) => AfterFinish(s, t, claim, sandbox)
    case FailSettlement(t, claim) => AfterFail(s, t, claim)
    case CrashWorker(t, claim) => AfterCrash(s, t, claim)
    case SettleOne(t, now, attempt) => AfterSettleOne(s, t, now, attempt)
  }

  function NextProduct(s: State, step: Step): Result
    requires !TradeStep(step) && !PaymentStep(step) && !SettlementStep(step)
  {
    match step
    case Tick(ms) => Result(s.(clock := s.clock + ms), Completed)
    case CreateProduct(user, p, price) => AfterCreateProduct(s, user, p, price)
    case EditPrice(user, p, price) => AfterEditPrice(s, user, p, price)
    case SetVisibility(user, p, visible) => AfterSetVisibility(s, user, p, visible)
    case HideByAdmin(p) => AfterHideByAdmin(s, p)
    case RemoveProduct(user, p) => AfterRemoveProduct(s, user, p)
    case RequestTrade(user, p, t, blocked, has, nearby) => AfterRequest(s, user, p, t, blocked, has, nearby)
  }

  function Next(s: State, step: Step): Result {
    if StampInFuture(s, step) then Result(s, Refused(NotReady))
    else if TradeStep(step) then NextTrade(s, step)
    else if PaymentStep(step) then NextPayment(s, step)
    else if SettlementStep(step) then NextSettlement(s, step)
    else NextProduct(s, step)
  }

  function Run(s: State, steps: seq<Step>): State
    decreases |steps|
  {
    if steps == [] then s else Run(Next(s, steps[0]).state, steps[1..])
  }

  // A run in which every step obeys a rule that may look at the state it starts from.
  ghost predicate Obeys(s: State, steps: seq<Step>, rule: (State, Step) -> bool)
    decreases |steps|
  {
    steps == [] || (rule(s, steps[0]) && Obeys(Next(s, steps[0]).state, steps[1..], rule))
  }

  lemma RunOne(s: State, step: Step)
    ensures Run(s, [step]) == Next(s, step).state
  {
    hide Next;
    assert [step][1..] == [];
  }

  lemma {:induction false} RunConcat(s: State, xs: seq<Step>, ys: seq<Step>)
    ensures Run(s, xs + ys) == Run(Run(s, xs), ys)
    decreases |xs|
  {
    hide Next;
    if xs == [] {
      assert [] + ys == ys;
    } else {
      assert (xs + ys)[1..] == xs[1..] + ys;
      RunConcat(Next(s, xs[0]).state, xs[1..], ys);
    }
  }
}

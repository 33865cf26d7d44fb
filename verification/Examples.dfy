/** Two short histories that the requirements do not foresee: a payment is refunded after its settlement,
    and a dispute comes too late for a payout in flight. */
module Examples {
  import opened Rows
  import opened Deals
  import opened DealInvariant
  import opened Market
  import opened SettlementBatch
  import opened SettlementRuns
  import opened Refunds
  import Toss

  const SELLER: UserId := 1
  const BUYER: UserId := 2
  const PRODUCT: ProductId := 7
  const TRADE: TradeId := 20
  const ORDER: OrderId := 30
  const KEY: PaymentKey := 40

  // One product, one trade, and what has happened to its payment so far.
  ghost predicate Shows(s: State, product: ProductStatus, status: TradeStatus, payment: Option<Payment>,
                        ledger: seq<LedgerRow>, claims: seq<Claim>)
  {
    && s.products == map[PRODUCT := Product(SELLER, 100, product)] && s.deals.Keys == {TRADE}
    && var d := s.deals[TRADE];
       && d.trade.product == PRODUCT && d.trade.seller == SELLER && d.trade.buyer == BUYER && d.trade.price == 100
       && d.trade.status == status && d.payment == payment && d.ledger == ledger && d.claims == claims
       && s.orders == (if payment.Some? then map[ORDER := TRADE] else map[])
  }

  function Unpaid(): Payment {
    Payment(ORDER, None, 100, PaymentStatus.Ready, SettlementStatus.Hold, None, None, None, None, None, NoFailure, None)
  }

  function Paid(): Payment {
    Unpaid().(key := Some(KEY), status := PaymentStatus.Approved, approvedAt := Some(0))
  }

  function HeldUntil(): Payment {
    Paid().(availableAt := Some(SETTLEMENT_HOLD_MS))
  }

  function Capture(): LedgerRow {
    LedgerRow(EscrowCapture, 100, SandboxApproved)
  }

  function Purchase(): seq<Step> {
    [CreateProduct(SELLER, PRODUCT, 100), RequestTrade(BUYER, PRODUCT, TRADE, false, true, true),
     AcceptTrade(SELLER, TRADE), CreateOrder(BUYER, TRADE, "order-key", ORDER),
     ConfirmPayment(BUYER, ORDER, KEY, ORDER, 100, "confirm-key"), DeliverTrade(SELLER, TRADE),
     ConfirmTrade(BUYER, TRADE), Tick(SETTLEMENT_HOLD_MS), MarkReady(SETTLEMENT_HOLD_MS)]
  }

  lemma Requested(s: State)
    requires s == Empty
    ensures var made := Next(s, CreateProduct(SELLER, PRODUCT, 100)).state;
            var after := Next(made, RequestTrade(BUYER, PRODUCT, TRADE, false, true, true)).state;
            && Shows(after, ProductStatus.Active, TradeStatus.Requested, None, [], []) && after.clock == 0
            && after.operations == map[] && after.provider == map[]
  {
  }

  lemma Accepted(s: State)
    requires Shows(s, ProductStatus.Active, TradeStatus.Requested, None, [], [])
    ensures var after := Next(s, AcceptTrade(SELLER, TRADE)).state;
            && Shows(after, Reserved, TradeStatus.Accepted, None, [], [])
            && after == s.(products := after.products, deals := after.deals)
  {
  }

  lemma Ordered(s: State)
    requires Shows(s, Reserved, TradeStatus.Accepted, None, [], []) && s.operations == map[]
    ensures var after := Next(s, CreateOrder(BUYER, TRADE, "order-key", ORDER)).state;
            && Shows(after, Reserved, TradeStatus.Accepted, Some(Unpaid()), [], [])
            && after == s.(deals := after.deals, orders := after.orders, operations := after.operations)
            && after.operations.Keys == {"order-key"}
  {
  }

  lemma Approved(s: State)
    requires Shows(s, Reserved, TradeStatus.Accepted, Some(Unpaid()), [], [])
    requires s.clock == 0 && s.operations.Keys == {"order-key"} && s.provider == map[]
    ensures var after := Next(s, ConfirmPayment(BUYER, ORDER, KEY, ORDER, 100, "confirm-key")).state;
            && Shows(after, Reserved, TradeStatus.Accepted, Some(Paid()), [Capture()], [])
            && after.clock == 0 && after.operations.Keys == {"order-key", "confirm-key"} && KEY in after.provider
  {
    assert |"order-key"| == 9 && |"confirm-key"| == 11;
    assert !KeyTaken(s, KEY, TRADE) && !HasEntry([], EscrowCapture);
  }

  lemma Delivered(s: State)
    requires Shows(s, Reserved, TradeStatus.Accepted, Some(Paid()), [Capture()], [])
    ensures var after := Next(s, DeliverTrade(SELLER, TRADE)).state;
            && Shows(after, Reserved, TradeStatus.Delivered, Some(Paid()), [Capture()], [])
            && after == s.(deals := after.deals)
  {
  }

  lemma Confirmed(s: State)
    requires Shows(s, Reserved, TradeStatus.Delivered, Some(Paid()), [Capture()], []) && s.clock == 0
    ensures var after := Next(s, ConfirmTrade(BUYER, TRADE)).state;
            && Shows(after, Sold, TradeStatus.Confirmed, Some(HeldUntil()), [Capture()], [])
            && after == s.(products := after.products, deals := after.deals)
  {
  }

  lemma MadeReady(s: State)
    requires Shows(s, Sold, TradeStatus.Confirmed, Some(HeldUntil()), [Capture()], []) && s.clock == 0
    ensures var later := Next(s, Tick(SETTLEMENT_HOLD_MS)).state;
            var after := Next(later, MarkReady(SETTLEMENT_HOLD_MS)).state;
            && Shows(after, Sold, TradeStatus.Confirmed, Some(HeldUntil().(settlement := SettlementStatus.Ready)),
                     [Capture()], [])
            && after == s.(clock := SETTLEMENT_HOLD_MS, deals := after.deals)
  {
  }

  // A purchase that went through, its hold over.
  lemma Purchased(s: State)
    requires s == Run(Empty, Purchase())
    ensures Shows(s, Sold, TradeStatus.Confirmed, Some(HeldUntil().(settlement := SettlementStatus.Ready)), [Capture()], [])
    ensures s.clock == SETTLEMENT_HOLD_MS && s.operations.Keys == {"order-key", "confirm-key"} && KEY in s.provider
  {
    var steps := Purchase();
    hide Shows, Next;
    var made := Next(Empty, steps[0]).state;
    var asked := Next(made, steps[1]).state;
    var accepted := Next(asked, steps[2]).state;
    var ordered := Next(accepted, steps[3]).state;
    var approved := Next(ordered, steps[4]).state;
    var delivered := Next(approved, steps[5]).state;
    var confirmed := Next(delivered, steps[6]).state;
    var later := Next(confirmed, steps[7]).state;
    Requested(Empty);
    Accepted(asked);
    Ordered(accepted);
    Approved(ordered);
    Delivered(approved);
    Confirmed(delivered);
    MadeReady(confirmed);
    Unfold(Empty, steps, 0);
    Unfold(made, steps, 1);
    Unfold(asked, steps, 2);
    Unfold(accepted, steps, 3);
    Unfold(ordered, steps, 4);
    Unfold(approved, steps, 5);
    Unfold(delivered, steps, 6);
    Unfold(confirmed, steps, 7);
    Unfold(later, steps, 8);
    hide Run;
    assert steps[0..] == steps;
  }

  lemma Unfold(s: State, steps: seq<Step>, i: nat)
    requires i < |steps|
    ensures Run(s, steps[i..]) == Run(Next(s, steps[i]).state, steps[i + 1..])
    ensures i + 1 == |steps| ==> Run(s, steps[i..]) == Next(s, steps[i]).state
  {
    hide Next;
    assert steps[i..][1..] == steps[i + 1..];
  }

  lemma OnlyCaptured()
    ensures !HasEntry([Capture()], Settlement)
  {
  }

  lemma SettleOneStep(s: State, attempt: Attempt)
    ensures Next(s, SettleOne(TRADE, s.clock, attempt)) == AfterSettleOne(s, TRADE, s.clock, attempt)
  {
    hide AfterSettleOne;
  }

  lemma Settled(s: State)
    requires Shows(s, Sold, TradeStatus.Confirmed, Some(HeldUntil().(settlement := SettlementStatus.Ready)), [Capture()], [])
    requires s.clock == SETTLEMENT_HOLD_MS
    ensures var after := Next(s, SettleOne(TRADE, s.clock, SandboxRelease)).state;
            var paid := HeldUntil().(settlement := SandboxSettled, settledAt := Some(s.clock));
            && Shows(after, Sold, TradeStatus.Confirmed, Some(paid),
                     [Capture(), LedgerRow(Settlement, -100, SandboxSettlementReleased)], [])
            && after == s.(deals := after.deals) && Next(s, SettleOne(TRADE, s.clock, SandboxRelease)).outcome == Counted(true)
            && TRADE in after.deals && TRADE in s.deals && after.deals[TRADE].trade == s.deals[TRADE].trade
            && after.deals[TRADE].ledger == [Capture(), LedgerRow(Settlement, -100, SandboxSettlementReleased)]
  {
    hide Next, AfterSettleOne, HasEntry;
    OnlyCaptured();
    SettleOneStep(s, SandboxRelease);
    AttemptLeaves(s, TRADE, s.clock, SandboxRelease);
  }

  // On the last instant of the seven days after the confirmation the payment can already be settled; its
  // refund is accepted and the account goes below zero.
  lemma SettledPaymentIsRefunded()
    ensures var s := Run(Empty, Purchase());
            var settled := Next(s, SettleOne(TRADE, s.clock, SandboxRelease));
            var refunded := Next(settled.state, ReversePayment(BUYER, ORDER, "broken", "refund-key", false));
            && settled.outcome == Counted(true) && refunded.outcome.Answered?
            && TRADE in settled.state.deals && Balance(settled.state.deals[TRADE].ledger) == 0
            && settled.state.deals[TRADE].trade.confirmedAt.Some?
            && settled.state.clock == settled.state.deals[TRADE].trade.confirmedAt.value + 7 * DAY_MS
            && TRADE in refunded.state.deals && Balance(refunded.state.deals[TRADE].ledger) == -100
  {
    var s := Run(Empty, Purchase());
    hide Run, Next, Balance, HasRow, Shows;
    Purchased(s);
    Settled(s);
    var settled := Next(s, SettleOne(TRADE, s.clock, SandboxRelease)).state;
    SettledAtSeven(s);
    Refunded(settled);
    Balances(settled.deals[TRADE].ledger);
  }

  lemma SettledAtSeven(s: State)
    requires s == Run(Empty, Purchase())
    ensures var settled := Next(s, SettleOne(TRADE, s.clock, SandboxRelease)).state;
            && TRADE in settled.deals && settled.deals[TRADE].trade.confirmedAt.Some?
            && settled.clock == settled.deals[TRADE].trade.confirmedAt.value + 7 * DAY_MS
  {
    var step := SettleOne(TRADE, s.clock, SandboxRelease);
    hide Run, Next, HasRow;
    Purchased(s);
    Settled(s);
    RunOne(s, step);
    RunConcat(Empty, Purchase(), [step]);
    ReleaseWaits(Purchase() + [step], TRADE);
  }

  lemma Balances(ledger: seq<LedgerRow>)
    requires ledger == [Capture(), LedgerRow(Settlement, -100, SandboxSettlementReleased)]
    ensures Balance(ledger) == 0 && Balance(ledger + [LedgerRow(Refund, -100, Stated("broken"))]) == -100
  {
    AppendBalance([], ledger[0]);
    AppendBalance([ledger[0]], ledger[1]);
    AppendBalance(ledger, LedgerRow(Refund, -100, Stated("broken")));
    assert [] + [ledger[0]] == [ledger[0]] && [ledger[0]] + [ledger[1]] == ledger;
  }

  lemma AppendBalance(ledger: seq<LedgerRow>, row: LedgerRow)
    ensures Balance(ledger + [row]) == Balance(ledger) + row.amount
  {
    assert (ledger + [row])[..|ledger|] == ledger;
  }

  lemma Refunded(s: State)
    requires var p := HeldUntil().(settlement := SandboxSettled, settledAt := Some(s.clock));
             Shows(s, Sold, TradeStatus.Confirmed, Some(p),
                   [Capture(), LedgerRow(Settlement, -100, SandboxSettlementReleased)], [])
    requires s.operations.Keys == {"order-key", "confirm-key"} && KEY in s.provider
    ensures var result := Next(s, ReversePayment(BUYER, ORDER, "broken", "refund-key", false));
            && result.outcome.Answered? && TRADE in result.state.deals
            && result.state.deals[TRADE].ledger == s.deals[TRADE].ledger + [LedgerRow(Refund, -100, Stated("broken"))]
  {
    assert |"order-key"| == 9 && |"confirm-key"| == 11 && |"refund-key"| == 10;
    assert !HasEntry(s.deals[TRADE].ledger, Refund);
  }

  // A dispute does not stop a settlement that a worker has claimed.
  lemma DisputedPaymentIsSettled()
    ensures var s := Run(Empty, Purchase());
            var claimed := Next(s, ClaimSettlement(TRADE, s.clock)).state;
            var disputed := Next(claimed, DisputeTrade(BUYER, TRADE, "broken"));
            var settled := Next(disputed.state, FinishSettlement(TRADE, 0, true));
            && disputed.outcome == Completed && settled.outcome == Counted(true)
            && TRADE in settled.state.deals && settled.state.deals[TRADE].trade.status.Disputed?
            && settled.state.deals[TRADE].payment.Some? && settled.state.deals[TRADE].payment.value.settledAt.Some?
  {
    var s := Run(Empty, Purchase());
    Purchased(s);
    hide Run;
    var claimed := Next(s, ClaimSettlement(TRADE, s.clock)).state;
    ClaimedNow(s, s.clock);
    hide Next, Shows;
    DisputedNow(claimed);
    FinishedNow(Next(claimed, DisputeTrade(BUYER, TRADE, "broken")).state);
  }

  lemma ClaimedNow(s: State, now: Time)
    requires Shows(s, Sold, TradeStatus.Confirmed, Some(HeldUntil().(settlement := SettlementStatus.Ready)), [Capture()], [])
    requires now <= s.clock
    ensures var after := Next(s, ClaimSettlement(TRADE, now)).state;
            Shows(after, Sold, TradeStatus.Confirmed, Some(HeldUntil().(settlement := SettlementStatus.Processing)),
                  [Capture()], [Claim(now, false)])
            && after.clock == s.clock
  {
  }

  lemma DisputedNow(s: State)
    requires Shows(s, Sold, TradeStatus.Confirmed, Some(HeldUntil().(settlement := SettlementStatus.Processing)),
                   [Capture()], [Claim(s.clock, false)])
    ensures var result := Next(s, DisputeTrade(BUYER, TRADE, "broken"));
            && result.outcome == Completed
            && Shows(result.state, Sold, TradeStatus.Disputed, Some(HeldUntil().(settlement := SettlementStatus.Paused)),
                     [Capture()], [Claim(s.clock, false)])
            && result.state.clock == s.clock
  {
  }

  lemma FinishedNow(s: State)
    requires Shows(s, Sold, TradeStatus.Disputed, Some(HeldUntil().(settlement := SettlementStatus.Paused)),
                   [Capture()], [Claim(s.clock, false)])
    ensures var result := Next(s, FinishSettlement(TRADE, 0, true));
            && result.outcome == Counted(true)
            && TRADE in result.state.deals && result.state.deals[TRADE].trade.status.Disputed?
            && result.state.deals[TRADE].payment.Some? && result.state.deals[TRADE].payment.value.settledAt.Some?
  {
    assert !HasEntry([Capture()], Settlement);
    hide HasEntry;
  }

  // A batch that started before another batch marked the payment ready, and claims it afterwards, records a
  // settlement before the end of the hold.
  lemma SettlementIsStampedBeforeTheHold()
    ensures var s := Run(Empty, Purchase());
            var claimed := Next(s, ClaimSettlement(TRADE, SETTLEMENT_HOLD_MS - 1)).state;
            var settled := Next(claimed, FinishSettlement(TRADE, 0, true));
            && settled.outcome == Counted(true) && TRADE in settled.state.deals
            && settled.state.deals[TRADE].payment.Some?
            && settled.state.deals[TRADE].payment.value.availableAt == Some(SETTLEMENT_HOLD_MS)
            && settled.state.deals[TRADE].payment.value.settledAt == Some(SETTLEMENT_HOLD_MS - 1)
  {
    hide Run, Next, Shows;
    var s := Run(Empty, Purchase());
    Purchased(s);
    ClaimedNow(s, SETTLEMENT_HOLD_MS - 1);
    FinishedEarly(Next(s, ClaimSettlement(TRADE, SETTLEMENT_HOLD_MS - 1)).state, SETTLEMENT_HOLD_MS - 1);
  }

  lemma FinishedEarly(s: State, now: Time)
    requires Shows(s, Sold, TradeStatus.Confirmed, Some(HeldUntil().(settlement := SettlementStatus.Processing)),
                   [Capture()], [Claim(now, false)])
    ensures var result := Next(s, FinishSettlement(TRADE, 0, true));
            && result.outcome == Counted(true) && TRADE in result.state.deals && result.state.deals[TRADE].payment.Some?
            && result.state.deals[TRADE].payment.value.availableAt == Some(SETTLEMENT_HOLD_MS)
            && result.state.deals[TRADE].payment.value.settledAt == Some(now)
  {
    assert !HasEntry([Capture()], Settlement);
    hide HasEntry;
  }

  // A payout that was made but not recorded leaves no trace in the ledger: after the refund the ledger is at
  // zero while the seller and the buyer both have the money.
  lemma UnrecordedPayoutIsRefunded()
    ensures var s := Run(Empty, Purchase());
            var failed := Next(s, SettleOne(TRADE, s.clock, ProviderPaysThenFails));
            var refunded := Next(failed.state, ReversePayment(BUYER, ORDER, "broken", "refund-key", false));
            && failed.outcome == Counted(false) && refunded.outcome.Answered?
            && BalanceOf(refunded.state, TRADE) == 0 && Cash(refunded.state, TRADE) == -100
  {
    hide Run, Next, Shows, BalanceOf, Cash;
    var s := Run(Empty, Purchase());
    var settle := SettleOne(TRADE, s.clock, ProviderPaysThenFails);
    var refund := ReversePayment(BUYER, ORDER, "broken", "refund-key", false);
    Purchased(s);
    PaidThenFailed(s);
    var failed := Next(s, settle).state;
    RefundedAfterFailure(failed);
    var steps := Purchase() + [settle] + [refund];
    RunOne(s, settle);
    RunOne(failed, refund);
    RunConcat(Empty, Purchase(), [settle]);
    RunConcat(Empty, Purchase() + [settle], [refund]);
    RefundedBalance(steps, TRADE);
    CashNegativeExactly(steps, TRADE);
  }

  lemma PaidThenFailed(s: State)
    requires Shows(s, Sold, TradeStatus.Confirmed, Some(HeldUntil().(settlement := SettlementStatus.Ready)), [Capture()], [])
    requires s.clock == SETTLEMENT_HOLD_MS
    ensures var result := Next(s, SettleOne(TRADE, s.clock, ProviderPaysThenFails));
            var p := HeldUntil().(settlement := SettlementStatus.Failed, failure := PayoutFailed);
            && Shows(result.state, Sold, TradeStatus.Confirmed, Some(p), [Capture()], [])
            && result.outcome == Counted(false) && result.state == s.(deals := result.state.deals)
            && TRADE in result.state.deals && result.state.deals[TRADE].transfers != []
  {
    hide Next, AfterSettleOne, HasEntry;
    OnlyCaptured();
    SettleOneStep(s, ProviderPaysThenFails);
    AttemptLeaves(s, TRADE, s.clock, ProviderPaysThenFails);
  }

  lemma RefundedAfterFailure(s: State)
    requires Shows(s, Sold, TradeStatus.Confirmed,
                   Some(HeldUntil().(settlement := SettlementStatus.Failed, failure := PayoutFailed)), [Capture()], [])
    requires s.operations.Keys == {"order-key", "confirm-key"} && KEY in s.provider
    requires TRADE in s.deals && s.deals[TRADE].transfers != []
    ensures var result := Next(s, ReversePayment(BUYER, ORDER, "broken", "refund-key", false));
            && result.outcome.Answered? && TRADE in result.state.deals
            && result.state.deals[TRADE].transfers == s.deals[TRADE].transfers
            && PaymentRefunded(result.state.deals[TRADE]) && result.state.deals[TRADE].payment.value.amount == 100
            && result.state.deals[TRADE].payment.value.settledAt.None?
  {
    assert |"order-key"| == 9 && |"confirm-key"| == 11 && |"refund-key"| == 10;
    assert !HasEntry(s.deals[TRADE].ledger, Refund);
  }
}

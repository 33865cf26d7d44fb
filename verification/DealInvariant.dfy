/** What is always true of the rows of one trade, and that every operation on them keeps it. */
module DealInvariant {
  import opened Rows
  import opened Deals

  // ---------- Trade status against payment status ----------

  ghost predicate Coherent(status: TradeStatus, price: nat, payment: Option<Payment>) {
    match payment
    case None => !status.Delivered? && !status.Confirmed?
    case Some(p) =>
      && !status.Requested? && !status.Rejected?
      && p.amount == price
      && (p.status.Ready? || p.status.Approved? || p.status.Cancelled? || p.status.Refunded?)
      && (p.status.Ready? ==> status.Accepted? || status.Disputed?)
      && (status.Delivered? || status.Confirmed? ==> p.status.Approved?)
      && (p.status.Refunded? ==> status.Disputed?)
      && (p.status.Cancelled? <==> status.Cancelled?)
      && (p.key.Some? <==> p.approvedAt.Some?)
      && (p.status.Ready? ==> p.approvedAt.None?)
      && (p.status.Approved? || p.status.Refunded? ==> p.approvedAt.Some?)
  }

  // ---------- Settlement ----------

  // Released from its hold at some time, or being paid out.
  predicate Released(p: Payment, claims: seq<Claim>) {
    || p.settledAt.Some? || p.settlement.Ready? || p.settlement.Processing? || p.settlement.Failed?
    || p.settlement.Settled? || p.settlement.SandboxSettled? || claims != []
  }

  ghost predicate HasReason(ledger: seq<LedgerRow>, reason: Reason) {
    exists i :: 0 <= i < |ledger| && ledger[i].reason == reason
  }

  ghost predicate SettlementSound(
    status: TradeStatus, p: Payment, providerPaid: bool, claims: seq<Claim>, transfers: seq<nat>)
  {
    && |claims| <= 1
    && (transfers == [] || transfers == [p.amount])
    && (claims != [] ==> p.settledAt.None? && (p.settlement.Processing? || p.settlement.Paused?))
    && (claims != [] && claims[0].paid ==> transfers == [p.amount])
    && (Released(p, claims) ==> p.status.Approved? || p.status.Refunded?)
    && (Released(p, claims) ==> status.Confirmed? || status.Disputed?)
    && (p.settledAt.Some? ==> p.settlement.Settled? || p.settlement.SandboxSettled? || p.settlement.Paused?)
    && (p.settlement.Settled? ==> p.settledAt.Some? && transfers == [p.amount])
    && (p.settlement.SandboxSettled? ==> p.settledAt.Some?)
    && (p.settlement.Ready? ==> p.status.Approved? && status.Confirmed?)
    && (p.settlement.Paused? ==> status.Disputed? || status.Cancelled?)
    && (p.settlement.Hold? ==> !status.Disputed? && !status.Cancelled?)
    && (providerPaid ==> transfers == [p.amount] && p.settledAt.Some?)
  }

  // ---------- Ledger ----------

  function Balance(ledger: seq<LedgerRow>): int {
    if ledger == [] then 0 else Balance(ledger[..|ledger| - 1]) + ledger[|ledger| - 1].amount
  }

  // What the payment row says the escrow account should hold.
  function Held(p: Payment): int {
    (if p.approvedAt.Some? then p.amount else 0)
    - (if p.status.Cancelled? && p.approvedAt.Some? then p.amount else 0)
    - (if p.status.Refunded? then p.amount else 0)
    - (if p.settledAt.Some? then p.amount else 0)
  }

  ghost predicate NoEntryTwice(ledger: seq<LedgerRow>) {
    forall i, j :: 0 <= i < j < |ledger| ==> ledger[i].entry != ledger[j].entry
  }

  // Which rows the payment row calls for.
  predicate Expects(p: Payment, entry: EntryType) {
    match entry
    case EscrowCapture => p.approvedAt.Some?
    case Cancellation => p.status.Cancelled? && p.approvedAt.Some?
    case Refund => p.status.Refunded?
    case Settlement => p.settledAt.Some?
    case Adjustment => false
  }

  ghost predicate LedgerExact(p: Payment, ledger: seq<LedgerRow>) {
    && Balance(ledger) == Held(p)
    && NoEntryTwice(ledger)
    && (forall entry :: HasEntry(ledger, entry) <==> Expects(p, entry))
    && forall i :: 0 <= i < |ledger| ==> ledger[i].amount == Signed(ledger[i].entry, p.amount)
  }

  // Money comes in once, by the capture; every other row takes it out.
  function Signed(entry: EntryType, amount: nat): int {
    if entry.EscrowCapture? then amount else 0 - amount
  }

  lemma AppendEntry(ledger: seq<LedgerRow>, row: LedgerRow)
    requires !HasEntry(ledger, row.entry) && NoEntryTwice(ledger)
    ensures Balance(ledger + [row]) == Balance(ledger) + row.amount
    ensures NoEntryTwice(ledger + [row])
    ensures forall e :: HasEntry(ledger + [row], e) <==> HasEntry(ledger, e) || e == row.entry
    ensures forall r :: HasReason(ledger + [row], r) <==> HasReason(ledger, r) || r == row.reason
  {
    var longer := ledger + [row];
    assert longer[..|longer| - 1] == ledger;
    assert longer[|ledger|] == row;
    forall e ensures HasEntry(longer, e) <==> HasEntry(ledger, e) || e == row.entry {
      if HasEntry(ledger, e) {
        var i :| 0 <= i < |ledger| && ledger[i].entry == e;
        assert longer[i].entry == e;
      }
    }
    forall r ensures HasReason(longer, r) <==> HasReason(ledger, r) || r == row.reason {
      if HasReason(ledger, r) {
        var i :| 0 <= i < |ledger| && ledger[i].reason == r;
        assert longer[i].reason == r;
      }
    }
  }

  // ---------- History ----------

  predicate LegalEdge(from: TradeStatus, to: TradeStatus) {
    match from
    case Requested => to.Accepted? || to.Rejected? || to.Cancelled?
    case Accepted => to.Delivered? || to.Disputed? || to.Cancelled?
    case Delivered => to.Confirmed? || to.Disputed?
    case Confirmed => to.Disputed?
    case _ => false
  }

  // One status to the next, end to end, never back in time.
  ghost predicate Chain(h: seq<HistoryRow>) {
    && |h| > 0 && h[0].from.None? && h[0].to.Requested?
    && forall i :: 0 < i < |h| ==>
         h[i].from == Some(h[i - 1].to) && LegalEdge(h[i - 1].to, h[i].to) && h[i - 1].at <= h[i].at
  }

  ghost predicate HasRow(h: seq<HistoryRow>, reason: Reason) {
    exists i :: 0 <= i < |h| && h[i].reason == reason
  }

  // A row written by the unpaid-trade loop follows an acceptance at least the timeout earlier.
  ghost predicate ExpiriesWaited(h: seq<HistoryRow>) {
    forall i :: 0 <= i < |h| && h[i].reason == AutoCancelledUnpaidAfter7Days ==>
      i > 0 && h[i - 1].to.Accepted? && h[i].to.Cancelled?
      && h[i - 1].at + UNPAID_ACCEPTANCE_TIMEOUT_MS <= h[i].at
  }

  ghost predicate HistoryReplays(
    h: seq<HistoryRow>, status: TradeStatus, updatedAt: Time, ordered: bool, clock: Time)
  {
    && Chain(h)
    && h[|h| - 1].to == status
    && h[|h| - 1].at == updatedAt <= clock
    && ExpiriesWaited(h)
    && (HasRow(h, AutoCancelledUnpaidAfter7Days) ==> !ordered && status.Cancelled?)
  }

  lemma AppendRow(h: seq<HistoryRow>, row: HistoryRow)
    requires Chain(h) && ExpiriesWaited(h)
    requires row.from == Some(h[|h| - 1].to) && LegalEdge(h[|h| - 1].to, row.to) && h[|h| - 1].at <= row.at
    requires row.reason == AutoCancelledUnpaidAfter7Days ==>
               h[|h| - 1].to.Accepted? && row.to.Cancelled?
               && h[|h| - 1].at + UNPAID_ACCEPTANCE_TIMEOUT_MS <= row.at
    ensures Chain(h + [row]) && ExpiriesWaited(h + [row])
    ensures forall r :: HasRow(h + [row], r) <==> HasRow(h, r) || r == row.reason
  {
    var longer := h + [row];
    assert longer[|h|] == row;
    forall r ensures HasRow(longer, r) <==> HasRow(h, r) || r == row.reason {
      if HasRow(h, r) {
        var i :| 0 <= i < |h| && h[i].reason == r;
        assert longer[i].reason == r;
      }
    }
  }

  // ---------- Time ----------

  ghost predicate TradeTimely(tr: Trade, autoConfirmed: bool, clock: Time) {
    && (tr.status.Delivered? ==> tr.deliveredAt.Some?)
    && (tr.deliveredAt.Some? ==>
          tr.autoConfirmAt == Some(tr.deliveredAt.value + AUTO_CONFIRM_MS) && tr.deliveredAt.value <= clock)
    && (tr.confirmedAt.Some? ==>
          && (tr.status.Confirmed? || tr.status.Disputed?) && tr.confirmedAt.value <= clock
          && tr.deliveredAt.Some? && tr.deliveredAt.value <= tr.confirmedAt.value)
    && (autoConfirmed ==>
          && tr.confirmedAt.Some? && tr.deliveredAt.Some?
          && tr.deliveredAt.value + AUTO_CONFIRM_MS <= tr.confirmedAt.value)
  }

  ghost predicate PaymentTimely(confirmedAt: Option<Time>, p: Payment, released: bool, clock: Time) {
    && (p.availableAt.Some? ==>
          confirmedAt.Some? && p.availableAt.value == confirmedAt.value + SETTLEMENT_HOLD_MS)
    && (released ==> p.availableAt.Some? && p.availableAt.value <= clock)
  }

  // ---------- All of it ----------

  ghost predicate MoneyOk(d: Deal, clock: Time) {
    match d.payment
    case None => d.ledger == [] && d.claims == [] && d.transfers == []
    case Some(p) =>
      && LedgerExact(p, d.ledger)
      && SettlementSound(d.trade.status, p, HasReason(d.ledger, PayoutProviderConfirmed), d.claims, d.transfers)
      && PaymentTimely(d.trade.confirmedAt, p, Released(p, d.claims), clock)
  }

  ghost predicate TradeOk(d: Deal, clock: Time) {
    && Coherent(d.trade.status, d.trade.price, d.payment)
    && HistoryReplays(d.history, d.trade.status, d.trade.updatedAt, d.payment.Some?, clock)
    && TradeTimely(d.trade, HasRow(d.history, AutoConfirmedAfter7Days), clock)
  }

  ghost predicate DealOk(d: Deal, clock: Time) {
    TradeOk(d, clock) && MoneyOk(d, clock)
  }

  lemma LaterIsOk(d: Deal, clock: Time, later: Time)
    requires DealOk(d, clock) && clock <= later
    ensures DealOk(d, later)
  {
    hide LedgerExact, SettlementSound, Coherent, Chain, ExpiriesWaited, HasRow;
  }

  // ---------- Every operation keeps it ----------

  lemma OpenedOk(product: ProductId, buyer: UserId, seller: UserId, price: nat, at: Time)
    ensures DealOk(Opened(product, buyer, seller, price, at), at)
  {
  }

  // Moving the trade along a legal edge, with the history row, keeps the trade side.
  lemma MovedHistory(d: Deal, tr: Trade, actor: Option<UserId>, reason: Reason, at: Time)
    requires TradeOk(d, at) && LegalEdge(d.trade.status, tr.status)
    requires reason == AutoCancelledUnpaidAfter7Days ==>
               d.trade.status.Accepted? && tr.status.Cancelled? && d.payment.None?
               && d.trade.updatedAt + UNPAID_ACCEPTANCE_TIMEOUT_MS <= at
    ensures var h := Moved(d, tr, actor, reason, at).history;
            && HistoryReplays(h, tr.status, at, d.payment.Some?, at)
            && (HasRow(h, AutoConfirmedAfter7Days) <==>
                  (HasRow(d.history, AutoConfirmedAfter7Days) || reason == AutoConfirmedAfter7Days))
  {
    AppendRow(d.history, HistoryRow(actor, Some(d.trade.status), tr.status, reason, at));
    assert !HasRow(d.history, AutoCancelledUnpaidAfter7Days);
  }

  lemma AcceptedOk(d: Deal, seller: UserId, at: Time)
    requires DealOk(d, at) && d.trade.status.Requested?
    ensures DealOk(AcceptedDeal(d, seller, at), at)
  {
    MovedHistory(d, d.trade.(status := TradeStatus.Accepted), Some(seller), NoReason, at);
    hide LedgerExact, HistoryReplays, HasRow;
  }

  lemma RejectedOk(d: Deal, seller: UserId, reason: Reason, at: Time)
    requires DealOk(d, at) && d.trade.status.Requested?
    requires reason == ReservedByAnotherTrade || reason.Stated?
    ensures DealOk(RejectedDeal(d, seller, reason, at), at)
  {
    MovedHistory(d, d.trade.(status := TradeStatus.Rejected, rejectedAt := Some(at), reason := reason),
                 Some(seller), reason, at);
    hide LedgerExact, HistoryReplays, HasRow;
  }

  lemma DeliveredOk(d: Deal, seller: UserId, at: Time)
    requires DealOk(d, at) && d.trade.status.Accepted? && d.payment.Some? && d.payment.value.status.Approved?
    ensures DealOk(DeliveredDeal(d, seller, at), at)
  {
    var after := DeliveredDeal(d, seller, at);
    assert TradeOk(after, at) by {
      hide MoneyOk;
      MovedHistory(d, after.trade, Some(seller), NoReason, at);
      hide HistoryReplays, HasRow;
    }
    hide TradeOk, LedgerExact, HasReason;
  }

  lemma ConfirmedOk(d: Deal, actor: Option<UserId>, confirmedAt: Time, reason: Reason, at: Time)
    requires DealOk(d, at) && d.trade.status.Delivered? && confirmedAt <= at
    requires (reason == NoReason && confirmedAt == at)
          || (reason == AutoConfirmedAfter7Days && AutoConfirmDue(d, confirmedAt))
    ensures DealOk(ConfirmedDeal(d, actor, confirmedAt, reason, at), at)
  {
    var after := ConfirmedDeal(d, actor, confirmedAt, reason, at);
    assert d.payment.Some? && d.payment.value.status.Approved?;
    assert TradeOk(after, at) by {
      hide MoneyOk;
      MovedHistory(d, d.trade.(status := TradeStatus.Confirmed, confirmedAt := Some(confirmedAt)), actor, reason, at);
      hide HistoryReplays, HasRow;
    }
    hide TradeOk, HasEntry, HasReason, NoEntryTwice;
  }

  // A dispute is legal from every holding status, whatever it does to the payment beside it.
  lemma DisputedTrade(d: Deal, payment: Option<Payment>, actor: UserId, reason: Reason, at: Time)
    requires TradeOk(d, at) && reason.Stated?
    requires d.trade.status.Accepted? || d.trade.status.Delivered? || d.trade.status.Confirmed?
    requires payment.Some? == d.payment.Some? && Coherent(TradeStatus.Disputed, d.trade.price, payment)
    ensures TradeOk(Moved(d, d.trade.(status := TradeStatus.Disputed, disputedAt := Some(at), reason := reason),
                          Some(actor), reason, at).(payment := payment), at)
  {
    MovedHistory(d, d.trade.(status := TradeStatus.Disputed, disputedAt := Some(at), reason := reason),
                 Some(actor), reason, at);
    hide HistoryReplays, HasRow, Coherent;
  }

  lemma DisputedOk(d: Deal, actor: UserId, text: string, at: Time)
    requires DealOk(d, at)
    requires d.trade.status.Accepted? || d.trade.status.Delivered? || d.trade.status.Confirmed?
    ensures DealOk(DisputedDeal(d, actor, Stated(text), at), at)
  {
    var after := DisputedDeal(d, actor, Stated(text), at);
    assert TradeOk(after, at) by {
      hide MoneyOk, HistoryReplays, TradeTimely;
      DisputedTrade(d, after.payment, actor, Stated(text), at);
    }
    assert d.payment.Some? ==> !d.payment.value.status.Cancelled?;
    hide TradeOk, HasEntry, HasReason, NoEntryTwice;
  }

  lemma CancelledOk(d: Deal, actor: Option<UserId>, cancelledAt: Time, reason: Reason, at: Time)
    requires DealOk(d, at) && (d.trade.status.Requested? || d.trade.status.Accepted?)
    requires d.payment.Some? ==> !d.payment.value.status.Approved?
    requires reason.Stated? || (reason == AutoCancelledUnpaidAfter7Days && UnpaidExpired(d, at))
    ensures DealOk(CancelledDeal(d, actor, cancelledAt, reason, at), at)
    ensures d.payment.Some? ==> d.payment.value.key.None?
  {
    var after := CancelledDeal(d, actor, cancelledAt, reason, at);
    assert TradeOk(after, at) by {
      hide MoneyOk;
      MovedHistory(d, d.trade.(status := TradeStatus.Cancelled, cancelledAt := Some(cancelledAt), reason := reason),
                   actor, reason, at);
      hide HistoryReplays, HasRow;
    }
    assert d.payment.Some? ==> d.payment.value.status.Ready? && d.payment.value.key.None? && d.payment.value.approvedAt.None?;
    hide TradeOk, HasEntry, HasReason, NoEntryTwice;
  }

  lemma OrderedOk(d: Deal, order: OrderId, at: Time)
    requires DealOk(d, at) && d.trade.status.Accepted? && d.payment.None?
    ensures DealOk(OrderedDeal(d, order), at)
  {
  }

  // A new ledger row and the payment change it stands for keep the ledger exact.
  lemma EntryKeepsLedger(p: Payment, q: Payment, ledger: seq<LedgerRow>, row: LedgerRow)
    requires LedgerExact(p, ledger) && !Expects(p, row.entry)
    requires Held(q) == Held(p) + row.amount && q.amount == p.amount
    requires row.amount == Signed(row.entry, p.amount)
    requires forall e :: Expects(q, e) <==> Expects(p, e) || e == row.entry
    ensures !HasEntry(ledger, row.entry)
    ensures LedgerExact(q, ledger + [row])
    ensures HasReason(ledger + [row], PayoutProviderConfirmed)
        <==> (HasReason(ledger, PayoutProviderConfirmed) || row.reason == PayoutProviderConfirmed)
  {
    hide LedgerExact, Expects, Held, NoEntryTwice, Signed, Balance, HasEntry, HasReason;
    ExactParts(p, ledger, row.entry);
    AppendEntry(ledger, row);
    AmountsAppend(p, q, ledger, row);
    ExactFrom(p, q, ledger, row);
  }

  lemma ExactParts(p: Payment, ledger: seq<LedgerRow>, entry: EntryType)
    requires LedgerExact(p, ledger) && !Expects(p, entry)
    ensures !HasEntry(ledger, entry) && NoEntryTwice(ledger) && Balance(ledger) == Held(p)
    ensures forall e :: HasEntry(ledger, e) <==> Expects(p, e)
    ensures forall i :: 0 <= i < |ledger| ==> ledger[i].amount == Signed(ledger[i].entry, p.amount)
  {
    hide Expects, Held, NoEntryTwice, Signed, Balance, HasEntry;
  }

  lemma AmountsAppend(p: Payment, q: Payment, ledger: seq<LedgerRow>, row: LedgerRow)
    requires forall i :: 0 <= i < |ledger| ==> ledger[i].amount == Signed(ledger[i].entry, p.amount)
    requires row.amount == Signed(row.entry, p.amount) && q.amount == p.amount
    ensures forall i :: 0 <= i < |ledger + [row]| ==> (ledger + [row])[i].amount == Signed((ledger + [row])[i].entry, q.amount)
  {
    hide Signed;
  }

  lemma ExactFrom(p: Payment, q: Payment, ledger: seq<LedgerRow>, row: LedgerRow)
    requires Balance(ledger + [row]) == Held(q) && NoEntryTwice(ledger + [row])
    requires forall e :: HasEntry(ledger, e) <==> Expects(p, e)
    requires forall e :: HasEntry(ledger + [row], e) <==> HasEntry(ledger, e) || e == row.entry
    requires forall e :: Expects(q, e) <==> Expects(p, e) || e == row.entry
    requires forall i :: 0 <= i < |ledger + [row]| ==> (ledger + [row])[i].amount == Signed((ledger + [row])[i].entry, q.amount)
    ensures LedgerExact(q, ledger + [row])
  {
    hide Expects, Held, NoEntryTwice, Signed, Balance, HasEntry;
    assert forall e :: HasEntry(ledger + [row], e) <==> Expects(q, e);
  }

  lemma CapturedOk(d: Deal, key: PaymentKey, at: Time)
    requires DealOk(d, at) && d.trade.status.Accepted? && d.payment.Some? && d.payment.value.status.Ready?
    ensures DealOk(CapturedDeal(d, key, at), at)
    ensures !HasEntry(d.ledger, EscrowCapture) && d.payment.value.key.None?
  {
    hide HistoryReplays, HasRow, HasReason, HasEntry, NoEntryTwice;
    EntryKeepsLedger(d.payment.value, CapturedDeal(d, key, at).payment.value, d.ledger,
                     LedgerRow(EscrowCapture, d.payment.value.amount, SandboxApproved));
    hide LedgerExact;
  }

  lemma VoidedOk(d: Deal, actor: UserId, text: string, at: Time)
    requires DealOk(d, at) && d.payment.Some? && d.payment.value.status.Approved? && d.trade.status.Accepted?
    ensures DealOk(VoidedDeal(d, actor, text, at), at)
    ensures !HasEntry(d.ledger, Cancellation)
  {
    var after := VoidedDeal(d, actor, text, at);
    assert TradeOk(after, at) by {
      hide MoneyOk;
      MovedHistory(d, after.trade, Some(actor), Stated(text), at);
      hide HistoryReplays, HasRow;
    }
    assert d.payment.value.approvedAt.Some?;
    hide TradeOk, HasReason, HasEntry, NoEntryTwice;
    EntryKeepsLedger(d.payment.value, after.payment.value, d.ledger,
                     LedgerRow(Cancellation, 0 - d.payment.value.amount, Stated(text)));
    hide LedgerExact;
  }

  lemma RefundedTrade(d: Deal, actor: UserId, text: string, at: Time)
    requires TradeOk(d, at) && d.payment.Some? && d.payment.value.status.Approved?
    requires d.trade.status.Confirmed? || d.trade.status.Disputed?
    ensures TradeOk(RefundedDeal(d, actor, text, at), at)
  {
    hide HistoryReplays, TradeTimely;
    if !d.trade.status.Disputed? {
      DisputedTrade(d, RefundedDeal(d, actor, text, at).payment, actor, Stated(text), at);
    }
  }

  lemma RefundedMoney(d: Deal, actor: UserId, text: string, at: Time)
    requires MoneyOk(d, at) && d.payment.Some? && d.payment.value.status.Approved?
    requires d.payment.value.approvedAt.Some?
    requires d.trade.status.Confirmed? || d.trade.status.Disputed?
    ensures MoneyOk(RefundedDeal(d, actor, text, at), at)
    ensures !HasEntry(d.ledger, Refund)
  {
    hide HasReason, HasEntry, NoEntryTwice;
    EntryKeepsLedger(d.payment.value, RefundedDeal(d, actor, text, at).payment.value, d.ledger,
                     LedgerRow(Refund, 0 - d.payment.value.amount, Stated(text)));
    hide LedgerExact;
  }

  lemma RefundedOk(d: Deal, actor: UserId, text: string, at: Time)
    requires DealOk(d, at) && d.payment.Some? && d.payment.value.status.Approved?
    requires d.trade.status.Confirmed? || d.trade.status.Disputed?
    ensures DealOk(RefundedDeal(d, actor, text, at), at)
    ensures !HasEntry(d.ledger, Refund)
  {
    assert d.payment.value.approvedAt.Some?;
    hide TradeOk, MoneyOk, RefundedDeal;
    RefundedTrade(d, actor, text, at);
    RefundedMoney(d, actor, text, at);
  }

  lemma CheckedOk(d: Deal, failure: Failure, at: Time)
    requires DealOk(d, at) && d.payment.Some?
    ensures DealOk(d.(payment := Some(d.payment.value.(failure := failure, checkedAt := Some(at)))), at)
  {
    hide HistoryReplays, HasRow, HasReason, HasEntry;
  }

  lemma MarkedReadyOk(d: Deal, now: Time, at: Time)
    requires DealOk(d, at) && HoldExpired(d, now) && now <= at
    ensures DealOk(MarkedReadyDeal(d), at)
  {
    hide HistoryReplays, HasRow, HasReason, HasEntry;
  }

  lemma ClaimedOk(d: Deal, now: Time, at: Time)
    requires DealOk(d, at) && Claimable(d)
    ensures DealOk(ClaimedDeal(d, now), at)
  {
    hide HistoryReplays, HasRow, HasReason, HasEntry;
  }

  lemma PaidOutOk(d: Deal, i: nat, at: Time)
    requires DealOk(d, at) && d.payment.Some? && i < |d.claims|
    ensures DealOk(PaidOutDeal(d, i), at)
  {
    hide HistoryReplays, HasRow, HasReason, HasEntry;
  }

  lemma SettledOk(d: Deal, i: nat, sandbox: bool, at: Time)
    requires DealOk(d, at) && d.payment.Some? && i < |d.claims| && d.claims[i].paid != sandbox
    ensures DealOk(SettledDeal(d, i, sandbox), at)
    ensures !HasEntry(d.ledger, Settlement)
  {
    hide HistoryReplays, HasRow, HasReason, HasEntry, NoEntryTwice;
    EntryKeepsLedger(d.payment.value, SettledDeal(d, i, sandbox).payment.value, d.ledger,
                     LedgerRow(Settlement, 0 - d.payment.value.amount,
                               if sandbox then SandboxSettlementReleased else PayoutProviderConfirmed));
    hide LedgerExact;
  }

  lemma FailedOk(d: Deal, i: nat, at: Time)
    requires DealOk(d, at) && d.payment.Some? && i < |d.claims|
    ensures DealOk(FailedDeal(d, i), at)
  {
    hide HistoryReplays, HasRow, HasReason, HasEntry;
  }

  lemma CrashedOk(d: Deal, i: nat, at: Time)
    requires DealOk(d, at) && d.payment.Some? && i < |d.claims|
    ensures DealOk(CrashedDeal(d, i), at)
  {
    hide HistoryReplays, HasRow, HasReason, HasEntry;
  }
}

/** The settlement loop of the worker as it is written: mark ready, query, claim, pay out, record. */
module SettlementLoop {
  import opened Rows
  import opened Deals
  import opened Market
  import opened Services
  import opened SettlementBatch

  // How a payout request ended for the worker that made it.
  datatype PayoutMode = SandboxMode | ProviderMode | PayoutError

  method MarkReady(db: Database, now: Time)
    modifies db`deals
    ensures db.View() == AfterMarkReady(old(db.View()), now).state
    ensures db.deals.Keys == old(db.deals).Keys
    ensures forall t :: t in db.deals ==>
              var d := old(db.deals)[t];
              db.deals[t] == if d.payment.Some? && d.payment.value.status.Approved? && d.payment.value.settlement.Hold?
                                && d.payment.value.availableAt.Some? && d.payment.value.availableAt.value <= now
                                && d.trade.status.Confirmed?
                             then d.(payment := Some(d.payment.value.(settlement := SettlementStatus.Ready))) else d
  {
    var expired := set t | t in db.deals && HoldExpired(db.deals[t], now);
    db.deals := map t | t in db.deals ::
      if t in expired then db.deals[t].(payment := Some(db.deals[t].payment.value.(settlement := SettlementStatus.Ready)))
      else db.deals[t];
  }

  ghost predicate Earliest(deals: map<TradeId, Deal>, ts: set<TradeId>, t: TradeId) {
    t in ts && forall u :: u in ts ==> NoLater(AvailableAt(deals, t), AvailableAt(deals, u))
  }

  lemma {:induction false} EarliestExists(deals: map<TradeId, Deal>, ts: set<TradeId>) returns (first: TradeId)
    requires ts != {}
    ensures Earliest(deals, ts, first)
    decreases |ts|
  {
    hide AvailableAt;
    var t :| t in ts;
    var rest := ts - {t};
    assert forall u :: u in ts ==> u == t || u in rest;
    if rest == {} {
      first := t;
    } else {
      var e := EarliestExists(deals, rest);
      first := if NoLater(AvailableAt(deals, e), AvailableAt(deals, t)) then e else t;
    }
  }

  // The due query: earliest first, at most fifty.
  method FindDue(db: Database) returns (due: seq<TradeId>)
    ensures DueBatch(db.deals, due)
  {
    var rest := set t | t in db.deals && DueForSettlement(db.deals[t]);
    ghost var all := rest;
    due := [];
    hide AvailableAt, DueForSettlement;
    while rest != {} && |due| < BATCH_SIZE
      invariant NoneTwice(due) && |due| <= BATCH_SIZE && rest <= all
      invariant forall t :: t in all <==> t in due || t in rest
      invariant forall t :: t in due ==> t !in rest
      invariant forall i, j :: 0 <= i < j < |due| ==> NoLater(AvailableAt(db.deals, due[i]), AvailableAt(db.deals, due[j]))
      invariant forall t, u :: t in due && u in rest ==> NoLater(AvailableAt(db.deals, t), AvailableAt(db.deals, u))
      decreases |rest|
    {
      ghost var first := EarliestExists(db.deals, rest);
      var t :| t in rest && forall u :: u in rest ==> NoLater(AvailableAt(db.deals, t), AvailableAt(db.deals, u));
      due := due + [t];
      rest := rest - {t};
    }
  }

  // The conditional claim, which checks the settlement status alone.
  method ClaimSettlement(db: Database, t: TradeId, now: Time) returns (claimed: bool)
    modifies db`deals
    ensures Result(db.View(), Counted(claimed)) == AfterClaim(old(db.View()), t, now)
  {
    if t !in db.deals || db.deals[t].payment.None? {
      return false;
    }
    var payment := db.deals[t].payment.value;
    if !payment.settlement.Ready? && !payment.settlement.Failed? {
      return false;
    }
    db.UpdatePayment(t, payment.(settlement := SettlementStatus.Processing, failure := NoFailure));
    db.deals := db.deals[t := db.deals[t].(claims := db.deals[t].claims + [Claim(now, false)])];
    claimed := true;
  }

  // The payout request; the provider transfers on the first request it sees under the payment's key.
  method RequestPayout(db: Database, t: TradeId, claim: nat, attempt: Attempt) returns (mode: PayoutMode)
    requires InFlight(db.View(), t, claim) && !db.deals[t].claims[claim].paid
    modifies db`deals
    ensures db.View() == if attempt.ProviderPays? || attempt.ProviderPaysThenFails?
                         then AfterPayout(old(db.View()), t, claim).state else old(db.View())
    ensures mode == match attempt
                    case SandboxRelease => SandboxMode
                    case ProviderPays => ProviderMode
                    case _ => PayoutError
  {
    if attempt.SandboxRelease? {
      return SandboxMode;
    }
    if attempt.ProviderFails? {
      return PayoutError;
    }
    var d := db.deals[t];
    if d.transfers == [] {
      db.deals := db.deals[t := db.deals[t].(transfers := [d.payment.value.amount])];
    }
    db.deals := db.deals[t := db.deals[t].(claims := d.claims[claim := d.claims[claim].(paid := true)])];
    mode := if attempt.ProviderPays? then ProviderMode else PayoutError;
  }

  method RecordFailure(db: Database, t: TradeId, claim: nat)
    requires InFlight(db.View(), t, claim)
    modifies db`deals
    ensures db.View() == AfterFail(old(db.View()), t, claim).state
  {
    db.UpdatePayment(t, db.deals[t].payment.value.(settlement := SettlementStatus.Failed, failure := PayoutFailed));
    db.deals := db.deals[t := db.deals[t].(claims := Without(db.deals[t].claims, claim))];
  }

  // The settlement transaction; a settlement row that exists makes it fail.
  method RecordSettlement(db: Database, t: TradeId, claim: nat, sandbox: bool) returns (settled: bool)
    requires InFlight(db.View(), t, claim) && db.deals[t].claims[claim].paid != sandbox
    modifies db`deals
    ensures Result(db.View(), Counted(settled)) == AfterFinish(old(db.View()), t, claim, sandbox)
  {
    if HasEntry(db.deals[t].ledger, Settlement) {
      RecordFailure(db, t, claim);
      return false;
    }
    hide HasEntry;
    var payment, now := db.deals[t].payment.value, db.deals[t].claims[claim].now;
    db.AddLedger(t, Settlement, 0 - payment.amount, if sandbox then SandboxSettlementReleased else PayoutProviderConfirmed);
    db.UpdatePayment(t, payment.(settlement := if sandbox then SandboxSettled else SettlementStatus.Settled,
                                 settledAt := Some(now)));
    db.deals := db.deals[t := db.deals[t].(claims := Without(db.deals[t].claims, claim))];
    settled := true;
  }

  method SettleOne(db: Database, t: TradeId, now: Time, attempt: Attempt) returns (settled: bool)
    modifies db`deals
    ensures Result(db.View(), Counted(settled)) == AfterSettleOne(old(db.View()), t, now, attempt)
  {
    var claimed := ClaimSettlement(db, t, now);
    if !claimed {
      return false;
    }
    var claim := |db.deals[t].claims| - 1;
    var mode := RequestPayout(db, t, claim, attempt);
    hide AfterFinish, AfterFail;
    if mode.PayoutError? {
      RecordFailure(db, t, claim);
      return false;
    }
    settled := RecordSettlement(db, t, claim, mode.SandboxMode?);
  }

  method SettleInTurn(db: Database, due: seq<TradeId>, now: Time, attempt: TradeId -> Attempt) returns (settled: nat)
    modifies db`deals
    ensures (db.View(), settled) == SettleAll(old(db.View()), due, now, attempt)
  {
    hide AfterSettleOne;
    ghost var s := db.View();
    settled := 0;
    for i := 0 to |due|
      invariant (db.View(), settled) == SettleAll(s, due[..i], now, attempt)
    {
      var one := SettleOne(db, due[i], now, attempt(due[i]));
      if one {
        settled := settled + 1;
      }
      assert due[..i + 1][..i] == due[..i];
    }
    assert due[..|due|] == due;
  }

  method ProcessDueSettlements(db: Database, now: Time, attempt: TradeId -> Attempt)
    returns (candidates: nat, settled: nat, ghost due: seq<TradeId>)
    modifies db`deals
    ensures var ready := AfterMarkReady(old(db.View()), now).state;
            && DueBatch(ready.deals, due) && candidates == |due|
            && (db.View(), settled) == SettleAll(ready, due, now, attempt)
    ensures candidates <= 50 && forall t :: t in due ==> t in old(db.deals) && Owed(old(db.deals)[t], now)
    ensures candidates < 50 ==> forall t :: t in old(db.deals) && Owed(old(db.deals)[t], now) ==> t in due
  {
    hide AfterMarkReady, SettleAll, DueBatch, Owed;
    ghost var s := db.View();
    MarkReady(db, now);
    var list := FindDue(db);
    settled := SettleInTurn(db, list, now, attempt);
    candidates, due := |list|, list;
    PassTakesAllOwed(s, now, due);
  }
}

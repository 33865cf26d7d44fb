/** The two deadline loops of the worker as they are written, one transaction per trade. */
module TradeMaintenance {
  import opened Rows
  import opened Deals
  import opened Market
  import opened Services
  import opened Maintenance

  ghost function AllDue(s: State, now: Time): set<TradeId> {
    set t | t in s.deals && ConfirmDue(s, t, now)
  }

  ghost function AllExpired(s: State, now: Time): set<TradeId> {
    set t | t in s.deals && ExpireDue(s, t, now)
  }

  lemma MoveOver(all: set<TradeId>, due: set<TradeId>, t: TradeId)
    requires due <= all && t in due
    ensures t !in all - due && all - (due - {t}) == (all - due) + {t} && |all - (due - {t})| == |all - due| + 1
  {
    assert all - (due - {t}) == (all - due) + {t};
  }

  // ---------- Confirmation by the deadline ----------

  method FindDeliveredDue(db: Database, now: Time) returns (due: set<TradeId>)
    ensures due == AllDue(db.View(), now)
  {
    due := set t | t in db.deals && db.deals[t].trade.status.Delivered? && db.deals[t].trade.autoConfirmAt.Some?
                   && db.deals[t].trade.autoConfirmAt.value <= now;
  }

  lemma IsDue(s: State, now: Time, t: TradeId)
    requires t in AllDue(s, now)
    ensures ConfirmDue(s, t, now)
  {
  }

  lemma NoneLeftToConfirm(s: State, now: Time)
    ensures forall t :: !ConfirmDue(Swept(s, AllDue(s, now), {}, now, now), t, now)
  {
    hide CancelledDeal, Sells, Frees, SweptProduct;
  }

  method ConfirmDueTrades(db: Database, now: Time) returns (confirmed: nat)
    modifies db`products, db`deals
    ensures var s, due := old(db.View()), AllDue(old(db.View()), now);
            db.View() == Swept(s, due, {}, now, now) && confirmed == |due|
    ensures forall t :: !ConfirmDue(db.View(), t, now)
  {
    hide Swept, ConfirmDue, AfterAutoConfirm, AllDue;
    ghost var s, all := db.View(), AllDue(db.View(), now);
    var due := FindDeliveredDue(db, now);
    assert all - all == {};
    confirmed := 0;
    NothingSwept(s, now, now);
    while due != {}
      invariant due <= all && db.View() == Swept(s, all - due, {}, now, now) && confirmed == |all - due|
      decreases |due|
    {
      var t :| t in due;
      IsDue(s, now, t);
      ConfirmSweeps(s, all - due, {}, now, now, t);
      var changed := db.AutoConfirm(t, now);
      if changed {
        confirmed := confirmed + 1;
      }
      MoveOver(all, due, t);
      due := due - {t};
    }
    assert all - {} == all;
    NoneLeftToConfirm(s, now);
  }

  // ---------- Cancellation of unpaid trades ----------

  method FindExpired(db: Database, now: Time) returns (due: set<TradeId>)
    ensures due == AllExpired(db.View(), now)
  {
    due := set t | t in db.deals && db.deals[t].trade.status.Accepted? && db.deals[t].payment.None?
                   && db.deals[t].trade.updatedAt + UNPAID_ACCEPTANCE_TIMEOUT_MS <= now;
  }

  lemma IsExpired(s: State, now: Time, t: TradeId)
    requires t in AllExpired(s, now)
    ensures ExpireDue(s, t, now)
  {
  }

  lemma NoneLeftToExpire(s: State, now: Time)
    ensures forall t :: !ExpireDue(Swept(s, {}, AllExpired(s, now), now, now), t, now)
  {
    hide ConfirmedDeal, Sells, Frees, SweptProduct;
  }

  method CancelExpiredUnpaidTrades(db: Database, now: Time) returns (cancelled: nat)
    modifies db`products, db`deals
    ensures var s, due := old(db.View()), AllExpired(old(db.View()), now);
            db.View() == Swept(s, {}, due, now, now) && cancelled == |due|
    ensures forall t :: !ExpireDue(db.View(), t, now)
  {
    hide Swept, ExpireDue, AfterExpireUnpaid, AllExpired;
    ghost var s, all := db.View(), AllExpired(db.View(), now);
    var due := FindExpired(db, now);
    assert all - all == {};
    cancelled := 0;
    NothingSwept(s, now, now);
    while due != {}
      invariant due <= all && db.View() == Swept(s, {}, all - due, now, now) && cancelled == |all - due|
      decreases |due|
    {
      var t :| t in due;
      IsExpired(s, now, t);
      ExpireSweeps(s, {}, all - due, now, now, t);
      var changed := db.ExpireUnpaid(t, now);
      if changed {
        cancelled := cancelled + 1;
      }
      MoveOver(all, due, t);
      due := due - {t};
    }
    assert all - {} == all;
    NoneLeftToExpire(s, now);
  }
}

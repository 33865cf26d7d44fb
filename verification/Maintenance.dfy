/** The two deadline loops the worker starts together. Their per-trade transactions may interleave in
    any way and repeat: the outcome is always the one closed form below. */
module Maintenance {
  import opened Rows
  import opened Deals
  import opened Market

  // One transaction of either loop; each loop keeps the time it started with.
  predicate Sweeping(step: Step, confirmNow: Time, expireNow: Time) {
    || (step.AutoConfirm? && step.now == confirmNow)
    || (step.ExpireUnpaid? && step.now == expireNow)
  }

  ghost predicate AllSweeping(steps: seq<Step>, confirmNow: Time, expireNow: Time) {
    forall i :: 0 <= i < |steps| ==> Sweeping(steps[i], confirmNow, expireNow)
  }

  function Confirmees(steps: seq<Step>): set<TradeId> {
    set i | 0 <= i < |steps| && steps[i].AutoConfirm? :: steps[i].trade
  }

  function Expirees(steps: seq<Step>): set<TradeId> {
    set i | 0 <= i < |steps| && steps[i].ExpireUnpaid? :: steps[i].trade
  }

  predicate ConfirmDue(s: State, t: TradeId, now: Time) {
    t in s.deals && AutoConfirmDue(s.deals[t], now)
  }

  predicate ExpireDue(s: State, t: TradeId, now: Time) {
    t in s.deals && UnpaidExpired(s.deals[t], now)
  }

  ghost predicate Sells(s: State, confirm: set<TradeId>, now: Time, p: ProductId) {
    exists t :: t in confirm && ConfirmDue(s, t, now) && s.deals[t].trade.product == p
  }

  ghost predicate Frees(s: State, expire: set<TradeId>, now: Time, p: ProductId) {
    exists t :: t in expire && ExpireDue(s, t, now) && s.deals[t].trade.product == p
  }

  ghost function SweptProduct(s: State, confirm: set<TradeId>, expire: set<TradeId>, confirmNow: Time, expireNow: Time,
                              p: ProductId): Product
    requires p in s.products
  {
    var row := s.products[p];
    if Sells(s, confirm, confirmNow, p) then row.(status := Sold)
    else if row.status.Reserved? && Frees(s, expire, expireNow, p) then row.(status := ProductStatus.Active)
    else row
  }

  function SweptDeal(s: State, confirm: set<TradeId>, expire: set<TradeId>, confirmNow: Time, expireNow: Time,
                     t: TradeId): Deal
    requires t in s.deals
  {
    var d := s.deals[t];
    if t in confirm && AutoConfirmDue(d, confirmNow) then
      ConfirmedDeal(d, None, confirmNow, AutoConfirmedAfter7Days, s.clock)
    else if t in expire && UnpaidExpired(d, expireNow) then
      CancelledDeal(d, None, expireNow, AutoCancelledUnpaidAfter7Days, s.clock)
    else d
  }

  // Every due trade of the first set confirmed and every expired trade of the second cancelled, at once.
  ghost function Swept(s: State, confirm: set<TradeId>, expire: set<TradeId>, confirmNow: Time, expireNow: Time): State {
    s.(deals := map t | t in s.deals :: SweptDeal(s, confirm, expire, confirmNow, expireNow, t),
       products := map p | p in s.products :: SweptProduct(s, confirm, expire, confirmNow, expireNow, p))
  }

  lemma NothingSwept(s: State, confirmNow: Time, expireNow: Time)
    ensures Swept(s, {}, {}, confirmNow, expireNow) == s
  {
    var swept := Swept(s, {}, {}, confirmNow, expireNow);
    assert swept.deals == s.deals;
    assert swept.products == s.products;
  }

  lemma ConfirmSweepsDeals(s: State, confirm: set<TradeId>, expire: set<TradeId>, confirmNow: Time, expireNow: Time,
                           t: TradeId)
    ensures var result := AfterAutoConfirm(Swept(s, confirm, expire, confirmNow, expireNow), t, confirmNow);
            && result.state.deals == Swept(s, confirm + {t}, expire, confirmNow, expireNow).deals
            && result.outcome == Counted(ConfirmDue(s, t, confirmNow) && t !in confirm)
            && (t in s.deals ==>
                  SweptDeal(s, confirm, expire, confirmNow, expireNow, t).trade.product == s.deals[t].trade.product)
  {
    hide SweptProduct, ProductSetTo;
    assert AfterAutoConfirm(Swept(s, confirm, expire, confirmNow, expireNow), t, confirmNow).state.deals
        == Swept(s, confirm + {t}, expire, confirmNow, expireNow).deals;
  }

  lemma ConfirmSweepsProduct(s: State, confirm: set<TradeId>, expire: set<TradeId>, confirmNow: Time, expireNow: Time,
                             t: TradeId, p: ProductId)
    requires p in s.products
    ensures SweptProduct(s, confirm + {t}, expire, confirmNow, expireNow, p)
         == if ConfirmDue(s, t, confirmNow) && t !in confirm && s.deals[t].trade.product == p
            then SweptProduct(s, confirm, expire, confirmNow, expireNow, p).(status := Sold)
            else SweptProduct(s, confirm, expire, confirmNow, expireNow, p)
  {
    hide AutoConfirmDue;
    assert Sells(s, confirm + {t}, confirmNow, p) <==>
      (Sells(s, confirm, confirmNow, p) || (ConfirmDue(s, t, confirmNow) && s.deals[t].trade.product == p));
    assert t in confirm && ConfirmDue(s, t, confirmNow) && s.deals[t].trade.product == p ==> Sells(s, confirm, confirmNow, p);
    hide Sells, Frees;
  }

  lemma ConfirmSweeps(s: State, confirm: set<TradeId>, expire: set<TradeId>, confirmNow: Time, expireNow: Time, t: TradeId)
    ensures AfterAutoConfirm(Swept(s, confirm, expire, confirmNow, expireNow), t, confirmNow)
         == Result(Swept(s, confirm + {t}, expire, confirmNow, expireNow),
                   Counted(ConfirmDue(s, t, confirmNow) && t !in confirm))
  {
    var after := AfterAutoConfirm(Swept(s, confirm, expire, confirmNow, expireNow), t, confirmNow).state;
    var goal := Swept(s, confirm + {t}, expire, confirmNow, expireNow);
    ConfirmSweepsDeals(s, confirm, expire, confirmNow, expireNow, t);
    hide ConfirmedDeal, CancelledDeal, SweptProduct, SweptDeal, AutoConfirmDue;
    forall p | p in s.products {
      ConfirmSweepsProduct(s, confirm, expire, confirmNow, expireNow, t, p);
    }
    assert after.products == goal.products;
  }

  lemma ExpireSweepsDeals(s: State, confirm: set<TradeId>, expire: set<TradeId>, confirmNow: Time, expireNow: Time,
                          t: TradeId)
    ensures var result := AfterExpireUnpaid(Swept(s, confirm, expire, confirmNow, expireNow), t, expireNow);
            && result.state.deals == Swept(s, confirm, expire + {t}, confirmNow, expireNow).deals
            && result.outcome == Counted(ExpireDue(s, t, expireNow) && t !in expire)
  {
    hide SweptProduct, ProductReleased;
    assert AfterExpireUnpaid(Swept(s, confirm, expire, confirmNow, expireNow), t, expireNow).state.deals
        == Swept(s, confirm, expire + {t}, confirmNow, expireNow).deals;
  }

  lemma ExpireSweeps(s: State, confirm: set<TradeId>, expire: set<TradeId>, confirmNow: Time, expireNow: Time, t: TradeId)
    ensures AfterExpireUnpaid(Swept(s, confirm, expire, confirmNow, expireNow), t, expireNow)
         == Result(Swept(s, confirm, expire + {t}, confirmNow, expireNow),
                   Counted(ExpireDue(s, t, expireNow) && t !in expire))
  {
    var after := AfterExpireUnpaid(Swept(s, confirm, expire, confirmNow, expireNow), t, expireNow).state;
    var goal := Swept(s, confirm, expire + {t}, confirmNow, expireNow);
    ExpireSweepsDeals(s, confirm, expire, confirmNow, expireNow, t);
    assert forall p :: Frees(s, expire + {t}, expireNow, p) <==>
      (Frees(s, expire, expireNow, p) || (ExpireDue(s, t, expireNow) && s.deals[t].trade.product == p));
    hide ConfirmedDeal, CancelledDeal, Sells, Frees;
    assert after.products == goal.products;
  }

  lemma SweepStep(s: State, confirm: set<TradeId>, expire: set<TradeId>, confirmNow: Time, expireNow: Time, step: Step)
    requires Sweeping(step, confirmNow, expireNow) && confirmNow <= s.clock && expireNow <= s.clock
    ensures Next(Swept(s, confirm, expire, confirmNow, expireNow), step) ==
              if step.AutoConfirm? then
                Result(Swept(s, confirm + {step.trade}, expire, confirmNow, expireNow),
                       Counted(ConfirmDue(s, step.trade, confirmNow) && step.trade !in confirm))
              else
                Result(Swept(s, confirm, expire + {step.trade}, confirmNow, expireNow),
                       Counted(ExpireDue(s, step.trade, expireNow) && step.trade !in expire))
  {
    assert Swept(s, confirm, expire, confirmNow, expireNow).clock == s.clock;
    hide Swept, AfterAutoConfirm, AfterExpireUnpaid, ConfirmDue, ExpireDue;
    if step.AutoConfirm? {
      ConfirmSweeps(s, confirm, expire, confirmNow, expireNow, step.trade);
    } else {
      ExpireSweeps(s, confirm, expire, confirmNow, expireNow, step.trade);
    }
  }

  // How many transactions of each loop changed their trade.
  function ConfirmCount(s: State, steps: seq<Step>): nat
    decreases |steps|
  {
    if steps == [] then 0
    else
      (if steps[0].AutoConfirm? && Next(s, steps[0]).outcome == Counted(true) then 1 else 0)
      + ConfirmCount(Next(s, steps[0]).state, steps[1..])
  }

  function ExpireCount(s: State, steps: seq<Step>): nat
    decreases |steps|
  {
    if steps == [] then 0
    else
      (if steps[0].ExpireUnpaid? && Next(s, steps[0]).outcome == Counted(true) then 1 else 0)
      + ExpireCount(Next(s, steps[0]).state, steps[1..])
  }

  ghost function DueAmong(s: State, ts: set<TradeId>, now: Time): set<TradeId> {
    set t | t in ts && ConfirmDue(s, t, now)
  }

  ghost function ExpiredAmong(s: State, ts: set<TradeId>, now: Time): set<TradeId> {
    set t | t in ts && ExpireDue(s, t, now)
  }

  lemma OneMoreDue(s: State, ts: set<TradeId>, t: TradeId, now: Time)
    ensures |DueAmong(s, ts + {t}, now)| == |DueAmong(s, ts, now)| + (if ConfirmDue(s, t, now) && t !in ts then 1 else 0)
  {
    hide ConfirmDue;
    if ConfirmDue(s, t, now) && t !in ts {
      assert DueAmong(s, ts + {t}, now) == DueAmong(s, ts, now) + {t};
    } else {
      assert DueAmong(s, ts + {t}, now) == DueAmong(s, ts, now);
    }
  }

  lemma OneMoreExpired(s: State, ts: set<TradeId>, t: TradeId, now: Time)
    ensures |ExpiredAmong(s, ts + {t}, now)|
         == |ExpiredAmong(s, ts, now)| + (if ExpireDue(s, t, now) && t !in ts then 1 else 0)
  {
    hide ExpireDue;
    if ExpireDue(s, t, now) && t !in ts {
      assert ExpiredAmong(s, ts + {t}, now) == ExpiredAmong(s, ts, now) + {t};
    } else {
      assert ExpiredAmong(s, ts + {t}, now) == ExpiredAmong(s, ts, now);
    }
  }

  // The rest of a run of sweeps, from a state part of the way.
  lemma {:induction false} SweepOn(s: State, confirm: set<TradeId>, expire: set<TradeId>, confirmNow: Time,
                                   expireNow: Time, steps: seq<Step>)
    requires AllSweeping(steps, confirmNow, expireNow) && confirmNow <= s.clock && expireNow <= s.clock
    ensures var part := Swept(s, confirm, expire, confirmNow, expireNow);
            var confirm', expire' := confirm + Confirmees(steps), expire + Expirees(steps);
            && Run(part, steps) == Swept(s, confirm', expire', confirmNow, expireNow)
            && |DueAmong(s, confirm, confirmNow)| + ConfirmCount(part, steps) == |DueAmong(s, confirm', confirmNow)|
            && |ExpiredAmong(s, expire, expireNow)| + ExpireCount(part, steps) == |ExpiredAmong(s, expire', expireNow)|
    decreases |steps|
  {
    if steps == [] {
      assert confirm + Confirmees([]) == confirm && expire + Expirees([]) == expire;
    } else {
      var step, rest := steps[0], steps[1..];
      var confirm', expire' := SweepRest(confirm, expire, confirmNow, expireNow, steps);
      hide Swept, Next, Confirmees, Expirees, ConfirmDue, ExpireDue, AllSweeping, DueAmong, ExpiredAmong;
      SweepStep(s, confirm, expire, confirmNow, expireNow, step);
      OneMoreDue(s, confirm, step.trade, confirmNow);
      OneMoreExpired(s, expire, step.trade, expireNow);
      SweepOn(s, confirm', expire', confirmNow, expireNow, rest);
    }
  }

  lemma SweepRest(confirm: set<TradeId>, expire: set<TradeId>, confirmNow: Time, expireNow: Time, steps: seq<Step>)
    returns (confirm': set<TradeId>, expire': set<TradeId>)
    requires steps != [] && AllSweeping(steps, confirmNow, expireNow)
    ensures Sweeping(steps[0], confirmNow, expireNow) && AllSweeping(steps[1..], confirmNow, expireNow)
    ensures confirm' == (if steps[0].AutoConfirm? then confirm + {steps[0].trade} else confirm)
    ensures expire' == (if steps[0].AutoConfirm? then expire else expire + {steps[0].trade})
    ensures confirm' + Confirmees(steps[1..]) == confirm + Confirmees(steps)
    ensures expire' + Expirees(steps[1..]) == expire + Expirees(steps)
  {
    confirm' := if steps[0].AutoConfirm? then confirm + {steps[0].trade} else confirm;
    expire' := if steps[0].AutoConfirm? then expire else expire + {steps[0].trade};
    assert Sweeping(steps[0], confirmNow, expireNow);
    FirstAndRest(steps);
    hide Confirmees, Expirees;
  }

  lemma FirstAndRest(steps: seq<Step>)
    requires steps != [] && (steps[0].AutoConfirm? || steps[0].ExpireUnpaid?)
    ensures Confirmees(steps) == (if steps[0].AutoConfirm? then {steps[0].trade} else {}) + Confirmees(steps[1..])
    ensures Expirees(steps) == (if steps[0].ExpireUnpaid? then {steps[0].trade} else {}) + Expirees(steps[1..])
  {
    var rest := steps[1..];
    forall i | 0 <= i < |steps| ensures i == 0 || steps[i] == rest[i - 1] {
    }
    forall i | 0 <= i < |rest| ensures rest[i] == steps[i + 1] {
    }
    assert forall t :: t in Confirmees(steps) ==>
      t in (if steps[0].AutoConfirm? then {steps[0].trade} else {}) + Confirmees(rest);
    assert forall t :: t in Expirees(steps) ==>
      t in (if steps[0].ExpireUnpaid? then {steps[0].trade} else {}) + Expirees(rest);
  }

  // Any interleaving, any repetition: one final state, exact counts.
  lemma SweepsCommute(s: State, steps: seq<Step>, confirmNow: Time, expireNow: Time)
    requires AllSweeping(steps, confirmNow, expireNow) && confirmNow <= s.clock && expireNow <= s.clock
    ensures Run(s, steps) == Swept(s, Confirmees(steps), Expirees(steps), confirmNow, expireNow)
    ensures ConfirmCount(s, steps) == |DueAmong(s, Confirmees(steps), confirmNow)|
    ensures ExpireCount(s, steps) == |ExpiredAmong(s, Expirees(steps), expireNow)|
  {
    hide Swept, Run, Confirmees, Expirees, ConfirmDue, ExpireDue, AllSweeping, ConfirmCount, ExpireCount;
    NothingSwept(s, confirmNow, expireNow);
    SweepOn(s, {}, {}, confirmNow, expireNow, steps);
    assert {} + Confirmees(steps) == Confirmees(steps) && {} + Expirees(steps) == Expirees(steps);
    assert DueAmong(s, {}, confirmNow) == {} && ExpiredAmong(s, {}, expireNow) == {};
  }

  // Once both loops have worked through lists that contain every due trade, none is left.
  lemma NoDueTradeRemains(s: State, steps: seq<Step>, confirmNow: Time, expireNow: Time)
    requires AllSweeping(steps, confirmNow, expireNow) && confirmNow <= s.clock && expireNow <= s.clock
    requires forall t :: ConfirmDue(s, t, confirmNow) ==> t in Confirmees(steps)
    requires forall t :: ExpireDue(s, t, expireNow) ==> t in Expirees(steps)
    ensures forall t :: !ConfirmDue(Run(s, steps), t, confirmNow) && !ExpireDue(Run(s, steps), t, expireNow)
  {
    hide Run, Confirmees, Expirees, AllSweeping;
    SweepsCommute(s, steps, confirmNow, expireNow);
  }
}

/** Retry bound and back-off of the outbox: ten attempts, doubling delays, then the dead letter; and how many
    attempts stale resets and administrator's retries can add. */
module BackOff {
  import opened Rows
  import opened Outbox

  // The step neither takes the event's claim away nor starts it over: a reset query may well come, if it
  // does not find this event stale.
  predicate Leaves(s: Store, step: Step, e: EventId) {
    && (step.ResetStale? && e in s.events ==> !Stale(s.events[e], s.clock))
    && step != AdminRetry(e)
  }

  predicate Undisturbed(s: Store, steps: seq<Step>, e: EventId)
    decreases |steps|
  {
    steps == [] || (Leaves(s, steps[0], e) && Undisturbed(Next(s, steps[0]), steps[1..], e))
  }

  function Last(times: seq<Time>): Time {
    if times == [] then 0 else times[|times| - 1]
  }

  // The claim after the i-th comes no earlier than two to the power of i seconds after it.
  ghost predicate Spaced(times: seq<Time>) {
    forall i :: 0 <= i < |times| - 1 ==> times[i] + 1000 * Pow2(i + 1) <= times[i + 1]
  }

  ghost predicate Paced(e: Event, clock: Time) {
    && e.attempts == |e.claimTimes| <= MAX_ATTEMPTS
    && Spaced(e.claimTimes) && Last(e.claimTimes) <= clock
    && (e.status.Pending? <==> e.attempts == 0)
    && (e.status.Failed? ==>
          e.attempts < MAX_ATTEMPTS && Last(e.claimTimes) + 1000 * Pow2(e.attempts) <= e.availableAt)
    && (e.status.DeadLetter? ==> e.attempts == MAX_ATTEMPTS)
  }

  // A worker still owns the claim it made.
  ghost predicate Owns(s: Store, k: WorkerId) {
    k in s.workers ==>
      && s.workers[k].event in s.events
      && s.events[s.workers[k].event].status.Processing?
      && s.workers[k].attempts == s.events[s.workers[k].event].attempts
  }

  // What is kept of one event and of the one worker on it.
  ghost predicate WellPaced(s: Store, e: EventId) {
    && (e in s.events ==> Paced(s.events[e], s.clock))
    && (forall k :: k in s.workers && s.workers[k].event == e ==> Owns(s, k))
    && (forall j, k :: j in s.workers && k in s.workers && s.workers[j].event == e && s.workers[k].event == e ==> j == k)
  }

  // Up to ten attempts the delay is exactly the power of two: the cap of an hour never applies.
  lemma CapNeverApplies(attempts: nat)
    ensures DelayMs(attempts) == 1000 * Pow2(if attempts <= 10 then attempts else 10)
    ensures DelayMs(attempts) <= 1000 * 1024
  {
    Pow2Grows(if attempts <= 10 then attempts else 10, 10);
    assert Pow2(10) == 1024 by {
      assert Pow2(5) == 32;
    }
  }

  lemma {:induction false} Pow2Grows(m: nat, n: nat)
    requires m <= n
    ensures 1 <= Pow2(m) <= Pow2(n)
    decreases n
  {
    if m < n {
      Pow2Grows(m, n - 1);
    } else if n > 0 {
      Pow2Grows(m - 1, n - 1);
    }
  }

  // ---------- What each change of an event row keeps ----------

  lemma ClaimPaced(e: Event, clock: Time)
    requires Paced(e, clock) && Available(e, clock)
    ensures Paced(ClaimedEvent(e, clock), clock)
  {
    var times := e.claimTimes + [clock];
    forall i | 0 <= i < |times| - 1 ensures times[i] + 1000 * Pow2(i + 1) <= times[i + 1] {
      if i == |e.claimTimes| - 1 {
        assert times[i] == Last(e.claimTimes) && i + 1 == e.attempts;
      } else {
        assert times[i] == e.claimTimes[i] && times[i + 1] == e.claimTimes[i + 1];
      }
    }
  }

  lemma FailPaced(e: Event, clock: Time)
    requires Paced(e, clock) && e.status.Processing?
    ensures Paced(FailedEvent(e, e.attempts, clock), clock)
  {
    CapNeverApplies(e.attempts);
    hide Spaced, Pow2, DelayMs;
  }

  lemma ClockMoves(e: Event, clock: Time, later: Time)
    requires Paced(e, clock) && clock <= later
    ensures Paced(e, later)
  {
    hide Spaced;
  }

  // ---------- Every step ----------

  // Neither the row of the event nor its worker's claim changes.
  ghost predicate Aside(s: Store, after: Store, e: EventId) {
    && s.clock <= after.clock
    && (e in s.events <==> e in after.events) && (e in s.events ==> after.events[e] == s.events[e])
    && (forall k :: k in after.workers && after.workers[k].event == e ==>
          && k in s.workers && s.workers[k].event == e && after.workers[k].attempts == s.workers[k].attempts)
  }

  lemma AsideWellPaced(s: Store, after: Store, e: EventId)
    requires WellPaced(s, e) && Aside(s, after, e)
    ensures WellPaced(after, e)
  {
    hide Paced;
    if e in s.events {
      ClockMoves(s.events[e], s.clock, after.clock);
    }
    forall k | k in after.workers && after.workers[k].event == e ensures Owns(after, k) {
      assert Owns(s, k);
    }
  }

  // The steps that write the event: its arrival, and the claim, completion or failure of its worker.
  predicate Writes(s: Store, step: Step, e: EventId) {
    match step
    case Receive(_, _, _, _, f) => f == e
    case Claim(_, f) => f == e
    case Complete(k) => k in s.workers && s.workers[k].event == e
    case Fail(k) => k in s.workers && s.workers[k].event == e
    case _ => false
  }

  lemma HandlingStandsAside(s: Store, step: Step, e: EventId)
    requires step.Read? || step.Lookup? || step.Finish? || step.Commit?
    ensures Aside(s, Next(s, step), e)
  {
    hide AfterReceive, AfterClaim, AfterComplete, AfterFail;
  }

  lemma OthersStandAside(s: Store, step: Step, e: EventId)
    requires Leaves(s, step, e) && !Writes(s, step, e)
    ensures Aside(s, Next(s, step), e)
  {
    hide AfterRead, AfterLookup, AfterFinish, AfterCommit, DelayMs, Available, Stale;
    if step.Read? || step.Lookup? || step.Finish? || step.Commit? {
      HandlingStandsAside(s, step, e);
    } else if step.ResetStale? && e in s.events {
      assert Next(s, step).events[e] == ResetEvent(s.events[e], s.clock);
    }
  }

  lemma ReceiveWellPaced(s: Store, w: TransmissionId, valid: bool, payment: Option<PaymentId>, sequence: int, e: EventId)
    requires WellPaced(s, e)
    ensures WellPaced(AfterReceive(s, w, valid, payment, sequence, e), e)
  {
    var after := AfterReceive(s, w, valid, payment, sequence, e);
    if e in s.events || e !in after.events {
      hide WellPaced;
      AsideWellPaced(s, after, e);
    } else {
      assert Paced(after.events[e], s.clock);
      assert forall k :: k in s.workers && s.workers[k].event == e ==> Owns(s, k);
    }
  }

  lemma ClaimWellPaced(s: Store, k: WorkerId, e: EventId)
    requires WellPaced(s, e)
    ensures WellPaced(AfterClaim(s, k, e), e)
  {
    if AfterClaim(s, k, e) != s {
      ClaimPaced(s.events[e], s.clock);
      hide Paced;
      assert forall j :: j in s.workers && s.workers[j].event == e ==> Owns(s, j);
    }
  }

  lemma EndWellPaced(s: Store, k: WorkerId, e: EventId)
    requires WellPaced(s, e) && k in s.workers && s.workers[k].event == e
    ensures WellPaced(AfterComplete(s, k), e) && WellPaced(AfterFail(s, k), e)
  {
    assert Owns(s, k);
    FailPaced(s.events[e], s.clock);
    assert Paced(CompletedEvent(s.events[e]), s.clock) by { hide Spaced; }
    hide Paced, InPhase, FailedEvent, CompletedEvent;
    assert forall j :: j in s.workers && s.workers[j].event == e ==> j == k;
  }

  lemma NextWellPaced(s: Store, step: Step, e: EventId)
    requires WellPaced(s, e) && Leaves(s, step, e)
    ensures WellPaced(Next(s, step), e)
  {
    hide WellPaced, AfterReceive, AfterClaim, AfterComplete, AfterFail, Aside, Leaves;
    if Writes(s, step, e) {
      match step
      case Receive(w, valid, payment, sequence, _) => ReceiveWellPaced(s, w, valid, payment, sequence, e);
      case Claim(k, _) => ClaimWellPaced(s, k, e);
      case Complete(k) => EndWellPaced(s, k, e);
      case Fail(k) => EndWellPaced(s, k, e);
    } else {
      OthersStandAside(s, step, e);
      AsideWellPaced(s, Next(s, step), e);
    }
  }

  lemma {:induction false} RunWellPaced(s: Store, steps: seq<Step>, e: EventId)
    requires WellPaced(s, e) && Undisturbed(s, steps, e)
    ensures WellPaced(Run(s, steps), e)
    decreases |steps|
  {
    hide WellPaced, Next, Leaves;
    if steps != [] {
      NextWellPaced(s, steps[0], e);
      RunWellPaced(Next(s, steps[0]), steps[1..], e);
    }
  }

  lemma ReachedWellPaced(steps: seq<Step>, e: EventId)
    requires Undisturbed(NothingYet, steps, e)
    ensures WellPaced(Run(NothingYet, steps), e)
  {
    hide Run, Undisturbed;
    RunWellPaced(NothingYet, steps, e);
  }

  // ---------- Results for an event that keeps its claims ----------

  // From the first claim to the n-th at least 2^n - 2 seconds pass.
  lemma {:induction false} Span(times: seq<Time>)
    requires times != [] && Spaced(times)
    ensures times[0] + 1000 * (Pow2(|times|) - 2) <= Last(times)
    decreases |times|
  {
    if |times| > 1 {
      var before := times[..|times| - 1];
      assert forall i :: 0 <= i < |before| ==> before[i] == times[i];
      assert Spaced(before);
      Span(before);
      assert times[|times| - 2] + 1000 * Pow2(|times| - 1) <= times[|times| - 1];
      assert Pow2(|times|) == 2 * Pow2(|times| - 1);
    } else {
      assert Pow2(1) == 2;
    }
  }

  // While no reset finds the event stale and no administrator starts it over: never more than ten attempts;
  // a failed event waits for its delay and has some left; the dead letter comes exactly with the tenth, no
  // sooner than 1022 seconds after the first claim. What happens to other events does not matter.
  lemma RetriesAreBounded(steps: seq<Step>, e: EventId)
    requires Undisturbed(NothingYet, steps, e) && e in Run(NothingYet, steps).events
    ensures var s := Run(NothingYet, steps);
            var row := s.events[e];
            && row.attempts == |row.claimTimes| <= 10
            && (row.status.Failed? ==> row.attempts < 10)
            && (row.status.DeadLetter? ==> row.attempts == 10)
            && (row.attempts > 0 ==> row.claimTimes[0] + 1000 * (Pow2(row.attempts) - 2) <= Last(row.claimTimes) <= s.clock)
            && (row.status.DeadLetter? ==> row.claimTimes[0] + 1022 * 1000 <= s.clock)
  {
    hide Run, Undisturbed;
    ReachedWellPaced(steps, e);
    var row := Run(NothingYet, steps).events[e];
    assert Paced(row, Run(NothingYet, steps).clock);
    if row.attempts > 0 {
      Span(row.claimTimes);
      assert Pow2(10) == 1024 by {
        assert Pow2(5) == 32;
      }
    }
  }

  // Each failure doubles the wait, and the tenth is the last.
  lemma FailureIsTerminalAtTen(steps: seq<Step>, k: WorkerId)
    requires k in Run(NothingYet, steps).workers
    requires Undisturbed(NothingYet, steps, Run(NothingYet, steps).workers[k].event)
    ensures var s := Run(NothingYet, steps);
            var e := s.workers[k].event;
            && e in s.events && e in AfterFail(s, k).events
            && (AfterFail(s, k).events[e].status.DeadLetter? <==> s.events[e].attempts == 10)
            && AfterFail(s, k).events[e].availableAt == s.clock + 1000 * Pow2(s.events[e].attempts)
  {
    hide Run, Undisturbed, DelayMs, Pow2, Spaced;
    var s := Run(NothingYet, steps);
    ReachedWellPaced(steps, s.workers[k].event);
    assert Owns(s, k) && Paced(s.events[s.workers[k].event], s.clock);
    CapNeverApplies(s.workers[k].attempts);
  }

  // ---------- The bound with resets and retries ----------

  // Workers on the event whose failure would still make it available again.
  ghost function Open(s: Store, e: EventId): set<WorkerId> {
    set k | k in s.workers && s.workers[k].event == e && s.workers[k].attempts < MAX_ATTEMPTS
  }

  // Attempts beyond ten the event may have had: one for every reset that found it stale since its last
  // retry, and one for every worker that was still on it at that retry.
  ghost function GraceAfter(s: Store, step: Step, e: EventId, grace: nat): nat {
    if e !in s.events then grace
    else if step == AdminRetry(e) then |Open(s, e)|
    else if step.ResetStale? && Stale(s.events[e], s.clock) then grace + 1
    else grace
  }

  ghost function Grace(s: Store, steps: seq<Step>, e: EventId, grace: nat): nat
    decreases |steps|
  {
    if steps == [] then grace else Grace(Next(s, steps[0]), steps[1..], e, GraceAfter(s, steps[0], e, grace))
  }

  // Attempts made, the next one if the event is available, those that open workers can still release, and
  // those their successors can.
  ghost function Potential(row: Event, open: nat): nat {
    row.attempts + (if row.status.Pending? || row.status.Failed? then 1 else 0) + open
    + (if row.attempts < 9 then 9 - row.attempts else 0)
  }

  ghost predicate Within(s: Store, e: EventId, grace: nat) {
    && (forall k :: k in s.workers && s.workers[k].event == e ==> e in s.events)
    && (e in s.events ==> Potential(s.events[e], |Open(s, e)|) <= MAX_ATTEMPTS + grace)
  }

  lemma AsideWithin(s: Store, after: Store, e: EventId, grace: nat)
    requires Within(s, e, grace) && Aside(s, after, e)
    ensures Within(after, e, grace)
  {
    assert Open(after, e) <= Open(s, e);
    Smaller(Open(after, e), Open(s, e));
  }

  lemma Smaller(a: set<WorkerId>, b: set<WorkerId>)
    requires a <= b
    ensures |a| <= |b|
  {
    assert b == a + (b - a);
  }

  lemma ReceiveWithin(s: Store, w: TransmissionId, valid: bool, payment: Option<PaymentId>, sequence: int, e: EventId,
                      grace: nat)
    requires Within(s, e, grace)
    ensures Within(AfterReceive(s, w, valid, payment, sequence, e), e, grace)
  {
    var after := AfterReceive(s, w, valid, payment, sequence, e);
    if e in s.events || e !in after.events {
      hide Within;
      AsideWithin(s, after, e, grace);
    } else {
      assert Open(after, e) == {};
    }
  }

  lemma ClaimWithin(s: Store, k: WorkerId, e: EventId, grace: nat)
    requires Within(s, e, grace)
    ensures Within(AfterClaim(s, k, e), e, grace)
  {
    var after := AfterClaim(s, k, e);
    if after != s {
      assert Open(after, e) == if s.events[e].attempts + 1 < MAX_ATTEMPTS then Open(s, e) + {k} else Open(s, e);
      assert k !in Open(s, e);
    }
  }

  lemma EndWithin(s: Store, k: WorkerId, e: EventId, grace: nat)
    requires Within(s, e, grace) && k in s.workers && s.workers[k].event == e
    ensures Within(AfterComplete(s, k), e, grace) && Within(AfterFail(s, k), e, grace)
  {
    hide DelayMs, InPhase;
    assert Open(AfterFail(s, k), e) == Open(s, e) - {k};
    assert Open(AfterComplete(s, k), e) == if AfterComplete(s, k) == s then Open(s, e) else Open(s, e) - {k};
  }

  lemma RescueWithin(s: Store, step: Step, e: EventId, grace: nat)
    requires Within(s, e, grace) && (step.ResetStale? || step == AdminRetry(e))
    ensures Within(Next(s, step), e, GraceAfter(s, step, e, grace))
  {
    assert Open(Next(s, step), e) == Open(s, e);
    if step.ResetStale? && e in s.events {
      assert Next(s, step).events[e] == ResetEvent(s.events[e], s.clock);
    }
  }

  lemma NextWithin(s: Store, step: Step, e: EventId, grace: nat)
    requires Within(s, e, grace)
    ensures Within(Next(s, step), e, GraceAfter(s, step, e, grace))
  {
    hide Within, AfterReceive, AfterClaim, AfterComplete, AfterFail, Aside, Open, Stale;
    if Writes(s, step, e) {
      match step
      case Receive(w, valid, payment, sequence, _) => ReceiveWithin(s, w, valid, payment, sequence, e, grace);
      case Claim(k, _) => ClaimWithin(s, k, e, grace);
      case Complete(k) => EndWithin(s, k, e, grace);
      case Fail(k) => EndWithin(s, k, e, grace);
    } else if step.ResetStale? || step == AdminRetry(e) {
      RescueWithin(s, step, e, grace);
    } else {
      OthersStandAside(s, step, e);
      AsideWithin(s, Next(s, step), e, grace);
    }
  }

  lemma {:induction false} RunWithin(s: Store, steps: seq<Step>, e: EventId, grace: nat)
    requires Within(s, e, grace)
    ensures Within(Run(s, steps), e, Grace(s, steps, e, grace))
    decreases |steps|
  {
    hide Within, Next, GraceAfter;
    if steps != [] {
      NextWithin(s, steps[0], e, grace);
      RunWithin(Next(s, steps[0]), steps[1..], e, GraceAfter(s, steps[0], e, grace));
    }
  }

  // In every run whatever, with crashes, overtaken workers, resets and retries.
  lemma AttemptsAreBounded(steps: seq<Step>, e: EventId)
    requires e in Run(NothingYet, steps).events
    ensures Run(NothingYet, steps).events[e].attempts <= MAX_ATTEMPTS + Grace(NothingYet, steps, e, 0)
  {
    hide Run, Grace;
    assert Within(NothingYet, e, 0);
    RunWithin(NothingYet, steps, e, 0);
  }

  lemma {:induction false} GraceConcat(s: Store, xs: seq<Step>, ys: seq<Step>, e: EventId, grace: nat)
    ensures Grace(s, xs + ys, e, grace) == Grace(Run(s, xs), ys, e, Grace(s, xs, e, grace))
    decreases |xs|
  {
    hide Next, GraceAfter;
    if xs == [] {
      assert [] + ys == ys;
    } else {
      assert (xs + ys)[1..] == xs[1..] + ys;
      GraceConcat(Next(s, xs[0]), xs[1..], ys, e, GraceAfter(s, xs[0], e, grace));
    }
  }

  // ---------- The bound is reached ----------

  const EVENT: EventId := 0

  // n attempts that fail, each followed by its delay.
  function Failing(k: WorkerId, n: nat): seq<Step> {
    if n == 0 then [] else Failing(k, n - 1) + [Step.Claim(k, EVENT), Fail(k), Tick(DelayMs(n))]
  }

  ghost predicate Waiting(s: Store, n: nat, k: WorkerId) {
    && EVENT in s.events && Available(s.events[EVENT], s.clock) && s.events[EVENT].attempts == n && k !in s.workers
  }

  lemma RunThree(s: Store, a: Step, b: Step, c: Step)
    ensures Run(s, [a, b, c]) == Next(Next(Next(s, a), b), c)
  {
    hide Next;
    assert [a, b, c][1..] == [b, c] && [b, c][1..] == [c];
    RunOne(Next(Next(s, a), b), c);
  }

  lemma OneFails(s: Store, n: nat, k: WorkerId)
    requires Waiting(s, n, k) && n < 9
    ensures var after := Next(Next(Next(s, Step.Claim(k, EVENT)), Fail(k)), Tick(DelayMs(n + 1)));
            Waiting(after, n + 1, k) && after.workers == s.workers
  {
    hide DelayMs;
    assert Next(Next(s, Step.Claim(k, EVENT)), Fail(k)).workers == s.workers;
  }

  lemma {:induction false} FailingWaits(s: Store, k: WorkerId, n: nat)
    requires Waiting(s, 0, k) && n <= 9
    ensures Waiting(Run(s, Failing(k, n)), n, k) && Run(s, Failing(k, n)).workers == s.workers
    decreases n
  {
    hide Next, Waiting;
    if n > 0 {
      FailingWaits(s, k, n - 1);
      var before := Run(s, Failing(k, n - 1));
      RunConcat(s, Failing(k, n - 1), [Step.Claim(k, EVENT), Fail(k), Tick(DelayMs(n))]);
      RunThree(before, Step.Claim(k, EVENT), Fail(k), Tick(DelayMs(n)));
      hide Run;
      OneFails(before, n - 1, k);
    }
  }

  // Nine failures and a tenth claim, then r claims each taken away as stale and made again.
  function TenClaims(): seq<Step> {
    [Receive(0, true, None, 1, EVENT)] + Failing(0, 9) + [Step.Claim(0, EVENT)]
  }

  function Rounds(r: nat): seq<Step> {
    if r == 0 then [] else Rounds(r - 1) + [Tick(STALE_CLAIM_MS), ResetStale, Step.Claim(r, EVENT)]
  }

  ghost predicate Held(s: Store, n: nat, r: nat) {
    && EVENT in s.events && s.events[EVENT].status.Processing? && s.events[EVENT].attempts == n
    && s.events[EVENT].claimedAt == Some(s.clock) && forall k :: k in s.workers ==> k <= r
  }

  lemma TenClaimsHold()
    ensures Held(Run(NothingYet, TenClaims()), 10, 0)
  {
    var received := Next(NothingYet, Receive(0, true, None, 1, EVENT));
    var waiting := Run(received, Failing(0, 9));
    hide Run, Next, Failing;
    assert Waiting(received, 0, 0) && received.workers == map[] by { ReceivedWaits(); }
    FailingWaits(received, 0, 9);
    RunConcat(NothingYet, [Receive(0, true, None, 1, EVENT)] + Failing(0, 9), [Step.Claim(0, EVENT)]);
    RunConcat(NothingYet, [Receive(0, true, None, 1, EVENT)], Failing(0, 9));
    RunOne(NothingYet, Receive(0, true, None, 1, EVENT));
    RunOne(waiting, Step.Claim(0, EVENT));
    TenthClaim(waiting);
  }

  lemma ReceivedWaits()
    ensures var received := Next(NothingYet, Receive(0, true, None, 1, EVENT));
            Waiting(received, 0, 0) && received.workers == map[]
  {
  }

  lemma TenthClaim(s: Store)
    requires Waiting(s, 9, 0) && s.workers == map[]
    ensures Held(Next(s, Step.Claim(0, EVENT)), 10, 0)
  {
  }

  lemma OneRound(s: Store, n: nat, r: nat)
    requires Held(s, n, r)
    ensures var ticked := Next(s, Tick(STALE_CLAIM_MS));
            && EVENT in ticked.events && Stale(ticked.events[EVENT], ticked.clock)
            && Held(Next(Next(ticked, ResetStale), Step.Claim(r + 1, EVENT)), n + 1, r + 1)
  {
    var ticked := Next(s, Tick(STALE_CLAIM_MS));
    assert Next(ticked, ResetStale).events[EVENT] == ResetEvent(ticked.events[EVENT], ticked.clock);
  }

  lemma RoundGrace(s: Store, k: WorkerId, grace: nat)
    requires EVENT in Next(s, Tick(STALE_CLAIM_MS)).events
    requires Stale(Next(s, Tick(STALE_CLAIM_MS)).events[EVENT], Next(s, Tick(STALE_CLAIM_MS)).clock)
    ensures Grace(s, [Tick(STALE_CLAIM_MS), ResetStale, Step.Claim(k, EVENT)], EVENT, grace) == grace + 1
  {
    hide Next, Stale;
    var steps := [Tick(STALE_CLAIM_MS), ResetStale, Step.Claim(k, EVENT)];
    var ticked := Next(s, steps[0]);
    var reset := Next(ticked, steps[1]);
    assert steps[1..] == [ResetStale, Step.Claim(k, EVENT)] && [ResetStale, Step.Claim(k, EVENT)][1..] == [steps[2]];
    assert [steps[2]][1..] == [];
    assert Grace(reset, [steps[2]], EVENT, grace + 1) == grace + 1;
    assert Grace(ticked, [ResetStale, Step.Claim(k, EVENT)], EVENT, grace) == grace + 1;
  }

  lemma {:induction false} RoundsHold(s: Store, r: nat, grace: nat)
    requires Held(s, 10, 0)
    ensures Held(Run(s, Rounds(r)), 10 + r, r) && Grace(s, Rounds(r), EVENT, grace) == grace + r
    decreases r
  {
    hide Next, Held, GraceAfter, Stale;
    if r > 0 {
      RoundsHold(s, r - 1, grace);
      var before := Run(s, Rounds(r - 1));
      var round := [Tick(STALE_CLAIM_MS), ResetStale, Step.Claim(r, EVENT)];
      RunConcat(s, Rounds(r - 1), round);
      GraceConcat(s, Rounds(r - 1), round, EVENT, grace);
      RunThree(before, Tick(STALE_CLAIM_MS), ResetStale, Step.Claim(r, EVENT));
      OneRound(before, 10 + r - 1, r - 1);
      RoundGrace(before, r, grace + r - 1);
    }
  }

  predicate Rescues(step: Step) {
    step.ResetStale? || step.AdminRetry?
  }

  lemma {:induction false} NoGraceAdded(s: Store, steps: seq<Step>, e: EventId, grace: nat)
    requires forall i :: 0 <= i < |steps| ==> !Rescues(steps[i])
    ensures Grace(s, steps, e, grace) == grace
    decreases |steps|
  {
    hide Next, Stale, Open;
    if steps != [] {
      assert !Rescues(steps[0]);
      NoGraceAdded(Next(s, steps[0]), steps[1..], e, grace);
    }
  }

  lemma {:induction false} FailingRescuesNothing(k: WorkerId, n: nat)
    ensures forall i :: 0 <= i < |Failing(k, n)| ==> !Rescues(Failing(k, n)[i])
  {
    if n > 0 {
      FailingRescuesNothing(k, n - 1);
    }
  }

  lemma TenClaimsRescueNothing()
    ensures forall i :: 0 <= i < |TenClaims()| ==> !Rescues(TenClaims()[i])
  {
    hide Failing;
    FailingRescuesNothing(0, 9);
  }

  // Ten attempts and a stale claim are reached, and every reset that finds it stale adds one attempt: the
  // bound of AttemptsAreBounded is met exactly, for every number of resets.
  lemma ResetsAllowMoreAttempts(r: nat)
    ensures var steps := TenClaims() + Rounds(r);
            var s := Run(NothingYet, steps);
            && EVENT in s.events && s.events[EVENT].attempts == 10 + r == 10 + Grace(NothingYet, steps, EVENT, 0)
            && Stale(s.events[EVENT], Next(s, Tick(STALE_CLAIM_MS)).clock)
  {
    hide Run, TenClaims, Rounds, Grace, Rescues;
    TenClaimsHold();
    TenClaimsRescueNothing();
    NoGraceAdded(NothingYet, TenClaims(), EVENT, 0);
    RoundsHold(Run(NothingYet, TenClaims()), r, 0);
    RunConcat(NothingYet, TenClaims(), Rounds(r));
    GraceConcat(NothingYet, TenClaims(), Rounds(r), EVENT, 0);
  }

  // A retry while a worker is still on the event adds one too, without any reset.
  function Retry(): seq<Step> {
    [Receive(0, true, None, 1, EVENT), Step.Claim(0, EVENT), AdminRetry(EVENT)]
  }

  function LateFailure(): seq<Step> {
    [Step.Claim(1, EVENT), Fail(0), Tick(DelayMs(1))]
  }

  function RetriedInFlight(): seq<Step> {
    Retry() + Failing(1, 9) + LateFailure() + [Step.Claim(2, EVENT)]
  }

  lemma RunFour(s: Store, a: seq<Step>, b: seq<Step>, c: seq<Step>, d: Step)
    ensures Run(s, a + b + c + [d]) == Next(Run(Run(Run(s, a), b), c), d)
  {
    hide Run, Next;
    RunConcat(s, a + b + c, [d]);
    RunConcat(s, a + b, c);
    RunConcat(s, a, b);
    RunOne(Run(s, a + b + c), d);
  }

  lemma NoReset()
    ensures forall i :: 0 <= i < |RetriedInFlight()| ==> !RetriedInFlight()[i].ResetStale?
  {
    hide Failing, DelayMs;
    FailingRescuesNothing(1, 9);
    assert forall i :: 0 <= i < |Failing(1, 9)| ==> !Rescues(Failing(1, 9)[i]);
  }

  lemma RetryInFlightAllowsAnotherAttempt()
    ensures var s := Run(NothingYet, RetriedInFlight());
            EVENT in s.events && s.events[EVENT].attempts == 11
    ensures forall i :: 0 <= i < |RetriedInFlight()| ==> !RetriedInFlight()[i].ResetStale?
  {
    hide Run, Next, Failing, Waiting, DelayMs;
    NoReset();
    RunFour(NothingYet, Retry(), Failing(1, 9), LateFailure(), Step.Claim(2, EVENT));
    RunThree(NothingYet, Receive(0, true, None, 1, EVENT), Step.Claim(0, EVENT), AdminRetry(EVENT));
    RetriedWaits();
    var retried := Run(NothingYet, Retry());
    FailingWaits(retried, 1, 9);
    var waiting := Run(retried, Failing(1, 9));
    RunThree(waiting, Step.Claim(1, EVENT), Fail(0), Tick(DelayMs(1)));
    OldWorkerReleases(waiting);
  }

  lemma RetriedWaits()
    ensures var claimed := Next(Next(NothingYet, Receive(0, true, None, 1, EVENT)), Step.Claim(0, EVENT));
            var retried := Next(claimed, AdminRetry(EVENT));
            Waiting(retried, 0, 1) && retried.workers == map[0 := Worker(EVENT, 1, Claimed)]
  {
  }

  lemma OldWorkerReleases(s: Store)
    requires Waiting(s, 9, 1) && s.workers == map[0 := Worker(EVENT, 1, Claimed)]
    ensures var again := Next(Next(Next(s, Step.Claim(1, EVENT)), Fail(0)), Tick(DelayMs(1)));
            && EVENT in Next(again, Step.Claim(2, EVENT)).events
            && Next(again, Step.Claim(2, EVENT)).events[EVENT].attempts == 11
  {
    hide DelayMs;
  }
}

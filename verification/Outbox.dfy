/** The transactional outbox and the webhook sequence: workers claim events, read, look up and write
    in separate steps, and may crash or be overtaken at any of them. */
module Outbox {
  import opened Rows

  type PaymentId = nat
  type TransmissionId = nat
  type EventId = nat
  type WorkerId = nat

  const STALE_CLAIM_MS: nat := 5 * 60 * 1000
  const MAX_ATTEMPTS: nat := 10
  const MAX_DELAY_SECONDS: nat := 3600

  datatype WebhookStatus = Received | Processed | Ignored | Failed

  datatype EventStatus = Pending | Processing | Processed | Failed | DeadLetter

  // A stored webhook; invalid ones are kept for the record and get no event.
  datatype Webhook = Webhook(valid: bool, payment: Option<PaymentId>, sequence: int, status: WebhookStatus)

  // An outbox row. The claim times since the last administrator's retry are kept beside it for observation.
  datatype Event = Event(
    webhook: TransmissionId, occurredAt: Time, status: EventStatus, attempts: nat, availableAt: Time,
    claimedAt: Option<Time>, claimTimes: seq<Time>)

  // Where a worker is in processing the event it claimed.
  datatype Phase =
    | Claimed
    | Finishing(status: WebhookStatus)
    | Looking(payment: PaymentId)
    | Committing(payment: PaymentId)
    | Handled

  // A worker remembers the number of attempts it read right after its claim.
  datatype Worker = Worker(event: EventId, attempts: nat, phase: Phase)

  datatype Store = Store(
    clock: Time,
    lastSequence: map<PaymentId, int>,
    webhooks: map<TransmissionId, Webhook>,
    events: map<EventId, Event>,
    workers: map<WorkerId, Worker>)

  const NothingYet := Store(0, map[], map[], map[], map[])

  // What the provider's answer means for the webhook.
  datatype Verdict = Verified | Mismatch

  datatype Step =
    | Tick(ms: nat)
    | NewPayment(payment: PaymentId)
    | Receive(transmission: TransmissionId, valid: bool, found: Option<PaymentId>, sequence: int, event: EventId)
    | Claim(worker: WorkerId, event: EventId)
    | Read(worker: WorkerId)
    | Lookup(worker: WorkerId, verdict: Verdict)
    | Finish(worker: WorkerId)
    | Commit(worker: WorkerId)
    | Complete(worker: WorkerId)
    | Fail(worker: WorkerId)
    | Crash(worker: WorkerId)
    | ResetStale
    | AdminRetry(event: EventId)

  function AfterReceive(s: Store, w: TransmissionId, valid: bool, payment: Option<PaymentId>, sequence: int, e: EventId)
    : Store
  {
    if w in s.webhooks then s
    else if !valid then s.(webhooks := s.webhooks[w := Webhook(false, None, 0, WebhookStatus.Failed)])
    else if e in s.events then s
    else
      var known := if payment.Some? && payment.value in s.lastSequence then payment else None;
      s.(webhooks := s.webhooks[w := Webhook(true, known, sequence, Received)],
         events := s.events[e := Event(w, s.clock, Pending, 0, s.clock, None, [])])
  }

  predicate Available(e: Event, now: Time) {
    (e.status.Pending? || e.status.Failed?) && e.availableAt <= now
  }

  function ClaimedEvent(e: Event, now: Time): Event {
    e.(status := EventStatus.Processing, claimedAt := Some(now), attempts := e.attempts + 1, claimTimes := e.claimTimes + [now])
  }

  function AfterClaim(s: Store, k: WorkerId, e: EventId): Store {
    if k in s.workers || e !in s.events || !Available(s.events[e], s.clock) then s
    else
      s.(events := s.events[e := ClaimedEvent(s.events[e], s.clock)],
         workers := s.workers[k := Worker(e, s.events[e].attempts + 1, Claimed)])
  }

  predicate InPhase(s: Store, k: WorkerId, phase: Phase) {
    k in s.workers && s.workers[k].phase == phase && s.workers[k].event in s.events
    && s.events[s.workers[k].event].webhook in s.webhooks
  }

  function WebhookOf(s: Store, k: WorkerId): TransmissionId
    requires k in s.workers && s.workers[k].event in s.events
  {
    s.events[s.workers[k].event].webhook
  }

  function Moved(s: Store, k: WorkerId, phase: Phase): Store
    requires k in s.workers
  {
    s.(workers := s.workers[k := s.workers[k].(phase := phase)])
  }

  function AfterRead(s: Store, k: WorkerId): Store {
    if !InPhase(s, k, Claimed) then s
    else
      var webhook := s.webhooks[WebhookOf(s, k)];
      if !webhook.status.Received? then Moved(s, k, Handled)
      else if webhook.payment.None? || webhook.payment.value !in s.lastSequence then
        Moved(s, k, Finishing(WebhookStatus.Failed))
      else if webhook.sequence <= s.lastSequence[webhook.payment.value] then Moved(s, k, Finishing(Ignored))
      else Moved(s, k, Looking(webhook.payment.value))
  }

  function AfterLookup(s: Store, k: WorkerId, verdict: Verdict): Store {
    if k !in s.workers || !s.workers[k].phase.Looking? then s
    else if verdict.Verified? then Moved(s, k, Committing(s.workers[k].phase.payment))
    else Moved(s, k, Finishing(WebhookStatus.Failed))
  }

  function WithWebhook(s: Store, k: WorkerId, status: WebhookStatus): Store
    requires k in s.workers && s.workers[k].event in s.events && WebhookOf(s, k) in s.webhooks
  {
    var w := WebhookOf(s, k);
    Moved(s.(webhooks := s.webhooks[w := s.webhooks[w].(status := status)]), k, Handled)
  }

  function AfterFinish(s: Store, k: WorkerId): Store {
    if k !in s.workers || !s.workers[k].phase.Finishing? || !InPhase(s, k, s.workers[k].phase) then s
    else WithWebhook(s, k, s.workers[k].phase.status)
  }

  // The conditional update of the sequence number and the webhook row, in one transaction.
  function AfterCommit(s: Store, k: WorkerId): Store {
    if k !in s.workers || !s.workers[k].phase.Committing? || !InPhase(s, k, s.workers[k].phase)
       || s.workers[k].phase.payment !in s.lastSequence
    then s
    else
      var p, sequence := s.workers[k].phase.payment, s.webhooks[WebhookOf(s, k)].sequence;
      if s.lastSequence[p] < sequence then
        WithWebhook(s.(lastSequence := s.lastSequence[p := sequence]), k, WebhookStatus.Processed)
      else WithWebhook(s, k, Ignored)
  }

  function CompletedEvent(e: Event): Event {
    e.(status := EventStatus.Processed, claimedAt := None)
  }

  function AfterComplete(s: Store, k: WorkerId): Store {
    if !InPhase(s, k, Handled) then s
    else
      var e := s.workers[k].event;
      s.(events := s.events[e := CompletedEvent(s.events[e])], workers := s.workers - {k})
  }

  function Pow2(n: nat): nat {
    if n == 0 then 1 else 2 * Pow2(n - 1)
  }

  function Min(a: nat, b: nat): nat {
    if a <= b then a else b
  }

  function DelayMs(attempts: nat): nat {
    Min(MAX_DELAY_SECONDS, Pow2(Min(attempts, 10))) * 1000
  }

  function FailedEvent(e: Event, attempts: nat, now: Time): Event {
    e.(status := if attempts >= MAX_ATTEMPTS then DeadLetter else EventStatus.Failed,
       claimedAt := None, availableAt := now + DelayMs(attempts))
  }

  // Any exception while processing.
  function AfterFail(s: Store, k: WorkerId): Store {
    if k !in s.workers || s.workers[k].event !in s.events then s
    else
      var e := s.workers[k].event;
      s.(events := s.events[e := FailedEvent(s.events[e], s.workers[k].attempts, s.clock)], workers := s.workers - {k})
  }

  predicate Stale(e: Event, now: Time) {
    e.status.Processing? && e.claimedAt.Some? && e.claimedAt.value + STALE_CLAIM_MS <= now
  }

  function ResetEvent(e: Event, now: Time): Event {
    if Stale(e, now) then e.(status := EventStatus.Failed, availableAt := now, claimedAt := None) else e
  }

  function RetriedEvent(e: Event, now: Time): Event {
    e.(status := Pending, attempts := 0, availableAt := now, claimedAt := None, claimTimes := [])
  }

  function Next(s: Store, step: Step): Store {
    match step
    case Tick(ms) => s.(clock := s.clock + ms)
    case NewPayment(p) => if p in s.lastSequence then s else s.(lastSequence := s.lastSequence[p := 0])
    case Receive(w, valid, payment, sequence, e) => AfterReceive(s, w, valid, payment, sequence, e)
    case Claim(k, e) => AfterClaim(s, k, e)
    case Read(k) => AfterRead(s, k)
    case Lookup(k, verdict) => AfterLookup(s, k, verdict)
    case Finish(k) => AfterFinish(s, k)
    case Commit(k) => AfterCommit(s, k)
    case Complete(k) => AfterComplete(s, k)
    case Fail(k) => AfterFail(s, k)
    case Crash(k) => s.(workers := s.workers - {k})
    case ResetStale => s.(events := map e | e in s.events :: ResetEvent(s.events[e], s.clock))
    case AdminRetry(e) => if e in s.events then s.(events := s.events[e := RetriedEvent(s.events[e], s.clock)]) else s
  }

  function Run(s: Store, steps: seq<Step>): Store
    decreases |steps|
  {
    if steps == [] then s else Run(Next(s, steps[0]), steps[1..])
  }

  lemma {:induction false} RunConcat(s: Store, xs: seq<Step>, ys: seq<Step>)
    ensures Run(s, xs + ys) == Run(Run(s, xs), ys)
    decreases |xs|
  {
    hide Next;
    if xs == [] {
      assert [] + ys == ys;
    } else {
      assert (xs + ys)[1..] == xs[1..] + ys;
      RunConcat(Next(s, xs[0]), xs[1..], ys);
    }
  }

  lemma RunOne(s: Store, a: Step)
    ensures Run(s, [a]) == Next(s, a)
  {
    hide Next;
    assert [a][1..] == [];
  }

  lemma RunFirst(s: Store, a: Step, rest: seq<Step>)
    ensures Run(s, [a] + rest) == Run(Next(s, a), rest)
  {
    hide Next;
    assert ([a] + rest)[1..] == rest;
  }

  // ---------- No webhook is lost ----------

  ghost predicate EventFor(s: Store, w: TransmissionId, e: EventId) {
    e in s.events && s.events[e].webhook == w
  }

  ghost predicate OneEventEach(s: Store) {
    && (forall w :: w in s.webhooks && s.webhooks[w].valid ==> exists e :: EventFor(s, w, e))
    && (forall e, f :: e in s.events && f in s.events && s.events[e].webhook == s.events[f].webhook ==> e == f)
    && (forall e :: e in s.events ==> s.events[e].webhook in s.webhooks && s.webhooks[s.events[e].webhook].valid)
  }

  ghost predicate Decided(s: Store, e: EventId) {
    e in s.events && s.events[e].webhook in s.webhooks && !s.webhooks[s.events[e].webhook].status.Received?
  }

  ghost predicate NoneLost(s: Store) {
    && (forall e :: e in s.events && s.events[e].status.Processed? ==> Decided(s, e))
    && (forall k :: k in s.workers ==>
          && s.workers[k].event in s.events
          && (s.workers[k].phase.Handled? ==> Decided(s, s.workers[k].event))
          && (s.workers[k].phase.Finishing? ==> !s.workers[k].phase.status.Received?))
  }

  // ---------- What no step undoes ----------

  predicate WebhookGrows(before: Webhook, after: Webhook) {
    && after.valid == before.valid && after.payment == before.payment && after.sequence == before.sequence
    && (!before.status.Received? ==> !after.status.Received?)
  }

  // Rows stay, a decided webhook stays decided, and no sequence number decreases.
  ghost predicate Grows(s: Store, after: Store) {
    && (forall e :: e in s.events ==> e in after.events && after.events[e].webhook == s.events[e].webhook)
    && (forall w :: w in s.webhooks ==> w in after.webhooks && WebhookGrows(s.webhooks[w], after.webhooks[w]))
    && (forall p :: p in s.lastSequence ==> p in after.lastSequence && s.lastSequence[p] <= after.lastSequence[p])
  }

  lemma WorkerStepGrows(s: Store, k: WorkerId, verdict: Verdict)
    ensures Grows(s, AfterRead(s, k)) && Grows(s, AfterLookup(s, k, verdict))
    ensures Grows(s, AfterComplete(s, k)) && Grows(s, AfterFail(s, k))
  {
    hide DelayMs, InPhase;
    assert AfterRead(s, k) == s.(workers := AfterRead(s, k).workers);
    assert AfterLookup(s, k, verdict) == s.(workers := AfterLookup(s, k, verdict).workers);
    hide AfterRead, AfterLookup;
  }

  lemma WorkerWriteGrows(s: Store, k: WorkerId)
    requires NoneLost(s)
    ensures Grows(s, AfterFinish(s, k)) && Grows(s, AfterCommit(s, k))
  {
    assert k in s.workers && s.workers[k].phase.Finishing? ==> !s.workers[k].phase.status.Received?;
    hide NoneLost, Decided;
  }

  lemma ReceiveGrows(s: Store, w: TransmissionId, valid: bool, payment: Option<PaymentId>, sequence: int, e: EventId)
    ensures Grows(s, AfterReceive(s, w, valid, payment, sequence, e))
  {
  }

  lemma ClaimGrows(s: Store, k: WorkerId, e: EventId)
    ensures Grows(s, AfterClaim(s, k, e))
  {
  }

  lemma RestGrows(s: Store, step: Step)
    requires step.Tick? || step.NewPayment? || step.Crash? || step.ResetStale? || step.AdminRetry?
    ensures Grows(s, Next(s, step))
  {
    hide AfterReceive, AfterClaim, AfterRead, AfterLookup, AfterFinish, AfterCommit, AfterComplete, AfterFail;
  }

  lemma NextGrows(s: Store, step: Step)
    requires NoneLost(s)
    ensures Grows(s, Next(s, step))
  {
    hide Grows, Decided, NoneLost, AfterReceive, AfterClaim, AfterRead, AfterLookup, AfterFinish, AfterCommit;
    hide AfterComplete, AfterFail;
    match step
    case Receive(w, valid, payment, sequence, e) => ReceiveGrows(s, w, valid, payment, sequence, e);
    case Claim(k, e) => ClaimGrows(s, k, e);
    case Read(k) => WorkerStepGrows(s, k, Verified);
    case Lookup(k, verdict) => WorkerStepGrows(s, k, verdict);
    case Finish(k) => WorkerWriteGrows(s, k);
    case Commit(k) => WorkerWriteGrows(s, k);
    case Complete(k) => WorkerStepGrows(s, k, Verified);
    case Fail(k) => WorkerStepGrows(s, k, Verified);
    case _ => RestGrows(s, step);
  }

  lemma NoNewRows(s: Store, step: Step)
    requires !step.Receive?
    ensures Next(s, step).events.Keys == s.events.Keys && Next(s, step).webhooks.Keys == s.webhooks.Keys
  {
    hide DelayMs;
  }

  lemma OneEventEachGrows(s: Store, after: Store)
    requires OneEventEach(s) && Grows(s, after)
    requires after.events.Keys == s.events.Keys && after.webhooks.Keys == s.webhooks.Keys
    ensures OneEventEach(after)
  {
    forall w | w in after.webhooks && after.webhooks[w].valid ensures exists e :: EventFor(after, w, e) {
      var e :| EventFor(s, w, e);
      assert EventFor(after, w, e);
    }
  }

  lemma ReceiveKeepsOneEventEach(s: Store, w: TransmissionId, valid: bool, payment: Option<PaymentId>, sequence: int,
                                 e: EventId)
    requires OneEventEach(s)
    ensures OneEventEach(AfterReceive(s, w, valid, payment, sequence, e))
  {
    var after := AfterReceive(s, w, valid, payment, sequence, e);
    forall x | x in after.webhooks && after.webhooks[x].valid ensures exists f :: EventFor(after, x, f) {
      if x in s.webhooks {
        var f :| EventFor(s, x, f);
        assert EventFor(after, x, f);
      } else {
        assert EventFor(after, x, e);
      }
    }
  }

  lemma NextKeepsOneEventEach(s: Store, step: Step)
    requires OneEventEach(s) && NoneLost(s)
    ensures OneEventEach(Next(s, step))
  {
    hide OneEventEach, NoneLost, Grows, AfterReceive;
    if step.Receive? {
      ReceiveKeepsOneEventEach(s, step.transmission, step.valid, step.found, step.sequence, step.event);
    } else {
      NextGrows(s, step);
      NoNewRows(s, step);
      hide Next;
      OneEventEachGrows(s, Next(s, step));
    }
  }

  // What a worker may rely on.
  ghost predicate WorkerSound(s: Store, k: WorkerId)
    requires k in s.workers
  {
    && s.workers[k].event in s.events
    && (s.workers[k].phase.Handled? ==> Decided(s, s.workers[k].event))
    && (s.workers[k].phase.Finishing? ==> !s.workers[k].phase.status.Received?)
  }

  // Its own step leaves a worker sound.
  lemma ReadSound(s: Store, k: WorkerId)
    requires k in s.workers && WorkerSound(s, k)
    ensures k in AfterRead(s, k).workers && WorkerSound(AfterRead(s, k), k)
  {
  }

  lemma WriteSound(s: Store, k: WorkerId, verdict: Verdict)
    requires k in s.workers && WorkerSound(s, k)
    ensures k in AfterLookup(s, k, verdict).workers && WorkerSound(AfterLookup(s, k, verdict), k)
    ensures k in AfterFinish(s, k).workers && WorkerSound(AfterFinish(s, k), k)
    ensures k in AfterCommit(s, k).workers && WorkerSound(AfterCommit(s, k), k)
  {
  }

  predicate About(step: Step, k: WorkerId) {
    match step
    case Claim(j, _) => j == k
    case Read(j) => j == k
    case Lookup(j, _) => j == k
    case Finish(j) => j == k
    case Commit(j) => j == k
    case _ => false
  }

  lemma OtherWorkers(s: Store, step: Step, k: WorkerId)
    requires !About(step, k) && k in Next(s, step).workers
    ensures k in s.workers && Next(s, step).workers[k] == s.workers[k]
  {
    hide DelayMs, InPhase;
  }

  lemma WorkerStays(s: Store, after: Store, k: WorkerId)
    requires k in s.workers && WorkerSound(s, k) && Grows(s, after)
    requires k in after.workers && after.workers[k] == s.workers[k]
    ensures WorkerSound(after, k)
  {
  }

  lemma StepCompletes(s: Store, step: Step, e: EventId)
    requires NoneLost(s) && e in Next(s, step).events && Next(s, step).events[e].status.Processed?
    ensures Decided(s, e)
  {
    hide DelayMs;
  }

  lemma NextKeepsWorker(s: Store, step: Step, k: WorkerId)
    requires NoneLost(s) && Grows(s, Next(s, step)) && k in Next(s, step).workers
    ensures WorkerSound(Next(s, step), k)
  {
    assert k in s.workers ==> WorkerSound(s, k);
    if About(step, k) {
      assert step.Claim? || k in s.workers by { if !step.Claim? { AboutPresent(s, step, k); } }
      hide Grows, NoneLost, WorkerSound, AfterRead, AfterLookup, AfterFinish, AfterCommit, AfterClaim;
      match step
      case Claim(_, e) => ClaimSound(s, k, e);
      case Read(_) => ReadSound(s, k);
      case Lookup(_, verdict) => WriteSound(s, k, verdict);
      case Finish(_) => WriteSound(s, k, Verified);
      case Commit(_) => WriteSound(s, k, Verified);
    } else {
      OtherWorkers(s, step, k);
      hide Next, NoneLost, Grows, WorkerSound;
      WorkerStays(s, Next(s, step), k);
    }
  }

  lemma AboutPresent(s: Store, step: Step, k: WorkerId)
    requires About(step, k) && !step.Claim? && k in Next(s, step).workers
    ensures k in s.workers
  {
  }

  lemma ClaimSound(s: Store, k: WorkerId, e: EventId)
    requires k in AfterClaim(s, k, e).workers && (k in s.workers ==> WorkerSound(s, k))
    ensures WorkerSound(AfterClaim(s, k, e), k)
  {
  }

  lemma DecidedStays(s: Store, after: Store, e: EventId)
    requires Decided(s, e) && Grows(s, after)
    ensures Decided(after, e)
  {
  }

  lemma NextKeepsProcessed(s: Store, step: Step, e: EventId)
    requires NoneLost(s) && Grows(s, Next(s, step))
    requires e in Next(s, step).events && Next(s, step).events[e].status.Processed?
    ensures Decided(Next(s, step), e)
  {
    hide NoneLost, Grows, Next, Decided;
    StepCompletes(s, step, e);
    DecidedStays(s, Next(s, step), e);
  }

  lemma NextKeepsNoneLost(s: Store, step: Step)
    requires NoneLost(s)
    ensures NoneLost(Next(s, step))
  {
    var after := Next(s, step);
    NextGrows(s, step);
    hide Next, Grows, Decided;
    forall e | e in after.events && after.events[e].status.Processed? ensures Decided(after, e) {
      hide NoneLost;
      NextKeepsProcessed(s, step, e);
    }
    forall k | k in after.workers ensures WorkerSound(after, k) {
      hide NoneLost;
      NextKeepsWorker(s, step, k);
    }
  }

  lemma {:induction false} RunKeepsWebhooks(s: Store, steps: seq<Step>)
    requires OneEventEach(s) && NoneLost(s)
    ensures OneEventEach(Run(s, steps)) && NoneLost(Run(s, steps))
    decreases |steps|
  {
    hide OneEventEach, NoneLost, Next;
    if steps != [] {
      NextKeepsOneEventEach(s, steps[0]);
      NextKeepsNoneLost(s, steps[0]);
      RunKeepsWebhooks(Next(s, steps[0]), steps[1..]);
    }
  }

  // Under any interleaving of workers, crashes, failures, stale resets (whose old workers may go on) and
  // administrator's retries: every valid webhook has exactly one event, and an event counts as processed
  // only when its webhook has been decided.
  lemma NoWebhookIsLost(steps: seq<Step>, w: TransmissionId)
    requires w in Run(NothingYet, steps).webhooks && Run(NothingYet, steps).webhooks[w].valid
    ensures var s := Run(NothingYet, steps);
            exists e :: EventFor(s, w, e) && (forall f :: EventFor(s, w, f) ==> f == e)
                     && (s.events[e].status.Processed? ==> !s.webhooks[w].status.Received?)
  {
    RunKeepsWebhooks(NothingYet, steps);
    var s := Run(NothingYet, steps);
    hide Run;
    var e :| EventFor(s, w, e);
    assert forall f :: EventFor(s, w, f) ==> f == e;
  }

  // ---------- No event is stranded ----------

  // The claim time is there while an event is being processed, and only then.
  ghost predicate ClaimShows(e: Event, now: Time) {
    (e.status.Processing? <==> e.claimedAt.Some?) && (e.claimedAt.Some? ==> e.claimedAt.value <= now)
  }

  ghost predicate ClaimsShow(s: Store) {
    forall e :: e in s.events ==> ClaimShows(s.events[e], s.clock)
  }

  lemma NextKeepsClaim(s: Store, step: Step, e: EventId)
    requires (e in s.events ==> ClaimShows(s.events[e], s.clock)) && e in Next(s, step).events
    ensures ClaimShows(Next(s, step).events[e], Next(s, step).clock)
  {
    hide DelayMs, InPhase;
  }

  lemma {:induction false} RunKeepsClaims(s: Store, steps: seq<Step>)
    requires ClaimsShow(s)
    ensures ClaimsShow(Run(s, steps))
    decreases |steps|
  {
    hide Next, ClaimShows;
    if steps != [] {
      forall e | e in Next(s, steps[0]).events ensures ClaimShows(Next(s, steps[0]).events[e], Next(s, steps[0]).clock) {
        NextKeepsClaim(s, steps[0], e);
      }
      RunKeepsClaims(Next(s, steps[0]), steps[1..]);
    }
  }

  // However workers, resets, retries and crashes interleave, an event is PROCESSING if and only if its
  // claim time is set.
  lemma ProcessingExactlyWhileClaimed(steps: seq<Step>, e: EventId)
    requires e in Run(NothingYet, steps).events
    ensures var row := Run(NothingYet, steps).events[e];
            && (row.status.Processing? <==> row.claimedAt.Some?)
            && (row.claimedAt.Some? ==> row.claimedAt.value <= Run(NothingYet, steps).clock)
  {
    hide Run;
    RunKeepsClaims(NothingYet, steps);
  }

  lemma WaitAndReset(s: Store, ms: nat)
    ensures var later := Run(s, [Tick(ms), ResetStale]);
            && later.clock == s.clock + ms && later.events.Keys == s.events.Keys
            && forall e :: e in s.events ==> later.events[e] == ResetEvent(s.events[e], s.clock + ms)
  {
    hide ResetEvent;
    assert [Tick(ms), ResetStale] == [Tick(ms)] + [ResetStale];
    RunFirst(s, Tick(ms), [ResetStale]);
    RunOne(Next(s, Tick(ms)), ResetStale);
  }

  // What a worker finds when it looks for an event some time later, after the reset query has run: it can
  // claim the event if and only if it is waiting and its time has come, or its claim is five minutes old.
  // So an event no worker cares for any more is always taken up again, unless it is done or given up.
  lemma ClaimableLaterExactly(steps: seq<Step>, e: EventId, ms: nat)
    requires e in Run(NothingYet, steps).events
    ensures var s := Run(NothingYet, steps);
            var row, later := s.events[e], Run(NothingYet, steps + [Tick(ms), ResetStale]);
            && later.clock == s.clock + ms && e in later.events
            && ((later.events[e].status.Pending? || later.events[e].status.Failed?)
                && later.events[e].availableAt <= later.clock
                <==> match row.status
                     case Pending => row.availableAt <= s.clock + ms
                     case Failed => row.availableAt <= s.clock + ms
                     case Processing => row.claimedAt.Some? && row.claimedAt.value + 5 * 60 * 1000 <= s.clock + ms
                     case _ => false)
  {
    var s := Run(NothingYet, steps);
    RunConcat(NothingYet, steps, [Tick(ms), ResetStale]);
    WaitAndReset(s, ms);
    hide Run;
  }

  lemma NoEventIsStranded(steps: seq<Step>, e: EventId) returns (ms: nat)
    requires e in Run(NothingYet, steps).events
    requires var row := Run(NothingYet, steps).events[e]; !row.status.Processed? && !row.status.DeadLetter?
    ensures var later := Run(NothingYet, steps + [Tick(ms), ResetStale]);
            && e in later.events && (later.events[e].status.Pending? || later.events[e].status.Failed?)
            && later.events[e].availableAt <= later.clock
  {
    hide Run;
    ProcessingExactlyWhileClaimed(steps, e);
    var row := Run(NothingYet, steps).events[e];
    ms := if row.status.Processing? then STALE_CLAIM_MS else row.availableAt;
    ClaimableLaterExactly(steps, e, ms);
  }

  // An administrator's retry starts an event over, whatever became of it: it may be claimed at once, for a
  // first attempt.
  lemma RetryStartsOver(s: Store, e: EventId)
    requires e in s.events
    ensures var after := Next(s, AdminRetry(e));
            && e in after.events && after == s.(events := s.events[e := after.events[e]])
            && after.events[e].webhook == s.events[e].webhook && after.events[e].occurredAt == s.events[e].occurredAt
            && after.events[e].status.Pending? && after.events[e].attempts == 0
            && after.events[e].availableAt == s.clock && after.events[e].claimedAt.None?
  {
  }

  // ---------- What is stored with a webhook ----------

  lemma {:induction false} RunGrows(s: Store, steps: seq<Step>)
    requires NoneLost(s)
    ensures Grows(s, Run(s, steps))
    decreases |steps|
  {
    hide NoneLost, Grows, Next;
    if steps == [] {
      GrowsNothing(s);
    } else {
      NextKeepsNoneLost(s, steps[0]);
      NextGrows(s, steps[0]);
      RunGrows(Next(s, steps[0]), steps[1..]);
      GrowsOn(s, Next(s, steps[0]), Run(s, steps));
    }
  }

  lemma GrowsNothing(s: Store)
    ensures Grows(s, s)
  {
  }

  lemma GrowsOn(s: Store, mid: Store, after: Store)
    requires Grows(s, mid) && Grows(mid, after)
    ensures Grows(s, after)
  {
  }

  // A valid webhook under a new transmission number is stored with the sequence it states and the payment it
  // was found for, if there is one, and with one event that may be claimed at once for a first attempt.
  lemma ReceiptStores(s: Store, w: TransmissionId, found: Option<PaymentId>, sequence: int, e: EventId)
    requires w !in s.webhooks && e !in s.events
    ensures var after := Next(s, Receive(w, true, found, sequence, e));
            && w in after.webhooks && e in after.events
            && after.webhooks[w].valid && after.webhooks[w].sequence == sequence && after.webhooks[w].status.Received?
            && after.webhooks[w].payment
               == (if found.Some? && found.value in s.lastSequence then Some(found.value) else None)
            && after.events[e].webhook == w && after.events[e].status.Pending? && after.events[e].attempts == 0
            && after.events[e].occurredAt == s.clock && after.events[e].availableAt == s.clock
            && after.events[e].claimedAt.None?
            && after.webhooks == s.webhooks[w := after.webhooks[w]] && after.events == s.events[e := after.events[e]]
            && after == s.(webhooks := after.webhooks, events := after.events)
  {
  }

  // An invalid one is kept as failed and gets no event; one that came before changes nothing.
  lemma OtherReceipts(s: Store, w: TransmissionId, valid: bool, found: Option<PaymentId>, sequence: int, e: EventId)
    ensures w in s.webhooks ==> Next(s, Receive(w, valid, found, sequence, e)) == s
    ensures w !in s.webhooks && !valid ==>
              var after := Next(s, Receive(w, false, found, sequence, e));
              && w in after.webhooks && !after.webhooks[w].valid && after.webhooks[w].status.Failed?
              && after.webhooks[w].payment.None? && after == s.(webhooks := s.webhooks[w := after.webhooks[w]])
  {
  }

  // And it keeps its payment and its sequence number, whatever comes before and after.
  lemma WebhookKeepsPayment(steps: seq<Step>, w: TransmissionId, found: Option<PaymentId>, sequence: int, e: EventId,
                            more: seq<Step>)
    requires w !in Run(NothingYet, steps).webhooks && e !in Run(NothingYet, steps).events
    ensures var s, last := Run(NothingYet, steps), Run(NothingYet, steps + [Receive(w, true, found, sequence, e)] + more);
            && w in last.webhooks && last.webhooks[w].valid && last.webhooks[w].sequence == sequence
            && last.webhooks[w].payment
               == (if found.Some? && found.value in s.lastSequence then Some(found.value) else None)
            && e in last.events && last.events[e].webhook == w
  {
    var s, step := Run(NothingYet, steps), Receive(w, true, found, sequence, e);
    hide Run, NoneLost;
    ReceiptStores(s, w, found, sequence, e);
    NothingLostYet(steps);
    NextKeepsNoneLost(s, step);
    RunGrows(Next(s, step), more);
    RunOne(s, step);
    RunConcat(NothingYet, steps, [step]);
    RunConcat(NothingYet, steps + [step], more);
  }

  lemma NothingLostYet(steps: seq<Step>)
    ensures NoneLost(Run(NothingYet, steps))
  {
    hide Run;
    RunKeepsWebhooks(NothingYet, steps);
  }
}

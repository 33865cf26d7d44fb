/** The last webhook sequence of a payment: it never decreases, and once its webhooks are settled it is
    their maximum, whatever the order of delivery and however the workers interleave. */
module WebhookOrder {
  import opened Rows
  import opened Outbox

  predicate Settled(status: WebhookStatus) {
    status.Processed? || status.Ignored?
  }

  // A webhook refers to a known payment, and once settled it is not ahead of it.
  ghost predicate WebhookSound(s: Store, w: TransmissionId)
    requires w in s.webhooks
  {
    var webhook := s.webhooks[w];
    && (webhook.payment.Some? ==> webhook.payment.value in s.lastSequence)
    && (Settled(webhook.status) ==>
          webhook.payment.Some? && webhook.sequence <= s.lastSequence[webhook.payment.value])
  }

  ghost predicate SomeSequence(s: Store, p: PaymentId, sequence: int) {
    exists w :: w in s.webhooks && s.webhooks[w].payment == Some(p) && s.webhooks[w].sequence == sequence
  }

  ghost predicate LastSound(s: Store, p: PaymentId)
    requires p in s.lastSequence
  {
    s.lastSequence[p] == 0 || (s.lastSequence[p] > 0 && SomeSequence(s, p, s.lastSequence[p]))
  }

  // What a worker has read still holds when it writes.
  ghost predicate WorkerOrdered(s: Store, k: WorkerId)
    requires k in s.workers
  {
    && s.workers[k].event in s.events && WebhookOf(s, k) in s.webhooks
    && var webhook := s.webhooks[WebhookOf(s, k)];
       match s.workers[k].phase
       case Finishing(status) =>
         && !status.Received? && !status.Processed?
         && (status.Ignored? ==>
               && webhook.payment.Some? && webhook.payment.value in s.lastSequence
               && webhook.sequence <= s.lastSequence[webhook.payment.value])
       case Looking(p) => webhook.payment == Some(p)
       case Committing(p) => webhook.payment == Some(p)
       case _ => true
  }

  ghost predicate Ordered(s: Store) {
    && (forall w :: w in s.webhooks ==> WebhookSound(s, w))
    && (forall p :: p in s.lastSequence ==> LastSound(s, p))
    && (forall k :: k in s.workers ==> WorkerOrdered(s, k))
    && (forall e :: e in s.events ==> s.events[e].webhook in s.webhooks)
  }

  // ---------- What other steps did stays true ----------

  lemma WebhookStaysSound(s: Store, after: Store, w: TransmissionId)
    requires w in s.webhooks && WebhookSound(s, w) && Grows(s, after) && after.webhooks[w] == s.webhooks[w]
    ensures WebhookSound(after, w)
  {
  }

  lemma WorkerStaysOrdered(s: Store, after: Store, k: WorkerId)
    requires k in s.workers && WorkerOrdered(s, k) && Grows(s, after)
    requires k in after.workers && after.workers[k] == s.workers[k]
    ensures WorkerOrdered(after, k)
  {
  }

  lemma LastStaysSound(s: Store, after: Store, p: PaymentId)
    requires p in s.lastSequence && LastSound(s, p) && Grows(s, after) && after.lastSequence[p] == s.lastSequence[p]
    ensures LastSound(after, p)
  {
    if s.lastSequence[p] > 0 {
      var w :| w in s.webhooks && s.webhooks[w].payment == Some(p) && s.webhooks[w].sequence == s.lastSequence[p];
      assert WebhookGrows(s.webhooks[w], after.webhooks[w]);
    }
  }

  // ---------- The steps that write ----------

  lemma ReadOrdered(s: Store, k: WorkerId)
    requires Ordered(s) && k in s.workers
    ensures k in AfterRead(s, k).workers && WorkerOrdered(AfterRead(s, k), k)
  {
    assert WorkerOrdered(s, k) && WebhookSound(s, WebhookOf(s, k));
  }

  lemma LookupOrdered(s: Store, k: WorkerId, verdict: Verdict)
    requires k in s.workers && WorkerOrdered(s, k)
    ensures k in AfterLookup(s, k, verdict).workers && WorkerOrdered(AfterLookup(s, k, verdict), k)
  {
  }

  lemma FinishOrdered(s: Store, k: WorkerId)
    requires Ordered(s) && k in s.workers
    ensures var after := AfterFinish(s, k);
            && k in after.workers && WorkerOrdered(after, k)
            && forall w :: w in s.webhooks ==> w in after.webhooks && WebhookSound(after, w)
  {
    assert WorkerOrdered(s, k);
    forall w | w in s.webhooks ensures WebhookSound(s, w) {
    }
  }

  lemma CommitOrdered(s: Store, k: WorkerId)
    requires Ordered(s) && k in s.workers
    ensures var after := AfterCommit(s, k);
            && k in after.workers && WorkerOrdered(after, k)
            && (forall w :: w in s.webhooks ==> w in after.webhooks && WebhookSound(after, w))
            && (forall p :: p in after.lastSequence ==> LastSound(after, p))
  {
    assert WorkerOrdered(s, k);
    var after := AfterCommit(s, k);
    forall w | w in s.webhooks ensures WebhookSound(s, w) {
    }
    forall p | p in after.lastSequence ensures LastSound(after, p) {
      assert LastSound(s, p);
      if after.lastSequence[p] == s.lastSequence[p] {
        if s.lastSequence[p] > 0 {
          var w :| w in s.webhooks && s.webhooks[w].payment == Some(p) && s.webhooks[w].sequence == s.lastSequence[p];
          assert after.webhooks[w].payment == Some(p) && after.webhooks[w].sequence == s.lastSequence[p];
        }
      } else {
        var w := WebhookOf(s, k);
        assert after.webhooks[w].payment == Some(p) && after.webhooks[w].sequence == after.lastSequence[p];
      }
    }
  }

  // ---------- Every step ----------

  lemma OtherStepsWriteNothing(s: Store, step: Step)
    requires !step.Finish? && !step.Commit?
    ensures forall w :: w in s.webhooks ==> w in Next(s, step).webhooks && Next(s, step).webhooks[w] == s.webhooks[w]
    ensures forall p :: p in s.lastSequence ==>
              p in Next(s, step).lastSequence && Next(s, step).lastSequence[p] == s.lastSequence[p]
    ensures forall p :: p in Next(s, step).lastSequence && p !in s.lastSequence ==> Next(s, step).lastSequence[p] == 0
  {
    hide DelayMs, InPhase;
  }

  lemma FinishKeepsLast(s: Store, k: WorkerId)
    ensures AfterFinish(s, k).lastSequence == s.lastSequence
    ensures k !in s.workers ==> AfterFinish(s, k) == s && AfterCommit(s, k) == s
  {
  }

  lemma NewWebhookSound(s: Store, step: Step, w: TransmissionId)
    requires w in Next(s, step).webhooks && w !in s.webhooks
    ensures step.Receive? && WebhookSound(Next(s, step), w)
  {
    hide DelayMs;
  }

  lemma WebhooksStaySound(s: Store, step: Step, w: TransmissionId)
    requires NoneLost(s) && Ordered(s) && w in Next(s, step).webhooks
    ensures WebhookSound(Next(s, step), w)
  {
    NextGrows(s, step);
    if w !in s.webhooks {
      hide Next, Ordered, Grows, NoneLost, WebhookSound;
      NewWebhookSound(s, step, w);
    } else {
      assert WebhookSound(s, w);
      hide Ordered, NoneLost, WebhookSound, Grows, AfterFinish, AfterCommit;
      match step
      case Finish(k) => FinishKeepsLast(s, k); if k in s.workers { FinishOrdered(s, k); }
      case Commit(k) => FinishKeepsLast(s, k); if k in s.workers { CommitOrdered(s, k); }
      case _ => hide Next; OtherStepsWriteNothing(s, step); WebhookStaysSound(s, Next(s, step), w);
    }
  }

  lemma LastsStaySound(s: Store, step: Step, p: PaymentId)
    requires NoneLost(s) && Ordered(s) && p in Next(s, step).lastSequence
    ensures LastSound(Next(s, step), p)
  {
    NextGrows(s, step);
    assert p in s.lastSequence ==> LastSound(s, p);
    hide Ordered, NoneLost, Grows, AfterFinish, AfterCommit, SomeSequence;
    match step
    case Finish(k) => FinishKeepsLast(s, k); LastStaysSound(s, Next(s, step), p);
    case Commit(k) => FinishKeepsLast(s, k); if k in s.workers { CommitOrdered(s, k); }
    case _ =>
      hide Next;
      OtherStepsWriteNothing(s, step);
      if p in s.lastSequence { LastStaysSound(s, Next(s, step), p); }
  }

  lemma ClaimOrdered(s: Store, k: WorkerId, e: EventId)
    requires k in AfterClaim(s, k, e).workers && (k in s.workers ==> WorkerOrdered(s, k))
    requires e in s.events ==> s.events[e].webhook in s.webhooks
    ensures WorkerOrdered(AfterClaim(s, k, e), k)
  {
  }

  lemma WorkersStayOrdered(s: Store, step: Step, k: WorkerId)
    requires NoneLost(s) && Ordered(s) && k in Next(s, step).workers
    ensures WorkerOrdered(Next(s, step), k)
  {
    assert k in s.workers ==> WorkerOrdered(s, k);
    if About(step, k) {
      assert step.Claim? || k in s.workers by { if !step.Claim? { AboutPresent(s, step, k); } }
      assert step.Claim? && step.event in s.events ==> s.events[step.event].webhook in s.webhooks;
      hide Ordered, NoneLost, WorkerOrdered, AfterClaim, AfterRead, AfterLookup, AfterFinish, AfterCommit;
      match step
      case Claim(_, e) => ClaimOrdered(s, k, e);
      case Read(_) => ReadOrdered(s, k);
      case Lookup(_, verdict) => LookupOrdered(s, k, verdict);
      case Finish(_) => FinishOrdered(s, k);
      case Commit(_) => CommitOrdered(s, k);
    } else {
      NextGrows(s, step);
      hide Ordered, NoneLost, WorkerOrdered, Grows, Next;
      OtherWorkers(s, step, k);
      WorkerStaysOrdered(s, Next(s, step), k);
    }
  }

  lemma EventsKeepWebhooks(s: Store, step: Step, e: EventId)
    requires NoneLost(s) && Ordered(s) && e in Next(s, step).events
    ensures Next(s, step).events[e].webhook in Next(s, step).webhooks
  {
    NextGrows(s, step);
    assert e in s.events ==> s.events[e].webhook in s.webhooks;
    hide Ordered, NoneLost;
    if !step.Receive? {
      NoNewRows(s, step);
      hide Next;
    }
  }

  lemma NextKeepsOrdered(s: Store, step: Step)
    requires NoneLost(s) && Ordered(s)
    ensures Ordered(Next(s, step))
  {
    hide Next, NoneLost, WebhookSound, LastSound, WorkerOrdered;
    var after := Next(s, step);
    forall w | w in after.webhooks ensures WebhookSound(after, w) {
      WebhooksStaySound(s, step, w);
    }
    forall p | p in after.lastSequence ensures LastSound(after, p) {
      LastsStaySound(s, step, p);
    }
    forall k | k in after.workers ensures WorkerOrdered(after, k) {
      WorkersStayOrdered(s, step, k);
    }
    forall e | e in after.events ensures after.events[e].webhook in after.webhooks {
      EventsKeepWebhooks(s, step, e);
    }
  }

  lemma {:induction false} RunKeepsOrdered(s: Store, steps: seq<Step>)
    requires NoneLost(s) && Ordered(s)
    ensures NoneLost(Run(s, steps)) && Ordered(Run(s, steps))
    ensures forall p :: p in s.lastSequence ==>
              p in Run(s, steps).lastSequence && s.lastSequence[p] <= Run(s, steps).lastSequence[p]
    decreases |steps|
  {
    hide NoneLost, Ordered, Next;
    if steps != [] {
      NextKeepsNoneLost(s, steps[0]);
      NextKeepsOrdered(s, steps[0]);
      NextGrows(s, steps[0]);
      RunKeepsOrdered(Next(s, steps[0]), steps[1..]);
    }
  }

  lemma Reached(steps: seq<Step>)
    ensures NoneLost(Run(NothingYet, steps)) && Ordered(Run(NothingYet, steps))
  {
    hide Run;
    assert NoneLost(NothingYet) && Ordered(NothingYet);
    RunKeepsOrdered(NothingYet, steps);
  }

  // ---------- Results ----------

  // The sequence number of a payment never decreases, however reads and writes of workers interleave.
  lemma SequenceNeverDecreases(steps: seq<Step>, more: seq<Step>, p: PaymentId)
    requires p in Run(NothingYet, steps).lastSequence
    ensures p in Run(NothingYet, steps + more).lastSequence
    ensures Run(NothingYet, steps).lastSequence[p] <= Run(NothingYet, steps + more).lastSequence[p]
  {
    Reached(steps);
    hide NoneLost, Ordered, Run;
    RunKeepsOrdered(Run(NothingYet, steps), more);
    RunConcat(NothingYet, steps, more);
  }

  ghost function Sequences(s: Store, p: PaymentId): set<int> {
    set w | w in s.webhooks && s.webhooks[w].payment == Some(p) :: s.webhooks[w].sequence
  }

  predicate MaximumOrZero(numbers: set<int>, m: int) {
    0 <= m && (m == 0 || m in numbers) && forall n :: n in numbers ==> n <= m
  }

  // Every webhook of the payment has been settled.
  ghost predicate Drained(s: Store, p: PaymentId) {
    forall w :: w in s.webhooks && s.webhooks[w].payment == Some(p) ==> Settled(s.webhooks[w].status)
  }

  lemma DrainedIsMaximum(steps: seq<Step>, p: PaymentId)
    requires p in Run(NothingYet, steps).lastSequence && Drained(Run(NothingYet, steps), p)
    ensures var s := Run(NothingYet, steps); MaximumOrZero(Sequences(s, p), s.lastSequence[p])
  {
    Reached(steps);
    hide NoneLost, Run;
    var s := Run(NothingYet, steps);
    assert LastSound(s, p);
    if s.lastSequence[p] > 0 {
      var w :| w in s.webhooks && s.webhooks[w].payment == Some(p) && s.webhooks[w].sequence == s.lastSequence[p];
      assert s.webhooks[w].sequence in Sequences(s, p);
    }
    forall n | n in Sequences(s, p) ensures n <= s.lastSequence[p] {
      var w :| w in s.webhooks && s.webhooks[w].payment == Some(p) && s.webhooks[w].sequence == n;
      assert WebhookSound(s, w);
    }
  }

  // So two runs that received the same sequence numbers for a payment, in any order and however often,
  // end with the same value once drained.
  lemma OrderOfDeliveryIsIrrelevant(steps: seq<Step>, others: seq<Step>, p: PaymentId)
    requires p in Run(NothingYet, steps).lastSequence && Drained(Run(NothingYet, steps), p)
    requires p in Run(NothingYet, others).lastSequence && Drained(Run(NothingYet, others), p)
    requires Sequences(Run(NothingYet, steps), p) == Sequences(Run(NothingYet, others), p)
    ensures Run(NothingYet, steps).lastSequence[p] == Run(NothingYet, others).lastSequence[p]
  {
    DrainedIsMaximum(steps, p);
    DrainedIsMaximum(others, p);
    hide Run, Sequences, Drained;
  }

  // ---------- An unchanging payment: its lookups verify ----------

  // What other payments' lookups find does not matter.
  predicate Verifies(s: Store, step: Step, p: PaymentId) {
    (step.Lookup? && step.worker in s.workers && s.workers[step.worker].phase == Looking(p)) ==> step.verdict.Verified?
  }

  predicate AllVerify(s: Store, steps: seq<Step>, p: PaymentId)
    decreases |steps|
  {
    steps == [] || (Verifies(s, steps[0], p) && AllVerify(Next(s, steps[0]), steps[1..], p))
  }

  ghost predicate NoneFailed(s: Store, p: PaymentId) {
    && (forall w :: w in s.webhooks && s.webhooks[w].payment == Some(p) ==> !s.webhooks[w].status.Failed?)
    && (forall k :: k in s.workers ==> WorkerBlameless(s, k, p))
  }

  ghost predicate WorkerBlameless(s: Store, k: WorkerId, p: PaymentId)
    requires k in s.workers
  {
    (s.workers[k].phase == Finishing(WebhookStatus.Failed) && s.workers[k].event in s.events
     && WebhookOf(s, k) in s.webhooks) ==> s.webhooks[WebhookOf(s, k)].payment != Some(p)
  }

  lemma OwnStepBlames(s: Store, step: Step, k: WorkerId, p: PaymentId)
    requires Ordered(s) && NoneFailed(s, p) && Verifies(s, step, p) && About(step, k) && k in Next(s, step).workers
    ensures WorkerBlameless(Next(s, step), k, p)
  {
    hide LastSound, AfterReceive, AfterComplete, AfterFail;
    assert k in s.workers ==> WorkerBlameless(s, k, p) && WorkerOrdered(s, k) && WebhookSound(s, WebhookOf(s, k));
  }

  lemma BlamelessWorkers(s: Store, step: Step, k: WorkerId, p: PaymentId)
    requires NoneLost(s) && Ordered(s) && NoneFailed(s, p) && Verifies(s, step, p) && k in Next(s, step).workers
    ensures WorkerBlameless(Next(s, step), k, p)
  {
    hide NoneLost, Next, Verifies;
    if About(step, k) {
      OwnStepBlames(s, step, k, p);
    } else {
      NextGrows(s, step);
      OtherWorkers(s, step, k);
    }
  }

  lemma FinishBlames(s: Store, k: WorkerId, w: TransmissionId, p: PaymentId)
    requires k in s.workers && WorkerOrdered(s, k) && WorkerBlameless(s, k, p)
    requires w in AfterFinish(s, k).webhooks && AfterFinish(s, k).webhooks[w].payment == Some(p)
    requires w in s.webhooks && s.webhooks[w].payment == Some(p) ==> !s.webhooks[w].status.Failed?
    ensures !AfterFinish(s, k).webhooks[w].status.Failed?
  {
  }

  lemma OthersBlameNothing(s: Store, step: Step, w: TransmissionId, p: PaymentId)
    requires !step.Finish? && w in Next(s, step).webhooks && Next(s, step).webhooks[w].payment == Some(p)
    requires w in s.webhooks && s.webhooks[w].payment == Some(p) ==> !s.webhooks[w].status.Failed?
    ensures !Next(s, step).webhooks[w].status.Failed?
  {
    hide DelayMs, AfterFinish;
  }

  lemma BlamelessWebhooks(s: Store, step: Step, w: TransmissionId, p: PaymentId)
    requires Ordered(s) && NoneFailed(s, p) && w in Next(s, step).webhooks
    requires Next(s, step).webhooks[w].payment == Some(p)
    ensures !Next(s, step).webhooks[w].status.Failed?
  {
    hide WorkerOrdered, WorkerBlameless, AfterFinish, WebhookSound, LastSound;
    match step
    case Finish(k) =>
      if k in s.workers {
        FinishBlames(s, k, w, p);
      } else {
        FinishKeepsLast(s, k);
      }
    case _ => hide Next; OthersBlameNothing(s, step, w, p);
  }

  lemma NextKeepsNoneFailed(s: Store, step: Step, p: PaymentId)
    requires NoneLost(s) && Ordered(s) && NoneFailed(s, p) && Verifies(s, step, p)
    ensures NoneFailed(Next(s, step), p)
  {
    hide NoneLost, Ordered, Next, Verifies, WorkerBlameless;
    var after := Next(s, step);
    forall k | k in after.workers ensures WorkerBlameless(after, k, p) {
      BlamelessWorkers(s, step, k, p);
    }
    forall w | w in after.webhooks && after.webhooks[w].payment == Some(p) ensures !after.webhooks[w].status.Failed? {
      BlamelessWebhooks(s, step, w, p);
    }
  }

  lemma {:induction false} RunKeepsNoneFailed(s: Store, steps: seq<Step>, p: PaymentId)
    requires NoneLost(s) && Ordered(s) && NoneFailed(s, p) && AllVerify(s, steps, p)
    ensures NoneFailed(Run(s, steps), p)
    decreases |steps|
  {
    hide NoneLost, Ordered, Next, NoneFailed, Verifies;
    if steps != [] {
      NextKeepsNoneLost(s, steps[0]);
      NextKeepsOrdered(s, steps[0]);
      NextKeepsNoneFailed(s, steps[0], p);
      RunKeepsNoneFailed(Next(s, steps[0]), steps[1..], p);
    }
  }

  // If the lookups for a payment verify, it holds the maximum of its webhooks once they have all been
  // decided, whatever happens to other payments.
  lemma VerifiedPaymentReachesMaximum(steps: seq<Step>, p: PaymentId)
    requires AllVerify(NothingYet, steps, p) && p in Run(NothingYet, steps).lastSequence
    requires forall w :: w in Run(NothingYet, steps).webhooks && Run(NothingYet, steps).webhooks[w].payment == Some(p)
               ==> !Run(NothingYet, steps).webhooks[w].status.Received?
    ensures var s := Run(NothingYet, steps); MaximumOrZero(Sequences(s, p), s.lastSequence[p])
  {
    hide NoneLost, Ordered, Run, AllVerify, Sequences, MaximumOrZero;
    assert NoneFailed(NothingYet, p);
    NothingRun();
    Reached([]);
    RunKeepsNoneFailed(NothingYet, steps, p);
    DrainedIsMaximum(steps, p);
  }

  lemma NothingRun()
    ensures Run(NothingYet, []) == NothingYet
  {
  }
}

/** The outbox worker and the webhook endpoint as they are written. Processing one event without interruption
    is one of the runs of Outbox, so what holds in every run holds for it. */
module PaymentEvents {
  import opened Rows
  import opened Outbox

  const DISPATCH_LIMIT: nat := 100

  // The payment columns a webhook is checked against, and those a verified one writes.
  datatype PaymentFacts = PaymentFacts(
    order: OrderId, amount: nat, status: PaymentStatus, failure: Failure, checkedAt: Option<Time>)

  // A partial cancellation counts as cancelled; any other status is taken to agree with the payment.
  datatype LookupStatus = LookupDone | LookupCancelled | LookupOther

  // Unavailable: the provider could not be asked, or the payload has no readable amount.
  datatype Reply = Unavailable | Reply(order: OrderId, amount: nat, status: LookupStatus)

  function ExpectedStatus(status: LookupStatus, current: PaymentStatus): PaymentStatus {
    match status
    case LookupDone => PaymentStatus.Approved
    case LookupCancelled => PaymentStatus.Cancelled
    case LookupOther => current
  }

  function VerdictOf(facts: PaymentFacts, stated: nat, reply: Reply): Option<Verdict> {
    match reply
    case Unavailable => None
    case Reply(order, amount, status) =>
      if order != facts.order || amount != facts.amount || stated != facts.amount then Some(Mismatch)
      else if facts.status != ExpectedStatus(status, facts.status) then Some(Mismatch)
      else Some(Verified)
  }

  // A webhook that is processed clears the failure code of its payment and notes the time of the check.
  function Checked(s: Store, payments: map<PaymentId, PaymentFacts>, w: TransmissionId, verdict: Option<Verdict>)
    : map<PaymentId, PaymentFacts>
  {
    if w in s.webhooks && s.webhooks[w].status.Received? && s.webhooks[w].payment.Some?
       && s.webhooks[w].payment.value in payments && s.webhooks[w].payment.value in s.lastSequence
       && s.lastSequence[s.webhooks[w].payment.value] < s.webhooks[w].sequence && verdict == Some(Verified)
    then
      var p := s.webhooks[w].payment.value;
      payments[p := payments[p].(failure := NoFailure, checkedAt := Some(s.clock))]
    else payments
  }

  datatype Processing = Skipped | Finished | Threw

  // What handling the webhook of an event leaves; None when it throws.
  function Handling(s: Store, w: TransmissionId, verdict: Option<Verdict>): Option<Store> {
    if w !in s.webhooks || !s.webhooks[w].status.Received? then Some(s)
    else
      var webhook := s.webhooks[w];
      if webhook.payment.None? || webhook.payment.value !in s.lastSequence then
        Some(WithStatus(s, w, WebhookStatus.Failed))
      else
        var p := webhook.payment.value;
        if webhook.sequence <= s.lastSequence[p] then Some(WithStatus(s, w, Ignored))
        else if verdict.None? then None
        else if verdict.value.Mismatch? then Some(WithStatus(s, w, WebhookStatus.Failed))
        else Some(WithStatus(s.(lastSequence := s.lastSequence[p := webhook.sequence]), w, WebhookStatus.Processed))
  }

  function WithStatus(s: Store, w: TransmissionId, status: WebhookStatus): Store
    requires w in s.webhooks
  {
    s.(webhooks := s.webhooks[w := s.webhooks[w].(status := status)])
  }

  function AfterProcessing(s: Store, e: EventId, verdict: Option<Verdict>): (Store, Processing) {
    if e !in s.events || !Available(s.events[e], s.clock) then (s, Skipped)
    else
      var row := ClaimedEvent(s.events[e], s.clock);
      var claimed := s.(events := s.events[e := row]);
      match Handling(claimed, row.webhook, verdict)
      case None => (claimed.(events := s.events[e := FailedEvent(row, row.attempts, s.clock)]), Threw)
      case Some(after) => (after.(events := s.events[e := CompletedEvent(row)]), Finished)
  }

  lemma HandlingKeepsRows(s: Store, w: TransmissionId, verdict: Option<Verdict>)
    ensures Handling(s, w, verdict).Some? ==>
              var after := Handling(s, w, verdict).value;
              after.events == s.events && after.workers == s.workers && after.clock == s.clock
  {
  }

  lemma HandlingDecides(s: Store, w: TransmissionId, verdict: Option<Verdict>)
    ensures Handling(s, w, verdict).Some? && w in Handling(s, w, verdict).value.webhooks ==>
              !Handling(s, w, verdict).value.webhooks[w].status.Received?
  {
  }

  lemma CheckedIgnoresEvents(s: Store, other: Store, payments: map<PaymentId, PaymentFacts>, w: TransmissionId,
                             verdict: Option<Verdict>)
    requires other == s.(events := other.events)
    ensures Checked(s, payments, w, verdict) == Checked(other, payments, w, verdict)
  {
  }

  lemma HandlingIgnoresWorkers(s: Store, other: Store, w: TransmissionId, verdict: Option<Verdict>)
    requires other == s.(workers := other.workers)
    ensures Handling(s, w, verdict).Some? <==> Handling(other, w, verdict).Some?
    ensures Handling(other, w, verdict).Some? ==>
              Handling(s, w, verdict).value == Handling(other, w, verdict).value.(workers := s.workers)
  {
  }

  // ---------- The class ----------

  // Up to a hundred different available events, oldest first, none passed over for a younger one.
  ghost predicate DueJobs(events: map<EventId, Event>, now: Time, jobs: seq<EventId>) {
    && |jobs| <= DISPATCH_LIMIT && (forall i, j :: 0 <= i < j < |jobs| ==> jobs[i] != jobs[j])
    && (forall e :: e in jobs ==> e in events && Available(events[e], now))
    && (forall i, j :: 0 <= i < j < |jobs| ==> events[jobs[i]].occurredAt <= events[jobs[j]].occurredAt)
    && (forall f :: f in events && Available(events[f], now) && f !in jobs ==>
          |jobs| == DISPATCH_LIMIT && forall e :: e in jobs ==> events[e].occurredAt <= events[f].occurredAt)
  }

  // Part of the way: these jobs have been queued, oldest first, and those events are left.
  ghost predicate Queued(events: map<EventId, Event>, all: set<EventId>, due: set<EventId>, jobs: seq<EventId>) {
    && all <= events.Keys && (forall i :: 0 <= i < |jobs| ==> jobs[i] in all && jobs[i] !in due)
    && (forall e :: e in all ==> e in due || e in jobs)
    && (forall i, j :: 0 <= i < j < |jobs| ==>
          jobs[i] != jobs[j] && events[jobs[i]].occurredAt <= events[jobs[j]].occurredAt)
    && (forall i, f :: 0 <= i < |jobs| && f in due && f in events ==> events[jobs[i]].occurredAt <= events[f].occurredAt)
  }

  lemma NothingQueued(events: map<EventId, Event>, all: set<EventId>)
    requires all <= events.Keys
    ensures Queued(events, all, all, [])
  {
  }

  lemma OneMoreQueued(events: map<EventId, Event>, all: set<EventId>, due: set<EventId>, jobs: seq<EventId>, e: EventId)
    requires Queued(events, all, due, jobs) && due <= all && e in due
    requires forall f :: f in due ==> events[e].occurredAt <= events[f].occurredAt
    ensures Queued(events, all, due - {e}, jobs + [e])
  {
  }

  lemma QueuedAreDue(events: map<EventId, Event>, now: Time, all: set<EventId>, due: set<EventId>, jobs: seq<EventId>)
    requires Queued(events, all, due, jobs) && |jobs| <= DISPATCH_LIMIT && (due == {} || |jobs| == DISPATCH_LIMIT)
    requires all == set e | e in events && Available(events[e], now)
    ensures DueJobs(events, now, jobs)
  {
    hide Available;
  }

  lemma {:induction false} OldestExists(events: map<EventId, Event>, es: set<EventId>) returns (first: EventId)
    requires es != {} && es <= events.Keys
    ensures first in es && forall f :: f in es ==> events[first].occurredAt <= events[f].occurredAt
    decreases |es|
  {
    var e :| e in es;
    var rest := es - {e};
    assert forall f :: f in es ==> f == e || f in rest;
    if rest == {} {
      first := e;
    } else {
      var least := OldestExists(events, rest);
      first := if events[least].occurredAt <= events[e].occurredAt then least else e;
    }
  }

  datatype Receipt = Acknowledged(duplicate: bool, status: WebhookStatus) | NotStored

  class EventStore {
    var clock: Time
    var payments: map<PaymentId, PaymentFacts>
    var lastSequence: map<PaymentId, int>
    var webhooks: map<TransmissionId, Webhook>
    var events: map<EventId, Event>
    // The other workers, wherever they are.
    ghost var workers: map<WorkerId, Worker>

    ghost predicate Valid()
      reads this
    {
      payments.Keys == lastSequence.Keys
    }

    ghost function View(): Store
      reads this
    {
      Store(clock, lastSequence, webhooks, events, workers)
    }

    constructor ()
      ensures Valid() && View() == NothingYet
    {
      clock, payments, lastSequence, webhooks, events, workers := 0, map[], map[], map[], map[], map[];
    }

    // found: the payment of the payload's order; e: the new outbox row.
    method ReceiveWebhook(w: TransmissionId, valid: bool, found: Option<PaymentId>, sequence: int, e: EventId)
      returns (receipt: Receipt)
      modifies this`webhooks, this`events
      ensures View() == AfterReceive(old(View()), w, valid, found, sequence, e)
      ensures receipt == if w in old(webhooks) then Acknowledged(true, old(webhooks)[w].status)
                         else if !valid then Acknowledged(false, WebhookStatus.Failed)
                         else if e in old(events) then NotStored
                         else Acknowledged(false, Received)
    {
      if w in webhooks {
        return Acknowledged(true, webhooks[w].status);
      }
      if !valid {
        webhooks := webhooks[w := Webhook(false, None, 0, WebhookStatus.Failed)];
        return Acknowledged(false, WebhookStatus.Failed);
      }
      if e in events {
        return NotStored;
      }
      var payment := if found.Some? && found.value in lastSequence then found else None;
      webhooks := webhooks[w := Webhook(true, payment, sequence, Received)];
      events := events[e := Event(w, clock, Pending, 0, clock, None, [])];
      receipt := Acknowledged(false, Received);
    }

    // The conditional claim of one event.
    method Claim(e: EventId) returns (claimed: bool)
      modifies this`events
      ensures claimed == (e in old(events) && Available(old(events)[e], clock))
      ensures events == if claimed then old(events)[e := ClaimedEvent(old(events)[e], clock)] else old(events)
    {
      if e !in events || !(events[e].status.Pending? || events[e].status.Failed?) || clock < events[e].availableAt {
        return false;
      }
      var row := events[e];
      events := events[e := row.(status := EventStatus.Processing, claimedAt := Some(clock), attempts := row.attempts + 1,
                                 claimTimes := row.claimTimes + [clock])];
      claimed := true;
    }

    method FinishWebhook(w: TransmissionId, status: WebhookStatus)
      requires w in webhooks
      modifies this`webhooks
      ensures webhooks == old(webhooks)[w := old(webhooks)[w].(status := status)]
    {
      webhooks := webhooks[w := webhooks[w].(status := status)];
    }

    // stated: the amount in the payload. Returns whether it threw.
    method ProcessPaymentWebhook(w: TransmissionId, stated: nat, reply: Reply)
      returns (threw: bool, ghost verdict: Option<Verdict>)
      requires Valid()
      modifies this`webhooks, this`lastSequence, this`payments
      ensures Valid()
      ensures (w in old(webhooks) && old(webhooks)[w].payment.Some? && old(webhooks)[w].payment.value in old(payments)) ==>
                verdict == VerdictOf(old(payments)[old(webhooks)[w].payment.value], stated, reply)
      ensures payments == Checked(old(View()), old(payments), w, verdict)
      ensures threw <==> Handling(old(View()), w, verdict).None?
      ensures View() == if threw then old(View()) else Handling(old(View()), w, verdict).value
    {
      verdict := None;
      if w !in webhooks {
        return false, verdict;
      }
      var webhook := webhooks[w];
      if webhook.payment.Some? && webhook.payment.value in payments {
        verdict := VerdictOf(payments[webhook.payment.value], stated, reply);
      }
      if !webhook.status.Received? {
        return false, verdict;
      }
      if webhook.payment.None? || webhook.payment.value !in payments {
        FinishWebhook(w, WebhookStatus.Failed);
        return false, verdict;
      }
      var p := webhook.payment.value;
      if webhook.sequence <= lastSequence[p] {
        FinishWebhook(w, Ignored);
        return false, verdict;
      }
      if reply.Unavailable? {
        return true, verdict;
      }
      if reply.order != payments[p].order || reply.amount != payments[p].amount || stated != payments[p].amount {
        FinishWebhook(w, WebhookStatus.Failed);
        return false, verdict;
      }
      if payments[p].status != ExpectedStatus(reply.status, payments[p].status) {
        FinishWebhook(w, WebhookStatus.Failed);
        return false, verdict;
      }
      // The conditional update: uninterrupted, its condition still holds.
      assert lastSequence[p] < webhook.sequence;
      lastSequence := lastSequence[p := webhook.sequence];
      payments := payments[p := payments[p].(failure := NoFailure, checkedAt := Some(clock))];
      FinishWebhook(w, WebhookStatus.Processed);
      threw := false;
    }

    method ProcessOutboxEvent(e: EventId, stated: nat, reply: Reply)
      returns (result: Processing, ghost verdict: Option<Verdict>)
      requires Valid()
      modifies this`events, this`webhooks, this`lastSequence, this`payments
      ensures Valid() && (View(), result) == AfterProcessing(old(View()), e, verdict)
      ensures !result.Skipped? ==>
                && e in old(events)
                && var w := old(events)[e].webhook;
                   (w in old(webhooks) && old(webhooks)[w].payment.Some? && old(webhooks)[w].payment.value in old(payments)) ==>
                     verdict == VerdictOf(old(payments)[old(webhooks)[w].payment.value], stated, reply)
      ensures result.Finished? ==>
                && e in events && events[e].status.Processed? && events[e].claimedAt.None?
                && (events[e].webhook in webhooks ==> !webhooks[events[e].webhook].status.Received?)
      ensures payments == if result.Skipped? then old(payments)
                          else Checked(old(View()), old(payments), old(events)[e].webhook, verdict)
    {
      hide DelayMs, VerdictOf, Handling, Checked;
      verdict := None;
      var claimed := Claim(e);
      if !claimed {
        return Skipped, verdict;
      }
      var event := events[e];
      var threw: bool;
      ghost var s, view := old(View()), View();
      assert view == s.(events := s.events[e := event]);
      threw, verdict := ProcessPaymentWebhook(event.webhook, stated, reply);
      CheckedIgnoresEvents(s, view, old(payments), event.webhook, verdict);
      if !threw {
        ghost var after := View();
        HandlingKeepsRows(view, event.webhook, verdict);
        HandlingDecides(view, event.webhook, verdict);
        events := events[e := event.(status := EventStatus.Processed, claimedAt := None)];
        assert View() == after.(events := s.events[e := CompletedEvent(event)]);
        return Finished, verdict;
      }
      var terminal := event.attempts >= 10;
      events := events[e := event.(status := if terminal then DeadLetter else EventStatus.Failed, claimedAt := None,
                                   availableAt := clock + DelayMs(event.attempts))];
      assert View() == view.(events := s.events[e := FailedEvent(event, event.attempts, clock)]);
      result := Threw;
    }

    // Claims held too long are given back, then up to a hundred due events are queued, oldest first.
    method DispatchOutboxJobs() returns (jobs: seq<EventId>)
      modifies this`events
      ensures View() == Next(old(View()), ResetStale)
      ensures DueJobs(events, clock, jobs)
      ensures |jobs| <= 100
      ensures |jobs| < 100 ==>
                forall e :: e in events && (Available(old(events)[e], clock) || Stale(old(events)[e], clock)) ==> e in jobs
    {
      var stale := set e | e in events && Stale(events[e], clock);
      ghost var before := events;
      events := map e | e in events ::
        if e in stale then events[e].(status := EventStatus.Failed, availableAt := clock, claimedAt := None) else events[e];
      assert forall e :: e in events ==> events[e] == ResetEvent(before[e], clock);
      assert forall e :: e in events && (Available(before[e], clock) || Stale(before[e], clock)) ==> Available(events[e], clock);
      hide Stale, Available, ResetEvent;
      jobs := FindDue();
    }

    method FindDue() returns (jobs: seq<EventId>)
      ensures DueJobs(events, clock, jobs)
    {
      hide Queued;
      var due := set e | e in events && Available(events[e], clock);
      ghost var all := due;
      jobs := [];
      NothingQueued(events, all);
      while due != {} && |jobs| < DISPATCH_LIMIT
        invariant Queued(events, all, due, jobs) && due <= all && |jobs| <= DISPATCH_LIMIT
        decreases |due|
      {
        ghost var first := OldestExists(events, due);
        var e :| e in due && forall f :: f in due ==> events[e].occurredAt <= events[f].occurredAt;
        OneMoreQueued(events, all, due, jobs, e);
        jobs := jobs + [e];
        due := due - {e};
      }
      QueuedAreDue(events, clock, all, due, jobs);
    }

    method RetryOutbox(e: EventId) returns (found: bool)
      modifies this`events
      ensures found == (e in old(events)) && View() == Next(old(View()), AdminRetry(e))
    {
      if e !in events {
        return false;
      }
      events := events[e := events[e].(status := Pending, attempts := 0, availableAt := clock, claimedAt := None,
                                       claimTimes := [])];
      found := true;
    }
  }

  // ---------- What processing makes of an event and of its webhook ----------

  // An event that can be claimed is worked off or fails, and is given up at the tenth attempt; its claim is
  // gone in any case. Worked off, its webhook has been decided; failed, nothing has been written to it.
  lemma ProcessingEndsExactly(s: Store, e: EventId, verdict: Option<Verdict>)
    requires e in s.events ==> s.events[e].webhook in s.webhooks
    ensures var (after, result) := AfterProcessing(s, e, verdict);
            && (result.Skipped? <==>
                  !(e in s.events && (s.events[e].status.Pending? || s.events[e].status.Failed?)
                    && s.events[e].availableAt <= s.clock))
            && (result.Skipped? ==> after == s)
            && (!result.Skipped? ==>
                  && e in s.events && e in after.events && after.events == s.events[e := after.events[e]]
                  && after.clock == s.clock && after.workers == s.workers
                  && var row, done := s.events[e], after.events[e];
                     && done.webhook == row.webhook && done.attempts == row.attempts + 1 && done.claimedAt.None?
                     && row.webhook in after.webhooks
                     && (result.Finished? ==>
                           && done.status.Processed? && done.availableAt == row.availableAt
                           && !after.webhooks[row.webhook].status.Received?)
                     && (result.Threw? ==>
                           && done.status == (if row.attempts + 1 >= 10 then DeadLetter else EventStatus.Failed)
                           && done.availableAt > s.clock && s.webhooks[row.webhook].status.Received?
                           && after.webhooks == s.webhooks && after.lastSequence == s.lastSequence))
  {
    hide Pow2;
    if e in s.events {
      DelayIsPositive(s.events[e].attempts + 1);
    }
  }

  lemma DelayIsPositive(attempts: nat)
    ensures DelayMs(attempts) > 0
  {
    Pow2IsPositive(Min(attempts, 10));
    hide Pow2;
  }

  lemma {:induction false} Pow2IsPositive(n: nat)
    ensures Pow2(n) >= 1
  {
    if n > 0 {
      Pow2IsPositive(n - 1);
    }
  }

  // The provider's answer and the payload agree with the payment row.
  predicate Agrees(facts: PaymentFacts, stated: nat, reply: Reply) {
    && reply.Reply? && reply.order == facts.order && reply.amount == facts.amount && stated == facts.amount
    && (reply.status.LookupDone? ==> facts.status.Approved?)
    && (reply.status.LookupCancelled? ==> facts.status.Cancelled?)
  }

  // What becomes of a webhook when its event is processed: a decided one stays as it is. One that is waiting
  // fails without a payment; is ignored if the payment has seen its sequence number or a later one; stays
  // waiting if the provider cannot be asked; is applied if everything agrees and fails otherwise. Only an
  // applied one moves the sequence number of its payment and clears the payment's failure code.
  lemma WebhookDecidedExactly(s: Store, e: EventId, payments: map<PaymentId, PaymentFacts>, stated: nat, reply: Reply,
                              facts: PaymentFacts)
    requires e in s.events && s.events[e].webhook in s.webhooks && payments.Keys == s.lastSequence.Keys
    requires (s.events[e].status.Pending? || s.events[e].status.Failed?) && s.events[e].availableAt <= s.clock
    requires var found := s.webhooks[s.events[e].webhook].payment;
             found.Some? && found.value in payments ==> payments[found.value] == facts
    ensures var verdict := VerdictOf(facts, stated, reply);
            var (after, result) := AfterProcessing(s, e, verdict);
            var w := s.events[e].webhook;
            var webhook := s.webhooks[w];
            && w in after.webhooks && after.webhooks == s.webhooks[w := webhook.(status := after.webhooks[w].status)]
            && var known := webhook.payment.Some? && webhook.payment.value in s.lastSequence;
               var ahead := known && s.lastSequence[webhook.payment.value] < webhook.sequence;
               && after.webhooks[w].status
                  == (if !webhook.status.Received? then webhook.status
                      else if !known then WebhookStatus.Failed
                      else if !ahead then Ignored
                      else if reply.Unavailable? then Received
                      else if Agrees(facts, stated, reply) then WebhookStatus.Processed
                      else WebhookStatus.Failed)
               && (result.Threw? <==> webhook.status.Received? && ahead && reply.Unavailable?)
               && var applied := webhook.status.Received? && ahead && Agrees(facts, stated, reply);
                  && after.lastSequence
                     == (if applied then s.lastSequence[webhook.payment.value := webhook.sequence] else s.lastSequence)
                  && Checked(s, payments, w, verdict)
                     == (if applied
                         then payments[webhook.payment.value := facts.(failure := NoFailure, checkedAt := Some(s.clock))]
                         else payments)
  {
    hide DelayMs;
    var webhook := s.webhooks[s.events[e].webhook];
    assert s.webhooks == s.webhooks[s.events[e].webhook := webhook];
    VerdictAgrees(facts, stated, reply);
    hide VerdictOf, Agrees;
  }

  lemma VerdictAgrees(facts: PaymentFacts, stated: nat, reply: Reply)
    ensures VerdictOf(facts, stated, reply)
         == if reply.Unavailable? then None else if Agrees(facts, stated, reply) then Some(Verified) else Some(Mismatch)
  {
  }

  // ---------- One uninterrupted processing is a run ----------

  function ProcessingSteps(s: Store, k: WorkerId, e: EventId, verdict: Option<Verdict>): seq<Step> {
    if e !in s.events || !Available(s.events[e], s.clock) then []
    else [Step.Claim(k, e), Read(k)] + HandlingSteps(s, k, s.events[e].webhook, verdict)
  }

  function HandlingSteps(s: Store, k: WorkerId, w: TransmissionId, verdict: Option<Verdict>): seq<Step> {
    if w !in s.webhooks || !s.webhooks[w].status.Received? then [Complete(k)]
    else
      var webhook := s.webhooks[w];
      if webhook.payment.None? || webhook.payment.value !in s.lastSequence
         || webhook.sequence <= s.lastSequence[webhook.payment.value]
      then [Finish(k), Complete(k)]
      else
        match verdict
        case None => [Fail(k)]
        case Some(v) => [Lookup(k, v), if v.Verified? then Commit(k) else Finish(k), Complete(k)]
  }

  lemma CompletedLeaves(s: Store, k: WorkerId, e: EventId)
    requires k in s.workers && s.workers[k].event == e && s.workers[k].phase.Handled?
    requires e in s.events && s.events[e].webhook in s.webhooks
    ensures Next(s, Complete(k))
         == s.(events := s.events[e := CompletedEvent(s.events[e])], workers := s.workers - {k})
  {
  }

  // From the state right after the claim.
  lemma HandlingIsARun(s: Store, k: WorkerId, e: EventId, verdict: Option<Verdict>)
    requires k in s.workers && s.workers[k].event == e && s.workers[k].phase.Claimed?
    requires e in s.events && s.events[e].webhook in s.webhooks && s.workers[k].attempts == s.events[e].attempts
    ensures var row := s.events[e];
            var steps := [Read(k)] + HandlingSteps(s, k, row.webhook, verdict);
            match Handling(s, row.webhook, verdict)
            case None =>
              Run(s, steps) == s.(events := s.events[e := FailedEvent(row, row.attempts, s.clock)], workers := s.workers - {k})
            case Some(after) =>
              Run(s, steps) == after.(events := s.events[e := CompletedEvent(row)], workers := s.workers - {k})
  {
    var w := s.events[e].webhook;
    var webhook := s.webhooks[w];
    var read := Next(s, Read(k));
    var steps := HandlingSteps(s, k, w, verdict);
    RunFirst(s, Read(k), steps);
    if !webhook.status.Received? {
      CompletedLeaves(read, k, e);
      RunOne(read, Complete(k));
    } else if webhook.payment.None? || webhook.payment.value !in s.lastSequence
              || webhook.sequence <= s.lastSequence[webhook.payment.value] {
      FinishIsARun(read, k, e);
    } else if verdict.None? {
      RunOne(read, Fail(k));
    } else {
      var looked := Next(read, Lookup(k, verdict.value));
      var last := if verdict.value.Verified? then Commit(k) else Finish(k);
      assert steps == [Lookup(k, verdict.value)] + [last, Complete(k)];
      RunFirst(read, Lookup(k, verdict.value), [last, Complete(k)]);
      if verdict.value.Verified? {
        CommitIsARun(looked, k, e);
      } else {
        FinishIsARun(looked, k, e);
      }
    }
  }

  lemma FinishIsARun(s: Store, k: WorkerId, e: EventId)
    requires k in s.workers && s.workers[k].event == e && s.workers[k].phase.Finishing?
    requires e in s.events && s.events[e].webhook in s.webhooks
    ensures Run(s, [Finish(k), Complete(k)])
         == WithStatus(s, s.events[e].webhook, s.workers[k].phase.status)
              .(events := s.events[e := CompletedEvent(s.events[e])], workers := s.workers - {k})
  {
    var finished := Next(s, Finish(k));
    assert [Finish(k), Complete(k)] == [Finish(k)] + [Complete(k)];
    RunFirst(s, Finish(k), [Complete(k)]);
    CompletedLeaves(finished, k, e);
    RunOne(finished, Complete(k));
    assert finished.workers - {k} == s.workers - {k};
  }

  lemma CommitIsARun(s: Store, k: WorkerId, e: EventId)
    requires k in s.workers && s.workers[k].event == e && s.workers[k].phase.Committing?
    requires e in s.events && s.events[e].webhook in s.webhooks && s.workers[k].phase.payment in s.lastSequence
    requires s.lastSequence[s.workers[k].phase.payment] < s.webhooks[s.events[e].webhook].sequence
    ensures var w, p := s.events[e].webhook, s.workers[k].phase.payment;
            var counted := s.(lastSequence := s.lastSequence[p := s.webhooks[w].sequence]);
            var done := CompletedEvent(s.events[e]);
            Run(s, [Commit(k), Complete(k)]) ==
              WithStatus(counted, w, WebhookStatus.Processed).(events := s.events[e := done], workers := s.workers - {k})
  {
    var finished := Next(s, Commit(k));
    assert [Commit(k), Complete(k)] == [Commit(k)] + [Complete(k)];
    RunFirst(s, Commit(k), [Complete(k)]);
    CompletedLeaves(finished, k, e);
    RunOne(finished, Complete(k));
    assert finished.workers - {k} == s.workers - {k};
  }

  lemma RunNone(s: Store)
    ensures Run(s, []) == s
  {
  }

  lemma ClaimedMine(s: Store, k: WorkerId, e: EventId)
    requires k !in s.workers && e in s.events && Available(s.events[e], s.clock)
    ensures var mine := AfterClaim(s, k, e);
            && Next(s, Step.Claim(k, e)) == mine
            && mine == s.(events := s.events[e := ClaimedEvent(s.events[e], s.clock)], workers := mine.workers)
            && k in mine.workers && mine.workers[k] == Worker(e, s.events[e].attempts + 1, Claimed)
            && mine.workers - {k} == s.workers
  {
  }

  lemma StepsAlike(s: Store, other: Store, k: WorkerId, w: TransmissionId, verdict: Option<Verdict>)
    requires other.webhooks == s.webhooks && other.lastSequence == s.lastSequence
    ensures HandlingSteps(other, k, w, verdict) == HandlingSteps(s, k, w, verdict)
  {
  }

  // What the worker does when nobody interferes is what its single steps do one after the other: its own
  // worker number is free before and after, and no other worker moves.
  lemma ProcessingIsARun(s: Store, k: WorkerId, e: EventId, verdict: Option<Verdict>)
    requires k !in s.workers && (e in s.events ==> s.events[e].webhook in s.webhooks)
    ensures AfterProcessing(s, e, verdict).0 == Run(s, ProcessingSteps(s, k, e, verdict))
  {
    hide Handling, HandlingSteps, Run, Available, FailedEvent;
    RunNone(s);
    if e in s.events && Available(s.events[e], s.clock) {
      var w, row := s.events[e].webhook, ClaimedEvent(s.events[e], s.clock);
      var mine := AfterClaim(s, k, e);
      var claimed := s.(events := s.events[e := row]);
      var rest := [Read(k)] + HandlingSteps(s, k, w, verdict);
      ClaimedMine(s, k, e);
      StepsAlike(s, mine, k, w, verdict);
      assert ProcessingSteps(s, k, e, verdict) == [Step.Claim(k, e)] + rest;
      RunFirst(s, Step.Claim(k, e), rest);
      HandlingIsARun(mine, k, e, verdict);
      HandlingIgnoresWorkers(claimed, mine, w, verdict);
      assert mine.events[e := CompletedEvent(row)] == s.events[e := CompletedEvent(row)];
      assert mine.events[e := FailedEvent(row, row.attempts, s.clock)] == s.events[e := FailedEvent(row, row.attempts, s.clock)];
    }
  }
}

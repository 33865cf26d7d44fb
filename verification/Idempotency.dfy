/** Exactly-once payment requests: once a call has been answered under a key, its repeats are inert. */
module Idempotency {
  import opened Rows
  import opened Deals
  import opened Market
  import opened DealChanges

  predicate Keyed(step: Step, k: IdempotencyKey) {
    (step.CreateOrder? || step.ConfirmPayment? || step.ReversePayment?) && step.key == k
  }

  function RequestOf(step: Step): Request
    requires step.CreateOrder? || step.ConfirmPayment? || step.ReversePayment?
  {
    match step
    case CreateOrder(user, t, _, _) => CreateOrderRequest(t, user)
    case ConfirmPayment(_, _, paymentKey, order, amount, _) => ConfirmRequest(paymentKey, order, amount)
    case ReversePayment(user, order, text, _, cancel) => ReverseRequest(order, text, user, cancel)
  }

  // What a call under a known key is told, from the stored operation alone.
  function Told(operation: Operation, request: Request): Outcome {
    if operation.request == request then Answered(operation.response) else Refused(IdempotencyKeyReused)
  }

  lemma AnswerIsRecorded(s: State, step: Step, k: IdempotencyKey, response: Response)
    requires Keyed(step, k) && Next(s, step).outcome == Answered(response)
    ensures ValidKey(k)
    ensures k in Next(s, step).state.operations
    ensures Next(s, step).state.operations[k] == Operation(RequestOf(step), response)
  {
    hide HasEntry, KeyTaken, OrderedDeal, CapturedDeal, VoidedDeal, RefundedDeal, Participant;
  }

  lemma RepeatIsInert(s: State, step: Step, k: IdempotencyKey)
    requires Keyed(step, k) && ValidKey(k) && k in s.operations
    ensures Next(s, step) == Result(s, Told(s.operations[k], RequestOf(step)))
  {
    hide HasEntry, KeyTaken, OrderedDeal, CapturedDeal, VoidedDeal, RefundedDeal, Participant, Recorded;
  }

  lemma OperationsPersist(s: State, step: Step, k: IdempotencyKey)
    requires k in s.operations
    ensures k in Next(s, step).state.operations && Next(s, step).state.operations[k] == s.operations[k]
  {
    if step.CreateOrder? || step.ConfirmPayment? || step.ReversePayment? {
      hide HasEntry, KeyTaken, OrderedDeal, CapturedDeal, VoidedDeal, RefundedDeal, Participant;
    } else {
      hide Next;
      Frame(s, step);
    }
  }

  function Outcomes(s: State, steps: seq<Step>): seq<Outcome>
    decreases |steps|
  {
    if steps == [] then [] else [Next(s, steps[0]).outcome] + Outcomes(Next(s, steps[0]).state, steps[1..])
  }

  // The run without the calls under one key.
  function Kept(steps: seq<Step>, k: IdempotencyKey): seq<Step> {
    if steps == [] then [] else (if Keyed(steps[0], k) then [] else [steps[0]]) + Kept(steps[1..], k)
  }

  // What the other callers were told in the full run.
  function KeptOutcomes(s: State, steps: seq<Step>, k: IdempotencyKey): seq<Outcome>
    decreases |steps|
  {
    if steps == [] then []
    else (if Keyed(steps[0], k) then [] else [Next(s, steps[0]).outcome])
         + KeptOutcomes(Next(s, steps[0]).state, steps[1..], k)
  }

  lemma {:induction false} RepeatsCanBeDropped(s: State, steps: seq<Step>, k: IdempotencyKey)
    requires ValidKey(k) && k in s.operations
    ensures Run(s, Kept(steps, k)) == Run(s, steps)
    ensures Outcomes(s, Kept(steps, k)) == KeptOutcomes(s, steps, k)
    ensures k in Run(s, steps).operations && Run(s, steps).operations[k] == s.operations[k]
    decreases |steps|
  {
    hide Next, Keyed;
    if steps != [] {
      OperationsPersist(s, steps[0], k);
      RepeatsCanBeDropped(Next(s, steps[0]).state, steps[1..], k);
      if Keyed(steps[0], k) {
        RepeatIsInert(s, steps[0], k);
        assert Kept(steps, k) == Kept(steps[1..], k);
        assert KeptOutcomes(s, steps, k) == KeptOutcomes(s, steps[1..], k);
      } else {
        var kept := Kept(steps, k);
        assert kept[0] == steps[0] && kept[1..] == Kept(steps[1..], k);
      }
    }
  }

  // From any state and for any run that follows an answered call: leaving out everything else under its
  // key gives the same final state and the same answers to everyone else; at any point of that run a
  // repeat gets the first answer and changes nothing, and any other request under the key is refused
  // and changes nothing.
  lemma ExactlyOnce(s: State, first: Step, k: IdempotencyKey, response: Response, steps: seq<Step>, again: Step)
    requires Keyed(first, k) && Next(s, first).outcome == Answered(response) && Keyed(again, k)
    ensures var after := Next(s, first).state;
            && Run(after, steps) == Run(after, Kept(steps, k))
            && KeptOutcomes(after, steps, k) == Outcomes(after, Kept(steps, k))
            && Next(Run(after, steps), again).state == Run(after, steps)
            && Next(Run(after, steps), again).outcome ==
                 if RequestOf(again) == RequestOf(first) then Answered(response) else Refused(IdempotencyKeyReused)
  {
    hide Next, Run, Keyed;
    AnswerIsRecorded(s, first, k, response);
    var after := Next(s, first).state;
    RepeatsCanBeDropped(after, steps, k);
    RepeatIsInert(Run(after, steps), again, k);
  }
}

# Escrow of the neighbourhood market: model and proofs

This project models how the market moves a trade, its product and its money, and proves what always holds
of them. The API services (trades, payments, products, administration), the worker's loops and the payment
provider's in-memory sandbox all rewrite the same rows; nowhere does the program state what these rows
have in common. Here that is stated and proved over every run.

`dafny verify dfyconfig.toml` checks everything.

## How it is organised

* `Rows`, `Deals`, `Toss`, `Market` — the rows, what each operation does to the rows of one trade, the
  provider's records, and the whole market as one state machine: `Next` is one service call or one worker
  transaction, `Run` any sequence of them. A `Deal` is everything kept about one trade: trade row, history,
  payment, ledger, settlement claims in flight, payout transfers.
* `Services`, `SettlementLoop`, `TradeMaintenance` — the services and the worker's loops as they are written,
  statement by statement on mutable tables, each proved to do exactly what its step says.
* `DealInvariant`, `DealChanges`, `MarketInvariant` — the inductive invariant. `StepActs` is the one case
  analysis over all steps: it names the change a step makes to a trade; properties of single trades are
  then proved change by change.
* `Acceptance`, `PaymentCalls` — which calls are accepted, as equivalences, and what they then write, in the
  columns of the rows; `Refusals` — what an error says is so. `Actors` — who
  moved a trade, read off its history in every run.
* `Escrow`, `Refunds`, `Reservation`, `SettlementRuns`, `TimeGates`, `SettlementBatch`, `Idempotency`,
  `Maintenance` — the results over whole runs. `Examples` holds runs that show where expectations fail.
* `Outbox`, `WebhookOrder`, `BackOff`, `PaymentEvents` — the transactional outbox with interleaved, crashing
  and overtaken workers, the webhook sequence, the retry delays, and the worker as it is written.
* `ChatState`, `LoginThrottle`, `Pagination`, `Sorting` — the chat list, the login throttle, the product list.

## What the model takes as given

* A service call is one atomic step, checks and provider call included; a worker's transaction is one step.
  Settlement is modelled at two grains: claim to record as one step, and claim, payout, record, failure and
  crash of a worker as separate steps. Each result says which runs it speaks of; without a word it is all.
* Time never runs backwards. A loop stamps its work with the time it started, which is not in the future;
  between start and transaction any other steps may happen.
* Identifiers, payment keys and times are numbers, times in milliseconds; amounts are whole won. The payment
  id is collapsed with its unique order id, and payments are found by their unique trade. Texts and
  idempotency keys are taken after trimming. Request hashes are the requests themselves.
* The facts that a user is blocked, has a neighbourhood, or lives nearby are inputs of a request, as is the
  new row's id. A payout attempt ends in one of four ways: sandbox release, paid, failed before paying,
  failed after paying. The payout provider transfers on the first request under a payment's key only.
* The sandbox provider keeps its records; it does not restart. A lookup of the outbox worker may give any
  verdict, and a webhook's raw body is represented by its validity, payment, sequence and stated amount.
* For the reservation results only: visibility is changed only while no trade holds the product.
* Column defaults and unique keys are those of the schema in
  packages/database/prisma/generated/internal/class.ts:23.
* A page of the product list holds at least one product, as input validation demands.
* `localeCompare` is a strict total order on ids, so ids are numbered in that order; `createdAt` parses.

## Where the code and its documentation part

* Requirement PAY-015 stops settlement once a dispute or refund is accepted. The code does so exactly when
  no claim is in flight (`SettlementRuns.DisputeStopsSettlementExactly`, `Examples.DisputedPaymentIsSettled`);
  in the payment row this can be read as settlementStatus not being PROCESSING
  (`SettlementRuns.DisputeOutsideProcessingStops`).
* Requirement PAY-014 gives the buyer seven days for a refund. The code checks neither the role nor the window
  (`PaymentCalls.RefundAnsweredExactly`). A refund leaves the account at zero for good exactly when the payment is
  neither settled nor claimed at the call (`Refunds.RefundEndsAtZeroExactly`). That is always so before the
  seven days are over, but not at their last instant, when the payment may already be settled
  (`Refunds.RefundInWindowEndsAtZero`, `Examples.SettledPaymentIsRefunded`).
* The ledger records only what was recorded: after a payout that was made but not recorded, a refund leaves it
  at zero while both sides have the money. `Refunds.CashNegativeExactly` and `Refunds.RefundKeepsCashExactly`
  state when real money is missing (`Examples.UnrecordedPayoutIsRefunded`).
* A claim given up by a crashed worker is never taken up again: its payment stays PROCESSING unsettled
  (`SettlementRuns.HeldSettlesExactlyInFlight`).
* Changing a product's visibility does not look at RESERVED or SOLD; it breaks the reservations exactly when a
  trade holds the product (`Reservation.VisibilityKeepsExactly`, `Reservation.UnguardedVisibilitySellsTwice`).
* The two deadline loops commute even without distinct products (`Maintenance.SweepsCommute`).
* A batch records the time it started as settledAt. If it claims what a later batch has marked ready, that is
  before the end of the hold (`Examples.SettlementIsStampedBeforeTheHold`); it is past the hold exactly when
  settlementAvailableAt is not after the stamp (`TimeGates.ClaimIsPastHoldExactly`), as it is whenever batches do
  not overtake one another. That a payment was confirmed seven days before it is settled holds in all runs
  (`SettlementRuns.ReleaseWaits`).
* The limit of ten attempts holds for an event whose claims are not taken away as stale and that is not started
  over. Each such reset adds one attempt, and so does every worker still on the event when an administrator
  starts it over (`BackOff.AttemptsAreBounded`, `BackOff.ResetsAllowMoreAttempts`,
  `BackOff.RetryInFlightAllowsAnotherAttempt`).

## Model

| member | source | states |
|---|---|---|
| Escrow.LedgerAgreesWithPayment | apps/api/src/payments/payment.service.ts:156-177 | in every reachable state the ledger rows of a payment sum to amount × ([approved] − [cancelled after approval] − [refunded] − [settled]); one row for each of these things, none for anything else, each of the full amount with its sign |
| Escrow.NegativeBalanceExactly | apps/api/src/payments/payment.service.ts:209-227 | the balance is below zero exactly for a refunded payment of a positive amount that was also settled, and never below minus the amount |
| Examples.SettledPaymentIsRefunded | apps/api/src/payments/payment.service.ts:209-227 | a concrete run from the empty market: at the last instant of the seven days after the confirmation the payment is settled (balance 0), its refund is answered, and the balance is −100 |
| Examples.UnrecordedPayoutIsRefunded | apps/worker/src/settlement-maintenance.ts:32-56 | a concrete run in which a payout is made but not recorded and the payment then refunded: the ledger is at zero, the real money at −100 |
| PaymentCalls.RefundAnsweredExactly | apps/api/src/payments/payment.service.ts:192-270 | under the invariant, for a fresh well-formed key: a refund is answered if and only if the payment is approved, the caller is one of the two parties and the trade is CONFIRMED or DISPUTED; neither a window nor the caller's role is checked. What the answer contains, the payment, trade, ledger and provider rows it leaves; a refused one changes nothing |
| PaymentCalls.CancellationAnsweredExactly | apps/api/src/payments/payment.service.ts:192-270 | the same for a cancellation: if and only if the buyer of an ACCEPTED trade asks for an approved payment no later than seven days after its approval; it also cancels the trade and puts the product back on offer |
| PaymentCalls.ConfirmationAnsweredExactly | apps/api/src/payments/payment.service.ts:132-182 | under the invariant, for a fresh well-formed key: a confirmation is answered if and only if it states the payment's own order and amount, comes from the buyer, the payment is READY, its trade ACCEPTED, the product RESERVED, and the provider knows the key not at all or as a DONE record of this order and amount. It then approves the payment and captures exactly that amount; a refused one changes nothing, at the provider neither |
| PaymentCalls.OrderAnsweredExactly | apps/api/src/payments/payment.service.ts:96-130 | for a fresh well-formed key: a payment order is answered if and only if the caller is the buyer of an ACCEPTED trade without an order whose product is RESERVED and the order id is new; the order is READY, in HOLD, for the price of the trade |
| PaymentCalls.MalformedKeysAreRefused | apps/api/src/payments/payment.service.ts:40-46 | a key shorter than 8 or longer than 200 characters is refused by every payment call, which then changes nothing |
| Refunds.RefundEndsAtZeroExactly | apps/api/src/payments/payment.service.ts:232-265 | for an answered fresh refund of a positive amount: the balance is zero in every continuation if and only if, at the call, the payment is not settled and no claim on it is in flight |
| Refunds.RefundInWindowEndsAtZero | apps/api/src/payments/payment.service.ts:232-265 | hence an answered refund strictly before the seven days are over leaves the account at zero for ever, nothing is settled and nothing more is paid out |
| Refunds.CashNegativeExactly | apps/worker/src/settlement-maintenance.ts:61-79 | what the card provider still holds less what was transferred: its exact value, and negative exactly for a refunded payment of a positive amount that was also paid out, whatever the ledger says |
| Refunds.RefundKeepsCashExactly | apps/api/src/payments/payment.service.ts:232-265 | for an answered fresh refund of a positive amount: no real money is missing in any continuation if and only if, at the call, nothing was paid out and no claim is in flight |
| Escrow.UniqueIndexesNeverFire | apps/api/src/payments/payment.service.ts:156-177 | no step of any run is refused by the unique index on (payment, entry type) or on payment keys, and a settlement attempt that reaches its transaction always records it |
| Escrow.FinishRecords | apps/worker/src/settlement-maintenance.ts:34-50 | under the invariant the settlement transaction of a claim in flight succeeds |
| PaymentCalls.ReconciledExactly | apps/api/src/admin/admin.service.ts:124-143 | under the invariant reconciliation is open to exactly the payments that were ever approved, always reports a match, clears the failure code, notes the time and changes nothing else |
| PaymentCalls.WebhookNotedExactly | apps/worker/src/payment-events.ts:84-88 | a verified webhook clears the failure code of the payment of its order, notes the time, and changes nothing else |
| Escrow.PaymentKeysAreUnique | apps/api/src/payments/payment.service.ts:152-166 | no two payments of a reachable state hold the same provider key |
| Escrow.ReversalFindsItsRecord | apps/api/src/payments/payment.service.ts:230-233 | neither cancellation nor refund ever meets a missing provider record |
| Escrow.TradeAndPaymentCohere | apps/api/src/trades/trade.service.ts:147-185 | DELIVERED or CONFIRMED implies APPROVED; REFUNDED implies DISPUTED; payment CANCELLED iff trade CANCELLED; READY implies ACCEPTED or DISPUTED; settled implies CONFIRMED or DISPUTED; the amount is the trade's price |
| Escrow.ConfirmationIsAlwaysPaid | apps/worker/src/trade-maintenance.ts:7-38 | the payment check of the buyer's confirmation never fires; the deadline, which checks no payment, confirms only approved payments and starts exactly their hold |
| Escrow.ChainReplays | apps/api/src/trades/trade.service.ts:77-79 | a history whose rows link end to end along legal edges replays to its last target and has no more rows than that status allows |
| Escrow.HistoryReplaysToStatus | apps/api/src/trades/trade.service.ts:111-127 | every history of a reachable trade replays to its current status, has between one and five rows, and its last row carries updatedAt |
| Escrow.StepExtends | apps/api/src/payments/payment.service.ts:235-265 | a step appends at most one history row, appends one whenever it changes the status, never rewrites history, ledger or transfers, and never changes product, parties, price, order or amount |
| Escrow.TradesTerminate | apps/api/src/trades/trade.service.ts:187-246 | however a reachable market goes on, a trade changes status at most four more times and what its history and ledger say stays |
| Escrow.EveryTradeHasItsRoom | apps/api/src/trades/trade.service.ts:80-97 | every trade of a reachable market has the chat room of its product, buyer and seller, and no room is ever taken away |
| MarketInvariant.NextKeeps | apps/api/src/payments/payment.service.ts:132-270 | every step keeps the invariant: all trade rows sound, the order index exact, the provider's records and the payments in agreement |
| MarketInvariant.Reachable | apps/api/src/payments/payment.service.ts:132-270 | the invariant holds after every run from the empty market |
| DealChanges.StepActs | apps/worker/src/trade-maintenance.ts:7-38 | every step does to an existing trade exactly one permitted change of its rows, or none |
| DealChanges.Frame | apps/api/src/trades/trade.service.ts:48-131 | only a tick moves the clock, no product and no room disappears, only a request makes a trade or a room, and only the payment calls touch orders, stored answers and the provider |
| DealChanges.OtherTradesStay | apps/api/src/trades/trade.service.ts:104-131 | a step leaves every trade unchanged that it is not about: the named one, competitors of an accepted one, the one of the order, those whose hold has expired |
| DealChanges.OtherProductsStay | apps/api/src/payments/payment.service.ts:244-249 | a step leaves every product unchanged but the named one or the one of the trade it moves |
| Refusals.RefusalsAreJustified | apps/api/src/payments/payment.service.ts:132-230 | in every reachable state, for every call of the trade, product and payment services: the error of a refused call is one of that call's own and what it says is the case — the caller's part, the status, the amount, the window, the key; neither a unique index of the ledger or the payment keys nor a missing provider record is ever among them |
| Actors.HistoryNamesWhoMay | apps/api/src/trades/trade.service.ts:166-206 | in every run, read off the history rows: a request is signed by the buyer; acceptance, rejection and delivery by the seller; a confirmation by the buyer, or by nobody with the deadline's reason; a dispute by one of the two; a cancellation by one of the two, or by nobody with the reason of the unpaid timeout |
| Actors.DatesMatchHistory | apps/api/src/trades/trade.service.ts:133-246 | in every run the dates and the reason of a trade are those of the history rows written beside them |
| Actors.SellerIsAuthor | apps/api/src/trades/trade.service.ts:48-98 | in every run the seller of a trade is the author of its product |
| Acceptance.RequestAcceptedExactly | apps/api/src/trades/trade.service.ts:48-98 | a request is accepted if and only if the product is ACTIVE and somebody else's, nobody is blocked, the buyer's neighbourhood is near, and the buyer has no purchase of it that is REQUESTED, ACCEPTED, DELIVERED or DISPUTED; the trade and the room it makes |
| Acceptance.OneOpenPurchase | apps/api/src/trades/trade.service.ts:68-76 | in every run, with visibility changed at any time, a buyer has at most one purchase of a product that is REQUESTED, ACCEPTED or DELIVERED |
| Acceptance.AcceptAcceptedExactly | apps/api/src/trades/trade.service.ts:104-131 | acceptance goes through if and only if the caller is the seller of a REQUESTED trade and its product is ACTIVE; the product is RESERVED, every other request for it REJECTED, every other trade unchanged |
| Acceptance.RejectAcceptedExactly | apps/api/src/trades/trade.service.ts:133-145 | rejection goes through exactly for the seller of a REQUESTED trade, with the stated reason |
| Acceptance.DeliverAcceptedExactly | apps/api/src/trades/trade.service.ts:147-164 | delivery goes through exactly for the seller of an ACCEPTED trade with an approved payment; the deadline is seven days later |
| Acceptance.ConfirmAcceptedExactly | apps/api/src/trades/trade.service.ts:166-185 | under the invariant confirmation goes through exactly for the buyer of a DELIVERED trade; the product is SOLD and the payment held for seven days |
| Acceptance.DisputeAcceptedExactly | apps/api/src/trades/trade.service.ts:187-206 | a dispute goes through exactly for one of the two parties of an ACCEPTED, DELIVERED or CONFIRMED trade, and pauses the settlement, whatever its state |
| Acceptance.CancelAcceptedExactly | apps/api/src/trades/trade.service.ts:208-246 | under the invariant cancellation goes through exactly for one of the two parties of a REQUESTED or ACCEPTED trade whose payment is not approved; an order is closed, and only an accepted trade gives a RESERVED product back |
| Acceptance.DeadlineConfirmsExactly | apps/worker/src/trade-maintenance.ts:13-36 | under the invariant a pass confirms a trade if and only if it is still DELIVERED and was delivered at least seven days before |
| Acceptance.ExpiryCancelsExactly | apps/worker/src/trade-maintenance.ts:40-86 | under the invariant a pass cancels a trade if and only if it is ACCEPTED without a payment order and its acceptance is at least seven days old |
| Acceptance.PriceEditedExactly | apps/api/src/products/product.service.ts:83-92 | the price changes exactly for the owner of a product neither deleted nor RESERVED, and nothing else does |
| Acceptance.VisibilityChangedExactly | apps/api/src/products/product.service.ts:94-101 | the status becomes ACTIVE or HIDDEN exactly for the owner of a product not deleted, whatever it was |
| Acceptance.RemovedExactly | apps/api/src/products/product.service.ts:103-114 | a product is deleted exactly for its owner, unless it is deleted or RESERVED or has a REQUESTED, ACCEPTED, DELIVERED or DISPUTED trade |
| Reservation.ReservationsExclude | apps/api/src/trades/trade.service.ts:104-131 | in every run that changes visibility only of products nobody holds: at most one trade in ACCEPTED, DELIVERED, CONFIRMED or DISPUTED per product, exactly one iff RESERVED or SOLD, none when ACTIVE or HIDDEN, and no open request on RESERVED, SOLD or DELETED products |
| Reservation.RunKeepsReservations | apps/api/src/payments/payment.service.ts:244-249 | the reservation invariant survives every such run from any state that has it |
| Reservation.VisibilityKeepsExactly | apps/api/src/products/product.service.ts:94-101 | showing or hiding a product keeps the reservation invariant if and only if no trade holds the product |
| Reservation.HolderShowsInStatus | apps/api/src/admin/admin.service.ts:159-166 | under the invariant a product that is not deleted is held exactly when its status is RESERVED or SOLD, so a guard on the status would be enough |
| Reservation.UnguardedVisibilitySellsTwice | apps/api/src/products/product.service.ts:94-101 | whenever a trade is accepted, showing the product again lets the seller accept a second buyer: two trades then hold one product |
| Reservation.AcceptedTradeReached | apps/api/src/trades/trade.service.ts:104-131 | such a state is reached by three calls from the empty market |
| Reservation.PayableTradeIsReserved | apps/api/src/payments/payment.service.ts:116-117 | in disciplined runs the product of an ACCEPTED trade is RESERVED, so the product check of the payment calls never fires |
| Reservation.AcceptReserves | apps/api/src/trades/trade.service.ts:104-131 | acceptance keeps the reservation invariant: the accepted trade becomes the only holder and every competing request is rejected |
| SettlementRuns.NeverPaidTwice | apps/worker/src/settlement-maintenance.ts:26-57 | with claim, payout, record and failure as separate interleaved steps: at most one claim in flight, never a second transfer nor one of another amount, recorded as paid by the provider only after exactly one transfer of the amount |
| SettlementRuns.SettledExactlyOnce | apps/worker/src/settlement-maintenance.ts:34-50 | a settled payment has exactly one settlement row of its full amount, and in every continuation it is never claimable, never settled anew and never paid again |
| SettlementRuns.DisputeStopsSettlementExactly | apps/api/src/trades/trade.service.ts:187-206 | after an accepted dispute or refund of an unsettled payment some continuation settles it if and only if a claim was in flight when it was accepted |
| SettlementRuns.HeldSettlesExactlyInFlight | apps/worker/src/settlement-maintenance.ts:26-57 | an unsettled payment that is PAUSED or PROCESSING can still be settled if and only if a worker holds a claim on it; PROCESSING left by a crashed worker never settles |
| SettlementRuns.DisputeOutsideProcessingStops | apps/api/src/trades/trade.service.ts:187-206 | readable in the payment row: after a dispute accepted while settlementStatus is not PROCESSING, or a refund while it is neither PROCESSING nor PAUSED, nothing ever settles |
| Examples.DisputedPaymentIsSettled | apps/worker/src/settlement-maintenance.ts:26-50 | a concrete run from the empty market in which a dispute is accepted while a claim is in flight and the worker then records the settlement |
| SettlementRuns.StaleDueListIsHarmless | apps/worker/src/settlement-maintenance.ts:15-31 | when claim to record is one step: the claim's one-column check accepts exactly the payments the whole due filter accepts, and none that is settled |
| SettlementRuns.NothingSettlesAfterDispute | apps/worker/src/settlement-maintenance.ts:26-31 | in such runs nothing is settled or paid out after a dispute, a cancellation or a refund, whatever follows |
| SettlementRuns.ReleaseWaits | apps/api/src/trades/trade.service.ts:155-180 | a payment released, in flight or settled was confirmed at least seven days ago; if the deadline confirmed it, delivered at least fourteen days ago |
| TimeGates.SettlementTimeIsPastTheHold | apps/worker/src/settlement-maintenance.ts:4-13 | in runs that claim a payment only when its settlementAvailableAt is not after the claim's stamp, settledAt is at least confirmedAt + 7 days, and deliveredAt + 14 days after confirmation by the deadline |
| TimeGates.ClaimIsPastHoldExactly | apps/worker/src/settlement-maintenance.ts:26-50 | at a claim in a reachable state: every settlement ever recorded under it is past the hold if and only if settlementAvailableAt is not after its stamp |
| TimeGates.BatchesInOrderSettlePastTheHold | apps/worker/src/settlement-maintenance.ts:4-50 | in runs in which no batch claims that started before another batch that already marked payments ready, every recorded settlement is past the hold |
| Examples.SettlementIsStampedBeforeTheHold | apps/worker/src/settlement-maintenance.ts:4-50 | a concrete run in which an earlier batch claims what a later one marked ready: settledAt is before settlementAvailableAt |
| SettlementRuns.ExpiryWaited | apps/worker/src/trade-maintenance.ts:40-71 | a trade cancelled as unpaid was accepted at least seven days before, never had a payment order, and updatedAt is the time of its last history row |
| SettlementBatch.MarkingIsExact | apps/worker/src/settlement-maintenance.ts:5-13 | marking releases every hold that is over: each APPROVED payment in HOLD of a CONFIRMED trade with settlementAvailableAt not after the batch's time becomes READY, and nothing else changes |
| SettlementBatch.PassTakesAllOwed | apps/worker/src/settlement-maintenance.ts:4-24 | a pass takes at most fifty, only payments that before it were APPROVED, of a CONFIRMED trade, and in an expired HOLD, READY or FAILED; below fifty it takes all of them; whoever is passed over becomes available no earlier than those taken |
| SettlementBatch.PassPaysAllOwed | apps/worker/src/settlement-maintenance.ts:4-59 | under the invariant, from the state before a pass of fewer than fifty to the state after it: every owed payment is settled in full with its ledger row, mode and time, or FAILED with its ledger unchanged, as its payout goes; every other deal is unchanged |
| SettlementBatch.ClaimTakenExactly | apps/worker/src/settlement-maintenance.ts:26-30 | the claim is taken exactly on a payment that is READY or FAILED, and never twice in a row |
| SettlementBatch.AttemptEndsExactly | apps/worker/src/settlement-maintenance.ts:32-56 | under the invariant the two ways an attempt ends: recorded as settled in full at its batch's time, or FAILED and claimable again |
| SettlementBatch.BatchIsExact | apps/worker/src/settlement-maintenance.ts:24-59 | working through any list of distinct due payments settles exactly those whose payout succeeds, marks exactly the others FAILED, touches nothing else, and counts exactly |
| SettlementBatch.BatchOrderIsIrrelevant | apps/worker/src/settlement-maintenance.ts:22-25 | the order of the due list does not change the final state nor the count |
| SettlementBatch.PassIsExact | apps/worker/src/settlement-maintenance.ts:24-59 | after a pass a settled payment has balance zero and settledAt at the batch's time, a failed one is still due with its ledger unchanged, every other trade is untouched |
| SettlementBatch.ReadyIsSound | apps/worker/src/settlement-maintenance.ts:5-13 | in a reachable market the state after marking holds ready satisfies the invariant the batch results start from |
| SettlementBatch.AttemptLeaves | apps/worker/src/settlement-maintenance.ts:26-57 | claim, payout and record of one payment leave a settlement row of the full amount or a failure, and no claim |
| SettlementLoop.ProcessDueSettlements | apps/worker/src/settlement-maintenance.ts:4-59 | marks expired holds ready, takes at most fifty due payments passing over none for a later one, and below fifty every payment owed before the pass; settles them in turn; returned counts are exact |
| SettlementLoop.FindDue | apps/worker/src/settlement-maintenance.ts:15-24 | returns distinct due payments, earliest settlementAvailableAt first, at most fifty, leaving out a due one only when fifty no later ones are taken |
| SettlementLoop.SettleInTurn | apps/worker/src/settlement-maintenance.ts:24-58 | the loop body folded over the list, counting the settled ones |
| SettlementLoop.MarkReady | apps/worker/src/settlement-maintenance.ts:5-13 | the bulk release, column by column: exactly the expired holds of approved payments of confirmed trades become READY |
| SettlementLoop.ClaimSettlement | apps/worker/src/settlement-maintenance.ts:26-30 | the conditional claim: READY or FAILED to PROCESSING, clearing the failure |
| SettlementLoop.RequestPayout | apps/worker/src/settlement-maintenance.ts:61-79 | the payout request to a provider that honours the idempotency key, in sandbox and provider mode, with failures before and after the transfer |
| SettlementLoop.RecordSettlement | apps/worker/src/settlement-maintenance.ts:34-50 | the transaction of ledger row and payment row; an existing settlement row turns the attempt into a failure |
| SettlementLoop.RecordFailure | apps/worker/src/settlement-maintenance.ts:51-56 | the failed attempt: FAILED with a failure code, the claim given up |
| SettlementLoop.SettleOne | apps/worker/src/settlement-maintenance.ts:26-57 | one pass of the loop body |
| Idempotency.ExactlyOnce | apps/api/src/payments/payment.service.ts:71-109 | after a payment call was answered under a key: leaving out every later call under that key gives the same final state and the same answers to everyone else; a repeat gets the first response and changes nothing; another request under the key is refused and changes nothing |
| Idempotency.RepeatsCanBeDropped | apps/api/src/payments/payment.service.ts:138-141 | the same for any state that already stores the key, with the stored operation unchanged |
| Idempotency.RepeatIsInert | apps/api/src/payments/payment.service.ts:71-78 | a call under a stored key changes nothing and is told the stored response or the refusal |
| Idempotency.AnswerIsRecorded | apps/api/src/payments/payment.service.ts:80-94 | an answered call has a well-formed key and stores its request with its response |
| Idempotency.OperationsPersist | apps/api/src/payments/payment.service.ts:80-94 | no step removes or changes a stored operation |
| Maintenance.SweepsCommute | apps/worker/src/main.ts:46-50 | any interleaving and repetition of the per-trade transactions of both deadline loops gives one final state, and both counts are exact |
| Maintenance.NoDueTradeRemains | apps/worker/src/trade-maintenance.ts:7-89 | when the lists contain every due trade, no due trade of either kind remains |
| Maintenance.ConfirmSweeps | apps/worker/src/trade-maintenance.ts:13-36 | one confirmation transaction extends the closed form by its trade and reports a change exactly when the trade was due and not yet done |
| Maintenance.ExpireSweeps | apps/worker/src/trade-maintenance.ts:51-86 | the same for one cancellation transaction |
| TradeMaintenance.ConfirmDueTrades | apps/worker/src/trade-maintenance.ts:7-38 | confirms every delivered trade whose deadline has passed and no other, returns their number, leaves none due |
| TradeMaintenance.CancelExpiredUnpaidTrades | apps/worker/src/trade-maintenance.ts:40-89 | cancels every accepted unpaid trade older than seven days and no other, returns their number, leaves none due |
| Services.Database.constructor | apps/api/src/payments/payment.service.ts:37-38 | the empty market |
| Services.Database.Request | apps/api/src/trades/trade.service.ts:48-98 | the checks in order, the trade at the product's price, the first history row, and the chat room of product, buyer and seller |
| Services.Database.Accept | apps/api/src/trades/trade.service.ts:104-131 | reserves the product if ACTIVE, accepts the trade, rejects all competitors with history rows |
| Services.Database.RejectCompeting | apps/api/src/trades/trade.service.ts:112-127 | the bulk rejection of every other open request of the product, and nothing else |
| Services.Database.Reject | apps/api/src/trades/trade.service.ts:133-145 | rejection by the seller |
| Services.Database.Deliver | apps/api/src/trades/trade.service.ts:147-164 | delivery of a paid trade with its deadline seven days later |
| Services.Database.Confirm | apps/api/src/trades/trade.service.ts:166-185 | confirmation: product SOLD, hold of seven days started |
| Services.Database.Dispute | apps/api/src/trades/trade.service.ts:187-206 | dispute by either side; the settlement is paused |
| Services.Database.Cancel | apps/api/src/trades/trade.service.ts:208-246 | cancellation: releases a reserved product, closes an unapproved payment, refuses an approved one |
| Services.Database.ClosePayment | apps/api/src/trades/trade.service.ts:225-237 | the conditional closing of a payment order not approved |
| Services.Database.AutoConfirm | apps/api/src/trades/trade.service.ts:279-293 | the confirmation transaction of one due trade (same statements in both services) |
| Services.Database.ExpireUnpaid | apps/worker/src/trade-maintenance.ts:51-86 | the cancellation transaction of one expired unpaid trade |
| Services.Database.Replay | apps/api/src/payments/payment.service.ts:40-46 | refusal of malformed or reused keys, the stored answer otherwise |
| Services.Database.Record | apps/api/src/payments/payment.service.ts:80-94 | the stored operation and its response |
| Services.Database.CreateOrder | apps/api/src/payments/payment.service.ts:96-130 | one payment order for the price of an accepted trade of the buyer |
| Services.Database.ConfirmPayment | apps/api/src/payments/payment.service.ts:132-182 | all checks in order, the provider call, then the capture |
| Services.Database.Capture | apps/api/src/payments/payment.service.ts:156-181 | the capture transaction: payment APPROVED with its key, ledger row, stored answer; unique indexes refuse it as a whole |
| Services.Database.Reverse | apps/api/src/payments/payment.service.ts:192-270 | cancellation and refund: all checks in order, the provider call, then the rows |
| Services.Database.VoidPayment | apps/api/src/payments/payment.service.ts:236-265 | the rows of a cancellation: payment, trade, product back to ACTIVE, history, ledger |
| Services.Database.RefundPayment | apps/api/src/payments/payment.service.ts:236-265 | the rows of a refund; a trade already in dispute keeps its row and history |
| Services.Database.ReconcilePayment | apps/api/src/admin/admin.service.ts:124-143 | compares the payment with the provider's record and notes the result and the time |
| Services.Database.NoteVerifiedWebhook | apps/worker/src/payment-events.ts:84-88 | a verified webhook clears the failure code of its payment and notes the time of the check |
| Services.Database.CreateProduct | apps/api/src/products/product.service.ts:65-81 | a new product on offer |
| Services.Database.EditPrice | apps/api/src/products/product.service.ts:83-92 | the owner's price change, refused on a RESERVED product |
| Services.Database.SetStatus | apps/api/src/products/product.service.ts:94-101 | the owner's visibility change, which does not look at the current status |
| Services.Database.HideProduct | apps/api/src/admin/admin.service.ts:159-166 | the administrator's hiding, likewise |
| Services.Database.RemoveProduct | apps/api/src/products/product.service.ts:103-114 | deletion, refused while RESERVED or with an open trade |
| Toss.Sandbox.Confirm | apps/api/src/payments/toss-sandbox.adapter.ts:79-85 | returns the record of a known key unchanged, stores a DONE record otherwise |
| Toss.Sandbox.Cancel | apps/api/src/payments/toss-sandbox.adapter.ts:95-102 | marks a known record CANCELED, keeping order and amount; unknown keys change nothing |
| Toss.Sandbox.Refund | apps/api/src/payments/toss-sandbox.adapter.ts:108-115 | marks a known record REFUNDED, keeping order and amount; unknown keys change nothing |
| Toss.FirstConfirmationStands | apps/api/src/payments/toss-sandbox.adapter.ts:79-125 | whatever calls follow the first confirmation of a key, a lookup finds its order and amount, and the status of the last reversal; confirming again changes nothing |
| PaymentEvents.ProcessingEndsExactly | apps/worker/src/payment-events.ts:31-59 | an event that can be claimed is worked off or fails: worked off it is PROCESSED and its webhook has left RECEIVED; failed it is FAILED, or DEAD_LETTER from the tenth attempt on, and nothing is written to its webhook; its claim is gone in any case; one that cannot be claimed is untouched |
| PaymentEvents.WebhookDecidedExactly | apps/worker/src/payment-events.ts:62-98 | what becomes of a webhook: FAILED without a payment, IGNORED if not ahead of the payment's number, waiting if the provider cannot be asked, PROCESSED exactly if order, both amounts and status agree with the payment row, FAILED otherwise; only a processed one moves the number and clears the payment's failure code |
| Outbox.ProcessingExactlyWhileClaimed | apps/worker/src/payment-events.ts:17-59 | in every run, zombies, resets and retries included, an event is PROCESSING if and only if its claimedAt is set, and then to no later than now |
| Outbox.ClaimableLaterExactly | apps/worker/src/payment-events.ts:17-36 | in every run: some time later, after the reset query, an event can be claimed if and only if it is PENDING or FAILED and due by then, or PROCESSING under a claim that is five minutes old by then |
| Outbox.NoEventIsStranded | apps/worker/src/payment-events.ts:17-36 | in every run: for every event neither PROCESSED nor given up there is a time after which, with one reset query, it can be claimed again |
| Outbox.ReceiptStores | apps/api/src/payments/payment.service.ts:325-353 | a valid webhook under a new transmission number is stored with its sequence and the payment found for it, with one event due at once for a first attempt; nothing else changes |
| Outbox.WebhookKeepsPayment | apps/api/src/payments/payment.service.ts:325-353 | whatever comes before and after, a stored webhook keeps the payment it was found for, its sequence and its event |
| Outbox.RetryStartsOver | apps/api/src/admin/admin.service.ts:112-122 | an administrator's retry makes an event PENDING, due at once, with no attempts and no claim, and changes nothing else |
| Outbox.NoWebhookIsLost | apps/api/src/payments/payment.service.ts:331-353 | under every interleaving of claims, reads, lookups, writes, failures, crashes, stale resets (with the old worker going on) and administrator's retries: every valid stored webhook has exactly one event, PROCESSED only if the webhook has left RECEIVED |
| Outbox.NextGrows | apps/worker/src/payment-events.ts:87-98 | no step loses a row, reopens a decided webhook or lowers a sequence number |
| Outbox.RunKeepsWebhooks | apps/worker/src/payment-events.ts:17-66 | both invariants survive every run |
| BackOff.RetriesAreBounded | apps/worker/src/payment-events.ts:31-59 | while no reset finds the event stale and nobody starts it over, whatever happens to other events: at most ten attempts, FAILED only below ten, dead letter only at ten, at least 2^n − 2 seconds from the first to the n-th claim, 1022 seconds before the dead letter |
| BackOff.AttemptsAreBounded | apps/worker/src/payment-events.ts:17-59 | in every run: attempts are at most ten, plus the resets that found the event stale since its last retry, plus the workers still on it at that retry |
| BackOff.FailureIsTerminalAtTen | apps/worker/src/payment-events.ts:45-59 | for such an event a failure becomes the dead letter exactly at the tenth attempt and waits exactly 2^attempts seconds |
| BackOff.CapNeverApplies | apps/worker/src/payment-events.ts:48-48 | the delay is exactly the power of two of at most ten, never the cap of an hour |
| BackOff.Span | apps/worker/src/payment-events.ts:45-59 | claims spaced by doubling delays span at least 2^n − 2 seconds |
| BackOff.ResetsAllowMoreAttempts | apps/worker/src/payment-events.ts:17-36 | for every r a run from the empty store with r resets of a stale claim and exactly 10 + r attempts: the bound is met |
| BackOff.RetryInFlightAllowsAnotherAttempt | apps/api/src/admin/admin.service.ts:112-122 | a run without any reset in which a retry while a worker is on the event leads to eleven attempts |
| WebhookOrder.SequenceNeverDecreases | apps/worker/src/payment-events.ts:62-98 | lastWebhookSequence never decreases, however reads and commits of workers interleave |
| WebhookOrder.DrainedIsMaximum | apps/worker/src/payment-events.ts:62-98 | once the webhooks of a payment are all PROCESSED or IGNORED its number is the maximum of 0 and their sequences |
| WebhookOrder.OrderOfDeliveryIsIrrelevant | apps/worker/src/payment-events.ts:62-98 | two runs that received the same sequences for a payment, in any order and multiplicity, end with the same number |
| WebhookOrder.VerifiedPaymentReachesMaximum | apps/worker/src/payment-events.ts:69-85 | if the lookups for a payment verify, it holds that maximum once its webhooks are all decided, whatever other payments' lookups find |
| PaymentEvents.EventStore.ReceiveWebhook | apps/api/src/payments/payment.service.ts:298-356 | duplicates answered with the stored status, invalid payloads stored as FAILED without an event, valid ones stored with one pending event |
| PaymentEvents.EventStore.Claim | apps/worker/src/payment-events.ts:32-36 | the conditional claim of an available event |
| PaymentEvents.EventStore.ProcessPaymentWebhook | apps/worker/src/payment-events.ts:62-98 | the decision of one webhook: order of checks, verification against the payment row, conditional sequence update with the cleared failure code and the time of the check; throws only when the lookup does |
| PaymentEvents.EventStore.ProcessOutboxEvent | apps/worker/src/payment-events.ts:31-60 | claim, decide on the payment row, then PROCESSED with the claim gone and the webhook decided, or FAILED with its delay, or DEAD_LETTER at ten attempts |
| PaymentEvents.EventStore.DispatchOutboxJobs | apps/worker/src/payment-events.ts:17-29 | gives back every claim older than five minutes, then queues up to a hundred distinct available events, oldest first, none passed over for a younger one; below a hundred none that was available or stale is left out |
| PaymentEvents.EventStore.RetryOutbox | apps/api/src/admin/admin.service.ts:112-122 | an administrator's retry starts the event over |
| PaymentEvents.ProcessingIsARun | apps/worker/src/payment-events.ts:31-60 | uninterrupted processing equals a run of the single steps of one worker, so every result over runs applies to it |
| ChatState.MergeMessages | apps/web/app/chats/chat-state.ts:8-15 | the merged list is sorted by time and id and shows exactly the last write of every id |
| ChatState.FoldShowsLastWrites | apps/web/app/chats/chat-state.ts:8-15 | after any sequence of batches the list shows exactly the last write of every id received, sorted, none lost |
| ChatState.FoldsAgreeExactly | apps/web/app/chats/chat-state.ts:8-15 | two clients show the same list if and only if the last writes they received agree |
| ChatState.ClientsConverge | apps/web/app/chats/chat-state.ts:8-15 | when equal ids carry equal messages, the same messages in any batches, order and multiplicity give the same list with every message in it |
| ChatState.EditsDoNotCommute | apps/web/app/chats/chat-state.ts:10-10 | two different messages under one id do not commute |
| LoginThrottle.LoginService.Login | apps/api/src/auth/auth.service.ts:159-179 | a locked identifier is refused unrecorded, a failure recorded, a success deletes the row |
| LoginThrottle.LoginService.RecordFailure | apps/api/src/auth/auth.service.ts:181-189 | the window and lock arithmetic of one failure |
| LoginThrottle.AnswersAreExpected | apps/api/src/auth/auth.service.ts:159-189 | over any attempts at non-decreasing times, with right and wrong passwords: every answer is the one given by the times of the failures of the present streak alone — Locked exactly when there are five and the fifth is less than fifteen minutes old, otherwise by the password |
| LoginThrottle.LockHolds | apps/api/src/auth/auth.service.ts:159-189 | once five failures have fallen into one window, every attempt before fifteen minutes after the fifth is answered Locked, with the right password or not, and leaves the row as it is |
| LoginThrottle.LockEndsAndLoginStartsOver | apps/api/src/auth/auth.service.ts:159-189 | from fifteen minutes after the fifth failure on the right password logs in, and the failure after that counts as the first |
| LoginThrottle.LoginStartsOver | apps/api/src/auth/auth.service.ts:159-189 | an attempt logs in if and only if the password is right and no lock is running; the next failure then counts as the first |
| LoginThrottle.FailedCountIsBounded | apps/api/src/auth/auth.service.ts:181-189 | failedCount never exceeds five, whatever attempts are made at non-decreasing times |
| LoginThrottle.AtMostEightFailures | apps/api/src/auth/auth.service.ts:159-189 | without a successful login at most eight failures are recorded in any half-open interval of fifteen minutes |
| LoginThrottle.EightFailuresReached | apps/api/src/auth/auth.service.ts:159-189 | nine attempts that record eight failures in one interval: the bound is exact |
| Pagination.List | apps/api/src/products/product.service.ts:133-163 | the page: fetched rows without the extra one, and the last shown id as cursor exactly when there is more |
| Pagination.PaginationIsComplete | apps/api/src/products/product.service.ts:125-163 | on a fixed table, for every filter, order and page size, following the cursors shows exactly the ACTIVE products of the neighbourhoods, category, price range and search, in the chosen order with ties by id, none twice, and stops after the least number of pages |
| Pagination.CursorContinues | apps/api/src/products/product.service.ts:149-152 | a cursor handed out continues right after its row |

## Left out

* HTTP controllers, input validation, guards, health, telemetry, pages and proxies: plumbing.
* The Prisma client: queries are operations on maps; the database's own ordering of equal keys is any order.
* BullMQ, Redis, Socket.IO delivery and real Toss requests: libraries and network.
* Password hashing, SHA-256, HMAC and webhook signatures, session tokens: cryptography.
* Verification codes, password policy, images, reports, blocks, chat messages' storage: single checks.
* The inline handling of webhooks in test mode (apps/api/src/payments/payment.service.ts:357-386): the worker's
  handling is modelled instead.
* Interleavings inside the payment confirmation and reversal, whose checks run outside their transaction.
* The 32-bit width of sequence numbers and attempts, and the text of amounts.
* Account withdrawal hides the user's ACTIVE products; that is a visibility change of products nobody holds.
* Trade and payment listings, the seller's product list and audit rows: read-only or write-only.
* The rows of a trade are kept together under its id in `Services.Database` instead of in one table per
  kind; the settlement claims are rows of that record although the source keeps them in the worker's memory.
- TimeGates.SettlementTimeIsPastTheHold: speaks of runs whose claims have a stamp not before the payment's
  availability, because `TimeGates.ClaimIsPastHoldExactly` shows that it fails otherwise.
- Reservation.ReservationsExclude: speaks of runs that change visibility only while no trade holds the
  product, because it is false otherwise.
- BackOff.RetriesAreBounded: speaks of an event that no reset finds stale and nobody starts over, because either
  allows further attempts; `BackOff.AttemptsAreBounded` is the bound for all runs.

# Waylo escrow: a verified model

Waylo holds a buyer's money while a traveler brings a parcel. The money lives in two stores that move
independently: a PostgreSQL database (missions, escrows, an append-only ledger, wallets, outboxes,
processed events) and Stripe (payment intents, transfers, charges). Webhooks arrive any number of times
and in any order; workers claim rows, call Stripe outside any transaction, and may crash between the
call and the verdict. This project models that protocol in Dafny 4.11 and proves what it keeps on every
run. `dafny verify dfyconfig.toml` checks the whole project.

## How it is built

The effect of every committed transaction is a function from tables to tables (`Transactions`, `Steps`).
Runs of the database alone take those transactions with arbitrary arguments and in any order; the ledger
rules, delivery, refunds, payouts and wallets are proved about those runs. `World` adds Stripe and every
task that reads one store, calls the other and writes later; `WorldSafety` is its inductive invariant and
`Guarantees` what follows on every run. `RowLock` goes below transactions, to single statements under
READ COMMITTED with the row lock.

The code that works step by step is modelled step by step, as methods: the webhook handlers and their
commit or rollback (`WebhookStore`), the transfer worker (`TransferWorker`), the daily checker
(`Reconciliation`), the compensation, dispute penalty and receipt workers, the rate limiter, the escrow
guard, and, on the harness `Machine.Process`, the penalty worker, the dispute resolution worker, both
funding reconciliations, the funding routes, the capture service, the two timeouts and the fraud
arbitration. Between any two awaits everybody else may do anything. Each of those methods is proved to be
a run of the machine its theorems are about, so the theorems apply to it. Its contract also fixes which
moves of its own that run holds: for what the calls meet and how they are answered, and, when nobody
interferes (`Quiet`), as a function of the state it starts from.

| Files | What they hold |
|---|---|
| `Tables`, `Money`, `Ledger` | rows, amounts, sums of ledger lines |
| `Transactions`, `Steps`, `WebhookStore`, `CaptureOutcomes` | every transaction on the escrow tables; the webhook handlers statement by statement; what they come to, said of the rows |
| `Accounting`, `Payouts`, `PayoutLines`, `Refunds`, `Missions`, `Histories`, `Wallets` | what every run of the database keeps |
| `RowLock` | statements, row lock and serialisability on one escrow |
| `Outbox`, `RetryLifecycle`, `TransferWorker` | claim, submit, verdict; retries, backoff, abandonment |
| `World`, `Causes`, `WorldSafety`, `Guarantees`, `TransferRefinement`, `PenaltyRefinement`, `Scenario` | database and Stripe together, its two projections on the outbox protocol, and one whole life of an escrow |
| `Machine`, `PenaltyWorker`, `DisputeResolution`, `FundingReconciliation`, `Funding`, `Timeouts`, `Arbitration` | processes that run on both |
| `Reconciliation`, `CompensationWorker` | the daily checker; the compensation worker |
| `DisputePenalties`, `DisputePenaltyWorker`, `Receipts`, `ReceiptWorker` | two more workers, each with its own machine |
| `EscrowGuard`, `RateLimit`, `DerCodec`, `TimestampClient` | the immutability guard, the rate limiter, RFC 3161 |

## What is assumed of the environment

- A committed transaction is atomic, except in `RowLock`, where its statements interleave, and in
  `Receipts`, where the sealing transaction reads first and writes later.
- Stripe returns the existing object for a repeated idempotency key. An intent ends captured or
  cancelled, never both; capturing or cancelling a final intent changes nothing. A capture event carries
  the amount really captured and the mission the intent was created for. Cancel and capture calls may
  take effect and still report failure. The Stripe client offers `cancel`; without it the penalty worker
  would skip the call (`src/workers/penalty.worker.ts:205-209`).
- One clock, which never goes back.
- Unique columns: the mission and the payment intent of an escrow, the event id, the mission of a
  transfer intent, of a penalty, of a refund event, of a receipt and of a wallet transaction.
- Other mission routes set any status at any time, except that CREATED, FUNDED and MATCHED are entered
  only along the filters those routes write, and a purchase is declared only by shipping a MATCHED mission
  (`src/missions/routes/logistics.route.ts:183-193`).
- Identifiers are natural numbers, amounts unbounded whole cents, instants milliseconds.

## Where the code and its comments part

The model follows the code.

- `src/stripe/webhook.route.ts:241` says that the spending limit mirrors the intent route; the route
  stores the held budget, 120% under substitution (`src/missions/routes/funding.route.ts:68`), the webhook
  and the orphan repair (`src/workers/funding-reconciliation.ts:220`) store the plain budget: lower exactly
  under substitution with a budget of at least five cents (`Funding.CheckoutLimitIsLowerIff`).
- The timeline of `src/workers/reconciliation.ts:21-22` releases the mission with the escrow; the webhook
  does so only from AWAITING_VALIDATION or VALIDATED (`src/stripe/webhook.route.ts:505-512`,
  `Transactions.ReleaseMovesMissionIff`).
- The dispute penalty worker says that row locks cover several instances
  (`src/workers/disputePenaltyWorker.ts:313-315`); a claimed row stays PENDING and unlocked. A second
  instance may sweep a charge in flight (`DisputePenalties.SecondWorkerSweepsInFlight`), and its failure
  verdict may turn a penalty the first has charged and written PAID into FAILED and suspend the account
  (`DisputePenalties.PaidThenSuspended`). `LeavesFinalIff`, `FailsHeldIff` and `OverlapsIff` say which
  steps do this, and `FinalWithoutCollision` that nothing else does.
- The receipt worker says that its threshold bounds vision calls (`src/workers/receiptOutboxWorker.ts:27-29`);
  a stale reclaim does not look at it (`Receipts.CrashesAreUnbounded`). The bound breaks exactly through
  the steps of `Receipts.OverrunIff` and holds on every run without them (`Receipts.ThresholdOnEveryRun`).
- The compensation worker announces an exponential backoff (`src/workers/buyer-compensation.worker.ts:8-9`);
  its selection has none. Its failure verdict is unconditional, as are those of the transfer and penalty
  workers: `Wallets.TwoInstancesCreditTwice`, `RetryLifecycle.SlowClaimantLeavesSettled`.
- The daily checker reads escrows and ledger groups in two queries: although the rules always hold, it
  reports an escrow exactly when its capture was written in between
  (`Reconciliation.ReportedIffCapturedBetween`, `Reconciliation.TornReadIsReported`). It also reads payouts
  and transfers in two queries, and reports a transfer as an orphan exactly when its release and its
  SETTLED verdict fall in between (`Reconciliation.OrphanIffReleasedAndSettledBetween`).
- A fixed window lets through fewer than twice its maximum in any closed interval of its length, one
  better than the usual bound, because the request that opens a window is a window away from the next.

## Model

| member | source | states |
|---|---|---|
| Money.SplitOfAuthorisedTotal | src/stripe/webhook.route.ts:444-454 | For every priced mission, dividing the authorised total gives payout + commission + credit = total, a payout in (0, held budget], a credit of at least 0, and the held budget lies between the budget and the 150% cap |
| Money.HeldTotalIsFloor | src/missions/mission-common.ts:31-42 | The held total is the commission and the budget, or under substitution the whole cents of 120% of it; the cap is the whole cents of 150% |
| WebhookStore.Store.HandleCheckoutCompleted | src/stripe/webhook.route.ts:188-246 | The handler, statement by statement, has the effect or the abort of CheckoutEffect |
| WebhookStore.Store.HandleCapture | src/stripe/webhook.route.ts:265-398 | Lock, journal once, account precondition: the effect or the abort of CaptureEffect |
| WebhookStore.Store.Release | src/stripe/webhook.route.ts:400-514 | Release, split, lines, wallet, transfer intent, customs check and mission: the effect or the abort of ReleaseEffect |
| Transactions.ReleaseMovesMissionIff | src/stripe/webhook.route.ts:505-512 | A capture event that releases the escrow moves the mission to RELEASED exactly from AWAITING_VALIDATION or VALIDATED, and otherwise leaves it as it is |
| WebhookStore.Store.CreditResidual | src/stripe/webhook.route.ts:459-468 | Wallet upsert and unique wallet transaction; false exactly on the unique violation |
| WebhookStore.Store.HandlePaymentFailed | src/stripe/webhook.route.ts:561-600 | The effect or the abort of PaymentFailedEffect |
| CaptureOutcomes.CaptureReleasesIff | src/stripe/webhook.route.ts:370-398 | A first capture that applies releases the escrow, with a transfer intent to the traveler's account, exactly when there is a traveler, verified, with an account; otherwise the mission waits for the account and the alert says so |
| CaptureOutcomes.CaptureAborts | src/stripe/webhook.route.ts:319-514 | Every outcome of a capture event in the order of the checks, said of the rows: acquittal, empty capture, conflict, negative payout, unique violation, customs lock |
| CaptureOutcomes.FailureOutcome | src/stripe/webhook.route.ts:561-600 | A payment failure cancels exactly a HELD, uncaptured escrow, and its mission unless that is RELEASED, REFUNDED or CANCELLED; a CANCELLED escrow is acquitted, any other aborts |
| WebhookStore.Store.SumRefunds | src/stripe/webhook.route.ts:649-653 | The loop over the lines returns the sum of the refunds of the escrow |
| WebhookStore.Store.ApplyRefund | src/stripe/webhook.route.ts:618-702 | Cumul, delta and the four aborts: the effect or the abort of RefundEffect |
| WebhookStore.Store.ApplyBusinessEffect | src/stripe/webhook.route.ts:154-173 | Each event kind goes to its handler; anything else changes nothing |
| WebhookStore.Store.Deliver | src/stripe/webhook.route.ts:97-148 | 200 after a commit, 500 after a rollback that leaves every table as it was, with the duplicate, handled and alert outcomes of Deliver |
| Steps.StepEvolves | src/stripe/webhook.route.ts:309-349 | Every step of every route, worker and cron keeps the unique indexes, the money fields of missions and the intent of an escrow, writes a capture once and from HELD, never leaves a terminal status, and only appends to the ledger |
| Accounting.StepBalanced | src/workers/reconciliation.ts:43-49 | Each step keeps the per-status form of the rules: what each status allows as capture, payout, commission, credit and refund sums |
| Accounting.RulesHoldOnEveryRun | src/workers/reconciliation.ts:43-49 | On every run of the database every escrow satisfies A, B and C, and more precisely has the lines its status allows |
| Payouts.ReleasesBookedOnEveryRun | src/stripe/webhook.route.ts:432-482 | On every run a transfer intent exists exactly for a RELEASED escrow, its amount is the escrow's PAYOUT, and the COMMISSION is the mission's |
| PayoutLines.LinesBookedOnEveryRun | src/stripe/webhook.route.ts:432-482 | On every run each transfer intent has exactly one PAYOUT line, of its amount, and there is no other PAYOUT line |
| Histories.EscrowsPersistOnEveryRun | src/lib/prisma-extensions/escrow-guard.ts:17-22 | Between any two moments of a run: RELEASED, REFUNDED and CANCELLED rows do not change, a written capture is never rewritten, HELD is not re-entered |
| Histories.RedeliveriesAreInvisible | src/stripe/webhook.route.ts:99-111 | Removing every redelivery of a committed event and every aborted delivery from a run leaves its final state equal |
| Histories.EffectiveEventsAreDistinct | src/stripe/webhook.route.ts:99-111 | What remains of the run carries each event id at most once, and only ids that were new |
| Histories.AbortStaysReplayable | src/stripe/webhook.route.ts:112-126 | Whatever follows it, a run ends the same without a delivery that aborted, and the event is left unprocessed, so a retry acts as the first delivery would |
| Histories.SecondCaptureChangesNothing | src/stripe/webhook.route.ts:326-364 | Once a capture is journalled, a capture event under any other id leaves every business table as it is, for ever; with the same amount it commits |
| Refunds.RefundAcceptedIff | src/stripe/webhook.route.ts:647-702 | A refund is journalled exactly when the event is new, its cumul is above the journalled sum and within the capture, and the escrow is HELD or PARTIALLY_REFUNDED |
| Refunds.RefundSumStep | src/stripe/webhook.route.ts:649-692 | A step changes the refund sum of an escrow only by accepting a refund, and sets it to that cumul |
| Refunds.RefundsTelescope | src/stripe/webhook.route.ts:647-702 | Over any run the accepted cumuls strictly increase, stay within the capture, and the last one is the journalled sum |
| Missions.PurchaseWrittenOnce | src/missions/routes/logistics.route.ts:169-193 | On every run a declared purchase is never rewritten, and stays within the budget |
| RowLock.EveryInterleavingIsSerial | src/stripe/webhook.route.ts:309-318 | Any statement-level interleaving of capture, refund, failure, cancel and customs transactions, any of them aborted anywhere, commits what the committed ones produce one after the other in commit order |
| RowLock.CommitIsSerial | src/stripe/webhook.route.ts:627-646 | A transaction ready to commit has computed what it would have computed alone; the capture it read before the lock is harmless because it is written once |
| RowLock.CaptureAlone | src/stripe/webhook.route.ts:326-398 | The serial meaning of a capture in the row model is CaptureEffect on the tables; CaptureEffect aborts where the row model does not exactly when a release meets a unique violation or the customs lock |
| RowLock.RefundAlone | src/stripe/webhook.route.ts:618-702 | The serial meaning of a refund in the row model is RefundEffect on the tables, aborts included |
| RowLock.PaymentFailedAlone | src/stripe/webhook.route.ts:561-600 | The serial meaning of a payment failure in the row model is PaymentFailedEffect on the tables, aborts included |
| RowLock.WithoutLockRefundsTwice | src/stripe/webhook.route.ts:612-617 | Without the FOR UPDATE, refunds of 30 and 50 journal 80, which no serial order does |
| Outbox.OldestEligible | src/workers/transfer-worker.ts:74-89 | The oldest eligible row nobody holds locked; none only when there is none |
| Outbox.ClaimTakesIff | src/workers/transfer-worker.ts:77-93 | An idle worker takes a row exactly when it is PENDING, or FAILED below the threshold for more than 2^attempts minutes, or SUBMITTED for more than fifteen; it takes the row as it stands |
| Outbox.RetryComesDue | src/workers/transfer-worker.ts:77-83 | A failed row below the threshold that nobody touches for longer than its backoff is taken by whoever tries |
| Outbox.AtMostOneTransferPerKey | src/workers/transfer-worker.ts:70-142 | On every run with any number of workers, crashes, slow calls, reclaims and requeues: one transfer per key, with the amount and destination of its row, and SETTLED names it |
| RetryLifecycle.LifecycleOnEveryTimelyRun | src/workers/transfer-worker.ts:77-93 | With timely claimants: attempts at most M, equal to M exactly when ABANDONED, one live claim per row, at most one alert per row |
| RetryLifecycle.FinalRowsNeverChange | src/workers/transfer-worker.ts:143-176 | With timely claimants SETTLED and ABANDONED rows never change again |
| RetryLifecycle.LeavesSettledIff | src/workers/transfer-worker.ts:143-155 | A step takes a row out of SETTLED exactly when it is the failure verdict of another claimant of that row |
| RetryLifecycle.SlowClaimantLeavesSettled | src/workers/transfer-worker.ts:143-155 | A run on which a claimant slower than the stale window overwrites SETTLED |
| RetryLifecycle.CycleIsBounded | src/workers/reconciliation.ts:432-449 | With timely claimants M - attempts is a measure: a new row fails at most M times, M times exactly when ABANDONED, and is requeued fewer than M times |
| RetryLifecycle.AbandonedNoEarlier | src/workers/transfer-worker.ts:77-83 | Without requeue, ABANDONED comes no earlier than 2^M - 2 minutes after the first failed verdict |
| RetryLifecycle.FirstFailureStartsBackoff | src/workers/transfer-worker.ts:147-155 | The first failed verdict starts that count |
| TransferWorker.Worker.ClaimNext | src/workers/transfer-worker.ts:70-104 | Claims the oldest eligible unlocked row as SUBMITTED before any call, or finds none eligible |
| TransferWorker.Worker.CreateTransfer | src/workers/transfer-worker.ts:130-137 | One keyed call outside any transaction, rows untouched: it succeeds exactly when it took effect and was reported; taking effect leaves a transfer of the key, a new one of the claim's amount and destination if there was none; otherwise Stripe is as it was |
| TransferWorker.Worker.WriteSettled | src/workers/transfer-worker.ts:138-142 | SETTLED with the transfer id |
| TransferWorker.Worker.WriteFailure | src/workers/transfer-worker.ts:143-175 | FAILED, or ABANDONED with one alert, by the attempts read at the claim; attempts + 1 |
| TransferWorker.Worker.RunOnce | src/workers/transfer-worker.ts:107-179 | A pass is a run of the protocol interleaved with everyone else, in which the worker claims the oldest eligible rows one by one and handles each as its reply has it; SETTLED is counted exactly for calls that took effect, were reported and written; it stops short only when nothing is eligible |
| TransferWorker.RequeueFailedTransfer | src/workers/reconciliation.ts:440-449 | True exactly from FAILED, which becomes PENDING with its attempts kept; otherwise nothing changes |
| Causes.StepCaused | src/stripe/webhook.route.ts:561-575 | A capture changes only by its own event; an escrow is CANCELLED only from HELD, and only uncaptured unless one of two worker verdicts does it; it opens only by the funding steps |
| Causes.StepCausesIntent | src/stripe/webhook.route.ts:475-482 | A new transfer intent is caused by a capture event of its escrow, carries the split of that capture, and goes to the account of the mission's traveler, who is verified |
| WorldSafety.CaptureIsStripes | src/stripe/webhook.route.ts:337-341 | A capture that a webhook journals is one Stripe made, of that amount |
| WorldSafety.CancelIsStripes | src/workers/disputeResolutionWorker.ts:177-206 | A verdict that cancels without looking at the capture finds the intent already cancelled at Stripe; the penalty worker's also finds its debit succeeded |
| WorldSafety.StepKeepsInvariant | src/stripe/webhook.route.ts:265-715 | Every move of the database or Stripe, every task step and crash keeps the combined invariant |
| WorldSafety.InvariantOnEveryRun | src/stripe/webhook.route.ts:265-715 | Every reachable state of database and Stripe together satisfies it |
| WorldSafety.NewPayoutSplit | src/stripe/webhook.route.ts:443-454 | A release in a reachable state pays the declared purchase under substitution and the whole held budget otherwise, within (0, held budget] |
| TransferRefinement.StepAddsOne | src/stripe/webhook.route.ts:475-482 | Outside the transfer worker a transaction adds at most one intent, PENDING, untried and dated now, and changes no other |
| TransferRefinement.EveryRunProjects | src/workers/transfer-worker.ts:70-179 | Every run of database and Stripe together projects, move by move, to a run of the outbox protocol over its transfer intents |
| TransferRefinement.TransferLifecycle | src/workers/transfer-worker.ts:77-93 | On every run of database and Stripe with timely claimants: attempts within the threshold, equal to it exactly when ABANDONED, one live claim and at most one alert per transfer intent |
| TransferRefinement.TransferAbandonedNoEarlier | src/workers/transfer-worker.ts:77-83 | On such a run without requeue a transfer intent is ABANDONED no earlier than 2^M - 2 minutes after its first failed verdict |
| PenaltyRefinement.EveryRunProjectsPenalties | src/workers/penalty.worker.ts:112-124 | Every run of database and Stripe together projects, move by move, to a run of the outbox protocol over its penalty debits, with the attempts each worker read at its claim |
| PenaltyRefinement.PenaltyLifecycle | src/workers/penalty.worker.ts:232-246 | On every run of database and Stripe with timely workers: a penalty's attempts stay within the threshold and reach it exactly when it is ABANDONED, with one alert, and one live worker holds it |
| PenaltyRefinement.PenaltyAbandonedNoEarlier | src/workers/penalty.worker.ts:112-124 | On such a run a penalty is ABANDONED no earlier than 2^M - 2 minutes after its first failed verdict |
| WorldSafety.TransferMove | src/workers/transfer-worker.ts:107-179 | The transfer worker's steps in the combined machine are the steps of the outbox protocol |
| Guarantees.CancelledNeverCaptures | src/stripe/webhook.route.ts:572-575 | Once CANCELLED, an escrow stays so for ever with captured amount 0, no CAPTURE line and no outflow |
| Guarantees.PenaltyCancelsAfterDebit | src/workers/penalty.worker.ts:183-230 | A penalty verdict comes after a debit that succeeded, names it, and cancels a HELD escrow only when its intent is cancelled at Stripe and nothing was captured |
| Guarantees.SettledPenaltyWasDebited | src/workers/penalty.worker.ts:176-230 | On every run a SETTLED penalty names a debit that succeeded at Stripe, of its amount, and no other debit succeeded for it |
| Guarantees.AtMostOneTransferPerRelease | src/stripe/webhook.route.ts:475-482 | On every run an escrow has at most one transfer, only if RELEASED, of exactly its PAYOUT, and SETTLED names it |
| Guarantees.TransfersGoToVerifiedTravelers | src/stripe/webhook.route.ts:370-374 | On every run every transfer Stripe made went to an account that was the verified traveler's of its mission just before the release |
| Guarantees.RollsBackOnlyUnauthorised | src/workers/funding-reconciliation.ts:88-100 | On every run a rollback under way began on an intent that was requires_payment_method or requires_confirmation |
| Guarantees.MoneyIsConserved | src/services/escrow.service.ts:113-124 | On every run: authorised = captured = EscrowTotal, and once RELEASED = PAYOUT + COMMISSION + wallet credit, with the commission the mission's, 0 < PAYOUT <= held budget and credit >= 0 |
| Guarantees.GuardsNeverFire | src/services/escrow.service.ts:118-123 | In every reachable state the 150% backstop refuses nothing, a capture call asks for what was authorised, and no event Stripe can send aborts as NEGATIVE_PAYOUT or EMPTY_CAPTURE |
| Scenario.ReleaseAndTransferHappen | src/workers/reconciliation.ts:11-30 | The timeline happens: a run from the empty state in which an escrow is funded, captured, RELEASED and paid by one SETTLED transfer, so that the guarantees are not about nothing |
| Guarantees.ReleasePaysDeclaredPurchase | src/stripe/webhook.route.ts:443-454 | The step that releases pays the declared purchase under substitution, otherwise the held budget |
| Machine.Process.CallCancel | src/workers/disputeResolutionWorker.ts:170-186 | A cancel call may take effect and report failure; reported success means the intent is cancelled |
| PenaltyWorker.ClaimNext | src/workers/penalty.worker.ts:110-156 | Claims the oldest eligible row, with the row and the escrow as read in that transaction |
| PenaltyWorker.TakeDebit | src/workers/penalty.worker.ts:178-201 | The debit succeeds exactly when a card is on file, the call arrives, the charge of the key has succeeded or is approved now, and it is reported; at most one charge of the key, of the claimed amount |
| PenaltyWorker.Settle | src/workers/penalty.worker.ts:218-230 | Escrow HELD to CANCELLED and row SETTLED with the debit in one transaction: the protocol's verdict step |
| PenaltyWorker.Fail | src/workers/penalty.worker.ts:232-246 | FAILED, or ABANDONED at the last attempt counted from the claim, attempts + 1, escrow untouched |
| PenaltyWorker.ProcessRow | src/workers/penalty.worker.ts:174-264 | SETTLED exactly when the debit succeeded, the hold read as HELD is released, and the verdict is written; otherwise FAILED or ABANDONED by the attempts; the moves in between are exactly those |
| PenaltyWorker.RunOnce | src/workers/penalty.worker.ts:159-268 | A pass keeps the combined invariant, counts exactly its own verdicts, stops short only when nothing is eligible and, undisturbed, claims the oldest rows in turn and handles each as its replies have it |
| DisputeResolution.EnqueueExpired | src/workers/disputeResolutionWorker.ts:63-92 | One PENDING event with 0 attempts for each mission in dispute past its deadline, without event and not locked, the oldest deadlines first up to the limit; existing events untouched |
| DisputeResolution.ClaimBatch | src/workers/disputeResolutionWorker.ts:94-118 | Claims the oldest unlocked PENDING events below the threshold, in order of creation and up to the limit, attempts + 1 committed first, others untouched |
| DisputeResolution.VerdictRows | src/workers/disputeResolutionWorker.ts:189-208 | Event SETTLED, mission IN_DISPUTE to REFUNDED, escrow HELD to CANCELLED when one was read, in one transaction |
| DisputeResolution.ExecuteRefund | src/workers/disputeResolutionWorker.ts:151-226 | Refused for a RELEASED or PARTIALLY_REFUNDED escrow; otherwise refunded exactly when a HELD escrow's cancel succeeds and the verdict is written; a failure leaves FAILED at the threshold, PENDING below it; undisturbed, its moves are exactly those |
| DisputeResolution.RunOnce | src/workers/disputeResolutionWorker.ts:229-253 | The two transactions of the tick, then every claimed event handled as its escrow and replies have it; the combined invariant is kept and the counters are exactly what it did |
| FundingReconciliation.RollbackRows | src/workers/funding-reconciliation.ts:104-123 | Both conditional updates hit or nothing is written |
| FundingReconciliation.RollbackCandidate | src/workers/funding-reconciliation.ts:88-158 | An unanswered retrieve, or an intent that is requires_capture, succeeded or canceled, skips the candidate and changes nothing; any other is rolled back exactly when the transaction finds it HELD, uncaptured and FUNDED, followed by the one cancel call |
| FundingReconciliation.RunOnce | src/workers/funding-reconciliation.ts:63-162 | Every reservation abandoned at the start, up to the limit, is rolled back or skipped, undisturbed by what its intent calls for; cancel is called exactly once for each rollback; the combined invariant is kept |
| FundingReconciliation.RepairMission | src/workers/funding-reconciliation.ts:197-252 | Only a mission still FUNDED without escrow is touched: reopened when the search found no live intent, otherwise given an escrow on it unless that intent has one; one move exactly then |
| FundingReconciliation.FirstLiveIs | src/workers/funding-reconciliation.ts:196-199 | What the search yields is the first of its intents that is not cancelled, none only when all are |
| FundingReconciliation.RunOrphansOnce | src/workers/funding-reconciliation.ts:173-256 | Every selected orphan is recreated, reopened or left alone, undisturbed by what the search found for it; counted exactly; the combined invariant is kept |
| Funding.Reserve | src/missions/routes/funding.route.ts:17-52 | The refusals of the route in order: NOT_FUNDABLE exactly for an unfunded mission that is not CREATED, those of the capacity check exactly as that check sees the wallet, ALREADY_FUNDED exactly when the mission has left CREATED by the conditional update; otherwise the reservation |
| Funding.CheckFundingCapacity | src/checkout/wallet-validation.ts:55-108 | A negative authorisation, a missing mission, or card and wallet together short of the whole cents of 120% of the total: each refused with its error, anything else accepted |
| Funding.UndeclaredIsNeverRefused | src/missions/mission-common.ts:48-69 | On every run of the database a buyer who declares no authorisation is never refused for funds, because no wallet is ever overdrawn |
| Funding.CreateIntent | src/missions/routes/funding.route.ts:41-64 | An intent for exactly the held budget and the commission, or the one the key already created |
| Funding.Compensate | src/missions/routes/funding.route.ts:78-87 | Any failure after the reservation takes the mission out of FUNDED and writes no escrow |
| Funding.FundMission | src/missions/routes/funding.route.ts:15-88 | Success is check, reserve, authorise, open: a HELD, uncaptured escrow on the intent, authorised for EscrowTotal; the errors are those of the route, a refusal writes nothing, a reservation that opens no escrow is undone; undisturbed, moves and result are a function of the state and the replies |
| Funding.AuthorisedForTotal | src/missions/routes/funding.route.ts:41-64 | In every reachable state the intent of an escrow is authorised for EscrowTotal of its mission |
| Funding.CheckoutLimitIsLowerIff | src/stripe/webhook.route.ts:237-244 | The checkout webhook opens an escrow with a lower spending limit than the funding routes exactly under substitution with a budget of at least five cents |
| Funding.CallStripeCapture | src/services/escrow.service.ts:133-141 | One attempt with the same amount and key: it succeeds exactly when it is reported and the intent is then captured |
| Funding.CaptureEscrowFunds | src/services/escrow.service.ts:88-149 | Each typed refusal exactly when its precondition fails, with nothing written or called; undisturbed, success exactly when some attempt is reported with the intent captured, for the authorised total; on reachable states the 150% backstop never refuses |
| Timeouts.CancelHold | src/workers/reconciliation.ts:338-353 | The customs cancel: success exactly when it is reported and the intent is then cancelled; the database is untouched |
| Timeouts.CloseMission | src/workers/reconciliation.ts:355-367 | The mission conditionally REFUNDED, the zero refund line always, the escrow never |
| Timeouts.CloseStalled | src/workers/reconciliation.ts:335-368 | For a mission selected with its escrow: one cancel call, then the closing exactly when it succeeded, otherwise an alert with the database as it was; without escrow nothing |
| Timeouts.CollectStalled | src/workers/reconciliation.ts:393-426 | An escrow selected as HELD is captured; undisturbed, no alert exactly when it is still HELD and some attempt is reported with the intent captured, and the mission then leaves DEPOSITED for VALIDATED |
| Timeouts.RunTimeouts | src/workers/reconciliation.ts:321-427 | Every customs lock past its timeout with an escrow gets its cancel call, each of which ends in a closing or an alert; undisturbed, both selections are handled row by row as above; the combined invariant is kept |
| Arbitration.ArbitrateFraud | src/admin/arbitrage.route.ts:66-154 | The refusals of the route, or DISPUTED to DISPUTED_FRAUD with a penalty of 200% and a compensation of 120% of the total, rounded half up, owed and journalled |
| Arbitration.ProportionateOnEveryRun | src/admin/arbitrage.route.ts:105-107 | On every run each penalty is 200% of its mission's total and each compensation 120% of it to the nearest cent, owed to its buyer |
| Reconciliation.Checker.GroupLedger | src/workers/reconciliation.ts:119-125 | The grouped sums, a missing group being 0, are the ledger sums |
| Reconciliation.Checker.CheckInvariants | src/workers/reconciliation.ts:109-171 | The loop appends exactly the broken rules of each escrow, read off the ledger itself |
| Reconciliation.Checker.CrossCheckPayouts | src/workers/reconciliation.ts:173-229 | The three loops append exactly the overdue payouts and the orphan transfers |
| Reconciliation.BrokenRulesIff | src/workers/reconciliation.ts:143-170 | LEDGER_INVARIANT_BROKEN is emitted for an escrow exactly when A, B or C fails for it |
| Reconciliation.OrphanIff | src/workers/reconciliation.ts:220-229 | ORPHAN_TRANSFER is emitted exactly for a SETTLED intent of an escrow without PAYOUT line |
| Reconciliation.OverdueIff | src/workers/reconciliation.ts:197-218 | PAYOUT_NOT_SETTLED is emitted for an escrow exactly when one of its payouts is past the grace period and settled for less |
| Reconciliation.CheckerIsSilentOnEveryRun | src/workers/reconciliation.ts:109-229 | On every reachable state neither LEDGER_INVARIANT_BROKEN nor ORPHAN_TRANSFER is emitted |
| Reconciliation.OverdueMeansUnsettled | src/workers/reconciliation.ts:197-218 | With payouts and transfers read at two moments of a run, PAYOUT_NOT_SETTLED means exactly: there at the first, past the grace period, positive, and not SETTLED at the second |
| Reconciliation.ReportedIffCapturedBetween | src/workers/reconciliation.ts:110-122 | With escrows and ledger groups read at two moments of a run, a rule is reported for an escrow exactly when its capture was written in between |
| Reconciliation.CheckerReportsIff | src/workers/reconciliation.ts:110-171 | The same of the alerts of a whole pass |
| Reconciliation.OrphanIffReleasedAndSettledBetween | src/workers/reconciliation.ts:176-195 | With payouts and transfers read at two moments of a run, ORPHAN_TRANSFER is emitted for an escrow exactly when its release and its SETTLED verdict both fall in between |
| Reconciliation.TornReadOrphans | src/workers/reconciliation.ts:176-195 | A run from the empty database on which that happens |
| Reconciliation.TornReadIsReported | src/workers/reconciliation.ts:110-122 | A run from the empty database on which a capture between the two reads is reported |
| Wallets.StepConservedIff | src/stripe/webhook.route.ts:459-468 | A step keeps every balance equal to its lines exactly when it does not undo a non-zero credit |
| Wallets.WalletsConserved | src/workers/buyer-compensation.worker.ts:18-51 | On runs without such a step, each balance is the sum of its wallet transactions and of the buyer's SETTLED compensations, and each compensation is credited at most once |
| Wallets.BalancesNeverNegative | src/workers/buyer-compensation.worker.ts:18-51 | On every run, disciplined or not, no balance and no compensation is negative |
| Wallets.TwoInstancesCreditTwice | src/workers/buyer-compensation.worker.ts:38-51 | A run from the empty database, through an arbitration, on which two instances credit one compensation twice: the failure verdict reopens a SETTLED row |
| CompensationWorker.Worker.ClaimAndCredit | src/workers/buyer-compensation.worker.ts:20-37 | Claim and credit in one transaction; a row no longer PENDING credits nothing |
| CompensationWorker.Worker.WriteFailure | src/workers/buyer-compensation.worker.ts:38-51 | FAILED exactly from the fourth attempt on, PENDING before |
| CompensationWorker.Worker.ProcessBuyerCompensations | src/workers/buyer-compensation.worker.ts:12-53 | One instance alone, amid everything else: the first ten PENDING rows end SETTLED, or PENDING or FAILED by their attempts when the transaction threw; no failure verdict falls on a SETTLED row, so balances stay explained |
| DisputePenalties.FaithfulOnEveryRun | src/workers/disputePenaltyWorker.ts:179-309 | Any number of workers, crashing anywhere: each penalty is claimed at most max times and charged at most once, for its amount, and PAID names a charge that succeeded |
| DisputePenalties.LeavesFinalIff | src/workers/disputePenaltyWorker.ts:179-228 | A step takes a penalty out of PAID or FAILED exactly when it is the verdict of a batch that still holds a claim of it and comes to something else |
| DisputePenalties.FailsHeldIff | src/workers/disputePenaltyWorker.ts:140-154 | With any number of workers, a step fails a penalty whose last claim a batch still holds exactly when it is a sweep of it at the threshold, or the failing verdict of another batch |
| DisputePenalties.OverlapsIff | src/workers/disputePenaltyWorker.ts:140-154 | A penalty becomes decided while a batch holds a claim of it exactly by a sweep during a claim, or by a deciding verdict while another batch holds one |
| DisputePenalties.FinalWithoutCollision | src/workers/disputePenaltyWorker.ts:313-315 | On every run of any number of workers without such a step on it, a penalty once PAID or FAILED stays so |
| DisputePenalties.FinalWhenAlone | src/workers/disputePenaltyWorker.ts:313-315 | With one worker there is no such step, so PAID and FAILED are final |
| DisputePenalties.SoundOnEveryRun | src/workers/disputePenaltyWorker.ts:179-309 | One worker, crashing anywhere, keeps besides: what it holds is the current claim, a penalty it can no longer claim lost its verdict, a suspended account has a penalty failed for good |
| DisputePenalties.SweepTouchesOnlyLost | src/workers/disputePenaltyWorker.ts:129-156 | The sweep leaves no stuck penalty, touches exactly those that were, each of which lost the verdict of its last claim, and suspends nobody |
| DisputePenalties.SecondWorkerSweepsInFlight | src/workers/disputePenaltyWorker.ts:140-154 | With two workers the sweep can fail a penalty whose charge is in flight and is then PAID |
| DisputePenalties.PaidThenSuspended | src/workers/disputePenaltyWorker.ts:200-215 | With two workers a run on which a penalty is charged and PAID, then FAILED by the other worker, and the account suspended |
| DisputePenaltyWorker.Worker.SweepStuckPenalties | src/workers/disputePenaltyWorker.ts:129-176 | PENDING rows without attempts left become FAILED, nothing else changes, and exactly they are reported |
| DisputePenaltyWorker.Worker.SelectIds | src/workers/disputePenaltyWorker.ts:80-87 | The oldest claimable rows, up to the limit |
| DisputePenaltyWorker.Worker.ClaimPenaltyBatch | src/workers/outbox-claim.ts:28-43 | The oldest claimable rows up to the limit, attempts + 1 and fetched with the card on file, in one transaction |
| DisputePenaltyWorker.Worker.CreateCharge | src/workers/disputePenaltyWorker.ts:238-266 | Without a card no call and a terminal refusal; otherwise the keyed charge, for the claimed amount, seen to succeed exactly when it is reported and the key then has a succeeded charge |
| DisputePenaltyWorker.Worker.WritePaid | src/workers/disputePenaltyWorker.ts:268-276 | PAID with the charge id |
| DisputePenaltyWorker.Worker.FailPenalty | src/workers/disputePenaltyWorker.ts:179-228 | PENDING below the threshold; FAILED and the account suspended when terminal |
| DisputePenaltyWorker.Worker.ChargePenalty | src/workers/disputePenaltyWorker.ts:231-283 | PAID exactly when the charge is seen to succeed and can be written; otherwise PENDING, or FAILED and suspended at the threshold or without a card, or nothing when that write throws |
| DisputePenaltyWorker.Worker.RunOnce | src/workers/disputePenaltyWorker.ts:286-309 | A tick is a run of the protocol by this worker alone in which it sweeps, claims the oldest claimable rows and charges them one by one as its replies have it, counts exactly its own verdicts, and keeps the guarantees |
| Receipts.SoundOnEveryRun | src/services/escrowService.ts:44-128 | Any number of workers, crashes and replays: at most one receipt and one CONSUMED job per mission, whose total is the sealed total and the declared purchase |
| Receipts.SealedForever | src/services/escrowService.ts:84-96 | A receipt is never overwritten or removed, a finished job keeps its result, CONSUMED and FAILED are final |
| Receipts.SealingDecides | src/services/escrowService.ts:59-115 | Left alone, a COMPLETED job ends CONSUMED exactly when its total is the declared purchase and no receipt exists, FAILED otherwise |
| Receipts.PassesThresholdIff | src/workers/receiptOutboxWorker.ts:86-93 | A step takes a job past MAX_ATTEMPTS exactly when it is a claim, by an idle worker, of a job PENDING at MAX_ATTEMPTS |
| Receipts.OverrunIff | src/workers/receiptOutboxWorker.ts:51-55 | A job becomes PENDING at the threshold exactly by a stale reclaim of it, or by a retried failure of a claimant whose own count is below the threshold |
| Receipts.ThresholdStepIff | src/workers/receiptOutboxWorker.ts:113-123 | From a state where the threshold holds, a step keeps it exactly when it makes no job so |
| Receipts.ThresholdOnEveryRun | src/workers/receiptOutboxWorker.ts:27-29 | On every run without such a step no job is claimed more than MAX_ATTEMPTS times |
| Receipts.CrashesAreUnbounded | src/workers/receiptOutboxWorker.ts:51-55 | A job whose workers keep dying is claimed any number of times |
| ReceiptWorker.Worker.Compare | src/services/escrowService.ts:59-115 | The transaction after its reads: each refusal exactly for its reason, the unique violation, the race, or the receipt and the consumed job together |
| ReceiptWorker.Worker.SealReceipt | src/services/escrowService.ts:44-128 | Unless the call throws: skipped exactly when the job read is not COMPLETED, refused exactly for its reason, sealed otherwise unless another sealing or job change came in between; its moves are exactly the read, the commit, and the recovery after a unique violation |
| ReceiptWorker.Worker.ReclaimJobs | src/workers/receiptOutboxWorker.ts:51-55 | Exactly the jobs PROCESSING for more than fifteen minutes become PENDING |
| ReceiptWorker.Worker.ClaimJob | src/workers/receiptOutboxWorker.ts:86-93 | The conditional claim, attempts + 1; false exactly when the job is no longer PENDING |
| ReceiptWorker.Worker.FailJob | src/workers/receiptOutboxWorker.ts:113-123 | FAILED when deterministic or at the threshold, PENDING otherwise, only from PROCESSING |
| ReceiptWorker.Worker.ProcessJob | src/workers/receiptOutboxWorker.ts:82-125 | One claim; if it took, the verdict that the vision call calls for and, undisturbed, the sealing of what was extracted; otherwise nothing more |
| ReceiptWorker.Worker.ResealOrphans | src/workers/receiptOutboxWorker.ts:57-75 | Every COMPLETED job, up to the batch size, is sealed again, undisturbed by what it holds |
| ReceiptWorker.Worker.ProcessPendings | src/workers/receiptOutboxWorker.ts:77-93 | Every PENDING job, up to the batch size, gets a claim with the attempts of the selection |
| CompensationWorker.PendingRowsComplete | src/workers/buyer-compensation.worker.ts:13-16 | Fewer than ten selected rows are all the PENDING rows |
| ReceiptWorker.Worker.ProcessReceiptOutbox | src/workers/receiptOutboxWorker.ts:49-126 | A tick is a run of the machine interleaved with everyone else and keeps the guarantees; undisturbed, it reclaims, reseals the orphans it then finds and processes the jobs it then finds PENDING |
| EscrowGuard.EnsureMutable | src/lib/prisma-extensions/escrow-guard.ts:38-41 | The filter loop returns the terminal statuses among the rows |
| EscrowGuard.EscrowTable.GuardedUpdateMany | src/lib/prisma-extensions/escrow-guard.ts:55-88 | Refused exactly when the pre-read selects a terminal row; otherwise the update and its count |
| EscrowGuard.EscrowTable.GuardedUpdate | src/lib/prisma-extensions/escrow-guard.ts:63-84 | Refused exactly when the committed row is terminal |
| EscrowGuard.EscrowTable.GuardedUpsert | src/lib/prisma-extensions/escrow-guard.ts:63-92 | Refused exactly when the committed row is terminal; otherwise updates or creates |
| EscrowGuard.ChangesTerminalIff | src/lib/prisma-extensions/escrow-guard.ts:43-61 | Exactly when a terminal row is changed: the pre-read saw none that the filter selects, and the write meets one that the data changes |
| EscrowGuard.UndisturbedIsSafe | src/lib/prisma-extensions/escrow-guard.ts:43-61 | On an undisturbed table no terminal row ever changes, whatever the filter |
| EscrowGuard.IdentityIff | src/lib/prisma-extensions/escrow-guard.ts:45-53 | The guard never stands in the way, whatever commits in between, exactly for filters that exclude the terminal statuses |
| EscrowGuard.CaptureBehindGuard | src/stripe/webhook.route.ts:343-346 | Whatever is committed at the pre-read, the guarded update of a capture hits exactly a HELD, uncaptured escrow and writes what the capture transaction writes |
| EscrowGuard.ReleaseBehindGuard | src/stripe/webhook.route.ts:401-404 | The same of the release |
| EscrowGuard.FailureBehindGuard | src/stripe/webhook.route.ts:572-575 | The same of a payment failure, and of the funding rollback with its equal filter |
| EscrowGuard.RefundBehindGuard | src/stripe/webhook.route.ts:684-690 | The same of a refund |
| EscrowGuard.VerdictBehindGuard | src/workers/penalty.worker.ts:220-225 | The same of the cancellations of the penalty and dispute resolution verdicts |
| EscrowGuard.DisturbedByIdAlone | src/lib/prisma-extensions/escrow-guard.ts:48-53 | A filter by id alone can change a row released after the pre-read |
| RateLimit.Limiter.IsRateLimited | src/rate-limit.ts:49-67 | The upsert and its answer; a database failure lets the request through uncounted |
| RateLimit.Limiter.PurgeExpired | src/workers/rate-limit-cleanup.ts:15-17 | Deletes exactly the expired counters and returns how many |
| RateLimit.PurgeIsInvisible | src/workers/rate-limit-cleanup.ts:5-14 | Purges at arbitrary moments never change the answer to a request |
| RateLimit.FewerThanTwiceMax | src/rate-limit.ts:49-64 | Over every non-decreasing trace with purges: exactly the first max counted requests pass in a window, fewer than 2 * max in any closed interval as long as a window, and only requests that met a database failure are let through beyond that |
| RateLimit.BoundIsReached | src/rate-limit.ts:49-64 | For every maximum and window, a trace on which exactly 2 * max - 1 pass in such an interval |
| DerCodec.WriteDerLength | src/security/tsa.client.ts:45-54 | The loop writes the short form, or the digits of the length behind their count |
| DerCodec.ReadDerHeader | src/security/tsa.client.ts:86-98 | The header or the error: truncated, or malformed for no, too many or missing length octets |
| DerCodec.ReadsBackIff | src/security/tsa.client.ts:56-58 | Anywhere in a buffer, reading what was written gives tag, length and content exactly when the content is shorter than 2^32 bytes, and malformed otherwise |
| DerCodec.LengthIsMinimal | src/security/tsa.client.ts:45-54 | No length octets the reader accepts for that length are shorter, and none as short are different (section 10.1 of X.690) |
| DerCodec.PositiveKeepsValue | src/security/tsa.client.ts:61-64 | The INTEGER written has the unsigned value of the bytes, in two's complement |
| DerCodec.PositiveIsMinimalIff | src/security/tsa.client.ts:61-64 | It is minimal (section 8.3.2 of X.690) exactly when the input is not empty and has no redundant leading zero byte |
| DerCodec.ElementsReadBack | src/security/tsa.client.ts:56-98 | Any sequence of elements is read back, element by element |
| TimestampClient.RequestReadsBack | src/security/tsa.client.ts:70-76 | Read level by level, the request is version 1, SHA-256 and the digest, the nonce as a positive integer and certReq TRUE, and nothing else (section 2.4.1 of RFC 3161) |
| TimestampClient.RequestsDiffer | src/security/tsa.client.ts:70-76 | Equal requests have the same digest and, at one length, the same nonce |
| TimestampClient.ResponseReadsBack | src/security/tsa.client.ts:104-115 | A well-formed response is read as its status, with a token exactly when it has one |
| TimestampClient.EchoIsAccepted | src/security/tsa.client.ts:146-153 | A granted response whose token carries the digest and the nonce is accepted |
| TimestampClient.AcceptedIff | src/security/tsa.client.ts:104-153 | Any response is accepted exactly when its three headers parse, its status octet is 0 or 1, something follows the status info, and the digest and the nonce of the request stand somewhere in it |
| TimestampClient.RefusedBecause | src/security/tsa.client.ts:146-153 | Otherwise the first of these conditions that fails, in the order of the code, gives the error |
| TimestampClient.RequestTimestamp | src/security/tsa.client.ts:160-185 | The first provider whose token validates wins; failure lists every provider's error, or that there is none |

## Left out

- HTTP, JWT, cookies, schemas, logs, alert sinks, timers and the frontend: plumbing. Alerts are kept as codes where a property counts them.
- Signatures, SHA-256, CMS and the vision call: the digest, the nonce and the extracted total are inputs; a receipt keeps the image instead of its hash.
- The issuing log event, substitution requests and deferred notifications of the webhook: they touch no money table, so the event counts as out of scope.
- Sections 3 to 5 of the daily reconciliation: they only compare with Stripe and alert.
- The Watchdog behind the capture call: it is a finite list of attempts with one amount and one key.
- Card issuing, customs thresholds, QR codes, mission access and mapping of rows to views: easy members.
- Machine.Process.CommitQueue: queue verdicts of the dispute and compensation workers are steps with arbitrary arguments in the combined machine, so their attempt counters are bounded only by the workers' own contracts, not on every run of `World`.
- DisputeResolution.EnqueueExpired: the rows of one createMany are written one after the other with nothing in between.
- Timeouts.RunTimeouts: `updatedAt` and `dropoffAt` of missions are not columns of the model; the missions older than the two cutoffs are given.
- FundingReconciliation.SelectCandidates: creation times of escrows are not columns of the model; the rows older than the threshold are a given set.
- Wallets.WalletsConserved: it holds for runs on which no failure verdict falls on a SETTLED row, which one instance guarantees (`CompensationWorker.Worker.ProcessBuyerCompensations`); for two instances the counterexample is given instead.
- RetryLifecycle.LifecycleOnEveryTimelyRun: the threshold is at least 1 (with 0 a new row already counts as many attempts as the threshold); each claimant writes its verdict within the stale window or never does; without that the exact failing step is `LeavesSettledIff`.
- DisputePenalties.SoundOnEveryRun: the threshold is at least 1; with 0 the sweep would fail penalties that were never claimed. For several workers the exact failing steps are `LeavesFinalIff`, `FailsHeldIff` and `OverlapsIff`.
- RowLock.EveryInterleavingIsSerial: it covers one escrow row and its lines; locks on other rows and deadlocks are not part of the model.
- TimestampClient.RequestTimestamp: the replies are a list, so timeouts and aborted requests are replies that never came.

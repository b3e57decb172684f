/** The effect of each committed database transaction, as a function from tables to tables.

    A webhook effect either applies (with the alerts it defers until after the commit) or aborts,
    in which case the enclosing transaction rolls back. WebhookStore carries the same handlers
    statement by statement and proves that they compute these functions. */
module Transactions {
  import opened Tables
  import opened Money
  import opened Ledger

  datatype Event =
    | CheckoutCompleted(missionId: Option<Id>, intent: Option<Id>)
    | IntentSucceeded(intentId: Id, amountReceived: int, missionMetadata: Option<Id>)
    | PaymentFailed(failedIntent: Id)
    | ChargeRefunded(refundedIntent: Option<Id>, amountRefunded: int)
    | OutOfScope

  datatype Delivery = Delivery(eventId: Id, event: Event)

  datatype AlertCode =
    | WebhookAbortNonRecoverable | WebhookProcessingFailed | WebhookMissionNotFound
    | TravelerAccountMissing | CustomsLockCaptured

  datatype Cause =
    | CheckoutNoPaymentIntent | MissionNotFundable | EmptyCapture | CaptureStateConflict
    | NegativePayout | CustomsLock | EscrowNotCancellable | RefundBeforeCapture
    | RefundLedgerAheadOfStripe | OverRefund | EscrowRefundConflict | UniqueViolation

  datatype Effect =
    | Applied(db: Db, handled: bool, alerts: seq<AlertCode>)
    | Aborted(cause: Cause)

  function NoEffect(db: Db): Effect {
    Applied(db, false, [])
  }

  // ----- Row updates shared by several transactions

  function SetMission(missions: map<Id, Mission>, m: Id, s: MissionStatus): map<Id, Mission>
    requires m in missions
  {
    missions[m := missions[m].(status := s)]
  }

  function SetEscrow(escrows: map<Id, Escrow>, m: Id, s: EscrowStatus): map<Id, Escrow>
    requires m in escrows
  {
    escrows[m := escrows[m].(status := s)]
  }

  function AddEscrow(db: Db, m: Id, pi: Id, limit: int): Db {
    db.(escrows := db.escrows[m := Escrow(pi, Held, 0, limit)],
        byPaymentIntent := db.byPaymentIntent[pi := m])
  }

  predicate HasWalletTx(txs: seq<WalletTx>, m: Id) {
    exists i :: 0 <= i < |txs| && txs[i].missionId == m
  }

  function CreditWallet(wallets: map<Id, int>, user: Id, amount: int): map<Id, int> {
    wallets[user := (if user in wallets then wallets[user] else 0) + amount]
  }

  // ----- Webhook effects

  /** checkout.session.completed: the same funding transition as POST /:id/intent. */
  function CheckoutEffect(db: Db, missionId: Option<Id>, intent: Option<Id>): Effect {
    if missionId.None? then NoEffect(db)
    else if intent.None? then Aborted(CheckoutNoPaymentIntent)
    else
      var m := missionId.value;
      if m in db.escrows then NoEffect(db)
      else if m !in db.missions then NoEffect(db)
      else if db.missions[m].status != Created then Aborted(MissionNotFundable)
      else if intent.value in db.byPaymentIntent then Aborted(UniqueViolation)
      else
        Applied(AddEscrow(db, m, intent.value, db.missions[m].budgetCents)
                  .(missions := SetMission(db.missions, m, Funded)), true, [])
  }

  /** The traveler's account, when a payout may be addressed to it. */
  function PayoutAccount(m: Mission): Option<Id> {
    if m.traveler.Some? && m.traveler.value.kycVerified then m.traveler.value.stripeAccountId
    else None
  }

  predicate CustomsLocked(s: MissionStatus) {
    s == EscrowLockedCustoms || s == PendingCustomsReview
  }

  /** payment_intent.succeeded: journal the capture once, then release if a payout is possible. */
  function CaptureEffect(db: Db, now: Instant, intentId: Id, amount: int, metadata: Option<Id>): Effect
    requires Integrity(db)
  {
    if intentId !in db.byPaymentIntent then
      Applied(db, false, if metadata.Some? then [WebhookMissionNotFound] else [])
    else
      var m := db.byPaymentIntent[intentId];
      var escrow := db.escrows[m];
      if escrow.status == Released then NoEffect(db)
      else if amount <= 0 then Aborted(EmptyCapture)
      else if escrow.status != Held || escrow.capturedAmountCents != 0 then
        if escrow.capturedAmountCents == amount then NoEffect(db) else Aborted(CaptureStateConflict)
      else
        var journalled := Journal(db, now, m, amount);
        match PayoutAccount(db.missions[m])
        case None =>
          Applied(journalled.(missions := SetMission(db.missions, m, AwaitingTravelerAccount)),
                  true, [TravelerAccountMissing])
        case Some(account) =>
          ReleaseEffect(journalled, now, m, amount, account)
  }

  /** What an applied capture event has done: nothing at all, or the first journalling of the
      capture on a held escrow, with the release exactly when a payout account is known. */
  lemma CaptureCases(db: Db, now: Instant, pi: Id, amount: int, metadata: Option<Id>)
    requires Integrity(db)
    ensures var e := CaptureEffect(db, now, pi, amount, metadata);
            e.Applied? && !e.handled ==> e.db == db
    ensures var e := CaptureEffect(db, now, pi, amount, metadata);
            e.Applied? && e.handled ==>
              && pi in db.byPaymentIntent
              && var m := db.byPaymentIntent[pi];
              var mission := db.missions[m];
              var j := Journal(db, now, m, amount);
              && amount > 0 && db.escrows[m].status == Held && db.escrows[m].capturedAmountCents == 0
              && match PayoutAccount(mission)
                 case None => e.db == j.(missions := SetMission(db.missions, m, AwaitingTravelerAccount))
                 case Some(account) =>
                   && amount >= mission.commissionCents && m !in db.outbox && !CustomsLocked(mission.status)
                   && e.db == ReleasedDb(j, now, m, account,
                                         SplitSpendable(mission, amount - mission.commissionCents))
  {
  }

  /** A capture event that releases the escrow moves the mission with it exactly from
      AWAITING_VALIDATION and VALIDATED; in any other status the mission stays as it is. */
  lemma ReleaseMovesMissionIff(db: Db, now: Instant, pi: Id, amount: int, metadata: Option<Id>)
    requires Integrity(db) && pi in db.byPaymentIntent
    ensures var m := db.byPaymentIntent[pi];
            var e := CaptureEffect(db, now, pi, amount, metadata);
            e.Applied? && db.escrows[m].status != Released && m in e.db.escrows
            && e.db.escrows[m].status == Released ==>
              e.db.missions == if db.missions[m].status == AwaitingValidation || db.missions[m].status == Validated
                               then SetMission(db.missions, m, MissionReleased) else db.missions
  {
    CaptureCases(db, now, pi, amount, metadata);
    hide CaptureEffect;
  }

  function Journal(db: Db, now: Instant, m: Id, amount: int): Db
    requires m in db.escrows
  {
    db.(escrows := db.escrows[m := db.escrows[m].(capturedAmountCents := amount)],
        ledger := db.ledger + [Entry(m, Capture, amount, now)])
  }

  /** The release step: payout, commission, possible wallet credit, and the transfer intent. */
  function ReleaseEffect(db: Db, now: Instant, m: Id, amount: int, account: Id): Effect
    requires m in db.escrows && m in db.missions
  {
    var mission := db.missions[m];
    var spendable := amount - mission.commissionCents;
    if spendable < 0 then Aborted(NegativePayout)
    else
      var split := SplitSpendable(mission, spendable);
      if (split.walletCreditCents > 0 && HasWalletTx(db.walletTxs, m)) || m in db.outbox then
        Aborted(UniqueViolation)
      else if CustomsLocked(mission.status) then Aborted(CustomsLock)
      else Applied(ReleasedDb(db, now, m, account, split), true, [])
  }

  function ReleasedDb(db: Db, now: Instant, m: Id, account: Id, split: Split): Db
    requires m in db.escrows && m in db.missions
  {
    var mission := db.missions[m];
    db.(escrows := SetEscrow(db.escrows, m, Released),
        ledger := db.ledger + ReleaseLines(now, m, mission.commissionCents, split),
        wallets := if split.walletCreditCents > 0
                   then CreditWallet(db.wallets, mission.buyerId, split.walletCreditCents) else db.wallets,
        walletTxs := if split.walletCreditCents > 0
                     then db.walletTxs + [WalletTx(m, mission.buyerId, split.walletCreditCents)]
                     else db.walletTxs,
        outbox := db.outbox[m := OutboxRow(split.payoutCents, account, Pending, 0, now, now, None)],
        missions := if mission.status == AwaitingValidation || mission.status == Validated
                    then SetMission(db.missions, m, MissionReleased) else db.missions)
  }

  /** The parts of a release that other proofs look at one at a time. */
  lemma ReleasedParts(db: Db, now: Instant, m: Id, account: Id, split: Split)
    requires m in db.escrows && m in db.missions
    ensures var b := ReleasedDb(db, now, m, account, split);
            && b.ledger == db.ledger + ReleaseLines(now, m, db.missions[m].commissionCents, split)
            && b.escrows == SetEscrow(db.escrows, m, Released)
            && b.byPaymentIntent == db.byPaymentIntent && b.processed == db.processed
            && b.outbox == db.outbox[m := OutboxRow(split.payoutCents, account, Pending, 0, now, now, None)]
            && (b.missions == db.missions || b.missions == SetMission(db.missions, m, MissionReleased))
            && db.walletTxs <= b.walletTxs
  {
    hide SetMission, SetEscrow, ReleaseLines;
  }

  function ReleaseLines(now: Instant, m: Id, commission: int, split: Split): seq<Entry> {
    [Entry(m, Payout, split.payoutCents, now), Entry(m, Commission, commission, now)]
    + if split.walletCreditCents > 0 then [Entry(m, BuyerWalletCredit, split.walletCreditCents, now)] else []
  }

  predicate ClosedMission(s: MissionStatus) {
    s == MissionReleased || s == MissionRefunded || s == MissionCancelled
  }

  /** payment_intent.payment_failed: the hold never held money, so it is cancelled. */
  function PaymentFailedEffect(db: Db, intentId: Id): Effect
    requires Integrity(db)
  {
    if intentId !in db.byPaymentIntent then NoEffect(db)
    else
      var m := db.byPaymentIntent[intentId];
      var escrow := db.escrows[m];
      if escrow.status == Held && escrow.capturedAmountCents == 0 then
        Applied(db.(escrows := SetEscrow(db.escrows, m, Cancelled),
                    missions := if ClosedMission(db.missions[m].status) then db.missions
                                else SetMission(db.missions, m, MissionCancelled)), true, [])
      else if escrow.status == Cancelled then NoEffect(db)
      else Aborted(EscrowNotCancellable)
  }

  /** charge.refunded carries a cumul: only the difference with the journalled sum is written. */
  function RefundEffect(db: Db, now: Instant, intentId: Option<Id>, cumul: int): Effect
    requires Integrity(db)
  {
    if intentId.None? || intentId.value !in db.byPaymentIntent then NoEffect(db)
    else
      var m := db.byPaymentIntent[intentId.value];
      var escrow := db.escrows[m];
      var refundedSoFar := SumOf(db.ledger, m, Refund);
      if escrow.capturedAmountCents <= 0 then Aborted(RefundBeforeCapture)
      else if cumul == refundedSoFar then NoEffect(db)
      else if cumul < refundedSoFar then Aborted(RefundLedgerAheadOfStripe)
      else if cumul > escrow.capturedAmountCents then Aborted(OverRefund)
      else if escrow.status != Held && escrow.status != PartiallyRefunded then Aborted(EscrowRefundConflict)
      else
        Applied(RefundedDb(db, now, m, cumul, refundedSoFar), true, [])
  }

  function RefundedDb(db: Db, now: Instant, m: Id, cumul: int, refundedSoFar: int): Db
    requires m in db.escrows
  {
    db.(escrows := SetEscrow(db.escrows, m, if cumul == db.escrows[m].capturedAmountCents then Refunded
                                            else PartiallyRefunded),
        ledger := db.ledger + [Entry(m, Refund, cumul - refundedSoFar, now)])
  }

  function BusinessEffect(db: Db, now: Instant, event: Event): Effect
    requires Integrity(db)
  {
    match event
    case CheckoutCompleted(m, pi) => CheckoutEffect(db, m, pi)
    case IntentSucceeded(pi, amount, metadata) => CaptureEffect(db, now, pi, amount, metadata)
    case PaymentFailed(pi) => PaymentFailedEffect(db, pi)
    case ChargeRefunded(pi, cumul) => RefundEffect(db, now, pi, cumul)
    case OutOfScope => NoEffect(db)
  }

  /** Deliberate aborts have raised their own alert before the throw; the route raises another one
      only for an unexpected error. */
  function AbortAlert(cause: Cause): AlertCode {
    match cause
    case CustomsLock => CustomsLockCaptured
    case UniqueViolation => WebhookProcessingFailed
    case _ => WebhookAbortNonRecoverable
  }

  datatype Delivered = Delivered(db: Db, committed: bool, duplicate: bool, handled: bool, alerts: seq<AlertCode>)

  /** One delivery: the processed-event row and the effect commit together or not at all. */
  function Deliver(db: Db, now: Instant, d: Delivery): Delivered
    requires Integrity(db)
  {
    if d.eventId in db.processed then Delivered(db, true, true, false, [])
    else
      match BusinessEffect(db.(processed := db.processed + {d.eventId}), now, d.event)
      case Applied(db', handled, alerts) => Delivered(db', true, false, handled, alerts)
      case Aborted(cause) => Delivered(db, false, false, false, [AbortAlert(cause)])
  }
}

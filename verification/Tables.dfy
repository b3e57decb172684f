/** The rows of the escrow database.

    Identifiers are opaque, so they are natural numbers. A table whose rows are found through a
    unique column is a map indexed by that column: an escrow, a transfer intent, a penalty debit
    and a refund intent are indexed by their mission, which the schema declares unique (directly,
    or through an idempotency key derived from the mission). Tables that are only appended to, or
    summed over, are sequences. Instants are milliseconds on one non-decreasing clock. */
module Tables {
  type Id = nat
  type Instant = nat

  datatype Option<+T> = None | Some(value: T)

  datatype MissionStatus =
    | Created | Funded | Matched | InProgress | EscrowLockedCustoms | PendingCustomsReview
    | AwaitingValidation | Validated | Deposited | Disputed | InDispute | DisputedFraud
    | AwaitingTravelerAccount | MissionReleased | MissionRefunded | MissionCancelled
    | Expired | NotificationFailed

  datatype Traveler = Traveler(stripeAccountId: Option<Id>, kycVerified: bool)

  datatype Mission = Mission(
    status: MissionStatus,
    buyerId: Id,
    traveler: Option<Traveler>,
    budgetCents: int,
    commissionCents: int,
    substitutionAuthorized: bool,
    purchaseAmountCents: Option<int>)

  datatype EscrowStatus = Held | Released | Refunded | PartiallyRefunded | Cancelled

  predicate Terminal(s: EscrowStatus) {
    s == Released || s == Refunded || s == Cancelled
  }

  datatype Escrow = Escrow(
    stripePaymentIntentId: Id,
    status: EscrowStatus,
    capturedAmountCents: int,
    spendingLimitCents: int)

  /** The last two kinds record the fraud penalty flow. They hang off the escrow for the foreign
      key only and take no part in the accounting rules. */
  datatype LedgerType =
    | Capture | Payout | Commission | Refund | BuyerWalletCredit
    | FraudPenaltyCollected | BuyerRefundCompensation

  datatype Entry = Entry(escrow: Id, kind: LedgerType, amountCents: int, createdAt: Instant)

  datatype WalletTx = WalletTx(missionId: Id, userId: Id, amountCents: int)

  datatype TransferStatus = Pending | Submitted | Settled | Failed | Abandoned

  /** A row of TransferOutbox or of PenaltyDebitOutbox: the two tables share their life cycle. */
  datatype OutboxRow = OutboxRow(
    amountCents: int,
    destination: Id,
    status: TransferStatus,
    attempts: nat,
    createdAt: Instant,
    updatedAt: Instant,
    externalId: Option<Id>)

  datatype JobStatus = JobPending | JobSettled | JobFailed

  /** A row of BuyerCompensationOutbox. */
  datatype Compensation = Compensation(
    missionId: Id, buyerId: Id, amountCents: int, status: JobStatus, attempts: nat)

  /** A READY_FOR_REFUND row of OutboxEvent. */
  datatype RefundIntent = RefundIntent(status: JobStatus, attempts: nat, createdAt: Instant)

  datatype Db = Db(
    missions: map<Id, Mission>,
    escrows: map<Id, Escrow>,
    byPaymentIntent: map<Id, Id>,
    ledger: seq<Entry>,
    wallets: map<Id, int>,
    walletTxs: seq<WalletTx>,
    outbox: map<Id, OutboxRow>,
    penalties: map<Id, OutboxRow>,
    compensations: seq<Compensation>,
    refunds: map<Id, RefundIntent>,
    processed: set<Id>)

  const EMPTY_DB := Db(map[], map[], map[], [], map[], [], map[], map[], [], map[], {})

  /** What the unique indexes and foreign keys of the schema guarantee: `byPaymentIntent` is the
      unique index on EscrowTransaction.stripePaymentIntentId, an escrow belongs to a mission, and
      ledger lines and transfer intents belong to an escrow. */
  ghost predicate Integrity(db: Db) {
    && (forall m :: m in db.escrows ==>
          && m in db.missions
          && db.escrows[m].stripePaymentIntentId in db.byPaymentIntent
          && db.byPaymentIntent[db.escrows[m].stripePaymentIntentId] == m)
    && (forall p :: p in db.byPaymentIntent ==>
          && db.byPaymentIntent[p] in db.escrows
          && db.escrows[db.byPaymentIntent[p]].stripePaymentIntentId == p)
    && (forall i :: 0 <= i < |db.ledger| ==> db.ledger[i].escrow in db.escrows)
    && (forall m :: m in db.outbox ==> m in db.escrows)
  }
}

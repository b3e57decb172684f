/** Every transaction that any route, worker or cron commits on the escrow tables, with arbitrary
    arguments and in any order: one step of the database. */
module Steps {
  import opened Tables
  import opened Money
  import opened Transactions

  datatype Action =
    | Webhook(d: Delivery)
    | Route(r: RouteAction)
    | Cron(c: CronAction)
    | Queue(q: QueueAction)
    | Transfers(rows: map<Id, OutboxRow>)  // transfer worker and requeue

  datatype RouteAction =
    // mission routes: creation, any status or traveler change, purchase declared at shipping
    | CreateMission(m: Id, mission: Mission)
    | UpdateMission(m: Id, status: MissionStatus, traveler: Option<Traveler>)
    | DeclarePurchase(m: Id, purchaseCents: int)
    // funding route and orphan reconciliation
    | InsertEscrow(m: Id, pi: Id, limit: int)

  datatype CronAction =
    // abandoned funding reconciliation
    | RollbackFunding(m: Id)
    // customs timeout of the daily reconciliation
    | CloseCustoms(m: Id)
    // success verdicts of the dispute resolution worker and of the penalty worker
    | SettleRefund(m: Id, sawEscrow: bool)
    | SettlePenalty(m: Id, sawEscrow: bool, debit: Id)
    // fraud arbitration
    | Arbitrate(m: Id)

  datatype QueueAction =
    // dispute resolution worker: enqueue, claim or failure verdict
    | EnqueueRefund(m: Id)
    | UpdateRefund(m: Id, refund: RefundIntent)
    // penalty worker: claim or failure verdict
    | UpdatePenalty(m: Id, lifecycle: TransferStatus, attempts: nat)
    // buyer compensation worker
    | CreditCompensation(i: nat, attemptsSeen: nat)
    | FailCompensation(i: nat, attemptsSeen: nat)

  const COMPENSATION_MAX_ATTEMPTS := 4

  /** Workers move a row through its life cycle; the intent itself never changes. */
  predicate SameIntents(a: map<Id, OutboxRow>, b: map<Id, OutboxRow>) {
    && a.Keys == b.Keys
    && forall k :: k in a ==>
         a[k].amountCents == b[k].amountCents && a[k].destination == b[k].destination
  }

  predicate HasCompensation(cs: seq<Compensation>, m: Id) {
    exists i :: 0 <= i < |cs| && cs[i].missionId == m
  }

  function Step(db: Db, now: Instant, a: Action): Db
    requires Integrity(db)
  {
    match a
    case Webhook(d) => Deliver(db, now, d).db
    case Route(r) => RouteStep(db, r)
    case Cron(c) => CronStep(db, now, c)
    case Queue(q) => QueueStep(db, now, q)
    case Transfers(rows) => if SameIntents(db.outbox, rows) then db.(outbox := rows) else db
  }

  /** CREATED, FUNDED and MATCHED are only entered along CREATED <-> FUNDED -> MATCHED: every route
      that writes one of them filters on the status before it. */
  predicate RouteMoves(from: MissionStatus, to: MissionStatus) {
    match to
    case Created => from == Funded || from == Created
    case Funded => from == Created || from == Funded
    case Matched => from == Funded || from == Matched
    case _ => true
  }

  /** What the creation schema admits. */
  predicate NewMission(mission: Mission) {
    mission.status == Created && mission.purchaseAmountCents.None? && Priced(mission)
  }

  function RouteStep(db: Db, r: RouteAction): Db {
    match r
    case CreateMission(m, mission) =>
      if m in db.missions || !NewMission(mission) then db else db.(missions := db.missions[m := mission])
    case UpdateMission(m, s, traveler) =>
      if m in db.missions && RouteMoves(db.missions[m].status, s)
      then db.(missions := db.missions[m := db.missions[m].(status := s, traveler := traveler)]) else db
    case DeclarePurchase(m, p) =>
      if m in db.missions && db.missions[m].status == Matched && 1 <= p <= db.missions[m].budgetCents
      then db.(missions := db.missions[m := db.missions[m].(status := InProgress, purchaseAmountCents := Some(p))])
      else db
    case InsertEscrow(m, pi, limit) =>
      if m in db.missions && m !in db.escrows && pi !in db.byPaymentIntent
      then AddEscrow(db, m, pi, limit) else db
  }

  function CronStep(db: Db, now: Instant, c: CronAction): Db {
    match c
    case RollbackFunding(m) => RollbackFundingTx(db, m)
    case CloseCustoms(m) => if m in db.escrows then CloseCustomsTx(db, now, m) else db
    case SettleRefund(m, sawEscrow) =>
      if m in db.refunds then SettleRefundTx(db, m, sawEscrow) else db
    case SettlePenalty(m, sawEscrow, debit) =>
      if m in db.penalties then SettlePenaltyTx(db, now, m, sawEscrow, debit) else db
    case Arbitrate(m) =>
      if m in db.missions && m in db.escrows && db.missions[m].status == Disputed
         && db.missions[m].traveler.Some? && m !in db.penalties && !HasCompensation(db.compensations, m)
      then ArbitrateTx(db, now, m) else db
  }

  function QueueStep(db: Db, now: Instant, q: QueueAction): Db {
    match q
    case EnqueueRefund(m) =>
      if m in db.missions && db.missions[m].status == InDispute && m !in db.refunds
      then db.(refunds := db.refunds[m := RefundIntent(JobPending, 0, now)]) else db
    case UpdateRefund(m, refund) =>
      if m in db.refunds then db.(refunds := db.refunds[m := refund]) else db
    case UpdatePenalty(m, s, attempts) =>
      if m in db.penalties && s != Settled then
        db.(penalties := db.penalties[m := db.penalties[m].(status := s, attempts := attempts, updatedAt := now)])
      else db
    case CreditCompensation(i, seen) => if i < |db.compensations| then CreditCompensationTx(db, i, seen) else db
    case FailCompensation(i, seen) => if i < |db.compensations| then FailCompensationTx(db, i, seen) else db
  }

  /** Both conditional updates must hit, or the transaction rolls back. */
  function RollbackFundingTx(db: Db, m: Id): Db {
    if m in db.escrows && db.escrows[m].status == Held && db.escrows[m].capturedAmountCents == 0
       && m in db.missions && db.missions[m].status == Funded
    then db.(escrows := SetEscrow(db.escrows, m, Cancelled), missions := SetMission(db.missions, m, Created))
    else db
  }

  /** The mission update is conditional, the zero refund line is not. */
  function CloseCustomsTx(db: Db, now: Instant, m: Id): Db {
    db.(missions := if m in db.missions && db.missions[m].status == EscrowLockedCustoms
                    then SetMission(db.missions, m, MissionRefunded) else db.missions,
        ledger := db.ledger + [Entry(m, Refund, 0, now)])
  }

  /** UPDATE ... SET status = CANCELLED WHERE status = HELD, with no condition on the capture. */
  function CancelHeld(escrows: map<Id, Escrow>, m: Id): map<Id, Escrow> {
    if m in escrows && escrows[m].status == Held then SetEscrow(escrows, m, Cancelled) else escrows
  }

  function SettleRefundTx(db: Db, m: Id, sawEscrow: bool): Db
    requires m in db.refunds
  {
    db.(refunds := db.refunds[m := db.refunds[m].(status := JobSettled)],
        missions := if m in db.missions && db.missions[m].status == InDispute
                    then SetMission(db.missions, m, MissionRefunded) else db.missions,
        escrows := if sawEscrow then CancelHeld(db.escrows, m) else db.escrows)
  }

  function SettlePenaltyTx(db: Db, now: Instant, m: Id, sawEscrow: bool, debit: Id): Db
    requires m in db.penalties
  {
    db.(escrows := if sawEscrow then CancelHeld(db.escrows, m) else db.escrows,
        penalties := db.penalties[m :=
          db.penalties[m].(status := Settled, externalId := Some(debit), updatedAt := now)])
  }

  /** 200% debited from the traveler, 120% (rounded half up) owed to the buyer. */
  function ArbitrateTx(db: Db, now: Instant, m: Id): Db
    requires m in db.missions && db.missions[m].traveler.Some?
  {
    var mission := db.missions[m];
    var base := mission.budgetCents + mission.commissionCents;
    var penalty := base * 2;
    var compensation := (base * 12 + 5) / 10;
    db.(
      missions := SetMission(db.missions, m, DisputedFraud),
      penalties := db.penalties[m := OutboxRow(penalty, m, Pending, 0, now, now, None)],
      compensations := db.compensations + [Compensation(m, mission.buyerId, compensation, JobPending, 0)],
      ledger := db.ledger + [Entry(m, FraudPenaltyCollected, penalty, now),
                             Entry(m, BuyerRefundCompensation, compensation, now)])
  }

  /** Claim and credit in one transaction; a row that is no longer PENDING credits nothing. */
  function CreditCompensationTx(db: Db, i: nat, attemptsSeen: nat): Db
    requires i < |db.compensations|
  {
    var c := db.compensations[i];
    if c.status != JobPending then db
    else db.(compensations := db.compensations[i := c.(status := JobSettled, attempts := attemptsSeen + 1)],
             wallets := CreditWallet(db.wallets, c.buyerId, c.amountCents))
  }

  /** The failure verdict is written by row id alone. */
  function FailCompensationTx(db: Db, i: nat, attemptsSeen: nat): Db
    requires i < |db.compensations|
  {
    var next := attemptsSeen + 1;
    db.(compensations := db.compensations[i := db.compensations[i].(
          status := if next >= COMPENSATION_MAX_ATTEMPTS then JobFailed else JobPending, attempts := next)])
  }

  datatype TimedAction = At(now: Instant, action: Action)

  /** A run of the database from `db`. */
  function Run(db: Db, actions: seq<TimedAction>): Db
    requires Integrity(db)
    ensures Integrity(Run(db, actions))
    decreases |actions|
  {
    if |actions| == 0 then db
    else
      var before := Run(db, actions[..|actions| - 1]);
      var last := actions[|actions| - 1];
      StepEvolves(before, last.now, last.action);
      Step(before, last.now, last.action)
  }

  // ----- How one step may change the tables

  /** HELD may move anywhere, PARTIALLY_REFUNDED only to itself or REFUNDED, and a terminal status
      is never left. */
  predicate StatusMoves(from: EscrowStatus, to: EscrowStatus) {
    from == to || from == Held || (from == PartiallyRefunded && to == Refunded)
  }

  /** An escrow keeps its payment intent, and its capture is written once, from HELD. */
  predicate EscrowEvolves(a: Escrow, b: Escrow) {
    && a.stripePaymentIntentId == b.stripePaymentIntentId
    && a.spendingLimitCents == b.spendingLimitCents
    && StatusMoves(a.status, b.status)
    && (a.capturedAmountCents == b.capturedAmountCents
        || (a.status == Held && a.capturedAmountCents == 0 && b.capturedAmountCents > 0
            && (b.status == Held || b.status == Released)))
  }

  predicate MissionEvolves(a: Mission, b: Mission) {
    && a.buyerId == b.buyerId && a.budgetCents == b.budgetCents
    && a.commissionCents == b.commissionCents && a.substitutionAuthorized == b.substitutionAuthorized
  }

  ghost predicate MissionsEvolve(a: map<Id, Mission>, b: map<Id, Mission>) {
    forall m :: m in a ==> m in b && MissionEvolves(a[m], b[m])
  }

  ghost predicate EscrowsEvolve(a: map<Id, Escrow>, b: map<Id, Escrow>) {
    forall m :: m in a ==> m in b && EscrowEvolves(a[m], b[m])
  }

  ghost predicate Evolves(a: Db, b: Db) {
    && Integrity(b)
    && MissionsEvolve(a.missions, b.missions)
    && EscrowsEvolve(a.escrows, b.escrows)
    && a.ledger <= b.ledger
    && a.walletTxs <= b.walletTxs
    && a.processed <= b.processed
    && (forall m :: m in a.outbox ==> m in b.outbox && b.outbox[m].amountCents == a.outbox[m].amountCents)
  }

  /** Updates that keep the keys of the escrow table keep its indexes and foreign keys. */
  lemma KeepsIntegrity(a: Db, b: Db)
    requires Integrity(a)
    requires a.missions.Keys <= b.missions.Keys && a.escrows.Keys == b.escrows.Keys
    requires EscrowsEvolve(a.escrows, b.escrows)
    requires a.byPaymentIntent == b.byPaymentIntent
    requires a.ledger <= b.ledger
    requires forall i :: |a.ledger| <= i < |b.ledger| ==> b.ledger[i].escrow in a.escrows
    requires b.outbox.Keys <= b.escrows.Keys
    ensures Integrity(b)
  {
    assert forall m :: m in b.escrows ==> m in a.escrows && EscrowEvolves(a.escrows[m], b.escrows[m]);
  }

  lemma AddEscrowEvolves(db: Db, m: Id, pi: Id, limit: int)
    requires Integrity(db) && m in db.missions && m !in db.escrows && pi !in db.byPaymentIntent
    ensures Evolves(db, AddEscrow(db, m, pi, limit))
  {
  }

  /** A change confined to the rows of one mission that has an escrow. */
  ghost predicate ChangesOnly(a: Db, b: Db, m: Id) {
    && m in a.escrows && m in a.missions && m in b.escrows && m in b.missions
    && (b.missions == a.missions || b.missions == a.missions[m := b.missions[m]])
    && (b.escrows == a.escrows || b.escrows == a.escrows[m := b.escrows[m]])
    && MissionEvolves(a.missions[m], b.missions[m])
    && EscrowEvolves(a.escrows[m], b.escrows[m])
    && b.byPaymentIntent == a.byPaymentIntent
    && a.ledger <= b.ledger
    && (forall i :: |a.ledger| <= i < |b.ledger| ==> b.ledger[i].escrow == m)
    && (b.outbox == a.outbox || (m !in a.outbox && m in b.outbox && b.outbox == a.outbox[m := b.outbox[m]]))
    && a.walletTxs <= b.walletTxs
    && a.processed <= b.processed
  }

  lemma ChangesOnlyEvolves(a: Db, b: Db, m: Id)
    requires Integrity(a) && ChangesOnly(a, b, m)
    ensures Evolves(a, b)
  {
    assert EscrowsEvolve(a.escrows, b.escrows);
    assert MissionsEvolve(a.missions, b.missions);
    KeepsIntegrity(a, b);
  }

  lemma EvolvesReflexive(db: Db)
    requires Integrity(db)
    ensures Evolves(db, db)
  {
  }

  lemma FundedEvolves(db: Db, m: Id, pi: Id, limit: int)
    requires Integrity(db) && m in db.missions && m !in db.escrows && pi !in db.byPaymentIntent
    ensures Evolves(db, AddEscrow(db, m, pi, limit).(missions := SetMission(db.missions, m, Funded)))
  {
  }

  lemma CheckoutEvolves(db: Db, m: Option<Id>, pi: Option<Id>)
    requires Integrity(db)
    ensures var e := CheckoutEffect(db, m, pi); e.Applied? ==> Evolves(db, e.db)
  {
    hide Evolves;
    EvolvesReflexive(db);
    var e := CheckoutEffect(db, m, pi);
    if e.Applied? && e.handled {
      FundedEvolves(db, m.value, pi.value, db.missions[m.value].budgetCents);
    }
  }

  lemma ReleaseChanges(db: Db, now: Instant, m: Id, amount: int, account: Id, split: Split)
    requires m in db.escrows && m in db.missions && m !in db.outbox && amount > 0
    requires db.escrows[m].status == Held && db.escrows[m].capturedAmountCents == 0
    ensures ChangesOnly(db, ReleasedDb(Journal(db, now, m, amount), now, m, account, split), m)
  {
    var b := ReleasedDb(Journal(db, now, m, amount), now, m, account, split);
    assert b.escrows == db.escrows[m := b.escrows[m]];
    assert b.ledger == db.ledger + ([Entry(m, Capture, amount, now)]
                                    + ReleaseLines(now, m, db.missions[m].commissionCents, split));
    assert b.outbox == db.outbox[m := b.outbox[m]];
  }

  lemma JournalChanges(db: Db, now: Instant, m: Id, amount: int)
    requires m in db.escrows && m in db.missions && amount > 0
    requires db.escrows[m].status == Held && db.escrows[m].capturedAmountCents == 0
    ensures ChangesOnly(
              db, Journal(db, now, m, amount).(missions := SetMission(db.missions, m, AwaitingTravelerAccount)), m)
  {
    var b := Journal(db, now, m, amount);
    assert b.escrows == db.escrows[m := b.escrows[m]];
  }

  lemma CaptureChanges(db: Db, now: Instant, pi: Id, amount: int, metadata: Option<Id>)
    requires Integrity(db)
    ensures var e := CaptureEffect(db, now, pi, amount, metadata);
            e.Applied? && e.handled ==> pi in db.byPaymentIntent && ChangesOnly(db, e.db, db.byPaymentIntent[pi])
  {
    hide CaptureEffect, ReleasedDb, ReleaseLines, ChangesOnly;
    CaptureCases(db, now, pi, amount, metadata);
    var e := CaptureEffect(db, now, pi, amount, metadata);
    if e.Applied? && e.handled {
      var m := db.byPaymentIntent[pi];
      match PayoutAccount(db.missions[m])
      case None => JournalChanges(db, now, m, amount);
      case Some(account) =>
        ReleaseChanges(db, now, m, amount, account,
                       SplitSpendable(db.missions[m], amount - db.missions[m].commissionCents));
    }
  }

  lemma PaymentFailedChanges(db: Db, pi: Id)
    requires Integrity(db)
    ensures var e := PaymentFailedEffect(db, pi);
            e.Applied? && e.handled ==> pi in db.byPaymentIntent && ChangesOnly(db, e.db, db.byPaymentIntent[pi])
  {
  }

  lemma RefundChanges(db: Db, now: Instant, pi: Option<Id>, cumul: int)
    requires Integrity(db)
    ensures var e := RefundEffect(db, now, pi, cumul);
            e.Applied? && e.handled ==>
              pi.Some? && pi.value in db.byPaymentIntent && ChangesOnly(db, e.db, db.byPaymentIntent[pi.value])
  {
  }

  lemma EffectEvolves(db: Db, now: Instant, event: Event)
    requires Integrity(db)
    ensures var e := BusinessEffect(db, now, event); e.Applied? ==> Evolves(db, e.db)
  {
    hide Evolves;
    EvolvesReflexive(db);
    var e := BusinessEffect(db, now, event);
    if e.Applied? && e.handled {
      match event
      case CheckoutCompleted(m, pi) =>
        CheckoutEvolves(db, m, pi);
      case IntentSucceeded(pi, amount, metadata) =>
        CaptureChanges(db, now, pi, amount, metadata);
        ChangesOnlyEvolves(db, e.db, db.byPaymentIntent[pi]);
      case PaymentFailed(pi) =>
        PaymentFailedChanges(db, pi);
        ChangesOnlyEvolves(db, e.db, db.byPaymentIntent[pi]);
      case ChargeRefunded(pi, cumul) =>
        RefundChanges(db, now, pi, cumul);
        ChangesOnlyEvolves(db, e.db, db.byPaymentIntent[pi.value]);
    } else if e.Applied? {
      assert e.db == db;
    }
  }

  lemma DeliverEvolves(db: Db, now: Instant, d: Delivery)
    requires Integrity(db)
    ensures Evolves(db, Deliver(db, now, d).db)
  {
    var marked := db.(processed := db.processed + {d.eventId});
    EffectEvolves(marked, now, d.event);
  }

  lemma RollbackEvolves(db: Db, m: Id)
    requires Integrity(db)
    ensures Evolves(db, RollbackFundingTx(db, m))
  {
    var b := RollbackFundingTx(db, m);
    if b != db {
      ChangesOnlyEvolves(db, b, m);
    }
  }

  lemma CloseCustomsEvolves(db: Db, now: Instant, m: Id)
    requires Integrity(db) && m in db.escrows
    ensures Evolves(db, CloseCustomsTx(db, now, m))
  {
    ChangesOnlyEvolves(db, CloseCustomsTx(db, now, m), m);
  }

  lemma MissionsOnlyEvolve(db: Db, missions: map<Id, Mission>)
    requires Integrity(db) && MissionsEvolve(db.missions, missions)
    ensures Evolves(db, db.(missions := missions))
  {
  }

  /** Queues other than the transfer outbox take no part in `Evolves`. */
  lemma OtherTablesEvolve(db: Db, b: Db, c: Db)
    requires Evolves(db, b)
    requires c == b.(wallets := c.wallets, penalties := c.penalties, compensations := c.compensations,
                     refunds := c.refunds)
    ensures Evolves(db, c)
  {
  }

  lemma CoreEvolves(db: Db, missions: map<Id, Mission>, escrows: map<Id, Escrow>)
    requires Integrity(db) && MissionsEvolve(db.missions, missions)
    requires EscrowsEvolve(db.escrows, escrows) && escrows.Keys == db.escrows.Keys
    ensures Evolves(db, db.(missions := missions, escrows := escrows))
  {
    KeepsIntegrity(db, db.(missions := missions, escrows := escrows));
  }

  lemma SettleRefundEvolves(db: Db, m: Id, sawEscrow: bool)
    requires Integrity(db) && m in db.refunds
    ensures Evolves(db, SettleRefundTx(db, m, sawEscrow))
  {
    var b := SettleRefundTx(db, m, sawEscrow);
    CoreEvolves(db, b.missions, b.escrows);
    OtherTablesEvolve(db, db.(missions := b.missions, escrows := b.escrows), b);
  }

  lemma SettlePenaltyEvolves(db: Db, now: Instant, m: Id, sawEscrow: bool, debit: Id)
    requires Integrity(db) && m in db.penalties
    ensures Evolves(db, SettlePenaltyTx(db, now, m, sawEscrow, debit))
  {
    var b := SettlePenaltyTx(db, now, m, sawEscrow, debit);
    CoreEvolves(db, db.missions, b.escrows);
    OtherTablesEvolve(db, db.(missions := db.missions, escrows := b.escrows), b);
  }

  lemma ArbitrateEvolves(db: Db, now: Instant, m: Id)
    requires Integrity(db) && m in db.missions && m in db.escrows && db.missions[m].traveler.Some?
    ensures Evolves(db, ArbitrateTx(db, now, m))
  {
    var b := ArbitrateTx(db, now, m);
    ChangesOnlyEvolves(db, b, m);
  }

  lemma MissionRowEvolves(db: Db, m: Id, mission: Mission)
    requires Integrity(db) && (m in db.missions ==> MissionEvolves(db.missions[m], mission))
    ensures Evolves(db, db.(missions := db.missions[m := mission]))
  {
    MissionsOnlyEvolve(db, db.missions[m := mission]);
  }

  /** Steps on the other queues leave missions, escrows, ledger and transfer intents alone. */
  lemma QueueStepFrame(db: Db, now: Instant, q: QueueAction)
    ensures var b := QueueStep(db, now, q);
            b == db.(wallets := b.wallets, penalties := b.penalties, compensations := b.compensations,
                     refunds := b.refunds)
  {
  }

  lemma TransfersEvolve(db: Db, rows: map<Id, OutboxRow>)
    requires Integrity(db) && SameIntents(db.outbox, rows)
    ensures Evolves(db, db.(outbox := rows))
  {
  }

  lemma RouteStepEvolves(db: Db, r: RouteAction)
    requires Integrity(db)
    ensures Evolves(db, RouteStep(db, r))
  {
    hide Evolves;
    EvolvesReflexive(db);
    match r
    case CreateMission(m, mission) =>
      if m !in db.missions { MissionRowEvolves(db, m, mission); }
    case UpdateMission(m, s, traveler) =>
      if m in db.missions { MissionRowEvolves(db, m, db.missions[m].(status := s, traveler := traveler)); }
    case DeclarePurchase(m, p) =>
      if m in db.missions {
        MissionRowEvolves(db, m, db.missions[m].(status := InProgress, purchaseAmountCents := Some(p)));
      }
    case InsertEscrow(m, pi, limit) =>
      if m in db.missions && m !in db.escrows && pi !in db.byPaymentIntent {
        AddEscrowEvolves(db, m, pi, limit);
      }
  }

  lemma CronStepEvolves(db: Db, now: Instant, c: CronAction)
    requires Integrity(db)
    ensures Evolves(db, CronStep(db, now, c))
  {
    hide Evolves;
    EvolvesReflexive(db);
    match c
    case RollbackFunding(m) => RollbackEvolves(db, m);
    case CloseCustoms(m) => if m in db.escrows { CloseCustomsEvolves(db, now, m); }
    case SettleRefund(m, saw) =>
      if m in db.refunds { SettleRefundEvolves(db, m, saw); }
    case SettlePenalty(m, saw, debit) =>
      if m in db.penalties { SettlePenaltyEvolves(db, now, m, saw, debit); }
    case Arbitrate(m) =>
      if m in db.missions && m in db.escrows && db.missions[m].traveler.Some? { ArbitrateEvolves(db, now, m); }
  }

  /** Every step of every route, worker and cron: money fields of a mission never change, captures
      are written once, terminal escrows never move, and the ledger only grows. */
  lemma StepEvolves(db: Db, now: Instant, a: Action)
    requires Integrity(db)
    ensures Evolves(db, Step(db, now, a))
  {
    hide Evolves;
    EvolvesReflexive(db);
    match a
    case Webhook(d) => DeliverEvolves(db, now, d);
    case Route(r) => RouteStepEvolves(db, r);
    case Cron(c) => CronStepEvolves(db, now, c);
    case Queue(q) =>
      QueueStepFrame(db, now, q);
      OtherTablesEvolve(db, db, QueueStep(db, now, q));
    case Transfers(rows) =>
      if SameIntents(db.outbox, rows) { TransfersEvolve(db, rows); }
  }
}

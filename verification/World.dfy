/** The database and Stripe as one distributed machine: two stores that move independently, joined
    by webhooks delivered any number of times in any order and by tasks that read one store, call
    the other and write later, or crash anywhere in between. */
module World {
  import opened Tables
  import opened Money
  import opened Transactions
  import S = Steps
  import O = Outbox

  datatype IntentStatus = RequiresPaymentMethod | RequiresConfirmation | RequiresCapture | Captured(amount: int)
    | Canceled

  datatype PaymentIntent = PaymentIntent(missionId: Id, amountCents: int, status: IntentStatus)

  /** The attempt thresholds of the transfer worker and of the penalty worker. */
  datatype Limits = Limits(transfers: nat, penalties: nat)

  /** What a route or worker knows between two of its steps. `saw` is the escrow status it read;
      `claim` is the penalty worker's copy of its row, as in the outbox protocol. */
  datatype Task =
    | Funding(m: Id, intent: Option<Id>)
    | Capturing(m: Id, pi: Id, amount: int)
    | Refunding(m: Id, saw: Option<EscrowStatus>, pi: Id, cancelled: bool)
    | Penalising(claim: O.Claim, saw: Option<EscrowStatus>, pi: Id, cancelled: bool)
    | RollingBack(m: Id, pi: Id, committed: bool)
    | ClosingCustoms(m: Id)

  /** `charges` are the penalty debits that succeeded at Stripe and `refusals` the keys whose debit
      was created but did not; `created` are the transfers. */
  datatype World = World(
    limits: Limits,
    now: Instant,
    db: Db,
    intents: map<Id, PaymentIntent>,
    charges: seq<O.External>,
    refusals: set<Id>,
    penaltyAlerts: seq<Id>,
    sent: set<Delivery>,
    tasks: map<Id, Task>,
    claims: map<Id, O.Claim>,
    created: seq<O.External>,
    abandonAlerts: seq<Id>)

  datatype Move =
    | Pass(ms: nat)
    // Stripe and the buyer's bank
    | Progress(pi: Id, to: IntentStatus)
    | Emit(d: Delivery)
    // webhook route; mission routes; queues of the dispute, penalty and compensation workers
    | Receive(d: Delivery)
    | Commit(r: S.RouteAction)
    | CommitQueue(q: S.QueueAction)
    | Arbitrate(m: Id)
    // POST /intent and /checkout-session; orphan reconciliation
    | BeginFunding(t: Id, m: Id)
    | Authorise(t: Id, pi: Id)
    | InsertFunded(t: Id)
    | CompensateFunding(t: Id)
    | RepairOrphan(m: Id, pi: Id)
    // captureEscrowFunds
    | BeginCapture(t: Id, m: Id)
    | CallCapture(t: Id, tookEffect: bool)
    // dispute resolution worker
    | BeginRefund(t: Id, m: Id)
    | CommitRefund(t: Id)
    // penalty worker
    | BeginPenalty(t: Id, m: Id)
    | ChargePenalty(t: Id, tookEffect: bool, approved: bool, reported: bool)
    | CommitPenalty(t: Id)
    | FailPenalty(t: Id, abandon: bool)
    // cancel call of the two workers above
    | CallCancel(t: Id, tookEffect: bool, reported: bool)
    // abandoned funding reconciliation
    | BeginRollback(t: Id, m: Id)
    | CommitRollback(t: Id)
    // customs timeout
    | CancelForCustoms(t: Id, m: Id, tookEffect: bool, reported: bool)
    | CommitCustoms(t: Id)
    // a task ends, or its process crashes
    | EndTask(t: Id)
    // transfer worker and requeue
    | Transfer(a: O.Action)

  function TransferSystem(w: World): O.System {
    O.System(w.now, w.db.outbox, w.claims, w.created, w.abandonAlerts)
  }

  /** The copies of claimed rows that penalty workers hold. */
  function PenaltyClaims(tasks: map<Id, Task>): map<Id, O.Claim> {
    map t | t in tasks && tasks[t].Penalising? :: tasks[t].claim
  }

  /** The penalty outbox of the combined machine as a state of the outbox protocol. */
  function PenaltySystem(w: World): O.System {
    O.System(w.now, w.db.penalties, PenaltyClaims(w.tasks), w.charges, w.penaltyAlerts)
  }

  /** A debit call leaves a succeeded charge behind: a repeated key returns what the first call
      created, and a call without a card on file is not made. */
  predicate DebitSucceeds(w: World, key: Id, tookEffect: bool, approved: bool) {
    tookEffect && key !in w.refusals && (O.Find(w.charges, key).Some? || approved)
  }

  predicate Final(s: IntentStatus) {
    s.Captured? || s.Canceled?
  }

  /** Cancelling works on any intent that is not captured; a replayed key finds it cancelled. */
  function CancelIntent(intents: map<Id, PaymentIntent>, pi: Id, tookEffect: bool): map<Id, PaymentIntent> {
    if pi in intents && !intents[pi].status.Captured? && tookEffect
    then intents[pi := intents[pi].(status := Canceled)] else intents
  }

  /** A success reply to a cancel call implies the intent is cancelled. */
  predicate CancelSucceeds(intents: map<Id, PaymentIntent>, pi: Id, reported: bool) {
    reported && pi in intents && intents[pi].status.Canceled?
  }

  /** What Stripe may send: capture events carry the true amount, checkout events the mission the
      intent was created for; the other kinds are left unconstrained. */
  predicate Truthful(w: World, event: Event) {
    match event
    case IntentSucceeded(pi, amount, metadata) =>
      pi in w.intents && w.intents[pi].status == Captured(amount) && metadata == Some(w.intents[pi].missionId)
    case CheckoutCompleted(m, pi) =>
      m.Some? && pi.Some? ==> pi.value in w.intents && w.intents[pi.value].missionId == m.value
    case _ => true
  }

  predicate Abandonable(s: IntentStatus) {
    s.RequiresPaymentMethod? || s.RequiresConfirmation?
  }

  function SawEscrow(db: Db, m: Id): Option<EscrowStatus> {
    if m in db.escrows then Some(db.escrows[m].status) else None
  }

  function IntentOf(db: Db, m: Id): Id {
    if m in db.escrows then db.escrows[m].stripePaymentIntentId else 0
  }

  predicate Enabled(w: World, x: Move) {
    match x
    case Pass(_) => true
    case Progress(pi, to) => pi in w.intents && !Final(w.intents[pi].status) && !to.Captured?
    case Emit(d) => Truthful(w, d.event)
    case Receive(d) => d in w.sent
    case Commit(r) => !r.InsertEscrow?
    case CommitQueue(q) => !q.UpdatePenalty?
    case Arbitrate(m) => true
    case BeginFunding(t, m) => t !in w.tasks && m in w.db.missions && w.db.missions[m].status == Created
    case Authorise(t, pi) =>
      t in w.tasks && w.tasks[t].Funding? && w.tasks[t].m in w.db.missions
      && (pi in w.intents ==> w.intents[pi].missionId == w.tasks[t].m)
    case InsertFunded(t) =>
      t in w.tasks && w.tasks[t].Funding? && w.tasks[t].intent.Some? && w.tasks[t].m in w.db.missions
    case CompensateFunding(t) => t in w.tasks && w.tasks[t].Funding? && w.tasks[t].m in w.db.missions
    case RepairOrphan(m, pi) =>
      m in w.db.missions && w.db.missions[m].status == Funded && m !in w.db.escrows
      && pi in w.intents && w.intents[pi].missionId == m
    case BeginCapture(t, m) =>
      t !in w.tasks && m in w.db.escrows && m in w.db.missions && w.db.escrows[m].status == Held
      && HeldBudget(w.db.missions[m]) <= SubstitutionHardCap(w.db.missions[m].budgetCents)
    case CallCapture(t, _) => t in w.tasks && w.tasks[t].Capturing?
    case BeginRefund(t, m) => t !in w.tasks && m in w.db.refunds
    case CommitRefund(t) =>
      t in w.tasks && w.tasks[t].Refunding?
      && w.tasks[t].saw != Some(Released) && w.tasks[t].saw != Some(PartiallyRefunded)
      && (w.tasks[t].saw == Some(Held) ==> w.tasks[t].cancelled)
    case BeginPenalty(t, m) =>
      t !in w.tasks && m in w.db.penalties && O.Eligible(w.db.penalties[m], w.now, w.limits.penalties)
    case ChargePenalty(t, _, _, _) => t in w.tasks && w.tasks[t].Penalising? && w.tasks[t].claim.stage == O.Claimed
    case CommitPenalty(t) =>
      t in w.tasks && w.tasks[t].Penalising? && w.tasks[t].claim.stage.Succeeded?
      && (w.tasks[t].saw == Some(Held) ==> w.tasks[t].cancelled)
    case FailPenalty(t, abandon) =>
      t in w.tasks && w.tasks[t].Penalising? && w.tasks[t].claim.stage != O.Claimed
      && abandon == (w.tasks[t].claim.attempts + 1 >= w.limits.penalties)
    case CallCancel(t, _, _) =>
      t in w.tasks && (|| (w.tasks[t].Refunding? && w.tasks[t].saw == Some(Held))
                       || (w.tasks[t].Penalising? && w.tasks[t].saw == Some(Held) && w.tasks[t].claim.stage.Succeeded?)
                       || (w.tasks[t].RollingBack? && w.tasks[t].committed))
    case BeginRollback(t, m) =>
      // the candidate was selected earlier; only the intent's status is read now
      t !in w.tasks && m in w.db.escrows
      && IntentOf(w.db, m) in w.intents && Abandonable(w.intents[IntentOf(w.db, m)].status)
    case CommitRollback(t) => t in w.tasks && w.tasks[t].RollingBack? && !w.tasks[t].committed
    case CancelForCustoms(t, m, _, _) => t !in w.tasks && m in w.db.escrows
    case CommitCustoms(t) => t in w.tasks && w.tasks[t].ClosingCustoms?
    case EndTask(t) => t in w.tasks
    case Transfer(a) => !a.Create? && !a.Tick?
  }

  function FailureStatus(abandon: bool): TransferStatus {
    if abandon then Abandoned else Failed
  }

  /** The database transaction a move commits, if any. */
  function DbPart(w: World, x: Move): Option<S.Action>
    requires Enabled(w, x)
  {
    match x
    case Receive(d) => Some(S.Webhook(d))
    case Commit(r) => Some(S.Route(r))
    case CommitQueue(q) => Some(S.Queue(q))
    case Arbitrate(m) => Some(S.Cron(S.Arbitrate(m)))
    case BeginFunding(t, m) => Some(S.Route(S.UpdateMission(m, Funded, w.db.missions[m].traveler)))
    case InsertFunded(t) =>
      Some(S.Route(S.InsertEscrow(w.tasks[t].m, w.tasks[t].intent.value, HeldBudget(w.db.missions[w.tasks[t].m]))))
    case CompensateFunding(t) =>
      var m := w.tasks[t].m;
      if w.db.missions[m].status == Funded
      then Some(S.Route(S.UpdateMission(m, Created, w.db.missions[m].traveler))) else None
    case RepairOrphan(m, pi) => Some(S.Route(S.InsertEscrow(m, pi, w.db.missions[m].budgetCents)))
    case CommitRefund(t) => Some(S.Cron(S.SettleRefund(w.tasks[t].m, w.tasks[t].saw.Some?)))
    case CommitPenalty(t) =>
      Some(S.Cron(S.SettlePenalty(w.tasks[t].claim.key, w.tasks[t].saw.Some?, w.tasks[t].claim.stage.id)))
    case FailPenalty(t, abandon) =>
      var m := w.tasks[t].claim.key;
      if m in w.db.penalties
      then Some(S.Queue(S.UpdatePenalty(m, FailureStatus(abandon), w.db.penalties[m].attempts + 1)))
      else None
    case BeginPenalty(t, m) => Some(S.Queue(S.UpdatePenalty(m, Submitted, w.db.penalties[m].attempts)))
    case CommitRollback(t) => Some(S.Cron(S.RollbackFunding(w.tasks[t].m)))
    case CommitCustoms(t) => Some(S.Cron(S.CloseCustoms(w.tasks[t].m)))
    case Transfer(a) => Some(S.Transfers(O.Step(TransferSystem(w), w.limits.transfers, a).rows))
    case _ => None
  }

  /** What a move changes outside the database. */
  function OutsidePart(w: World, x: Move): World
    requires Enabled(w, x)
    ensures OutsidePart(w, x).db == w.db && OutsidePart(w, x).limits == w.limits
  {
    match x
    case Pass(ms) => w.(now := w.now + ms)
    case Progress(pi, to) => w.(intents := w.intents[pi := w.intents[pi].(status := to)])
    case Emit(d) => w.(sent := w.sent + {d})
    case BeginFunding(t, m) => w.(tasks := w.tasks[t := Funding(m, None)])
    case Authorise(t, pi) =>
      var m := w.tasks[t].m;
      w.(tasks := w.tasks[t := Funding(m, Some(pi))],
         intents := if pi in w.intents then w.intents
                    else w.intents[pi := PaymentIntent(m, EscrowTotal(w.db.missions[m]), RequiresPaymentMethod)])
    case InsertFunded(t) => w.(tasks := w.tasks - {t})
    case CompensateFunding(t) => w.(tasks := w.tasks - {t})
    case BeginCapture(t, m) =>
      w.(tasks := w.tasks[t := Capturing(m, IntentOf(w.db, m), EscrowTotal(w.db.missions[m]))])
    case CallCapture(t, tookEffect) =>
      var pi := w.tasks[t].pi;
      if tookEffect && pi in w.intents && w.intents[pi].status.RequiresCapture?
      then w.(intents := w.intents[pi := w.intents[pi].(status := Captured(w.tasks[t].amount))]) else w
    case BeginRefund(t, m) => w.(tasks := w.tasks[t := Refunding(m, SawEscrow(w.db, m), IntentOf(w.db, m), false)])
    case CommitRefund(t) => w.(tasks := w.tasks - {t})
    case BeginPenalty(t, m) =>
      var row := w.db.penalties[m];
      var claim := O.Claim(m, row.amountCents, row.destination, row.attempts, w.now, O.Claimed);
      w.(tasks := w.tasks[t := Penalising(claim, SawEscrow(w.db, m), IntentOf(w.db, m), false)])
    case ChargePenalty(t, tookEffect, approved, reported) =>
      var c := w.tasks[t].claim;
      if DebitSucceeds(w, c.key, tookEffect, approved) then
        var stage := if reported then O.Succeeded(O.StripeId(w.charges, c)) else O.Threw;
        w.(charges := O.StripeCreate(w.charges, c),
           tasks := w.tasks[t := w.tasks[t].(claim := c.(stage := stage))])
      else
        w.(refusals := if tookEffect then w.refusals + {c.key} else w.refusals,
           tasks := w.tasks[t := w.tasks[t].(claim := c.(stage := O.Threw))])
    case CommitPenalty(t) => w.(tasks := w.tasks - {t})
    case FailPenalty(t, abandon) =>
      var m := w.tasks[t].claim.key;
      w.(tasks := w.tasks - {t},
         penaltyAlerts := if m in w.db.penalties && abandon then w.penaltyAlerts + [m] else w.penaltyAlerts)
    case CallCancel(t, tookEffect, reported) =>
      var intents := CancelIntent(w.intents, w.tasks[t].pi, tookEffect);
      w.(intents := intents,
         tasks := if CancelSucceeds(intents, w.tasks[t].pi, reported) && !w.tasks[t].RollingBack?
                  then w.tasks[t := w.tasks[t].(cancelled := true)] else w.tasks)
    case BeginRollback(t, m) => w.(tasks := w.tasks[t := RollingBack(m, IntentOf(w.db, m), false)])
    case CommitRollback(t) =>
      // a transaction that rolled back skips the cancel call
      w.(tasks := w.tasks[t := w.tasks[t].(committed := S.RollbackFundingTx(w.db, w.tasks[t].m) != w.db)])
    case CancelForCustoms(t, m, tookEffect, reported) =>
      var intents := CancelIntent(w.intents, IntentOf(w.db, m), tookEffect);
      w.(intents := intents,
         tasks := if CancelSucceeds(intents, IntentOf(w.db, m), reported) then w.tasks[t := ClosingCustoms(m)]
           else w.tasks)
    case CommitCustoms(t) => w.(tasks := w.tasks - {t})
    case EndTask(t) => w.(tasks := w.tasks - {t})
    case Transfer(a) =>
      var s := O.Step(TransferSystem(w), w.limits.transfers, a);
      w.(claims := s.claims, created := s.created, abandonAlerts := s.abandonAlerts)
    case _ => w
  }

  function Step(w: World, x: Move): World
    requires Integrity(w.db)
  {
    if !Enabled(w, x) then w
    else
      match DbPart(w, x)
      case None => OutsidePart(w, x)
      case Some(a) => OutsidePart(w, x).(db := S.Step(w.db, w.now, a))
  }

  lemma StepKeepsIntegrity(w: World, x: Move)
    requires Integrity(w.db)
    ensures Integrity(Step(w, x).db)
  {
    if Enabled(w, x) && DbPart(w, x).Some? {
      S.StepEvolves(w.db, w.now, DbPart(w, x).value);
    }
  }

  function Init(limits: Limits): World {
    World(limits, 0, EMPTY_DB, map[], [], {}, [], {}, map[], map[], [], [])
  }

  function Run(w: World, moves: seq<Move>): World
    requires Integrity(w.db)
    ensures Integrity(Run(w, moves).db)
    decreases |moves|
  {
    if |moves| == 0 then w
    else
      var before := Run(w, moves[..|moves| - 1]);
      StepKeepsIntegrity(before, moves[|moves| - 1]);
      Step(before, moves[|moves| - 1])
  }
}

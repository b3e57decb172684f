/** Which transaction can be behind each change of an escrow. */
module Causes {
  import opened Tables
  import opened Money
  import opened Ledger
  import opened Transactions
  import opened Steps

  /** The success verdicts that cancel an escrow without looking at its capture. */
  predicate CancelsUnconditionally(a: Action, m: Id) {
    a.Cron? && a.c.m == m
    && ((a.c.SettleRefund? && a.c.sawEscrow) || (a.c.SettlePenalty? && a.c.sawEscrow))
  }

  predicate DeliversCapture(a: Action, pi: Id, amount: int) {
    a.Webhook? && a.d.event.IntentSucceeded? && a.d.event.intentId == pi && a.d.event.amountReceived == amount
  }

  predicate OpensEscrow(a: Action, m: Id, pi: Id) {
    || (a.Route? && a.r.InsertEscrow? && a.r.m == m && a.r.pi == pi)
    || (a.Webhook? && a.d.event == CheckoutCompleted(Some(m), Some(pi)))
  }

  /** An existing escrow: its capture changes only by its own capture event; it becomes CANCELLED
      only from HELD, and only while uncaptured unless a worker verdict does it. */
  ghost predicate CausedChange(a: Db, action: Action, b: Db, m: Id)
    requires m in a.escrows && m in b.escrows
  {
    var x, y := a.escrows[m], b.escrows[m];
    && (y.capturedAmountCents != x.capturedAmountCents ==>
          DeliversCapture(action, x.stripePaymentIntentId, y.capturedAmountCents) && y.status != Cancelled)
    && (y.status == Cancelled && x.status != Cancelled ==>
          x.status == Held && (x.capturedAmountCents == 0 || CancelsUnconditionally(action, m)))
  }

  ghost predicate CausedOpening(action: Action, b: Db, m: Id)
    requires m in b.escrows
  {
    && OpensEscrow(action, m, b.escrows[m].stripePaymentIntentId)
    && b.escrows[m].status == Held && b.escrows[m].capturedAmountCents == 0
  }

  ghost predicate Caused(a: Db, action: Action, b: Db) {
    forall m :: m in b.escrows ==> if m in a.escrows then CausedChange(a, action, b, m) else CausedOpening(action, b, m)
  }

  lemma SameEscrowsCaused(a: Db, action: Action, b: Db)
    requires a.escrows == b.escrows
    ensures Caused(a, action, b)
  {
  }

  lemma OneEscrowCaused(a: Db, action: Action, b: Db, m: Id)
    requires m in b.escrows && b.escrows == a.escrows[m := b.escrows[m]]
    requires if m in a.escrows then CausedChange(a, action, b, m) else CausedOpening(action, b, m)
    ensures Caused(a, action, b)
  {
  }

  lemma DeliverCaused(db: Db, now: Instant, d: Delivery)
    requires Integrity(db)
    ensures Caused(db, Webhook(d), Deliver(db, now, d).db)
  {
    hide Caused, CaptureEffect, SumOf;
    var b := Deliver(db, now, d).db;
    if b.escrows == db.escrows {
      SameEscrowsCaused(db, Webhook(d), b);
    } else {
      var marked := db.(processed := db.processed + {d.eventId});
      match d.event
      case CheckoutCompleted(m, pi) => OneEscrowCaused(db, Webhook(d), b, m.value);
      case IntentSucceeded(pi, amount, metadata) =>
        CaptureCases(marked, now, pi, amount, metadata);
        CaptureWrites(marked, now, pi, amount, metadata);
        OneEscrowCaused(db, Webhook(d), b, db.byPaymentIntent[pi]);
      case PaymentFailed(pi) => OneEscrowCaused(db, Webhook(d), b, db.byPaymentIntent[pi]);
      case ChargeRefunded(pi, cumul) => OneEscrowCaused(db, Webhook(d), b, db.byPaymentIntent[pi.value]);
      case OutOfScope =>
    }
  }

  /** The escrow row after a handled capture event. */
  lemma CaptureWrites(db: Db, now: Instant, pi: Id, amount: int, metadata: Option<Id>)
    requires Integrity(db)
    ensures var e := CaptureEffect(db, now, pi, amount, metadata);
            e.Applied? && e.handled ==>
              && pi in db.byPaymentIntent
              && var m := db.byPaymentIntent[pi];
              && m in e.db.escrows && e.db.escrows == db.escrows[m := e.db.escrows[m]]
              && e.db.escrows[m].stripePaymentIntentId == pi
              && e.db.escrows[m].capturedAmountCents == amount
              && (e.db.escrows[m].status == Held || e.db.escrows[m].status == Released)
              && (e.db.escrows[m].status == Released ==>
                    && m in e.db.outbox && amount >= db.missions[m].commissionCents
                    && e.db.outbox[m].amountCents
                       == SplitSpendable(db.missions[m], amount - db.missions[m].commissionCents).payoutCents)
  {
    hide CaptureEffect, SplitSpendable;
    CaptureCases(db, now, pi, amount, metadata);
  }

  lemma RouteStepCaused(db: Db, r: RouteAction)
    ensures Caused(db, Route(r), RouteStep(db, r))
  {
    hide Caused;
    var b := RouteStep(db, r);
    if b.escrows == db.escrows { SameEscrowsCaused(db, Route(r), b); } else { OneEscrowCaused(db, Route(r), b, r.m); }
  }

  lemma CronStepCaused(db: Db, now: Instant, c: CronAction)
    ensures Caused(db, Cron(c), CronStep(db, now, c))
  {
    hide Caused;
    var b := CronStep(db, now, c);
    if b.escrows == db.escrows { SameEscrowsCaused(db, Cron(c), b); } else { OneEscrowCaused(db, Cron(c), b, c.m); }
  }

  lemma StepCaused(db: Db, now: Instant, a: Action)
    requires Integrity(db)
    ensures Caused(db, a, Step(db, now, a))
  {
    hide Caused, RouteStep, CronStep, QueueStep;
    match a
    case Webhook(d) => DeliverCaused(db, now, d);
    case Route(r) => RouteStepCaused(db, r);
    case Cron(c) => CronStepCaused(db, now, c);
    case Queue(q) =>
      QueueStepFrame(db, now, q);
      SameEscrowsCaused(db, a, QueueStep(db, now, q));
    case Transfers(rows) => SameEscrowsCaused(db, a, Step(db, now, a));
  }

  /** A traveler money may be sent to: there is one, with a verified identity and this account. */
  predicate PayableTo(m: Mission, account: Id) {
    m.traveler.Some? && m.traveler.value.kycVerified && m.traveler.value.stripeAccountId == Some(account)
  }

  /** A new transfer intent: a capture event released the escrow, the payout is the split of what that
      event captured, and it goes to the account of the mission's verified traveler. */
  ghost predicate CausedIntent(a: Db, action: Action, b: Db, m: Id)
    requires m in b.outbox
  {
    && m in b.escrows && m in a.missions && PayableTo(a.missions[m], b.outbox[m].destination)
    && DeliversCapture(action, b.escrows[m].stripePaymentIntentId, b.escrows[m].capturedAmountCents)
    && b.outbox[m].amountCents
       == SplitSpendable(a.missions[m], b.escrows[m].capturedAmountCents - a.missions[m].commissionCents).payoutCents
  }

  lemma OtherEventsKeepOutbox(db: Db, now: Instant, event: Event)
    requires Integrity(db) && !event.IntentSucceeded?
    ensures var e := BusinessEffect(db, now, event); e.Applied? ==> e.db.outbox == db.outbox
  {
    hide SumOf;
  }

  lemma CaptureCausesIntent(db: Db, now: Instant, d: Delivery, m: Id)
    requires Integrity(db) && d.event.IntentSucceeded?
    requires var e := BusinessEffect(db, now, d.event); e.Applied? && m in e.db.outbox && m !in db.outbox
    ensures CausedIntent(db, Webhook(d), BusinessEffect(db, now, d.event).db, m)
  {
    var pi, amount := d.event.intentId, d.event.amountReceived;
    CaptureCases(db, now, pi, amount, d.event.missionMetadata);
    CaptureWrites(db, now, pi, amount, d.event.missionMetadata);
    hide CaptureEffect, SplitSpendable, ReleasedDb, SetMission;
    if pi in db.byPaymentIntent {
      var mission := db.missions[db.byPaymentIntent[pi]];
      match PayoutAccount(mission)
      case None =>
      case Some(account) =>
        ReleasedParts(Journal(db, now, db.byPaymentIntent[pi], amount), now, db.byPaymentIntent[pi], account,
                      SplitSpendable(mission, amount - mission.commissionCents));
    }
  }

  lemma StepCausesIntent(db: Db, now: Instant, a: Action, m: Id)
    requires Integrity(db)
    requires m in Step(db, now, a).outbox && m !in db.outbox
    ensures CausedIntent(db, a, Step(db, now, a), m)
  {
    hide RouteStep, CronStep, QueueStep, BusinessEffect;
    match a
    case Webhook(d) =>
      var marked := db.(processed := db.processed + {d.eventId});
      if d.event.IntentSucceeded? {
        CaptureCausesIntent(marked, now, d, m);
      } else {
        OtherEventsKeepOutbox(marked, now, d.event);
      }
    case Route(r) => RouteKeepsOutbox(db, r);
    case Cron(c) => CronKeepsOutbox(db, now, c);
    case Queue(q) => QueueStepFrame(db, now, q);
    case Transfers(rows) =>
  }

  lemma RouteKeepsOutbox(db: Db, r: RouteAction)
    ensures RouteStep(db, r).outbox == db.outbox
  {
  }

  lemma CronKeepsOutbox(db: Db, now: Instant, c: CronAction)
    ensures CronStep(db, now, c).outbox == db.outbox
  {
  }

  /** Outside the transfer worker, intents are only added, and start PENDING and unexecuted. */
  ghost predicate IntentsKept(a: map<Id, OutboxRow>, b: map<Id, OutboxRow>) {
    && a.Keys <= b.Keys
    && forall k :: k in b ==>
         if k in a then b[k] == a[k] else b[k].status == Pending && b[k].externalId.None?
  }

  lemma CaptureKeepsIntents(db: Db, now: Instant, pi: Id, amount: int, metadata: Option<Id>)
    requires Integrity(db)
    ensures var e := CaptureEffect(db, now, pi, amount, metadata); e.Applied? ==> IntentsKept(db.outbox, e.db.outbox)
  {
    hide CaptureEffect, SplitSpendable, ReleaseLines;
    CaptureCases(db, now, pi, amount, metadata);
  }

  lemma StepKeepsIntents(db: Db, now: Instant, a: Action)
    requires Integrity(db) && !a.Transfers?
    ensures IntentsKept(db.outbox, Step(db, now, a).outbox)
  {
    hide RouteStep, CronStep, QueueStep, BusinessEffect;
    match a
    case Webhook(d) =>
      var marked := db.(processed := db.processed + {d.eventId});
      if d.event.IntentSucceeded? {
        CaptureIsEffect(marked, now, d.event);
        CaptureKeepsIntents(marked, now, d.event.intentId, d.event.amountReceived, d.event.missionMetadata);
      } else {
        OtherEventsKeepOutbox(marked, now, d.event);
      }
    case Route(r) => RouteKeepsOutbox(db, r);
    case Cron(c) => CronKeepsOutbox(db, now, c);
    case Queue(q) => QueueStepFrame(db, now, q);
  }

  lemma CaptureIsEffect(db: Db, now: Instant, event: Event)
    requires Integrity(db) && event.IntentSucceeded?
    ensures BusinessEffect(db, now, event)
            == CaptureEffect(db, now, event.intentId, event.amountReceived, event.missionMetadata)
  {
  }

  lemma EventsKeepQueues(db: Db, now: Instant, event: Event)
    requires Integrity(db)
    ensures var e := BusinessEffect(db, now, event);
            e.Applied? ==> e.db.penalties == db.penalties && e.db.refunds == db.refunds
  {
    hide SumOf, ReleaseLines, SplitSpendable;
  }

  lemma RouteKeepsQueues(db: Db, r: RouteAction)
    ensures RouteStep(db, r).penalties == db.penalties && RouteStep(db, r).refunds == db.refunds
  {
  }

  /** Webhooks, routes and the transfer worker leave penalties and refund intents alone. */
  lemma StepKeepsQueues(db: Db, now: Instant, a: Action)
    requires Integrity(db) && !a.Cron? && !a.Queue?
    ensures Step(db, now, a).penalties == db.penalties && Step(db, now, a).refunds == db.refunds
  {
    hide BusinessEffect, RouteStep;
    match a
    case Webhook(d) => EventsKeepQueues(db.(processed := db.processed + {d.eventId}), now, d.event);
    case Route(r) => RouteKeepsQueues(db, r);
    case Transfers(rows) =>
  }

  lemma QueueKeepsPenalties(db: Db, now: Instant, q: QueueAction)
    requires !q.UpdatePenalty?
    ensures QueueStep(db, now, q).penalties == db.penalties
  {
  }
}

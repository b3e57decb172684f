/** Mission amounts over a run: what creation and shipping admit, and that the declared purchase is
    written once although the shipping update is only filtered on the MATCHED status. */
module Missions {
  import opened Tables
  import opened Money
  import opened Transactions
  import opened Steps

  predicate Early(s: MissionStatus) {
    s == Created || s == Funded || s == Matched
  }

  predicate MissionSound(m: Mission) {
    Priced(m) && (m.purchaseAmountCents.Some? ==> !Early(m.status))
  }

  ghost predicate MissionsSound(db: Db) {
    forall m :: m in db.missions ==> MissionSound(db.missions[m])
  }

  /** No step rewrites a declared purchase, removes a mission, or makes one unsound. */
  ghost predicate MissionsAdvance(a: Db, b: Db) {
    && MissionsSound(b)
    && forall m :: m in a.missions ==>
         && m in b.missions
         && MissionEvolves(a.missions[m], b.missions[m])
         && (a.missions[m].purchaseAmountCents.Some? ==>
               b.missions[m].purchaseAmountCents == a.missions[m].purchaseAmountCents)
  }

  lemma MissionRowAdvances(a: Db, b: Db, m: Id)
    requires MissionsSound(a) && m in b.missions
    requires b.missions == a.missions || b.missions == a.missions[m := b.missions[m]]
    requires MissionSound(b.missions[m])
    requires m in a.missions ==>
               && MissionEvolves(a.missions[m], b.missions[m])
               && (a.missions[m].purchaseAmountCents.Some? ==>
                     b.missions[m].purchaseAmountCents == a.missions[m].purchaseAmountCents)
    ensures MissionsAdvance(a, b)
  {
  }

  lemma SameMissionsAdvance(a: Db, b: Db)
    requires MissionsSound(a) && b.missions == a.missions
    ensures MissionsAdvance(a, b)
  {
  }

  lemma EffectAdvances(db: Db, now: Instant, event: Event)
    requires Integrity(db) && MissionsSound(db)
    ensures var e := BusinessEffect(db, now, event); e.Applied? ==> MissionsAdvance(db, e.db)
  {
    hide MissionsAdvance, CaptureEffect;
    var e := BusinessEffect(db, now, event);
    if e.Applied? {
      if e.db.missions == db.missions {
        SameMissionsAdvance(db, e.db);
      } else {
        match event
        case CheckoutCompleted(m, pi) => MissionRowAdvances(db, e.db, m.value);
        case IntentSucceeded(pi, amount, metadata) =>
          CaptureCases(db, now, pi, amount, metadata);
          MissionRowAdvances(db, e.db, db.byPaymentIntent[pi]);
        case PaymentFailed(pi) => MissionRowAdvances(db, e.db, db.byPaymentIntent[pi]);
        case _ =>
      }
    }
  }

  lemma RouteStepAdvances(db: Db, r: RouteAction)
    requires MissionsSound(db)
    ensures MissionsAdvance(db, RouteStep(db, r))
  {
    hide MissionsAdvance;
    var b := RouteStep(db, r);
    if b.missions == db.missions { SameMissionsAdvance(db, b); } else { MissionRowAdvances(db, b, r.m); }
  }

  lemma CronStepAdvances(db: Db, now: Instant, c: CronAction)
    requires MissionsSound(db)
    ensures MissionsAdvance(db, CronStep(db, now, c))
  {
    hide MissionsAdvance;
    var b := CronStep(db, now, c);
    if b.missions == db.missions { SameMissionsAdvance(db, b); } else { MissionRowAdvances(db, b, c.m); }
  }

  lemma StepAdvancesMissions(db: Db, now: Instant, a: Action)
    requires Integrity(db) && MissionsSound(db)
    ensures MissionsAdvance(db, Step(db, now, a))
  {
    hide MissionsAdvance, BusinessEffect, RouteStep, CronStep, QueueStep;
    SameMissionsAdvance(db, db);
    match a
    case Webhook(d) =>
      var marked := db.(processed := db.processed + {d.eventId});
      EffectAdvances(marked, now, d.event);
      if Step(db, now, a) != db { MissionsOnlyMatter(db, marked, Step(db, now, a)); }
    case Route(r) => RouteStepAdvances(db, r);
    case Cron(c) => CronStepAdvances(db, now, c);
    case Queue(q) =>
      QueueStepFrame(db, now, q);
      SameMissionsAdvance(db, QueueStep(db, now, q));
    case Transfers(rows) => SameMissionsAdvance(db, Step(db, now, a));
  }

  lemma MissionsOnlyMatter(a: Db, a': Db, b: Db)
    requires a.missions == a'.missions && MissionsAdvance(a', b)
    ensures MissionsAdvance(a, b)
  {
  }

  /** On every run, a declared purchase is never rewritten, although shipping only filters on the
      mission being MATCHED. */
  lemma {:induction false} PurchaseWrittenOnce(actions: seq<TimedAction>, i: nat)
    requires i <= |actions|
    ensures Integrity(EMPTY_DB)
    ensures MissionsSound(Run(EMPTY_DB, actions))
    ensures var mid, end := Run(EMPTY_DB, actions[..i]), Run(EMPTY_DB, actions);
            forall m :: m in mid.missions && mid.missions[m].purchaseAmountCents.Some? ==>
              m in end.missions && end.missions[m].purchaseAmountCents == mid.missions[m].purchaseAmountCents
    decreases |actions|
  {
    hide MissionsSound, Step;
    if |actions| == 0 {
      assert MissionsSound(EMPTY_DB) by { NoMissions(); }
      assert actions[..i] == actions;
    } else {
      var shorter, last := actions[..|actions| - 1], actions[|actions| - 1];
      PurchaseWrittenOnce(shorter, if i < |actions| then i else |actions| - 1);
      StepAdvancesMissions(Run(EMPTY_DB, shorter), last.now, last.action);
      if i == |actions| {
        assert actions[..i] == actions;
      } else {
        assert shorter[..i] == actions[..i];
      }
    }
  }

  lemma NoMissions()
    ensures MissionsSound(EMPTY_DB)
  {
  }
}

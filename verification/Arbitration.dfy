/** Fraud arbitration: the route that turns a disputed mission into a penalty for the traveler and a
    compensation for the buyer, and what it leaves behind on every run. */
module Arbitration {
  import opened Tables
  import opened Ledger
  import opened World
  import opened Machine
  import S = Steps
  import T = Transactions

  datatype Outcome = Arbitrated | MissionNotDisputed | EscrowNotFound | TravelerNotAssigned | UniqueViolation

  lemma ArbitrateIs(w: World, m: Id)
    requires Integrity(w.db) && Arbitrable(w.db, m)
    ensures Step(w, Move.Arbitrate(m)) == w.(db := S.ArbitrateTx(w.db, w.now, m))
  {
    hide S.ArbitrateTx;
  }

  predicate Arbitrable(db: Db, m: Id) {
    && m in db.missions && m in db.escrows && db.missions[m].status == Disputed && db.missions[m].traveler.Some?
    && m !in db.penalties && !S.HasCompensation(db.compensations, m)
  }

  /** POST /missions/:id/arbitrate-fraud, after the check of the admin: reads outside any transaction,
      then one that is conditional on DISPUTED. `committing` is what it met. */
  method ArbitrateFraud(p: Process, m: Id) returns (outcome: Outcome, ghost committing: World)
    requires p.Follows() && p.Idle()
    modifies p`w, p`awaits, p`trace, p`own
    ensures p.Follows() && p.Idle() && Grows(old(p.w), committing) && (p.Quiet() ==> committing == old(p.w))
    ensures m !in old(p.w).db.missions || old(p.w).db.missions[m].status != Disputed ==> outcome == MissionNotDisputed
    ensures m in old(p.w).db.missions && old(p.w).db.missions[m].status == Disputed ==>
              if m !in old(p.w).db.escrows then outcome == EscrowNotFound
              else if old(p.w).db.missions[m].traveler.None? then outcome == TravelerNotAssigned
              else
                && m in committing.db.missions
                && outcome == if committing.db.missions[m].status != Disputed then MissionNotDisputed
                              else if committing.db.missions[m].traveler.None? then TravelerNotAssigned
                              else if m in committing.db.penalties
                                      || exists i :: 0 <= i < |committing.db.compensations|
                                                     && committing.db.compensations[i].missionId == m
                              then UniqueViolation else Arbitrated
    ensures outcome != Arbitrated ==> p.w == committing && p.own == old(p.own)
    // 200% and 120% of the total, the latter rounded half up, owed and journalled
    ensures outcome == Arbitrated ==>
              && p.own == old(p.own) + [Move.Arbitrate(m)]
              && m in committing.db.missions && m in p.w.db.penalties
              && var mission, before, after := committing.db.missions[m], committing.db, p.w.db;
              var total := mission.budgetCents + mission.commissionCents;
              && after.missions == before.missions[m := mission.(status := DisputedFraud)]
              && after.penalties == before.penalties[m :=
                   OutboxRow(total + total, m, Pending, 0, committing.now, committing.now, None)]
              && |after.compensations| == |before.compensations| + 1
              && after.compensations[..|before.compensations|] == before.compensations
              && var owed := after.compensations[|before.compensations|];
              && owed == Compensation(m, mission.buyerId, owed.amountCents, JobPending, 0)
              && 10 * owed.amountCents - 5 <= 12 * total < 10 * owed.amountCents + 5
              && after.ledger == before.ledger + [Entry(m, FraudPenaltyCollected, total + total, committing.now),
                                                  Entry(m, BuyerRefundCompensation, owed.amountCents, committing.now)]
              && after.escrows == before.escrows
  {
    hide Run, Step, Grows, Process.Follows, Process.Quiet;
    committing := p.w;
    GrowsReflexive(p.w);
    if m !in p.w.db.missions || p.w.db.missions[m].status != Disputed { return MissionNotDisputed, committing; }
    if m !in p.w.db.escrows { return EscrowNotFound, committing; }
    if p.w.db.missions[m].traveler.None? { return TravelerNotAssigned, committing; }
    ghost var before := p.w;
    p.Await();
    committing := p.w;
    RowsStay(before, p.w, m);
    var db := p.w.db;
    var mission := db.missions[m];
    if mission.status != Disputed { return MissionNotDisputed, committing; }
    // a traveler is never unassigned once a mission has been matched
    if mission.traveler.None? { return TravelerNotAssigned, committing; }
    if m in db.penalties || S.HasCompensation(db.compensations, m) { return UniqueViolation, committing; }
    var after := Decide(db, p.w.now, m);
    p.Sound();
    ArbitrateIs(p.w, m);
    p.Become(Move.Arbitrate(m), p.w.(db := after));
    return Arbitrated, committing;
  }

  lemma RowsStay(a: World, b: World, m: Id)
    requires Grows(a, b) && m in a.db.missions && m in a.db.escrows
    ensures m in b.db.missions && m in b.db.escrows
  {
  }

  /** The writes of the transaction. */
  method Decide(db: Db, now: Instant, m: Id) returns (after: Db)
    requires m in db.missions && db.missions[m].traveler.Some?
    ensures after == S.ArbitrateTx(db, now, m)
    ensures var mission := db.missions[m];
            var total := mission.budgetCents + mission.commissionCents;
            && after.missions == db.missions[m := mission.(status := DisputedFraud)]
            && after.penalties == db.penalties[m := OutboxRow(total + total, m, Pending, 0, now, now, None)]
            && |after.compensations| == |db.compensations| + 1
            && after.compensations[..|db.compensations|] == db.compensations
            && var owed := after.compensations[|db.compensations|];
            && owed == Compensation(m, mission.buyerId, owed.amountCents, JobPending, 0)
            && 10 * owed.amountCents - 5 <= 12 * total < 10 * owed.amountCents + 5
            && after.ledger == db.ledger + [Entry(m, FraudPenaltyCollected, total + total, now),
                                            Entry(m, BuyerRefundCompensation, owed.amountCents, now)]
            && after.escrows == db.escrows
  {
    var mission := db.missions[m];
    var baseCents := mission.budgetCents + mission.commissionCents;
    var penaltyCents := baseCents * 2;
    var compensationCents := (baseCents * 12 + 5) / 10;
    after := db.(
      missions := db.missions[m := mission.(status := DisputedFraud)],
      penalties := db.penalties[m := OutboxRow(penaltyCents, m, Pending, 0, now, now, None)],
      compensations := db.compensations + [Compensation(m, mission.buyerId, compensationCents, JobPending, 0)],
      ledger := db.ledger + [Entry(m, FraudPenaltyCollected, penaltyCents, now),
                             Entry(m, BuyerRefundCompensation, compensationCents, now)]);
  }

  // ----- On every run

  /** A penalty is 200% of its mission's total, a compensation 120% of it to the nearest cent, owed to
      its buyer. */
  ghost predicate Proportionate(db: Db) {
    && (forall m :: m in db.penalties ==>
          && m in db.missions
          && db.penalties[m].amountCents == 2 * (db.missions[m].budgetCents + db.missions[m].commissionCents))
    && (forall i :: 0 <= i < |db.compensations| ==> OwedRightly(db, db.compensations[i]))
  }

  ghost predicate OwedRightly(db: Db, c: Compensation) {
    && c.missionId in db.missions && c.buyerId == db.missions[c.missionId].buyerId
    && var total := db.missions[c.missionId].budgetCents + db.missions[c.missionId].commissionCents;
    10 * c.amountCents - 5 <= 12 * total < 10 * c.amountCents + 5
  }

  /** Amounts stay, and missions keep theirs. */
  ghost predicate KeepsAmounts(a: Db, b: Db) {
    S.MissionsEvolve(a.missions, b.missions) && SameAmounts(a, b)
  }

  ghost predicate SameAmounts(a: Db, b: Db) {
    && b.penalties.Keys == a.penalties.Keys && |b.compensations| == |a.compensations|
    && (forall m :: m in a.penalties ==> b.penalties[m].amountCents == a.penalties[m].amountCents)
    && (forall i :: 0 <= i < |a.compensations| ==>
          b.compensations[i].(status := JobPending, attempts := 0)
            == a.compensations[i].(status := JobPending, attempts := 0))
  }

  lemma KeepsProportion(a: Db, b: Db)
    requires Proportionate(a) && KeepsAmounts(a, b)
    ensures Proportionate(b)
  {
    forall i | 0 <= i < |b.compensations| ensures OwedRightly(b, b.compensations[i]) {
      assert OwedRightly(a, a.compensations[i]);
      var x, y := a.compensations[i].(status := JobPending, attempts := 0),
        b.compensations[i].(status := JobPending, attempts := 0);
      assert x.missionId == y.missionId && x.buyerId == y.buyerId && x.amountCents == y.amountCents;
    }
  }

  lemma EventKeepsAmounts(db: Db, now: Instant, event: T.Event)
    requires Integrity(db)
    ensures var e := T.BusinessEffect(db, now, event);
            e.Applied? ==> e.db.penalties == db.penalties && e.db.compensations == db.compensations
  {
    hide SumOf, T.CaptureEffect;
    if event.IntentSucceeded? {
      T.CaptureCases(db, now, event.intentId, event.amountReceived, event.missionMetadata);
    }
  }

  lemma OtherStepKeepsAmounts(db: Db, now: Instant, a: S.Action)
    requires Integrity(db) && !(a.Cron? && a.c.Arbitrate?)
    ensures KeepsAmounts(db, S.Step(db, now, a))
  {
    S.StepEvolves(db, now, a);
    AmountsKept(db, now, a);
    hide S.Step, S.MissionsEvolve, Integrity, S.EscrowsEvolve;
  }

  lemma AmountsKept(db: Db, now: Instant, a: S.Action)
    requires Integrity(db) && !(a.Cron? && a.c.Arbitrate?)
    ensures SameAmounts(db, S.Step(db, now, a))
  {
    hide T.BusinessEffect, S.RouteStep, S.CronStep, S.QueueStep;
    match a
    case Webhook(d) => EventKeepsAmounts(db.(processed := db.processed + {d.eventId}), now, d.event);
    case Route(r) => RouteKeepsAmounts(db, r);
    case Cron(c) => CronKeepsAmounts(db, now, c);
    case Queue(q) => QueueKeepsAmounts(db, now, q);
    case Transfers(_) =>
  }

  lemma RouteKeepsAmounts(db: Db, r: S.RouteAction)
    ensures SameAmounts(db, S.RouteStep(db, r))
  {
  }

  lemma CronKeepsAmounts(db: Db, now: Instant, c: S.CronAction)
    requires !c.Arbitrate?
    ensures SameAmounts(db, S.CronStep(db, now, c))
  {
  }

  lemma QueueKeepsAmounts(db: Db, now: Instant, q: S.QueueAction)
    ensures SameAmounts(db, S.QueueStep(db, now, q))
  {
    hide S.CreditCompensationTx, S.FailCompensationTx;
    match q
    case CreditCompensation(i, seen) => if i < |db.compensations| { VerdictKeepsAmounts(db, i, seen); }
    case FailCompensation(i, seen) => if i < |db.compensations| { VerdictKeepsAmounts(db, i, seen); }
    case _ =>
  }

  lemma VerdictKeepsAmounts(db: Db, i: nat, seen: nat)
    requires i < |db.compensations|
    ensures SameAmounts(db, S.CreditCompensationTx(db, i, seen)) && SameAmounts(db, S.FailCompensationTx(db, i, seen))
  {
  }

  lemma ArbitrationKeepsProportion(db: Db, now: Instant, m: Id)
    requires Integrity(db) && Proportionate(db)
    ensures Proportionate(S.Step(db, now, S.Cron(S.Arbitrate(m))))
  {
    var b := S.Step(db, now, S.Cron(S.Arbitrate(m)));
    forall i | 0 <= i < |b.compensations| ensures OwedRightly(b, b.compensations[i]) {
      if i < |db.compensations| { assert OwedRightly(db, db.compensations[i]); }
    }
  }

  /** On every run of the database. */
  lemma {:induction false} ProportionateOnEveryRun(actions: seq<S.TimedAction>)
    requires Integrity(EMPTY_DB)
    ensures Proportionate(S.Run(EMPTY_DB, actions))
    decreases |actions|
  {
    hide S.Step, Proportionate, KeepsAmounts;
    if |actions| == 0 {
      assert Proportionate(EMPTY_DB) by { NothingOwed(); }
    } else {
      var shorter, last := actions[..|actions| - 1], actions[|actions| - 1];
      ProportionateOnEveryRun(shorter);
      var db := S.Run(EMPTY_DB, shorter);
      if last.action.Cron? && last.action.c.Arbitrate? {
        ArbitrationKeepsProportion(db, last.now, last.action.c.m);
      } else {
        OtherStepKeepsAmounts(db, last.now, last.action);
        KeepsProportion(db, S.Step(db, last.now, last.action));
      }
    }
  }

  lemma NothingOwed()
    ensures Proportionate(EMPTY_DB)
  {
  }
}

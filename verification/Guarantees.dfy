/** What the escrow protocol promises end to end, on every run of the database and Stripe together. */
module Guarantees {
  import opened Tables
  import opened Money
  import opened Ledger
  import opened Transactions
  import opened Accounting
  import opened Payouts
  import opened Missions
  import opened Causes
  import opened World
  import opened WorldSafety
  import H = Histories
  import S = Steps
  import O = Outbox
  import TransferRefinement

  // ----- CANCELLED never took money

  ghost function RunTo(limits: Limits, moves: seq<Move>, i: nat): World
    requires i <= |moves|
    ensures Integrity(RunTo(limits, moves, i).db)
  {
    IntegrityAtStart(limits);
    Run(Init(limits), moves[..i])
  }

  lemma {:induction false} EscrowsPersistInWorld(limits: Limits, moves: seq<Move>, i: nat)
    requires i <= |moves|
    ensures H.EscrowsPersist(RunTo(limits, moves, i).db, RunTo(limits, moves, |moves|).db)
    decreases |moves|
  {
    hide H.EscrowsPersist, S.Step, Enabled, DbPart, OutsidePart, Integrity;
    var n := |moves|;
    assert moves[..n] == moves;
    if i == n {
      H.PersistReflexive(RunTo(limits, moves, i).db);
    } else {
      var shorter, x := moves[..n - 1], moves[n - 1];
      assert shorter[..i] == moves[..i] && shorter[..n - 1] == shorter;
      EscrowsPersistInWorld(limits, shorter, i);
      var before := RunTo(limits, shorter, n - 1);
      H.PersistReflexive(before.db);
      if Enabled(before, x) && DbPart(before, x).Some? {
        H.StepPersists(before.db, before.now, DbPart(before, x).value);
      }
      H.PersistTransitive(RunTo(limits, moves, i).db, before.db, Step(before, x).db);
    }
  }

  /** Once CANCELLED, an escrow stays CANCELLED with nothing captured, in the database and at
      Stripe's journal alike, although two of the four writers never look at the capture. */
  lemma CancelledNeverCaptures(limits: Limits, moves: seq<Move>, i: nat, m: Id)
    requires i <= |moves|
    requires var mid := RunTo(limits, moves, i).db; m in mid.escrows && mid.escrows[m].status == Cancelled
    ensures var end := RunTo(limits, moves, |moves|).db;
            && m in end.escrows && end.escrows[m].status == Cancelled
            && end.escrows[m].capturedAmountCents == 0
            && SumOf(end.ledger, m, Capture) == 0 && Outflow(end.ledger, m) == 0
  {
    hide Invariant, RunTo, S.Step, Step, Run, SumOf;
    EscrowsPersistInWorld(limits, moves, i);
    var mid, end := RunTo(limits, moves, i), RunTo(limits, moves, |moves|);
    assert H.Persists(mid.db.escrows[m], end.db.escrows[m]);
    ReachableInvariant(limits, moves, |moves|);
    CancelledUncaptured(end, m);
  }

  lemma ReachableInvariant(limits: Limits, moves: seq<Move>, i: nat)
    requires i <= |moves|
    ensures Invariant(RunTo(limits, moves, i))
  {
    InvariantOnEveryRun(limits, moves[..i]);
  }

  lemma CancelledUncaptured(w: World, m: Id)
    requires Invariant(w) && m in w.db.escrows && w.db.escrows[m].status == Cancelled
    ensures w.db.escrows[m].capturedAmountCents == 0
    ensures SumOf(w.db.ledger, m, Capture) == 0 && Outflow(w.db.ledger, m) == 0
  {
    assert EscrowLinked(w.db.escrows[m], m, w.intents);
    assert EscrowBalanced(w.db.ledger, m, w.db.escrows[m]);
  }

  /** The debit a penalty verdict relies on, and the hold it cancels. */
  ghost predicate DebitedFirst(w: World, w': World, m: Id, sawEscrow: bool) {
    && O.Find(w.charges, m).Some?
    && m in w.db.penalties && O.Find(w.charges, m).value.amountCents == w.db.penalties[m].amountCents
    && m in w'.db.penalties && w'.db.penalties[m].status == Settled
    && w'.db.penalties[m].externalId == Some(O.Find(w.charges, m).value.id)
    && (m in w.db.escrows && w.db.escrows[m].status == Held && sawEscrow ==>
          && w.db.escrows[m].capturedAmountCents == 0
          && w.db.escrows[m].stripePaymentIntentId in w.intents
          && w.intents[w.db.escrows[m].stripePaymentIntentId].status.Canceled?)
  }

  lemma DebitedFirstInState(w: World, t: Id)
    requires Invariant(w) && Enabled(w, CommitPenalty(t))
    ensures DebitedFirst(w, Step(w, CommitPenalty(t)), w.tasks[t].claim.key, w.tasks[t].saw.Some?)
  {
    hide ReleasesBooked, MissionsSound, IntentsSound, SentSound, PayoutsBounded, O.Sound, Integrity, SumOf, O.Find;
    CommitHasCharge(w, t);
    assert TaskSound(w, w.tasks[t]);
    var m := w.tasks[t].claim.key;
    if m in w.db.escrows {
      assert EscrowLinked(w.db.escrows[m], m, w.intents);
      assert EscrowBalanced(w.db.ledger, m, w.db.escrows[m]);
    }
  }

  /** A penalty verdict that cancels an escrow comes after a debit that succeeded and after Stripe
      released the hold; the row then names that debit. */
  lemma PenaltyCancelsAfterDebit(limits: Limits, moves: seq<Move>, t: Id)
    requires Enabled(RunTo(limits, moves, |moves|), CommitPenalty(t))
    ensures var w := RunTo(limits, moves, |moves|);
            DebitedFirst(w, Step(w, CommitPenalty(t)), w.tasks[t].claim.key, w.tasks[t].saw.Some?)
  {
    hide RunTo, Invariant, DebitedFirst;
    ReachableInvariant(limits, moves, |moves|);
    DebitedFirstInState(RunTo(limits, moves, |moves|), t);
  }

  // ----- One transfer per release

  /** The transfers Stripe made for one released escrow, against its lines and its intent. */
  ghost predicate PaidOnce(w: World, m: Id)
    requires m in w.db.escrows
  {
    && (m in w.db.outbox <==> w.db.escrows[m].status == Released)
    && (forall i :: 0 <= i < |w.created| && w.created[i].key == m ==>
          && w.db.escrows[m].status == Released
          && w.created[i].amountCents == SumOf(w.db.ledger, m, Payout)
          && forall j :: 0 <= j < |w.created| && w.created[j].key == m ==> j == i)
    && (m in w.db.outbox && w.db.outbox[m].status == Settled ==>
          exists i :: 0 <= i < |w.created| && w.created[i].key == m
                      && w.db.outbox[m].externalId == Some(w.created[i].id))
  }

  lemma PaidOnceInState(w: World, m: Id)
    requires Invariant(w) && m in w.db.escrows
    ensures PaidOnce(w, m)
  {
    hide IntentsSound, EscrowsLinked, SentSound, TasksSound, PayoutsBounded, Balanced, MissionsSound, SumOf, O.Find;
    var s := TransferSystem(w);
    assert ReleaseBooked(w.db, m);
    forall i | 0 <= i < |w.created| && w.created[i].key == m
      ensures m in w.db.outbox && w.created[i].amountCents == w.db.outbox[m].amountCents {
      assert O.ExternalFaithful(s, s.created[i]);
    }
    assert O.OnePerKey(s.created);
    if m in w.db.outbox && w.db.outbox[m].status == Settled {
      assert O.RowNamesExternal(s, m);
      var x := O.Find(s.created, m).value;
      assert x in w.created;
    }
  }

  /** On every run, with any number of transfer workers: at most one transfer per escrow, only for
      a RELEASED one, of exactly its PAYOUT; SETTLED names it. */
  lemma AtMostOneTransferPerRelease(limits: Limits, moves: seq<Move>, m: Id)
    requires m in RunTo(limits, moves, |moves|).db.escrows
    ensures PaidOnce(RunTo(limits, moves, |moves|), m)
  {
    hide PaidOnce, RunTo, Invariant;
    ReachableInvariant(limits, moves, |moves|);
    PaidOnceInState(RunTo(limits, moves, |moves|), m);
  }

  // ----- Who is paid

  /** An intent keeps its destination. */
  lemma DestinationStays(db: Db, now: Instant, a: S.Action, m: Id)
    requires Integrity(db) && m in db.outbox
    ensures m in S.Step(db, now, a).outbox && S.Step(db, now, a).outbox[m].destination == db.outbox[m].destination
  {
    hide Deliver, S.RouteStep, S.CronStep, S.QueueStep;
    if !a.Transfers? {
      TransferRefinement.StepAddsOne(db, now, a);
      hide S.Step;
    }
  }

  /** The i-th state of a run, about to release: no intent yet, and a mission whose traveler is there,
      verified, and has this account. */
  ghost predicate PayableAt(limits: Limits, moves: seq<Move>, i: nat, m: Id, account: Id)
    requires i <= |moves|
  {
    var db := RunTo(limits, moves, i).db;
    && m !in db.outbox && m in db.missions && db.missions[m].traveler.Some?
    && db.missions[m].traveler.value.kycVerified
    && db.missions[m].traveler.value.stripeAccountId == Some(account)
  }

  lemma {:induction false} IntentWasPayable(limits: Limits, moves: seq<Move>, m: Id)
    requires m in RunTo(limits, moves, |moves|).db.outbox
    ensures exists i :: 0 <= i < |moves|
                        && PayableAt(limits, moves, i, m, RunTo(limits, moves, |moves|).db.outbox[m].destination)
    decreases |moves|
  {
    hide S.Step, Enabled, DbPart, OutsidePart, Integrity;
    var n := |moves|;
    assert moves[..n] == moves;
    if n > 0 {
      var shorter, x := moves[..n - 1], moves[n - 1];
      assert shorter[..n - 1] == shorter;
      var before := RunTo(limits, shorter, n - 1);
      assert RunTo(limits, moves, n - 1) == before && RunTo(limits, moves, n) == Step(before, x);
      if m in before.db.outbox {
        IntentWasPayable(limits, shorter, m);
        var i :| 0 <= i < n - 1 && PayableAt(limits, shorter, i, m, before.db.outbox[m].destination);
        assert shorter[..i] == moves[..i];
        if Enabled(before, x) && DbPart(before, x).Some? {
          DestinationStays(before.db, before.now, DbPart(before, x).value, m);
        }
        assert PayableAt(limits, moves, i, m, RunTo(limits, moves, n).db.outbox[m].destination);
      } else {
        StepCausesIntent(before.db, before.now, DbPart(before, x).value, m);
        assert PayableAt(limits, moves, n - 1, m, RunTo(limits, moves, n).db.outbox[m].destination);
      }
    }
  }

  /** On every run, every transfer Stripe made went to an account that belonged to the mission's
      traveler, with a verified identity, when the escrow was released. */
  lemma TransfersGoToVerifiedTravelers(limits: Limits, moves: seq<Move>, j: nat)
    requires j < |RunTo(limits, moves, |moves|).created|
    ensures var x := RunTo(limits, moves, |moves|).created[j];
            exists i :: 0 <= i < |moves| && PayableAt(limits, moves, i, x.key, x.destination)
  {
    hide RunTo, PayableAt;
    ReachableInvariant(limits, moves, |moves|);
    var w := RunTo(limits, moves, |moves|);
    TransferHasIntent(w, j);
    IntentWasPayable(limits, moves, w.created[j].key);
  }

  lemma TransferHasIntent(w: World, j: nat)
    requires Invariant(w) && j < |w.created|
    ensures w.created[j].key in w.db.outbox
            && w.db.outbox[w.created[j].key].destination == w.created[j].destination
  {
    hide IntentsSound, EscrowsLinked, SentSound, TasksSound, PayoutsBounded, Balanced, MissionsSound;
    var s := TransferSystem(w);
    assert O.ExternalFaithful(s, s.created[j]);
  }

  // ----- What is rolled back

  lemma RollingBackFrom(w: World, x: Move, t: Id)
    requires Integrity(w.db) && t in Step(w, x).tasks && Step(w, x).tasks[t].RollingBack?
    ensures var task := Step(w, x).tasks[t];
            || (t in w.tasks && w.tasks[t].RollingBack? && w.tasks[t].m == task.m && w.tasks[t].pi == task.pi)
            || (x == BeginRollback(t, task.m) && task.m in w.db.escrows
                && w.db.escrows[task.m].stripePaymentIntentId == task.pi && task.pi in w.intents
                && (w.intents[task.pi].status.RequiresPaymentMethod?
                    || w.intents[task.pi].status.RequiresConfirmation?))
  {
    if Enabled(w, x) {
      if x.BeginRollback? && x.t == t { RollbackBegins(w, t, x.m); } else { RollbackStays(w, x, t); }
      hide S.Step, Enabled, DbPart, OutsidePart, Integrity;
    }
  }

  lemma RollbackBegins(w: World, t: Id, m: Id)
    requires Enabled(w, BeginRollback(t, m))
    ensures var tasks := OutsidePart(w, BeginRollback(t, m)).tasks;
            && m in w.db.escrows && var pi := w.db.escrows[m].stripePaymentIntentId;
            && tasks == w.tasks[t := RollingBack(m, pi, false)] && pi in w.intents
            && (w.intents[pi].status.RequiresPaymentMethod? || w.intents[pi].status.RequiresConfirmation?)
  {
  }

  lemma RollbackStays(w: World, x: Move, t: Id)
    requires Enabled(w, x) && !(x.BeginRollback? && x.t == t)
    ensures var tasks := OutsidePart(w, x).tasks;
            t in tasks && tasks[t].RollingBack? ==>
              t in w.tasks && w.tasks[t].RollingBack? && w.tasks[t].m == tasks[t].m && w.tasks[t].pi == tasks[t].pi
  {
    hide DbPart, CancelIntent, CancelSucceeds, IntentOf, SawEscrow, O.Step, S.RollbackFundingTx, DebitSucceeds;
  }

  /** The i-th move begins the rollback of an escrow whose intent was never authorised. */
  ghost predicate BeginsAbandoned(limits: Limits, moves: seq<Move>, i: nat, t: Id, m: Id, pi: Id)
    requires i < |moves|
  {
    var w := RunTo(limits, moves, i);
    && moves[i] == BeginRollback(t, m) && m in w.db.escrows && w.db.escrows[m].stripePaymentIntentId == pi
    && pi in w.intents && (w.intents[pi].status.RequiresPaymentMethod? || w.intents[pi].status.RequiresConfirmation?)
  }

  /** On every run, a rollback under way began on an intent that the buyer had not authorised. */
  lemma {:induction false} RollsBackOnlyUnauthorised(limits: Limits, moves: seq<Move>, t: Id)
    requires var tasks := RunTo(limits, moves, |moves|).tasks; t in tasks && tasks[t].RollingBack?
    ensures var task := RunTo(limits, moves, |moves|).tasks[t];
            exists i :: 0 <= i < |moves| && BeginsAbandoned(limits, moves, i, t, task.m, task.pi)
    decreases |moves|
  {
    hide Step, Integrity;
    var n := |moves|;
    assert moves[..n] == moves;
    if n > 0 {
      var shorter, x := moves[..n - 1], moves[n - 1];
      assert shorter[..n - 1] == shorter;
      var before := RunTo(limits, shorter, n - 1);
      assert RunTo(limits, moves, n - 1) == before && RunTo(limits, moves, n) == Step(before, x);
      var task := Step(before, x).tasks[t];
      RollingBackFrom(before, x, t);
      if x == BeginRollback(t, task.m) && task.pi in before.intents && task.m in before.db.escrows
         && before.db.escrows[task.m].stripePaymentIntentId == task.pi
         && (before.intents[task.pi].status.RequiresPaymentMethod?
             || before.intents[task.pi].status.RequiresConfirmation?) {
        assert BeginsAbandoned(limits, moves, n - 1, t, task.m, task.pi);
      } else {
        RollsBackOnlyUnauthorised(limits, shorter, t);
        var i :| 0 <= i < n - 1 && BeginsAbandoned(limits, shorter, i, t, task.m, task.pi);
        assert shorter[..i] == moves[..i];
        assert BeginsAbandoned(limits, moves, i, t, task.m, task.pi);
      }
    }
  }

  // ----- Conservation from authorisation to split

  /** T0 authorised = T1 captured = payout + commission + wallet credit, all of it in place. */
  ghost predicate Conserved(w: World, m: Id)
    requires m in w.db.escrows && m in w.db.missions
  {
    var e, mission, ledger := w.db.escrows[m], w.db.missions[m], w.db.ledger;
    && e.stripePaymentIntentId in w.intents
    && w.intents[e.stripePaymentIntentId].amountCents == EscrowTotal(mission)
    && (e.capturedAmountCents > 0 ==>
          && e.capturedAmountCents == EscrowTotal(mission)
          && w.intents[e.stripePaymentIntentId].status == Captured(EscrowTotal(mission)))
    && (e.status == Released ==>
          && SumOf(ledger, m, Payout) + SumOf(ledger, m, Commission) + SumOf(ledger, m, BuyerWalletCredit)
             == EscrowTotal(mission)
          && SumOf(ledger, m, Commission) == mission.commissionCents >= 0
          && 0 < SumOf(ledger, m, Payout) <= HeldBudget(mission)
          && SumOf(ledger, m, BuyerWalletCredit) >= 0)
  }

  lemma ConservedInState(w: World, m: Id)
    requires Invariant(w) && m in w.db.escrows
    ensures m in w.db.missions && Conserved(w, m)
  {
    hide SentSound, TasksSound, O.Sound, SumOf;
    var e := w.db.escrows[m];
    assert EscrowLinked(e, m, w.intents);
    assert IntentSound(w.intents[e.stripePaymentIntentId], w.db.missions);
    assert ReleaseBooked(w.db, m);
    assert EscrowBalanced(w.db.ledger, m, e);
    assert MissionSound(w.db.missions[m]);
  }

  /** On every run, for every budget, commission, substitution flag and declared purchase. */
  lemma MoneyIsConserved(limits: Limits, moves: seq<Move>, m: Id)
    requires m in RunTo(limits, moves, |moves|).db.escrows
    ensures m in RunTo(limits, moves, |moves|).db.missions && Conserved(RunTo(limits, moves, |moves|), m)
  {
    hide Conserved, RunTo, Invariant;
    ReachableInvariant(limits, moves, |moves|);
    ConservedInState(RunTo(limits, moves, |moves|), m);
  }

  /** Neither guard on the way can fire: the hard cap never refuses a capture, a capture call asks
      for exactly what was authorised, and no capture event Stripe can send aborts because the
      payout would be negative or the capture empty. */
  lemma GuardsNeverFire(limits: Limits, moves: seq<Move>)
    ensures var w := RunTo(limits, moves, |moves|);
            && (forall m :: m in w.db.missions ==>
                  HeldBudget(w.db.missions[m]) <= SubstitutionHardCap(w.db.missions[m].budgetCents))
            && (forall t :: t in w.tasks && w.tasks[t].Capturing? ==>
                  w.tasks[t].pi in w.intents && w.tasks[t].amount == w.intents[w.tasks[t].pi].amountCents)
            && (forall d :: d in w.sent && d.event.IntentSucceeded? ==>
                  BusinessEffect(w.db, w.now, d.event) != Aborted(NegativePayout)
                  && BusinessEffect(w.db, w.now, d.event) != Aborted(EmptyCapture))
  {
    hide RunTo, Invariant, BusinessEffect, HeldBudget, SubstitutionHardCap;
    ReachableInvariant(limits, moves, |moves|);
    var w := RunTo(limits, moves, |moves|);
    forall m | m in w.db.missions
      ensures HeldBudget(w.db.missions[m]) <= SubstitutionHardCap(w.db.missions[m].budgetCents) {
      PricedMission(w, m);
      SplitOfAuthorisedTotal(w.db.missions[m]);
    }
    forall t | t in w.tasks && w.tasks[t].Capturing?
      ensures w.tasks[t].pi in w.intents && w.tasks[t].amount == w.intents[w.tasks[t].pi].amountCents {
      assert TaskSound(w, w.tasks[t]) by { TaskAt(w, t); }
    }
    forall d | d in w.sent && d.event.IntentSucceeded?
      ensures BusinessEffect(w.db, w.now, d.event) != Aborted(NegativePayout)
              && BusinessEffect(w.db, w.now, d.event) != Aborted(EmptyCapture) {
      SentCaptureCovers(w, d);
    }
  }

  lemma PricedMission(w: World, m: Id)
    requires Invariant(w) && m in w.db.missions
    ensures Priced(w.db.missions[m])
  {
    assert MissionSound(w.db.missions[m]);
  }

  lemma TaskAt(w: World, t: Id)
    requires Invariant(w) && t in w.tasks
    ensures TaskSound(w, w.tasks[t])
  {
  }

  lemma SentCaptureCovers(w: World, d: Delivery)
    requires Invariant(w) && d in w.sent && d.event.IntentSucceeded?
    ensures BusinessEffect(w.db, w.now, d.event) != Aborted(NegativePayout)
            && BusinessEffect(w.db, w.now, d.event) != Aborted(EmptyCapture)
  {
    hide Balanced, ReleasesBooked, TasksSound, O.Sound, PayoutsBounded, SumOf;
    var pi := d.event.intentId;
    assert Truthful(w, d.event);
    var intent := w.intents[pi];
    assert IntentSound(intent, w.db.missions);
    assert MissionSound(w.db.missions[intent.missionId]);
    SplitOfAuthorisedTotal(w.db.missions[intent.missionId]);
    if pi in w.db.byPaymentIntent {
      var m := w.db.byPaymentIntent[pi];
      assert EscrowLinked(w.db.escrows[m], m, w.intents);
    }
  }

  /** The step that releases gives the traveler the declared purchase when substitutions were
      allowed, and the whole held budget otherwise. */
  lemma ReleasePaysDeclaredPurchase(limits: Limits, moves: seq<Move>, x: Move, m: Id)
    requires var w := RunTo(limits, moves, |moves|);
             m in Step(w, x).db.outbox && m !in w.db.outbox
    ensures var w := RunTo(limits, moves, |moves|);
            && m in w.db.missions
            && var mission := w.db.missions[m];
            Step(w, x).db.outbox[m].amountCents
            == if mission.substitutionAuthorized && mission.purchaseAmountCents.Some?
               then mission.purchaseAmountCents.value else HeldBudget(mission)
  {
    hide RunTo, Enabled, DbPart, OutsidePart, S.Step, Balanced, ReleasesBooked, O.Sound, S.Evolves, DeliversCapture,
      SplitSpendable, Priced, TasksSound;
    ReachableInvariant(limits, moves, |moves|);
    var w := RunTo(limits, moves, |moves|);
    NewPayoutSplit(w, x, m);
  }

  // ----- Penalties were debited, once

  /** At most one charge per penalty, of its amount; SETTLED names it. */
  ghost predicate DebitedOnce(w: World, m: Id)
    requires m in w.db.penalties
  {
    && (forall i :: 0 <= i < |w.charges| && w.charges[i].key == m ==>
          && w.charges[i].amountCents == w.db.penalties[m].amountCents
          && forall j :: 0 <= j < |w.charges| && w.charges[j].key == m ==> j == i)
    && (w.db.penalties[m].status == Settled ==>
          exists i :: 0 <= i < |w.charges| && w.charges[i].key == m
                      && w.db.penalties[m].externalId == Some(w.charges[i].id))
  }

  lemma DebitedOnceInState(w: World, m: Id)
    requires O.Sound(PenaltySystem(w)) && m in w.db.penalties
    ensures DebitedOnce(w, m)
  {
    hide O.Find, PenaltyClaims;
    var s := PenaltySystem(w);
    forall i | 0 <= i < |w.charges| && w.charges[i].key == m
      ensures w.charges[i].amountCents == w.db.penalties[m].amountCents {
      assert O.ExternalFaithful(s, s.created[i]);
    }
    assert O.OnePerKey(s.created) && O.RowNamesExternal(s, m);
    if w.db.penalties[m].status == Settled {
      assert O.Find(s.created, m).value in w.charges;
    }
  }

  /** On every run a penalty is debited at most once, of its amount, and a SETTLED one names the
      charge that succeeded. */
  lemma SettledPenaltyWasDebited(limits: Limits, moves: seq<Move>, m: Id)
    requires m in RunTo(limits, moves, |moves|).db.penalties
    ensures DebitedOnce(RunTo(limits, moves, |moves|), m)
  {
    hide RunTo, DebitedOnce, Balanced, ReleasesBooked, MissionsSound, IntentsSound, EscrowsLinked, SentSound,
      TasksSound, PayoutsBounded, O.Sound;
    ReachableInvariant(limits, moves, |moves|);
    DebitedOnceInState(RunTo(limits, moves, |moves|), m);
  }
}

/** What holds between two moments of one run, whatever happens in between. */
module Histories {
  import opened Tables
  import opened Transactions
  import opened Steps

  ghost function RunFrom(db: Db, actions: seq<TimedAction>, i: nat): Db
    requires Integrity(db) && i <= |actions|
    ensures Integrity(RunFrom(db, actions, i))
  {
    Run(db, actions[..i])
  }

  /** A terminal escrow is frozen, a written capture is never rewritten, HELD is never re-entered. */
  predicate Persists(a: Escrow, b: Escrow) {
    && a.stripePaymentIntentId == b.stripePaymentIntentId
    && (a.status == Released || a.status == Refunded || a.status == Cancelled ==> b == a)
    && (a.capturedAmountCents > 0 ==> b.capturedAmountCents == a.capturedAmountCents)
    && (a.status != Held ==> b.status != Held)
    && a.capturedAmountCents <= b.capturedAmountCents
  }

  ghost predicate EscrowsPersist(a: Db, b: Db) {
    && (forall m :: m in a.escrows ==> m in b.escrows && Persists(a.escrows[m], b.escrows[m]))
    && (forall p :: p in a.byPaymentIntent ==> p in b.byPaymentIntent && b.byPaymentIntent[p] == a.byPaymentIntent[p])
    && a.processed <= b.processed
    && a.ledger <= b.ledger
  }

  lemma StepPersists(a: Db, now: Instant, action: Action)
    requires Integrity(a)
    ensures EscrowsPersist(a, Step(a, now, action))
  {
    StepEvolves(a, now, action);
    var b := Step(a, now, action);
    assert Evolves(a, b);
    forall m | m in a.escrows ensures m in b.escrows && Persists(a.escrows[m], b.escrows[m]) {
      assert EscrowEvolves(a.escrows[m], b.escrows[m]);
      assert a.escrows[m].spendingLimitCents == b.escrows[m].spendingLimitCents;
    }
  }

  lemma PersistReflexive(a: Db)
    ensures EscrowsPersist(a, a)
  {
  }

  lemma PersistTransitive(a: Db, b: Db, c: Db)
    requires EscrowsPersist(a, b) && EscrowsPersist(b, c)
    ensures EscrowsPersist(a, c)
  {
    forall m | m in a.escrows ensures m in c.escrows && Persists(a.escrows[m], c.escrows[m]) {
      assert Persists(a.escrows[m], b.escrows[m]) && Persists(b.escrows[m], c.escrows[m]);
    }
  }

  /** On every run: RELEASED, REFUNDED and CANCELLED are never left and such a row never changes
      again, and a capture once journalled stays what it is. */
  lemma {:induction false} EscrowsPersistOnEveryRun(db: Db, actions: seq<TimedAction>, i: nat)
    requires Integrity(db) && i <= |actions|
    ensures EscrowsPersist(RunFrom(db, actions, i), Run(db, actions))
    decreases |actions|
  {
    hide EscrowsPersist, Step;
    var n := |actions|;
    if i == n {
      assert actions[..i] == actions;
      PersistReflexive(Run(db, actions));
    } else {
      var shorter := actions[..n - 1];
      assert shorter[..i] == actions[..i];
      EscrowsPersistOnEveryRun(db, shorter, i);
      StepPersists(Run(db, shorter), actions[n - 1].now, actions[n - 1].action);
      PersistTransitive(RunFrom(db, actions, i), Run(db, shorter), Run(db, actions));
    }
  }

  // ----- At-least-once delivery, exactly-once effect

  /** Whether an action is a delivery that leaves no trace: a committed event delivered again, or
      an effect that aborts. */
  ghost predicate Ineffective(db: Db, t: TimedAction)
    requires Integrity(db)
  {
    t.action.Webhook? && var d := Deliver(db, t.now, t.action.d); !d.committed || d.duplicate
  }

  /** The run without its redeliveries and aborted deliveries. */
  ghost function Effective(db: Db, actions: seq<TimedAction>): seq<TimedAction>
    requires Integrity(db)
    decreases |actions|
  {
    if |actions| == 0 then []
    else
      var shorter := actions[..|actions| - 1];
      var last := actions[|actions| - 1];
      Effective(db, shorter) + if Ineffective(Run(db, shorter), last) then [] else [last]
  }

  lemma RunAppend(db: Db, actions: seq<TimedAction>, last: TimedAction)
    requires Integrity(db)
    ensures Run(db, actions + [last]) == Step(Run(db, actions), last.now, last.action)
  {
    assert (actions + [last])[..|actions|] == actions;
  }

  /** Redeliveries and aborted deliveries change nothing, in any run and any order. */
  lemma {:induction false} RedeliveriesAreInvisible(db: Db, actions: seq<TimedAction>)
    requires Integrity(db)
    ensures Run(db, Effective(db, actions)) == Run(db, actions)
    decreases |actions|
  {
    if |actions| > 0 {
      var shorter := actions[..|actions| - 1];
      var last := actions[|actions| - 1];
      RedeliveriesAreInvisible(db, shorter);
      if Ineffective(Run(db, shorter), last) {
        assert Effective(db, actions) == Effective(db, shorter);
      } else {
        RunAppend(db, Effective(db, shorter), last);
      }
    }
  }

  function EventIds(actions: seq<TimedAction>): seq<Id> {
    if |actions| == 0 then []
    else
      EventIds(actions[..|actions| - 1])
      + match actions[|actions| - 1].action
        case Webhook(d) => [d.eventId]
        case _ => []
  }

  ghost predicate Distinct(ids: seq<Id>) {
    forall i, j :: 0 <= i < j < |ids| ==> ids[i] != ids[j]
  }

  lemma DeliverMarks(db: Db, now: Instant, d: Delivery)
    requires Integrity(db)
    ensures var r := Deliver(db, now, d);
            && (r.committed ==> d.eventId in r.db.processed)
            && (r.committed && !r.duplicate ==> d.eventId !in db.processed)
  {
    var marked := db.(processed := db.processed + {d.eventId});
    EffectEvolves(marked, now, d.event);
  }

  /** Distinct ids, marked between two moments. */
  ghost predicate MarkedBetween(ids: seq<Id>, before: set<Id>, after: set<Id>) {
    Distinct(ids) && forall i :: 0 <= i < |ids| ==> ids[i] in after && ids[i] !in before
  }

  lemma MarkedThen(ids: seq<Id>, extra: seq<Id>, before: set<Id>, mid: set<Id>, after: set<Id>)
    requires MarkedBetween(ids, before, mid) && before <= mid <= after
    requires |extra| <= 1 && (|extra| == 1 ==> extra[0] in after && extra[0] !in mid)
    ensures MarkedBetween(ids + extra, before, after)
  {
  }

  lemma EventIdsAppend(actions: seq<TimedAction>, last: TimedAction)
    ensures EventIds(actions + [last])
            == EventIds(actions) + if last.action.Webhook? then [last.action.d.eventId] else []
  {
    assert (actions + [last])[..|actions|] == actions;
  }

  lemma EffectiveIds(db: Db, actions: seq<TimedAction>)
    requires Integrity(db) && |actions| > 0
    ensures var shorter, last := actions[..|actions| - 1], actions[|actions| - 1];
            EventIds(Effective(db, actions))
            == EventIds(Effective(db, shorter))
               + if !Ineffective(Run(db, shorter), last) && last.action.Webhook? then [last.action.d.eventId] else []
  {
    var shorter, last := actions[..|actions| - 1], actions[|actions| - 1];
    var kept := Effective(db, shorter);
    EventIdsAppend(kept, last);
    assert kept + [] == kept;
  }

  /** What remains of a run carries each event at most once, and only events that were new. */
  lemma {:induction false} EffectiveEventsAreDistinct(db: Db, actions: seq<TimedAction>)
    requires Integrity(db)
    ensures MarkedBetween(EventIds(Effective(db, actions)), db.processed, Run(db, actions).processed)
    decreases |actions|
  {
    hide MarkedBetween;
    if |actions| == 0 {
      assert MarkedBetween([], db.processed, db.processed) by { NothingMarked(db.processed); }
    } else {
      var shorter := actions[..|actions| - 1];
      var last := actions[|actions| - 1];
      var before := Run(db, shorter);
      EffectiveEventsAreDistinct(db, shorter);
      StepPersists(before, last.now, last.action);
      EscrowsPersistOnEveryRun(db, shorter, 0);
      assert shorter[..0] == [];
      var ids := EventIds(Effective(db, shorter));
      var extra := if !Ineffective(before, last) && last.action.Webhook? then [last.action.d.eventId] else [];
      EffectiveIds(db, actions);
      if last.action.Webhook? {
        DeliverMarks(before, last.now, last.action.d);
      }
      MarkedThen(ids, extra, db.processed, before.processed, Run(db, actions).processed);
    }
  }

  lemma NothingMarked(before: set<Id>)
    ensures MarkedBetween([], before, before)
  {
  }

  lemma {:induction false} SameFromHere(db: Db, a: seq<TimedAction>, b: seq<TimedAction>, after: seq<TimedAction>)
    requires Integrity(db) && Run(db, a) == Run(db, b)
    ensures Run(db, a + after) == Run(db, b + after)
    decreases |after|
  {
    hide Run, Step, Integrity;
    if |after| == 0 {
      assert a + after == a && b + after == b;
    } else {
      var shorter, last := after[..|after| - 1], after[|after| - 1];
      SameFromHere(db, a, b, shorter);
      assert a + after == (a + shorter) + [last] && b + after == (b + shorter) + [last];
      RunAppend(db, a + shorter, last);
      RunAppend(db, b + shorter, last);
    }
  }

  /** Whatever follows it, a run is the same without a delivery that aborted, and the event is left
      unprocessed: Stripe's retry acts as the first delivery would have. */
  lemma AbortStaysReplayable(
    db: Db, before: seq<TimedAction>, now: Instant, d: Delivery, after: seq<TimedAction>)
    requires Integrity(db) && !Deliver(Run(db, before), now, d).committed
    ensures d.eventId !in Run(db, before).processed
    ensures Run(db, before + [At(now, Webhook(d))] + after) == Run(db, before + after)
  {
    RunAppend(db, before, At(now, Webhook(d)));
    AbortChangesNothing(Run(db, before), now, d);
    hide Run, Step, Deliver;
    SameFromHere(db, before + [At(now, Webhook(d))], before, after);
  }

  lemma AbortChangesNothing(db: Db, now: Instant, d: Delivery)
    requires Integrity(db) && !Deliver(db, now, d).committed
    ensures Step(db, now, Webhook(d)) == db && d.eventId !in db.processed
  {
    hide BusinessEffect;
  }

  /** Once a capture is journalled, a capture event under any other id (same amount or not)
      leaves missions, escrows, ledger, wallets and transfer intents as they are, for ever. */
  lemma {:induction false} SecondCaptureChangesNothing(db: Db, actions: seq<TimedAction>, i: nat,
                                                       pi: Id, amount: int, now: Instant, freshId: Id,
                                                       metadata: Option<Id>)
    requires Integrity(db) && i <= |actions|
    requires var mid := RunFrom(db, actions, i);
             pi in mid.byPaymentIntent && mid.escrows[mid.byPaymentIntent[pi]].capturedAmountCents > 0
    ensures var end := Run(db, actions);
            var after := Deliver(end, now, Delivery(freshId, IntentSucceeded(pi, amount, metadata))).db;
            after == end.(processed := after.processed)
    ensures var end := Run(db, actions);
            var mid := RunFrom(db, actions, i);
            amount == mid.escrows[mid.byPaymentIntent[pi]].capturedAmountCents ==>
              Deliver(end, now, Delivery(freshId, IntentSucceeded(pi, amount, metadata))).committed
  {
    EscrowsPersistOnEveryRun(db, actions, i);
    var mid, end := RunFrom(db, actions, i), Run(db, actions);
    var m := mid.byPaymentIntent[pi];
    assert end.byPaymentIntent[pi] == m && Persists(mid.escrows[m], end.escrows[m]);
    CaptureCases(end.(processed := end.processed + {freshId}), now, pi, amount, metadata);
  }
}

/** Refund events carry a cumul, arrive in any order, several times, between any other steps. */
module Refunds {
  import opened Tables
  import opened Money
  import opened Ledger
  import opened Transactions
  import opened Steps
  import opened Accounting

  /** A delivery that journals a refund on the escrow of mission `m`. */
  ghost predicate AcceptsRefund(db: Db, t: TimedAction, m: Id)
    requires Integrity(db)
  {
    && t.action.Webhook? && t.action.d.event.ChargeRefunded?
    && var pi := t.action.d.event.refundedIntent;
    && pi.Some? && pi.value in db.byPaymentIntent && db.byPaymentIntent[pi.value] == m
    && var d := Deliver(db, t.now, t.action.d);
    d.committed && d.handled
  }

  /** The cumul journalled by one step, if any. */
  ghost function AcceptedCumul(db: Db, t: TimedAction, m: Id): seq<int>
    requires Integrity(db)
  {
    if AcceptsRefund(db, t, m) then [t.action.d.event.amountRefunded] else []
  }

  /** The cumuls journalled by a run on one escrow, in order. */
  ghost function AcceptedCumuls(db: Db, actions: seq<TimedAction>, m: Id): seq<int>
    requires Integrity(db)
    decreases |actions|
  {
    if |actions| == 0 then []
    else
      var shorter := actions[..|actions| - 1];
      var last := actions[|actions| - 1];
      AcceptedCumuls(db, shorter, m) + AcceptedCumul(Run(db, shorter), last, m)
  }

  /** Exactly when a refund is journalled: the event is new, its cumul lies above what is already
      journalled and within the capture, and the escrow is still refundable. */
  lemma RefundAcceptedIff(db: Db, t: TimedAction, m: Id)
    requires Integrity(db) && Balanced(db) && m in db.escrows
    requires t.action.Webhook? && t.action.d.event.ChargeRefunded?
    requires t.action.d.event.refundedIntent == Some(db.escrows[m].stripePaymentIntentId)
    ensures var e, cumul := db.escrows[m], t.action.d.event.amountRefunded;
            AcceptsRefund(db, t, m) <==>
              && t.action.d.eventId !in db.processed
              && SumOf(db.ledger, m, Refund) < cumul <= e.capturedAmountCents
              && (e.status == Held || e.status == PartiallyRefunded)
  {
    hide SumOf;
    assert EscrowBalanced(db.ledger, m, db.escrows[m]);
  }

  lemma ReleaseKeepsRefunds(db: Db, now: Instant, pi: Id, amount: int, metadata: Option<Id>, m: Id)
    requires Integrity(db)
    ensures var e := CaptureEffect(db, now, pi, amount, metadata);
            e.Applied? ==> SumOf(e.db.ledger, m, Refund) == SumOf(db.ledger, m, Refund)
  {
    hide CaptureEffect, SumOf, ReleasedDb, ReleaseLines, SetEscrow, SetMission;
    var e := CaptureEffect(db, now, pi, amount, metadata);
    CaptureCases(db, now, pi, amount, metadata);
    if e.Applied? && e.handled {
      var n := db.byPaymentIntent[pi];
      var mission := db.missions[n];
      SumAppend(db.ledger, Entry(n, Capture, amount, now));
      if PayoutAccount(mission).Some? {
        var j := Journal(db, now, n, amount);
        ReleasedParts(j, now, n, PayoutAccount(mission).value,
                      SplitSpendable(mission, amount - mission.commissionCents));
        ReleaseSums(j.ledger, now, n, mission.commissionCents,
                    SplitSpendable(mission, amount - mission.commissionCents), m, Refund);
      }
    }
  }

  /** One step changes the journalled refunds of an escrow only by accepting a refund event, and
      then sets them to that event's cumul. */
  lemma RefundSumStep(db: Db, t: TimedAction, m: Id)
    requires Integrity(db) && m in db.escrows
    ensures SumOf(Step(db, t.now, t.action).ledger, m, Refund)
            == if AcceptsRefund(db, t, m) then t.action.d.event.amountRefunded else SumOf(db.ledger, m, Refund)
  {
    hide SumOf;
    var a := t.action;
    if a.Webhook? {
      var marked := db.(processed := db.processed + {a.d.eventId});
      match a.d.event
      case IntentSucceeded(pi, amount, metadata) =>
        hide CaptureEffect;
        ReleaseKeepsRefunds(marked, t.now, pi, amount, metadata, m);
      case ChargeRefunded(pi, cumul) =>
        hide CaptureEffect;
        if pi.Some? && pi.value in db.byPaymentIntent {
          var n := db.byPaymentIntent[pi.value];
          SumAppend(db.ledger, Entry(n, Refund, cumul - SumOf(db.ledger, n, Refund), t.now));
        }
      case _ => hide CaptureEffect, RefundEffect;
    } else {
      OtherStepKeepsRefunds(db, t.now, a, m);
    }
  }

  lemma OtherStepKeepsRefunds(db: Db, now: Instant, a: Action, m: Id)
    requires Integrity(db) && !a.Webhook?
    ensures SumOf(Step(db, now, a).ledger, m, Refund) == SumOf(db.ledger, m, Refund)
  {
    hide SumOf;
    if a.Cron? && a.c.CloseCustoms? {
      SumAppend(db.ledger, Entry(a.c.m, Refund, 0, now));
    } else if a.Cron? && a.c.Arbitrate? {
      ArbitrateKeepsRefunds(db, now, a.c.m, m);
    } else if a.Queue? {
      QueueStepFrame(db, now, a.q);
    }
  }

  lemma ArbitrateKeepsRefunds(db: Db, now: Instant, n: Id, m: Id)
    ensures SumOf(CronStep(db, now, Arbitrate(n)).ledger, m, Refund) == SumOf(db.ledger, m, Refund)
  {
    hide SumOf;
    var b := CronStep(db, now, Arbitrate(n));
    if b.ledger != db.ledger {
      var lines := b.ledger[|db.ledger|..];
      SumAppend(db.ledger, lines[0]);
      SumAppend(db.ledger + [lines[0]], lines[1]);
      assert b.ledger == db.ledger + [lines[0]] + [lines[1]];
    }
  }

  ghost predicate Increasing(cs: seq<int>) {
    forall i, j :: 0 <= i < j < |cs| ==> cs[i] < cs[j]
  }

  /** Cumuls that lead from one journalled sum to another, within a cap. */
  ghost predicate Telescopes(cs: seq<int>, start: int, end: int, cap: int) {
    && Increasing(cs)
    && (forall i :: 0 <= i < |cs| ==> start < cs[i] <= cap)
    && end == if |cs| == 0 then start else cs[|cs| - 1]
  }

  lemma TelescopesThen(cs: seq<int>, extra: seq<int>, start: int, mid: int, end: int, cap: int, cap': int)
    requires Telescopes(cs, start, mid, cap) && cap <= cap' && |extra| <= 1
    requires if |extra| == 0 then end == mid else mid < extra[0] <= cap' && end == extra[0]
    ensures Telescopes(cs + extra, start, end, cap')
  {
    if |cs| > 0 {
      assert forall i :: 0 <= i < |cs| ==> cs[i] <= cs[|cs| - 1];
    }
  }

  lemma StepTelescopes(db: Db, t: TimedAction, m: Id)
    requires Integrity(db) && Balanced(db) && m in db.escrows
    ensures var mid, end := SumOf(db.ledger, m, Refund), SumOf(Step(db, t.now, t.action).ledger, m, Refund);
            var extra := AcceptedCumul(db, t, m);
            if |extra| == 0 then end == mid
            else |extra| == 1 && mid < extra[0] <= db.escrows[m].capturedAmountCents && end == extra[0]
  {
    hide SumOf, Step;
    RefundSumStep(db, t, m);
    if AcceptsRefund(db, t, m) {
      RefundAcceptedIff(db, t, m);
    }
  }

  /** Telescoping, on any run from a reachable state: the accepted cumuls strictly increase, start
      above what was journalled and never exceed the capture; after the last one the journalled
      sum is that cumul; and REFUNDED means exactly that the cumul has reached the capture. */
  lemma {:induction false} RefundsTelescope(db: Db, actions: seq<TimedAction>, m: Id)
    requires Integrity(db) && Balanced(db) && m in db.escrows
    ensures var end := Run(db, actions);
            && Balanced(end) && m in end.escrows
            && Telescopes(AcceptedCumuls(db, actions, m), SumOf(db.ledger, m, Refund),
                          SumOf(end.ledger, m, Refund), end.escrows[m].capturedAmountCents)
            && (end.escrows[m].status == Refunded
                <==> SumOf(end.ledger, m, Refund) == end.escrows[m].capturedAmountCents > 0)
    decreases |actions|
  {
    hide SumOf, Telescopes, Integrity, Balanced, AcceptedCumul, Step;
    if |actions| == 0 {
      NothingTelescopes(SumOf(db.ledger, m, Refund), db.escrows[m].capturedAmountCents);
    } else {
      var shorter := actions[..|actions| - 1];
      var last := actions[|actions| - 1];
      RefundsTelescope(db, shorter, m);
      var before, end := Run(db, shorter), Run(db, actions);
      StepBalanced(before, last.now, last.action);
      CapturesOnlyGrow(before, last, m);
      StepTelescopes(before, last, m);
      var extra := AcceptedCumul(before, last, m);
      TelescopesThen(AcceptedCumuls(db, shorter, m), extra, SumOf(db.ledger, m, Refund),
                     SumOf(before.ledger, m, Refund), SumOf(end.ledger, m, Refund),
                     before.escrows[m].capturedAmountCents, end.escrows[m].capturedAmountCents);
      assert AcceptedCumuls(db, actions, m) == AcceptedCumuls(db, shorter, m) + extra;
    }
    RefundedExactly(Run(db, actions), m);
  }

  lemma NothingTelescopes(start: int, cap: int)
    ensures Telescopes([], start, start, cap)
  {
  }

  lemma CapturesOnlyGrow(db: Db, t: TimedAction, m: Id)
    requires Integrity(db) && Balanced(db) && m in db.escrows
    ensures var b := Step(db, t.now, t.action);
            m in b.escrows && db.escrows[m].capturedAmountCents <= b.escrows[m].capturedAmountCents
  {
    StepEvolves(db, t.now, t.action);
    assert EscrowEvolves(db.escrows[m], Step(db, t.now, t.action).escrows[m]);
  }

  lemma RefundedExactly(db: Db, m: Id)
    requires Balanced(db) && m in db.escrows
    ensures db.escrows[m].status == Refunded
            <==> SumOf(db.ledger, m, Refund) == db.escrows[m].capturedAmountCents > 0
  {
    hide SumOf;
    assert EscrowBalanced(db.ledger, m, db.escrows[m]);
  }
}

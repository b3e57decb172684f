/** PAYOUT lines and transfer intents correspond one to one. */
module PayoutLines {
  import opened Tables
  import opened Money
  import opened Transactions
  import opened Steps
  import opened Payouts
  import opened Causes

  /** The only PAYOUT line of its escrow, of the amount of its intent. */
  ghost predicate LineBooked(ledger: seq<Entry>, outbox: map<Id, OutboxRow>, i: nat)
    requires i < |ledger|
  {
    ledger[i].kind == Payout ==>
      && ledger[i].escrow in outbox && outbox[ledger[i].escrow].amountCents == ledger[i].amountCents
      && forall j :: 0 <= j < |ledger| && ledger[j].kind == Payout && ledger[j].escrow == ledger[i].escrow ==> j == i
  }

  ghost predicate HasLine(ledger: seq<Entry>, m: Id) {
    exists i :: 0 <= i < |ledger| && ledger[i].kind == Payout && ledger[i].escrow == m
  }

  ghost predicate LinesBooked(ledger: seq<Entry>, outbox: map<Id, OutboxRow>) {
    && (forall i :: 0 <= i < |ledger| ==> LineBooked(ledger, outbox, i))
    && forall m :: m in outbox ==> HasLine(ledger, m)
  }

  lemma NoReleaseKeepsLines(a: Db, b: Db)
    requires LinesBooked(a.ledger, a.outbox) && ReleasesNothing(a, b)
    ensures LinesBooked(b.ledger, b.outbox)
  {
    forall i | 0 <= i < |b.ledger| ensures LineBooked(b.ledger, b.outbox, i) {
      if i < |a.ledger| { assert LineBooked(a.ledger, a.outbox, i); }
    }
    forall m | m in b.outbox ensures HasLine(b.ledger, m) {
      assert HasLine(a.ledger, m);
      var i :| 0 <= i < |a.ledger| && a.ledger[i].kind == Payout && a.ledger[i].escrow == m;
      assert b.ledger[i] == a.ledger[i];
    }
  }

  lemma ReleaseKeepsLines(ledger: seq<Entry>, outbox: map<Id, OutboxRow>, lines: seq<Entry>, m: Id, row: OutboxRow)
    requires LinesBooked(ledger, outbox) && m !in outbox
    requires |lines| >= 2 && lines[1].kind == Payout && lines[1].escrow == m && lines[1].amountCents == row.amountCents
    requires forall i :: 0 <= i < |lines| && i != 1 ==> lines[i].kind != Payout
    ensures LinesBooked(ledger + lines, outbox[m := row])
  {
    var n, all, rows := |ledger|, ledger + lines, outbox[m := row];
    forall i | 0 <= i < |all| ensures LineBooked(all, rows, i) {
      if i < n {
        assert LineBooked(ledger, outbox, i);
        assert all[i] == ledger[i];
      }
      forall j | 0 <= j < |all| && all[j].kind == Payout && all[i].kind == Payout && all[j].escrow == all[i].escrow
        ensures j == i {
        if j < n { assert LineBooked(ledger, outbox, j); }
      }
    }
    forall k | k in rows ensures HasLine(all, k) {
      if k == m {
        assert all[n + 1] == lines[1];
      } else {
        var i :| 0 <= i < n && ledger[i].kind == Payout && ledger[i].escrow == k;
        assert all[i] == ledger[i];
      }
    }
  }

  lemma CaptureKeepsLines(db: Db, now: Instant, pi: Id, amount: int, metadata: Option<Id>)
    requires Integrity(db) && LinesBooked(db.ledger, db.outbox)
    ensures var e := CaptureEffect(db, now, pi, amount, metadata); e.Applied? ==> LinesBooked(e.db.ledger, e.db.outbox)
  {
    hide CaptureEffect, ReleasesNothing, LinesBooked, SplitSpendable, ReleasedDb, SetMission, SetEscrow;
    var e := CaptureEffect(db, now, pi, amount, metadata);
    CaptureCases(db, now, pi, amount, metadata);
    if e.Applied? && e.handled {
      var m := db.byPaymentIntent[pi];
      match PayoutAccount(db.missions[m])
      case None =>
        JournalReleasesNothing(db, now, m, amount);
        NoReleaseKeepsLines(db, e.db);
      case Some(account) =>
        var split := SplitSpendable(db.missions[m], amount - db.missions[m].commissionCents);
        var lines := [Entry(m, Capture, amount, now)] + ReleaseLines(now, m, db.missions[m].commissionCents, split);
        ReleasedParts(Journal(db, now, m, amount), now, m, account, split);
        assert e.db.ledger == db.ledger + lines;
        ReleaseKeepsLines(db.ledger, db.outbox, lines, m, e.db.outbox[m]);
    }
  }

  lemma StepKeepsLines(db: Db, now: Instant, a: Action)
    requires Integrity(db) && LinesBooked(db.ledger, db.outbox)
    ensures LinesBooked(Step(db, now, a).ledger, Step(db, now, a).outbox)
  {
    hide LinesBooked, ReleasesNothing, BusinessEffect;
    if !a.Webhook? {
      OtherStepsReleaseNothing(db, now, a);
      NoReleaseKeepsLines(db, Step(db, now, a));
    } else {
      var marked := db.(processed := db.processed + {a.d.eventId});
      if a.d.event.IntentSucceeded? {
        CaptureKeepsLines(marked, now, a.d.event.intentId, a.d.event.amountReceived, a.d.event.missionMetadata);
        CaptureIsEffect(marked, now, a.d.event);
      } else {
        OtherEventsReleaseNothing(marked, now, a.d.event);
        if Step(db, now, a) != db { NoReleaseKeepsLines(marked, Step(db, now, a)); }
      }
    }
  }

  /** On every run: one PAYOUT line for each transfer intent, of its amount, and no other. */
  lemma {:induction false} LinesBookedOnEveryRun(actions: seq<TimedAction>)
    ensures Integrity(EMPTY_DB) && LinesBooked(Run(EMPTY_DB, actions).ledger, Run(EMPTY_DB, actions).outbox)
    decreases |actions|
  {
    if |actions| > 0 {
      var last := actions[|actions| - 1];
      LinesBookedOnEveryRun(actions[..|actions| - 1]);
      StepKeepsLines(Run(EMPTY_DB, actions[..|actions| - 1]), last.now, last.action);
    }
  }
}

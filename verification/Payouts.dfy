/** The lines of a release against the transfer intent committed with them. */
module Payouts {
  import opened Tables
  import opened Money
  import opened Ledger
  import opened Transactions
  import opened Steps
  import opened Accounting

  /** A transfer intent exists exactly for a released escrow, and carries its payout. */
  ghost predicate ReleaseBooked(db: Db, m: Id)
    requires m in db.escrows && m in db.missions
  {
    && (m in db.outbox <==> db.escrows[m].status == Released)
    && (m in db.outbox ==>
          && db.outbox[m].amountCents == SumOf(db.ledger, m, Payout)
          && SumOf(db.ledger, m, Commission) == db.missions[m].commissionCents
          && SumOf(db.ledger, m, BuyerWalletCredit) >= 0)
  }

  ghost predicate ReleasesBooked(db: Db) {
    forall m :: m in db.escrows && m in db.missions ==> ReleaseBooked(db, m)
  }

  predicate ReleaseKind(k: LedgerType) {
    k == Payout || k == Commission || k == BuyerWalletCredit
  }

  lemma {:induction false} SumWithoutKind(lines: seq<Entry>, e: Id, k: LedgerType)
    requires forall i :: 0 <= i < |lines| ==> lines[i].kind != k
    ensures SumOf(lines, e, k) == 0
    decreases |lines|
  {
    if |lines| > 0 {
      SumWithoutKind(lines[..|lines| - 1], e, k);
    }
  }

  ghost predicate AppendsNoRelease(before: seq<Entry>, after: seq<Entry>) {
    before <= after && forall i :: |before| <= i < |after| ==> !ReleaseKind(after[i].kind)
  }

  lemma NoReleaseSums(before: seq<Entry>, after: seq<Entry>, e: Id, k: LedgerType)
    requires AppendsNoRelease(before, after) && ReleaseKind(k)
    ensures SumOf(after, e, k) == SumOf(before, e, k)
  {
    var lines := after[|before|..];
    assert after == before + lines;
    SumConcat(before, lines, e, k);
    SumWithoutKind(lines, e, k);
  }

  /** Steps that release nothing: same intents up to their life cycle, no release line, and the
      same escrows RELEASED. */
  ghost predicate ReleasesNothing(a: Db, b: Db) {
    && AppendsNoRelease(a.ledger, b.ledger)
    && a.outbox.Keys == b.outbox.Keys
    && (forall m :: m in a.outbox ==> b.outbox[m].amountCents == a.outbox[m].amountCents)
    && (forall m :: m in b.escrows && m !in a.escrows ==> b.escrows[m].status != Released)
    && (forall m :: m in a.escrows && m in b.escrows ==>
        (a.escrows[m].status == Released <==> b.escrows[m].status == Released))
    && (forall m :: m in b.escrows && m in a.missions && m in b.missions ==>
          a.missions[m].commissionCents == b.missions[m].commissionCents)
  }

  lemma ReleasesNothingKeepsBooks(a: Db, b: Db)
    requires Integrity(a) && Integrity(b) && ReleasesBooked(a) && ReleasesNothing(a, b)
    requires a.escrows.Keys <= b.escrows.Keys && a.missions.Keys <= b.missions.Keys
    ensures ReleasesBooked(b)
  {
    hide SumOf;
    forall m | m in b.escrows && m in b.missions ensures ReleaseBooked(b, m) {
      if m in a.escrows { assert ReleaseBooked(a, m); }
      forall k | ReleaseKind(k) ensures SumOf(b.ledger, m, k) == SumOf(a.ledger, m, k) {
        NoReleaseSums(a.ledger, b.ledger, m, k);
      }
    }
  }

  lemma ReleaseKeepsBooks(db: Db, now: Instant, m: Id, amount: int, account: Id)
    requires Integrity(db) && Balanced(db) && ReleasesBooked(db)
    requires m in db.escrows && m in db.missions && m !in db.outbox
    requires db.escrows[m].status == Held && amount >= db.missions[m].commissionCents
    ensures var split := SplitSpendable(db.missions[m], amount - db.missions[m].commissionCents);
            ReleasesBooked(ReleasedDb(Journal(db, now, m, amount), now, m, account, split))
  {
    hide SumOf, ReleasedDb, ReleaseLines;
    var commission := db.missions[m].commissionCents;
    var split := SplitSpendable(db.missions[m], amount - commission);
    var j := Journal(db, now, m, amount);
    var b := ReleasedDb(j, now, m, account, split);
    ReleasedParts(j, now, m, account, split);
    SumAppend(db.ledger, Entry(m, Capture, amount, now));
    forall e | e in b.escrows && e in b.missions ensures ReleaseBooked(b, e) {
      assert ReleaseBooked(db, e) && EscrowBalanced(db.ledger, e, db.escrows[e]);
      forall k | ReleaseKind(k) ensures SumOf(b.ledger, e, k) == SumOf(db.ledger, e, k)
          + (if e != m then 0 else if k == Payout then split.payoutCents
             else if k == Commission then commission else split.walletCreditCents) {
        ReleaseSums(j.ledger, now, m, commission, split, e, k);
      }
    }
  }

  lemma DeliverKeepsBooks(db: Db, now: Instant, d: Delivery)
    requires Integrity(db) && Balanced(db) && ReleasesBooked(db)
    ensures ReleasesBooked(Deliver(db, now, d).db)
  {
    hide SumOf, ReleasesBooked, Balanced, CaptureEffect;
    var marked := db.(processed := db.processed + {d.eventId});
    var b := Deliver(db, now, d).db;
    MarkKeepsBooks(db, d.eventId);
    EffectEvolves(marked, now, d.event);
    if b != db && b != marked {
      if d.event.IntentSucceeded? {
        CaptureKeepsBooks(marked, now, d.event.intentId, d.event.amountReceived, d.event.missionMetadata);
      } else {
        OtherEventsReleaseNothing(marked, now, d.event);
        ReleasesNothingKeepsBooks(marked, b);
      }
    }
  }

  lemma MarkKeepsBooks(db: Db, id: Id)
    requires Balanced(db) && ReleasesBooked(db)
    ensures var marked := db.(processed := db.processed + {id}); Balanced(marked) && ReleasesBooked(marked)
  {
    hide SumOf;
    var marked := db.(processed := db.processed + {id});
    forall m | m in marked.escrows && m in marked.missions ensures ReleaseBooked(marked, m) {
      assert ReleaseBooked(db, m);
    }
  }

  lemma CheckoutReleasesNothing(db: Db, m: Option<Id>, pi: Option<Id>)
    requires Integrity(db)
    ensures var e := CheckoutEffect(db, m, pi); e.Applied? ==> ReleasesNothing(db, e.db)
  {
  }

  lemma PaymentFailedReleasesNothing(db: Db, pi: Id)
    requires Integrity(db)
    ensures var e := PaymentFailedEffect(db, pi); e.Applied? ==> ReleasesNothing(db, e.db)
  {
  }

  lemma RefundReleasesNothing(db: Db, now: Instant, pi: Option<Id>, cumul: int)
    requires Integrity(db)
    ensures var e := RefundEffect(db, now, pi, cumul); e.Applied? ==> ReleasesNothing(db, e.db)
  {
    hide SumOf;
  }

  lemma OtherEventsReleaseNothing(db: Db, now: Instant, event: Event)
    requires Integrity(db) && !event.IntentSucceeded?
    ensures var e := BusinessEffect(db, now, event); e.Applied? ==> ReleasesNothing(db, e.db)
  {
    hide ReleasesNothing, CheckoutEffect, PaymentFailedEffect, RefundEffect;
    match event
    case CheckoutCompleted(m, pi) => CheckoutReleasesNothing(db, m, pi);
    case PaymentFailed(pi) => PaymentFailedReleasesNothing(db, pi);
    case ChargeRefunded(pi, cumul) => RefundReleasesNothing(db, now, pi, cumul);
    case OutOfScope => NothingReleasesNothing(db);
  }

  lemma NothingReleasesNothing(db: Db)
    ensures ReleasesNothing(db, db)
  {
  }

  lemma JournalReleasesNothing(db: Db, now: Instant, m: Id, amount: int)
    requires m in db.escrows && m in db.missions
    ensures ReleasesNothing(db, Journal(db, now, m, amount).(
              missions := SetMission(db.missions, m, AwaitingTravelerAccount)))
  {
  }

  lemma CaptureKeepsBooks(db: Db, now: Instant, pi: Id, amount: int, metadata: Option<Id>)
    requires Integrity(db) && Balanced(db) && ReleasesBooked(db)
    ensures var e := CaptureEffect(db, now, pi, amount, metadata); e.Applied? ==> ReleasesBooked(e.db)
  {
    hide SumOf, ReleasesBooked, Balanced, CaptureEffect, ReleasesNothing, ReleasedDb;
    var e := CaptureEffect(db, now, pi, amount, metadata);
    CaptureCases(db, now, pi, amount, metadata);
    EffectEvolves(db, now, IntentSucceeded(pi, amount, metadata));
    if e.Applied? && e.handled {
      var m := db.byPaymentIntent[pi];
      match PayoutAccount(db.missions[m])
      case None =>
        assert ReleasesNothing(db, e.db) by { JournalReleasesNothing(db, now, m, amount); }
        ReleasesNothingKeepsBooks(db, e.db);
      case Some(account) =>
        ReleaseKeepsBooks(db, now, m, amount, account);
    }
  }

  /** A step on one mission and its escrow that writes no release line, and neither enters nor
      leaves RELEASED, releases nothing. */
  lemma RowReleasesNothing(a: Db, b: Db, m: Id)
    requires AppendsNoRelease(a.ledger, b.ledger) && b.outbox == a.outbox
    requires b.missions == a.missions
             || (m in b.missions && b.missions == a.missions[m := b.missions[m]]
                 && (m in a.missions ==> b.missions[m].commissionCents == a.missions[m].commissionCents))
    requires b.escrows == a.escrows
             || (m in b.escrows && b.escrows == a.escrows[m := b.escrows[m]]
                 && b.escrows[m].status != Released && (m in a.escrows ==> a.escrows[m].status != Released))
    ensures ReleasesNothing(a, b)
  {
  }

  lemma RouteStepReleasesNothing(db: Db, r: RouteAction)
    ensures ReleasesNothing(db, RouteStep(db, r))
  {
    hide ReleasesNothing, Priced;
    RowReleasesNothing(db, RouteStep(db, r), r.m);
  }

  lemma CronStepReleasesNothing(db: Db, now: Instant, c: CronAction)
    ensures ReleasesNothing(db, CronStep(db, now, c))
  {
    hide ReleasesNothing;
    RowReleasesNothing(db, CronStep(db, now, c), c.m);
  }

  lemma OtherStepsReleaseNothing(db: Db, now: Instant, a: Action)
    requires Integrity(db) && !a.Webhook?
    ensures ReleasesNothing(db, Step(db, now, a))
  {
    match a
    case Route(r) =>
      RouteStepReleasesNothing(db, r);
    case Cron(c) =>
      CronStepReleasesNothing(db, now, c);
    case Queue(q) =>
      hide Integrity, QueueStep;
      QueueStepFrame(db, now, q);
    case Transfers(rows) =>
  }

  lemma StepKeepsBooks(db: Db, now: Instant, a: Action)
    requires Integrity(db) && Balanced(db) && ReleasesBooked(db)
    ensures ReleasesBooked(Step(db, now, a))
  {
    hide SumOf, ReleasesBooked, Balanced;
    if a.Webhook? {
      DeliverKeepsBooks(db, now, a.d);
    } else {
      OtherStepsReleaseNothing(db, now, a);
      StepEvolves(db, now, a);
      ReleasesNothingKeepsBooks(db, Step(db, now, a));
    }
  }

  /** On every run: a transfer intent exists exactly for a RELEASED escrow, its amount is that
      escrow's PAYOUT, and the journalled commission is the mission's. */
  lemma {:induction false} ReleasesBookedOnEveryRun(actions: seq<TimedAction>)
    ensures Integrity(EMPTY_DB) && ReleasesBooked(Run(EMPTY_DB, actions)) && Balanced(Run(EMPTY_DB, actions))
    decreases |actions|
  {
    if |actions| > 0 {
      var last := actions[|actions| - 1];
      ReleasesBookedOnEveryRun(actions[..|actions| - 1]);
      StepKeepsBooks(Run(EMPTY_DB, actions[..|actions| - 1]), last.now, last.action);
      StepBalanced(Run(EMPTY_DB, actions[..|actions| - 1]), last.now, last.action);
    }
  }
}

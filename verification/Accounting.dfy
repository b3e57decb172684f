/** The accounting rules A, B and C, in every reachable state of the database. */
module Accounting {
  import opened Tables
  import opened Money
  import opened Ledger
  import opened Transactions
  import opened Steps

  /** A: the journalled capture is the recorded capture. */
  predicate RuleA(ledger: seq<Entry>, m: Id, e: Escrow) {
    SumOf(ledger, m, Capture) == e.capturedAmountCents
  }

  /** B: nothing leaves an escrow beyond its capture. */
  predicate RuleB(ledger: seq<Entry>, m: Id) {
    Outflow(ledger, m) <= SumOf(ledger, m, Capture)
  }

  /** C: a settled escrow is exactly balanced. */
  predicate RuleC(ledger: seq<Entry>, m: Id, e: Escrow) {
    e.status == Released || e.status == Refunded ==> Outflow(ledger, m) == SumOf(ledger, m, Capture)
  }

  predicate RulesHold(ledger: seq<Entry>, m: Id, e: Escrow) {
    RuleA(ledger, m, e) && RuleB(ledger, m) && RuleC(ledger, m, e)
  }

  predicate NothingReleased(ledger: seq<Entry>, m: Id) {
    && SumOf(ledger, m, Payout) == 0
    && SumOf(ledger, m, Commission) == 0
    && SumOf(ledger, m, BuyerWalletCredit) == 0
  }

  /** What each status says about the lines of one escrow: the inductive form of A, B and C. */
  predicate EscrowBalanced(ledger: seq<Entry>, m: Id, e: Escrow) {
    && SumOf(ledger, m, Capture) == e.capturedAmountCents >= 0
    && match e.status
       case Held => NothingReleased(ledger, m) && SumOf(ledger, m, Refund) == 0
       case Cancelled => NothingReleased(ledger, m) && SumOf(ledger, m, Refund) == 0
       case PartiallyRefunded =>
         NothingReleased(ledger, m) && 0 < SumOf(ledger, m, Refund) < e.capturedAmountCents
       case Refunded =>
         NothingReleased(ledger, m) && SumOf(ledger, m, Refund) == e.capturedAmountCents > 0
       case Released =>
         && SumOf(ledger, m, Refund) == 0
         && e.capturedAmountCents > 0
         && SumOf(ledger, m, Payout) + SumOf(ledger, m, Commission) + SumOf(ledger, m, BuyerWalletCredit)
            == e.capturedAmountCents
  }

  ghost predicate Balanced(db: Db) {
    forall m :: m in db.escrows ==> EscrowBalanced(db.ledger, m, db.escrows[m])
  }

  /** Only the escrow table and the ledger matter. */
  lemma BalancedDependsOn(a: Db, b: Db)
    requires Balanced(a) && a.escrows == b.escrows && a.ledger == b.ledger
    ensures Balanced(b)
  {
  }

  lemma CheckoutBalanced(db: Db, m: Id, pi: Id, limit: int)
    requires Integrity(db) && Balanced(db) && m !in db.escrows
    ensures Balanced(AddEscrow(db, m, pi, limit))
  {
    forall k: LedgerType ensures SumOf(db.ledger, m, k) == 0 {
      SumAbsent(db.ledger, m, k);
    }
  }

  lemma JournalBalanced(db: Db, now: Instant, m: Id, amount: int)
    requires Balanced(db) && m in db.escrows && amount > 0
    requires db.escrows[m].status == Held && db.escrows[m].capturedAmountCents == 0
    ensures Balanced(Journal(db, now, m, amount))
  {
    SumAppend(db.ledger, Entry(m, Capture, amount, now));
  }

  lemma ReleaseSums(ledger: seq<Entry>, now: Instant, m: Id, commission: int, split: Split, e: Id, k: LedgerType)
    requires split.walletCreditCents >= 0
    ensures SumOf(ledger + ReleaseLines(now, m, commission, split), e, k)
            == SumOf(ledger, e, k)
               + (if e != m then 0
                  else if k == Payout then split.payoutCents
                  else if k == Commission then commission
                  else if k == BuyerWalletCredit then split.walletCreditCents else 0)
  {
    var payout := Entry(m, Payout, split.payoutCents, now);
    var fee := Entry(m, Commission, commission, now);
    SumAppend(ledger, payout);
    SumAppend(ledger + [payout], fee);
    var both := ledger + [payout] + [fee];
    if split.walletCreditCents > 0 {
      var credit := Entry(m, BuyerWalletCredit, split.walletCreditCents, now);
      SumAppend(both, credit);
      assert ledger + ReleaseLines(now, m, commission, split) == both + [credit];
    } else {
      assert ledger + ReleaseLines(now, m, commission, split) == both;
    }
  }

  lemma ReleaseBalanced(db: Db, now: Instant, m: Id, account: Id)
    requires Balanced(db) && m in db.escrows && m in db.missions
    requires db.escrows[m].status == Held && db.escrows[m].capturedAmountCents > 0
    requires db.escrows[m].capturedAmountCents >= db.missions[m].commissionCents
    ensures var split := SplitSpendable(db.missions[m],
                                        db.escrows[m].capturedAmountCents - db.missions[m].commissionCents);
            Balanced(ReleasedDb(db, now, m, account, split))
  {
    var commission := db.missions[m].commissionCents;
    var split := SplitSpendable(db.missions[m], db.escrows[m].capturedAmountCents - commission);
    var b := ReleasedDb(db, now, m, account, split);
    forall e | e in b.escrows ensures EscrowBalanced(b.ledger, e, b.escrows[e]) {
      forall k: LedgerType ensures SumOf(b.ledger, e, k) == SumOf(db.ledger, e, k)
               + (if e != m then 0
                  else if k == Payout then split.payoutCents
                  else if k == Commission then commission
                  else if k == BuyerWalletCredit then split.walletCreditCents else 0) {
        ReleaseSums(db.ledger, now, m, commission, split, e, k);
      }
      assert EscrowBalanced(db.ledger, e, db.escrows[e]);
    }
  }

  lemma CaptureBalanced(db: Db, now: Instant, pi: Id, amount: int, metadata: Option<Id>)
    requires Integrity(db) && Balanced(db)
    ensures var e := CaptureEffect(db, now, pi, amount, metadata); e.Applied? ==> Balanced(e.db)
  {
    hide CaptureEffect, SumOf, EscrowBalanced, ReleasedDb, SplitSpendable;
    var e := CaptureEffect(db, now, pi, amount, metadata);
    CaptureCases(db, now, pi, amount, metadata);
    if e.Applied? && e.handled {
      var m := db.byPaymentIntent[pi];
      var j := Journal(db, now, m, amount);
      JournalBalanced(db, now, m, amount);
      match PayoutAccount(db.missions[m])
      case None => BalancedDependsOn(j, e.db);
      case Some(account) => ReleaseBalanced(j, now, m, account);
    }
  }

  lemma RefundRowBalanced(db: Db, now: Instant, m: Id, cumul: int)
    requires Balanced(db) && m in db.escrows
    requires db.escrows[m].status == Held || db.escrows[m].status == PartiallyRefunded
    requires SumOf(db.ledger, m, Refund) < cumul <= db.escrows[m].capturedAmountCents
    ensures Balanced(RefundedDb(db, now, m, cumul, SumOf(db.ledger, m, Refund)))
  {
    assert EscrowBalanced(db.ledger, m, db.escrows[m]);
    SumAppend(db.ledger, Entry(m, Refund, cumul - SumOf(db.ledger, m, Refund), now));
  }

  lemma RefundBalanced(db: Db, now: Instant, pi: Option<Id>, cumul: int)
    requires Integrity(db) && Balanced(db)
    ensures var e := RefundEffect(db, now, pi, cumul); e.Applied? ==> Balanced(e.db)
  {
    var e := RefundEffect(db, now, pi, cumul);
    if e.Applied? && e.handled {
      RefundRowBalanced(db, now, db.byPaymentIntent[pi.value], cumul);
    } else if e.Applied? {
      assert e.db == db;
    }
  }

  lemma CheckoutEffectBalanced(db: Db, m: Option<Id>, pi: Option<Id>)
    requires Integrity(db) && Balanced(db)
    ensures var e := CheckoutEffect(db, m, pi); e.Applied? ==> Balanced(e.db)
  {
    var e := CheckoutEffect(db, m, pi);
    if e.Applied? && e.handled {
      CheckoutBalanced(db, m.value, pi.value, db.missions[m.value].budgetCents);
      BalancedDependsOn(AddEscrow(db, m.value, pi.value, db.missions[m.value].budgetCents), e.db);
    }
  }

  lemma DeliverBalanced(db: Db, now: Instant, d: Delivery)
    requires Integrity(db) && Balanced(db)
    ensures Balanced(Deliver(db, now, d).db)
  {
    var marked := db.(processed := db.processed + {d.eventId});
    match d.event
    case CheckoutCompleted(m, pi) => CheckoutEffectBalanced(marked, m, pi);
    case IntentSucceeded(pi, amount, metadata) => CaptureBalanced(marked, now, pi, amount, metadata);
    case PaymentFailed(pi) => CancelledBalanced(marked, pi);
    case ChargeRefunded(pi, cumul) => RefundBalanced(marked, now, pi, cumul);
    case OutOfScope =>
  }

  lemma CancelledBalanced(db: Db, pi: Id)
    requires Integrity(db) && Balanced(db)
    ensures var e := PaymentFailedEffect(db, pi); e.Applied? ==> Balanced(e.db)
  {
    var e := PaymentFailedEffect(db, pi);
    if e.Applied? && e.handled {
      var m := db.byPaymentIntent[pi];
      assert EscrowBalanced(db.ledger, m, db.escrows[m]);
    }
  }

  lemma CancelHeldBalanced(db: Db, m: Id)
    requires Balanced(db)
    ensures Balanced(db.(escrows := CancelHeld(db.escrows, m)))
  {
    if m in db.escrows {
      assert EscrowBalanced(db.ledger, m, db.escrows[m]);
    }
  }

  lemma CloseCustomsBalanced(db: Db, now: Instant, m: Id)
    requires Balanced(db)
    ensures Balanced(CloseCustomsTx(db, now, m))
  {
    SumAppend(db.ledger, Entry(m, Refund, 0, now));
  }

  lemma ArbitrateBalanced(db: Db, now: Instant, m: Id)
    requires Balanced(db) && m in db.missions && db.missions[m].traveler.Some?
    ensures Balanced(ArbitrateTx(db, now, m))
  {
    var b := ArbitrateTx(db, now, m);
    var lines := b.ledger[|db.ledger|..];
    assert |lines| == 2;
    SumAppend(db.ledger, lines[0]);
    SumAppend(db.ledger + [lines[0]], lines[1]);
    assert b.ledger == db.ledger + [lines[0]] + [lines[1]];
  }

  lemma RouteStepBalanced(db: Db, r: RouteAction)
    requires Integrity(db) && Balanced(db)
    ensures Balanced(RouteStep(db, r))
  {
    hide Balanced, SumOf;
    if r.InsertEscrow? {
      if r.m !in db.escrows { CheckoutBalanced(db, r.m, r.pi, r.limit); }
    } else {
      BalancedDependsOn(db, RouteStep(db, r));
    }
  }

  lemma CronStepBalanced(db: Db, now: Instant, c: CronAction)
    requires Integrity(db) && Balanced(db)
    ensures Balanced(CronStep(db, now, c))
  {
    hide Balanced, SumOf;
    CancelHeldBalanced(db, c.m);
    var cancelled := db.(escrows := CancelHeld(db.escrows, c.m));
    match c
    case RollbackFunding(m) =>
      if RollbackFundingTx(db, m) != db { BalancedDependsOn(cancelled, RollbackFundingTx(db, m)); }
    case CloseCustoms(m) =>
      CloseCustomsBalanced(db, now, m);
    case SettleRefund(m, saw) =>
      if m in db.refunds {
        BalancedDependsOn(if saw then cancelled else db, SettleRefundTx(db, m, saw));
      }
    case SettlePenalty(m, saw, debit) =>
      if m in db.penalties {
        BalancedDependsOn(if saw then cancelled else db, SettlePenaltyTx(db, now, m, saw, debit));
      }
    case Arbitrate(m) =>
      if m in db.missions && db.missions[m].traveler.Some? { ArbitrateBalanced(db, now, m); }
  }

  lemma StepBalanced(db: Db, now: Instant, a: Action)
    requires Integrity(db) && Balanced(db)
    ensures Balanced(Step(db, now, a))
  {
    hide Balanced, SumOf;
    match a
    case Webhook(d) => DeliverBalanced(db, now, d);
    case Route(r) => RouteStepBalanced(db, r);
    case Cron(c) => CronStepBalanced(db, now, c);
    case Queue(q) =>
      QueueStepFrame(db, now, q);
      BalancedDependsOn(db, QueueStep(db, now, q));
    case Transfers(rows) =>
      BalancedDependsOn(db, db.(outbox := rows));
  }

  /** On every run of the database, every escrow satisfies A, B and C; more precisely its lines are
      those its status allows. */
  lemma {:induction false} RulesHoldOnEveryRun(actions: seq<TimedAction>)
    ensures Integrity(EMPTY_DB)
    ensures var db := Run(EMPTY_DB, actions);
            && Balanced(db)
            && forall m :: m in db.escrows ==> RulesHold(db.ledger, m, db.escrows[m])
    decreases |actions|
  {
    if |actions| > 0 {
      var last := actions[|actions| - 1];
      RulesHoldOnEveryRun(actions[..|actions| - 1]);
      StepBalanced(Run(EMPTY_DB, actions[..|actions| - 1]), last.now, last.action);
    }
    BalancedGivesRules(Run(EMPTY_DB, actions));
  }

  lemma BalancedGivesRules(db: Db)
    requires Balanced(db)
    ensures forall m :: m in db.escrows ==> RulesHold(db.ledger, m, db.escrows[m])
  {
    forall m | m in db.escrows ensures RulesHold(db.ledger, m, db.escrows[m]) {
      assert EscrowBalanced(db.ledger, m, db.escrows[m]);
    }
  }
}

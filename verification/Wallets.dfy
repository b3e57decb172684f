/** Wallet balances against the lines that explain them: wallet transactions of releases, and settled
    compensations. */
module Wallets {
  import opened Tables
  import opened Money
  import opened Ledger
  import opened Transactions
  import opened Steps
  import Missions
  import H = Histories

  function BalanceOf(wallets: map<Id, int>, user: Id): int {
    if user in wallets then wallets[user] else 0
  }

  function SumOfTxs(txs: seq<WalletTx>, user: Id): int {
    if |txs| == 0 then 0
    else
      var last := txs[|txs| - 1];
      SumOfTxs(txs[..|txs| - 1], user) + if last.userId == user then last.amountCents else 0
  }

  function SettledShare(c: Compensation, user: Id): int {
    if c.buyerId == user && c.status == JobSettled then c.amountCents else 0
  }

  function SumOfSettled(cs: seq<Compensation>, user: Id): int {
    if |cs| == 0 then 0 else SumOfSettled(cs[..|cs| - 1], user) + SettledShare(cs[|cs| - 1], user)
  }

  predicate Explained(db: Db, user: Id) {
    BalanceOf(db.wallets, user) == SumOfTxs(db.walletTxs, user) + SumOfSettled(db.compensations, user)
  }

  ghost predicate Conserved(db: Db) {
    forall user :: Explained(db, user)
  }

  lemma {:induction false} SettledAfterUpdate(cs: seq<Compensation>, i: nat, c: Compensation, user: Id)
    requires i < |cs|
    ensures SumOfSettled(cs[i := c], user)
            == SumOfSettled(cs, user) - SettledShare(cs[i], user) + SettledShare(c, user)
  {
    var n := |cs| - 1;
    if i == n {
      assert cs[i := c][..n] == cs[..n];
    } else {
      assert cs[i := c][..n] == cs[..n][i := c];
      SettledAfterUpdate(cs[..n], i, c, user);
    }
  }

  lemma TxsAppend(txs: seq<WalletTx>, t: WalletTx)
    ensures forall user :: SumOfTxs(txs + [t], user)
                           == SumOfTxs(txs, user) + if t.userId == user then t.amountCents else 0
  {
    assert (txs + [t])[..|txs|] == txs;
  }

  lemma SettledAppend(cs: seq<Compensation>, c: Compensation)
    ensures forall user :: SumOfSettled(cs + [c], user) == SumOfSettled(cs, user) + SettledShare(c, user)
  {
    assert (cs + [c])[..|cs|] == cs;
  }

  /** The one step that breaks the balance: a failure verdict on a compensation already SETTLED. */
  predicate UndoesCredit(db: Db, a: Action) {
    && a.Queue? && a.q.FailCompensation? && a.q.i < |db.compensations|
    && db.compensations[a.q.i].status == JobSettled
  }

  lemma SameWalletsConserved(a: Db, b: Db)
    requires a.wallets == b.wallets && a.walletTxs == b.walletTxs && a.compensations == b.compensations
    ensures Conserved(a) <==> Conserved(b)
  {
    assert forall user :: Explained(a, user) <==> Explained(b, user);
  }

  lemma ReleaseConserved(db: Db, now: Instant, m: Id, account: Id, split: Split)
    requires m in db.escrows && m in db.missions && Conserved(db)
    ensures Conserved(ReleasedDb(db, now, m, account, split))
  {
    var b := ReleasedDb(db, now, m, account, split);
    if split.walletCreditCents > 0 {
      TxsAppend(db.walletTxs, WalletTx(m, db.missions[m].buyerId, split.walletCreditCents));
    }
    forall user ensures Explained(b, user) {
      assert Explained(db, user);
    }
  }

  lemma EffectConserved(db: Db, now: Instant, event: Event)
    requires Integrity(db) && Conserved(db)
    ensures var e := BusinessEffect(db, now, event); e.Applied? ==> Conserved(e.db)
  {
    hide Conserved, SumOf, CaptureEffect, ReleasedDb;
    var e := BusinessEffect(db, now, event);
    if e.Applied? {
      if event.IntentSucceeded? {
        CaptureCases(db, now, event.intentId, event.amountReceived, event.missionMetadata);
        if e.handled {
          var m := db.byPaymentIntent[event.intentId];
          var j := Journal(db, now, m, event.amountReceived);
          SameWalletsConserved(db, j);
          match PayoutAccount(db.missions[m])
          case None => SameWalletsConserved(db, e.db);
          case Some(account) =>
            ReleaseConserved(j, now, m, account,
                             SplitSpendable(db.missions[m], event.amountReceived - db.missions[m].commissionCents));
        }
      } else {
        SameWalletsConserved(db, e.db);
      }
    }
  }

  lemma CreditConserved(db: Db, i: nat, seen: nat)
    requires i < |db.compensations| && Conserved(db)
    ensures Conserved(CreditCompensationTx(db, i, seen))
  {
    var b := CreditCompensationTx(db, i, seen);
    if b != db {
      forall user ensures Explained(b, user) {
        assert Explained(db, user);
        SettledAfterUpdate(db.compensations, i, b.compensations[i], user);
      }
    }
  }

  lemma FailConservedIff(db: Db, i: nat, seen: nat)
    requires i < |db.compensations| && Conserved(db)
    ensures Conserved(FailCompensationTx(db, i, seen))
            <==> db.compensations[i].status != JobSettled || db.compensations[i].amountCents == 0
  {
    var b := FailCompensationTx(db, i, seen);
    forall user ensures Explained(b, user) <==> SettledShare(db.compensations[i], user) == 0 {
      assert Explained(db, user);
      SettledAfterUpdate(db.compensations, i, b.compensations[i], user);
    }
    assert Explained(b, db.compensations[i].buyerId)
           <==> SettledShare(db.compensations[i], db.compensations[i].buyerId) == 0;
  }

  lemma ArbitrateConserved(db: Db, now: Instant, m: Id)
    requires m in db.missions && db.missions[m].traveler.Some? && Conserved(db)
    ensures Conserved(ArbitrateTx(db, now, m))
  {
    var b := ArbitrateTx(db, now, m);
    SettledAppend(db.compensations, b.compensations[|db.compensations|]);
    forall user ensures Explained(b, user) {
      assert Explained(db, user);
    }
  }

  lemma RouteKeepsWallets(db: Db, r: RouteAction)
    ensures var b := RouteStep(db, r);
            b.wallets == db.wallets && b.walletTxs == db.walletTxs && b.compensations == db.compensations
  {
  }

  lemma CronKeepsWallets(db: Db, now: Instant, c: CronAction)
    requires !c.Arbitrate?
    ensures var b := CronStep(db, now, c);
            b.wallets == db.wallets && b.walletTxs == db.walletTxs && b.compensations == db.compensations
  {
  }

  lemma StepConserved(db: Db, now: Instant, a: Action)
    requires Integrity(db) && Conserved(db) && !UndoesCredit(db, a)
    ensures Conserved(Step(db, now, a))
  {
    hide Conserved, BusinessEffect, RouteStep;
    SameWalletsConserved(db, db);
    match a
    case Webhook(d) =>
      var marked := db.(processed := db.processed + {d.eventId});
      SameWalletsConserved(db, marked);
      EffectConserved(marked, now, d.event);
    case Route(r) =>
      RouteKeepsWallets(db, r);
      SameWalletsConserved(db, RouteStep(db, r));
    case Cron(c) => CronConserved(db, now, c);
    case Queue(q) => QueueConserved(db, now, q);
    case Transfers(rows) => SameWalletsConserved(db, db.(outbox := rows));
  }

  lemma CronConserved(db: Db, now: Instant, c: CronAction)
    requires Conserved(db)
    ensures Conserved(CronStep(db, now, c))
  {
    hide Conserved, ArbitrateTx;
    if c.Arbitrate? {
      if c.m in db.missions && db.missions[c.m].traveler.Some? { ArbitrateConserved(db, now, c.m); }
    } else {
      CronKeepsWallets(db, now, c);
      SameWalletsConserved(db, CronStep(db, now, c));
    }
  }

  lemma QueueConserved(db: Db, now: Instant, q: QueueAction)
    requires Conserved(db) && !UndoesCredit(db, Queue(q))
    ensures Conserved(QueueStep(db, now, q))
  {
    hide Conserved;
    match q
    case CreditCompensation(i, seen) => if i < |db.compensations| { CreditConserved(db, i, seen); }
    case FailCompensation(i, seen) => if i < |db.compensations| { FailConservedIff(db, i, seen); }
    case _ => SameWalletsConserved(db, QueueStep(db, now, q));
  }

  /** A step of any kind keeps the balances exactly unless it undoes a (non-zero) credit. */
  lemma StepConservedIff(db: Db, now: Instant, a: Action)
    requires Integrity(db) && Conserved(db)
    ensures Conserved(Step(db, now, a))
            <==> !UndoesCredit(db, a) || db.compensations[a.q.i].amountCents == 0
  {
    hide Conserved;
    if UndoesCredit(db, a) {
      FailConservedIff(db, a.q.i, a.q.attemptsSeen);
    } else {
      StepConserved(db, now, a);
    }
  }

  // ----- Runs

  /** No failure verdict of the run falls on a compensation already SETTLED. */
  ghost predicate Disciplined(db: Db, actions: seq<TimedAction>)
    requires Integrity(db)
    decreases |actions|
  {
    |actions| == 0 ||
    (Disciplined(db, actions[..|actions| - 1])
     && !UndoesCredit(Run(db, actions[..|actions| - 1]), actions[|actions| - 1].action))
  }

  /** How many steps of the run credited compensation i. */
  ghost function Credits(db: Db, actions: seq<TimedAction>, i: nat): nat
    requires Integrity(db)
    decreases |actions|
  {
    if |actions| == 0 then 0
    else
      var before, a := Run(db, actions[..|actions| - 1]), actions[|actions| - 1].action;
      Credits(db, actions[..|actions| - 1], i)
      + if a.Queue? && a.q.CreditCompensation? && a.q.i == i && i < |before.compensations|
           && before.compensations[i].status == JobPending then 1 else 0
  }

  predicate SettledAt(db: Db, i: nat) {
    i < |db.compensations| && db.compensations[i].status == JobSettled
  }

  predicate IsCompensation(a: Action) {
    a.Queue? && (a.q.CreditCompensation? || a.q.FailCompensation?)
  }

  lemma EffectKeepsCompensations(db: Db, now: Instant, event: Event)
    requires Integrity(db)
    ensures var e := BusinessEffect(db, now, event); e.Applied? ==> e.db.compensations == db.compensations
  {
    hide SumOf, CaptureEffect;
    if event.IntentSucceeded? {
      CaptureCases(db, now, event.intentId, event.amountReceived, event.missionMetadata);
    }
  }

  /** Everything but the compensation worker only appends compensations. */
  lemma OthersOnlyAppend(db: Db, now: Instant, a: Action)
    requires Integrity(db) && !IsCompensation(a)
    ensures db.compensations <= Step(db, now, a).compensations
  {
    hide BusinessEffect, RouteStep;
    match a
    case Webhook(d) => EffectKeepsCompensations(db.(processed := db.processed + {d.eventId}), now, d.event);
    case Route(r) => RouteKeepsWallets(db, r);
    case Cron(c) => if !c.Arbitrate? { CronKeepsWallets(db, now, c); }
    case Queue(q) =>
    case Transfers(rows) =>
  }

  /** On every disciplined run each balance is the sum of its wallet transactions and of the buyer's
      SETTLED compensations, and each compensation is credited at most once. */
  lemma {:induction false} WalletsConserved(actions: seq<TimedAction>, i: nat)
    requires Integrity(EMPTY_DB) && Disciplined(EMPTY_DB, actions)
    ensures Conserved(Run(EMPTY_DB, actions))
    ensures Credits(EMPTY_DB, actions, i) == if SettledAt(Run(EMPTY_DB, actions), i) then 1 else 0
    decreases |actions|
  {
    hide Conserved, Step;
    if |actions| == 0 {
      assert Conserved(EMPTY_DB) by { NothingOwed(); }
    } else {
      var shorter, last := actions[..|actions| - 1], actions[|actions| - 1];
      WalletsConserved(shorter, i);
      var db := Run(EMPTY_DB, shorter);
      StepConserved(db, last.now, last.action);
      CreditStep(db, last.now, last.action, i);
    }
  }

  lemma NothingOwed()
    ensures Conserved(EMPTY_DB)
  {
  }

  lemma CreditStep(db: Db, now: Instant, a: Action, i: nat)
    requires Integrity(db) && !UndoesCredit(db, a)
    ensures var credits := a.Queue? && a.q.CreditCompensation? && a.q.i == i && i < |db.compensations|
                           && db.compensations[i].status == JobPending;
            SettledAt(Step(db, now, a), i) <==> SettledAt(db, i) || credits
  {
    hide BusinessEffect, RouteStep;
    if !IsCompensation(a) {
      OthersOnlyAppend(db, now, a);
      AppendsUnsettled(db, now, a);
    }
  }

  lemma AppendsUnsettled(db: Db, now: Instant, a: Action)
    requires Integrity(db) && !IsCompensation(a)
    ensures var b := Step(db, now, a);
            forall i :: |db.compensations| <= i < |b.compensations| ==> b.compensations[i].status == JobPending
  {
    hide BusinessEffect, RouteStep;
    match a
    case Webhook(d) => EffectKeepsCompensations(db.(processed := db.processed + {d.eventId}), now, d.event);
    case Route(r) => RouteKeepsWallets(db, r);
    case Cron(c) => if !c.Arbitrate? { CronKeepsWallets(db, now, c); }
    case Queue(q) =>
    case Transfers(rows) =>
  }

  // ----- No balance is ever negative, disciplined or not

  ghost predicate NothingNegative(db: Db) {
    && Missions.MissionsSound(db)
    && (forall user :: BalanceOf(db.wallets, user) >= 0)
    && (forall i :: 0 <= i < |db.compensations| ==> db.compensations[i].amountCents >= 0)
  }

  /** What a step does to the balances and to the amounts owed. */
  ghost predicate OnlyCredits(a: Db, b: Db) {
    && (forall user :: BalanceOf(b.wallets, user) >= BalanceOf(a.wallets, user))
    && |a.compensations| <= |b.compensations|
    && (forall i :: 0 <= i < |a.compensations| ==> b.compensations[i].amountCents == a.compensations[i].amountCents)
    && (forall i :: |a.compensations| <= i < |b.compensations| ==> b.compensations[i].amountCents >= 0)
  }

  lemma EffectOnlyCredits(db: Db, now: Instant, event: Event)
    requires Integrity(db)
    ensures var e := BusinessEffect(db, now, event); e.Applied? ==> OnlyCredits(db, e.db)
  {
    hide SumOf, CaptureEffect;
    if event.IntentSucceeded? {
      CaptureCases(db, now, event.intentId, event.amountReceived, event.missionMetadata);
    }
  }

  lemma ArbitrationOnlyCredits(db: Db, now: Instant, m: Id)
    requires Missions.MissionsSound(db)
    ensures OnlyCredits(db, CronStep(db, now, Arbitrate(m)))
  {
    var b := CronStep(db, now, Arbitrate(m));
    if b != db {
      assert Missions.MissionSound(db.missions[m]);
      assert b.compensations[..|db.compensations|] == db.compensations;
    }
  }

  lemma QueueOnlyCredits(db: Db, now: Instant, q: QueueAction)
    requires NothingNegative(db)
    ensures OnlyCredits(db, QueueStep(db, now, q))
  {
  }

  lemma StepOnlyCredits(db: Db, now: Instant, a: Action)
    requires Integrity(db) && NothingNegative(db)
    ensures OnlyCredits(db, Step(db, now, a))
  {
    hide BusinessEffect, RouteStep, CronStep, QueueStep, Missions.MissionsSound;
    match a
    case Webhook(d) => EffectOnlyCredits(db.(processed := db.processed + {d.eventId}), now, d.event);
    case Route(r) => RouteKeepsWallets(db, r);
    case Cron(c) => if c.Arbitrate? { ArbitrationOnlyCredits(db, now, c.m); } else { CronKeepsWallets(db, now, c); }
    case Queue(q) => QueueOnlyCredits(db, now, q);
    case Transfers(rows) =>
  }

  /** On every run, whatever failure verdicts undo, no balance and no compensation is negative. */
  lemma {:induction false} BalancesNeverNegative(actions: seq<TimedAction>)
    requires Integrity(EMPTY_DB)
    ensures NothingNegative(Run(EMPTY_DB, actions))
    decreases |actions|
  {
    hide Step, Missions.MissionsSound, OnlyCredits;
    Missions.PurchaseWrittenOnce(actions, |actions|);
    if |actions| > 0 {
      var shorter, last := actions[..|actions| - 1], actions[|actions| - 1];
      BalancesNeverNegative(shorter);
      StepOnlyCredits(Run(EMPTY_DB, shorter), last.now, last.action);
      CreditsKeepSign(Run(EMPTY_DB, shorter), Run(EMPTY_DB, actions));
    }
  }

  lemma CreditsKeepSign(a: Db, b: Db)
    requires NothingNegative(a) && OnlyCredits(a, b) && Missions.MissionsSound(b)
    ensures NothingNegative(b)
  {
  }

  // ----- Two instances

  const ORDER := Mission(Created, 3, None, 90, 10, false, None)
  const ACCUSED := Some(Traveler(None, false))

  const OWED: seq<TimedAction> :=
    [At(0, Route(CreateMission(7, ORDER)))] + [At(0, Route(InsertEscrow(7, 5, 90)))]
    + [At(0, Route(UpdateMission(7, Disputed, ACCUSED)))] + [At(0, Cron(Arbitrate(7)))]
  const SETTLED_ONCE: seq<TimedAction> := OWED + [At(0, Queue(CreditCompensation(0, 0)))]
  const REOPENED: seq<TimedAction> := SETTLED_ONCE + [At(0, Queue(FailCompensation(0, 0)))]
  const SETTLED_TWICE: seq<TimedAction> := REOPENED + [At(0, Queue(CreditCompensation(0, 1)))]

  function DisputedDb(): Db {
    EMPTY_DB.(missions := map[7 := ORDER.(status := Disputed, traveler := ACCUSED)],
              escrows := map[7 := Escrow(5, Held, 0, 90)], byPaymentIntent := map[5 := 7])
  }

  lemma DisputeRuns()
    ensures Integrity(EMPTY_DB) && Run(EMPTY_DB, OWED[..3]) == DisputedDb()
  {
    hide CronStep, QueueStep, Deliver;
    var create, open := At(0, Route(CreateMission(7, ORDER))), At(0, Route(InsertEscrow(7, 5, 90)));
    var dispute := At(0, Route(UpdateMission(7, Disputed, ACCUSED)));
    H.RunAppend(EMPTY_DB, [], create);
    assert [] + [create] == [create];
    H.RunAppend(EMPTY_DB, [create], open);
    H.RunAppend(EMPTY_DB, [create] + [open], dispute);
    assert OWED[..3] == [create] + [open] + [dispute];
  }

  lemma ArbitrationOwes()
    ensures Integrity(EMPTY_DB)
    ensures var owed := Run(EMPTY_DB, OWED);
            && owed.compensations == [Compensation(7, 3, 120, JobPending, 0)]
            && owed.wallets == map[] && owed.walletTxs == []
  {
    DisputeRuns();
    assert OWED == OWED[..3] + [At(0, Cron(Arbitrate(7)))];
    H.RunAppend(EMPTY_DB, OWED[..3], At(0, Cron(Arbitrate(7))));
    hide Run;
  }

  /** The last three transactions of the run, one after the other. */
  lemma SettleReopenSettle()
    ensures |Run(EMPTY_DB, OWED).compensations| == 1
    ensures Run(EMPTY_DB, SETTLED_ONCE) == CreditCompensationTx(Run(EMPTY_DB, OWED), 0, 0)
    ensures var once := Run(EMPTY_DB, SETTLED_ONCE);
            && |once.compensations| == 1 && Run(EMPTY_DB, REOPENED) == FailCompensationTx(once, 0, 0)
            && |Run(EMPTY_DB, REOPENED).compensations| == 1
            && Run(EMPTY_DB, SETTLED_TWICE) == CreditCompensationTx(Run(EMPTY_DB, REOPENED), 0, 1)
  {
    ArbitrationOwes();
    hide Run, Integrity;
    H.RunAppend(EMPTY_DB, OWED, At(0, Queue(CreditCompensation(0, 0))));
    H.RunAppend(EMPTY_DB, SETTLED_ONCE, At(0, Queue(FailCompensation(0, 0))));
    H.RunAppend(EMPTY_DB, REOPENED, At(0, Queue(CreditCompensation(0, 1))));
  }

  /** A run of two instances: the first settles the compensation of an arbitration; the second, which
      had selected the same row, meets an error and writes PENDING over SETTLED; the next tick
      credits again. */
  lemma TwoInstancesCreditTwice()
    ensures var end := Run(EMPTY_DB, SETTLED_TWICE);
            && Conserved(Run(EMPTY_DB, SETTLED_ONCE)) && !Conserved(Run(EMPTY_DB, REOPENED)) && !Conserved(end)
            && BalanceOf(end.wallets, 3) == 240 && SumOfSettled(end.compensations, 3) == 120
  {
    ArbitrationOwes();
    SettleReopenSettle();
    hide Run, Integrity;
    var owed := Run(EMPTY_DB, OWED);
    assert Conserved(owed) by {
      forall user ensures Explained(owed, user) {
        assert owed.compensations == [] + [owed.compensations[0]];
        SettledAppend([], owed.compensations[0]);
      }
    }
    CreditConserved(owed, 0, 0);
    FailConservedIff(Run(EMPTY_DB, SETTLED_ONCE), 0, 0);
    var end := Run(EMPTY_DB, SETTLED_TWICE);
    assert end.compensations == [] + [end.compensations[0]];
    SettledAppend([], end.compensations[0]);
    assert !Explained(end, 3);
  }
}

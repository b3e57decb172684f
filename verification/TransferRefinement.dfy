/** The transfer outbox inside the combined machine is the outbox protocol: every run of the one is
    a run of the other, so that what `Outbox` and `RetryLifecycle` prove holds there. */
module TransferRefinement {
  import opened Tables
  import Money
  import opened Transactions
  import opened Causes
  import opened World
  import opened WorldSafety
  import P = PenaltyRefinement
  import S = Steps
  import O = Outbox
  import R = RetryLifecycle

  /** At most one new intent, PENDING, untried and dated now. */
  ghost predicate AddsOne(a: map<Id, OutboxRow>, b: map<Id, OutboxRow>, now: Instant) {
    || b == a
    || exists k: Id, amount: int, destination: Id ::
         k !in a && b == a[k := OutboxRow(amount, destination, Pending, 0, now, now, None)]
  }

  lemma CaptureAddsOne(db: Db, now: Instant, pi: Id, amount: int, metadata: Option<Id>)
    requires Integrity(db)
    ensures var e := CaptureEffect(db, now, pi, amount, metadata); e.Applied? ==> AddsOne(db.outbox, e.db.outbox, now)
  {
    hide CaptureEffect, ReleaseLines, ReleasedDb, SetMission, SetEscrow;
    CaptureCases(db, now, pi, amount, metadata);
    var e := CaptureEffect(db, now, pi, amount, metadata);
    if e.Applied? && e.handled {
      var m := db.byPaymentIntent[pi];
      var mission := db.missions[m];
      if PayoutAccount(mission).Some? {
        var split := Money.SplitSpendable(mission, amount - mission.commissionCents);
        ReleasedParts(Journal(db, now, m, amount), now, m, PayoutAccount(mission).value, split);
        assert e.db.outbox
               == db.outbox[m := OutboxRow(split.payoutCents, PayoutAccount(mission).value, Pending, 0, now, now,
                                           None)];
      }
    }
  }

  lemma StepAddsOne(db: Db, now: Instant, a: S.Action)
    requires Integrity(db) && !a.Transfers?
    ensures AddsOne(db.outbox, S.Step(db, now, a).outbox, now)
  {
    hide S.RouteStep, S.CronStep, S.QueueStep, BusinessEffect, AddsOne;
    Unchanged(db.outbox, now);
    match a
    case Webhook(d) =>
      var marked := db.(processed := db.processed + {d.eventId});
      if d.event.IntentSucceeded? {
        CaptureIsEffect(marked, now, d.event);
        CaptureAddsOne(marked, now, d.event.intentId, d.event.amountReceived, d.event.missionMetadata);
      } else {
        OtherEventsKeepOutbox(marked, now, d.event);
      }
    case Route(r) => RouteKeepsOutbox(db, r);
    case Cron(c) => CronKeepsOutbox(db, now, c);
    case Queue(q) => S.QueueStepFrame(db, now, q);
  }

  lemma Unchanged(rows: map<Id, OutboxRow>, now: Instant)
    ensures AddsOne(rows, rows, now)
  {
  }

  /** The step of the protocol that a move makes, if it makes one. */
  ghost function ActionsOf(w: World, x: Move): seq<O.Action>
    requires Integrity(w.db)
  {
    if !Enabled(w, x) then []
    else
      match x
      case Pass(ms) => [O.Tick(ms)]
      case Transfer(a) => [a]
      case _ => if Step(w, x).db.outbox == w.db.outbox then [] else [Creation(w.db.outbox, Step(w, x).db.outbox)]
  }

  /** The creation of the one intent that `b` has and `a` has not. */
  ghost function Creation(a: map<Id, OutboxRow>, b: map<Id, OutboxRow>): O.Action {
    if k: Id :| k in b && k !in a && b == a[k := b[k]] then O.Create(k, b[k].amountCents, b[k].destination)
    else O.Tick(0)
  }

  ghost predicate Projects(w: World, x: Move)
    requires Integrity(w.db)
  {
    TransferSystem(Step(w, x)) == O.Run(TransferSystem(w), w.limits.transfers, ActionsOf(w, x))
  }

  lemma CreationAdds(s: O.System, s': O.System, maxAttempts: nat)
    requires AddsOne(s.rows, s'.rows, s.now) && s' == s.(rows := s'.rows) && s'.rows != s.rows
    ensures s' == O.Step(s, maxAttempts, Creation(s.rows, s'.rows)) && Creation(s.rows, s'.rows).Create?
  {
    var k: Id, amount: int, destination: Id :|
      k !in s.rows && s'.rows == s.rows[k := OutboxRow(amount, destination, Pending, 0, s.now, s.now, None)];
    assert k in s'.rows && s'.rows == s.rows[k := s'.rows[k]];
  }

  lemma OtherMovesKeepClock(w: World, x: Move)
    requires Enabled(w, x) && !x.Transfer? && !x.Pass?
    ensures OutsidePart(w, x).now == w.now && OutsidePart(w, x).abandonAlerts == w.abandonAlerts
  {
    hide Enabled, DbPart, CancelIntent;
  }

  lemma OtherMoveProjects(w: World, x: Move)
    requires Integrity(w.db) && Enabled(w, x) && !x.Pass? && !x.Transfer?
    ensures Projects(w, x)
    ensures forall i :: 0 <= i < |ActionsOf(w, x)| ==> ActionsOf(w, x)[i].Create?
  {
    hide Enabled, DbPart, OutsidePart, S.Step, Integrity, AddsOne, O.Step, Creation;
    var s, s' := TransferSystem(w), TransferSystem(Step(w, x));
    OtherMovesKeepTransfers(w, x);
    OtherMovesCommitNoTransfer(w, x);
    OtherMovesKeepClock(w, x);
    Unchanged(s.rows, s.now);
    if DbPart(w, x).Some? { StepAddsOne(w.db, w.now, DbPart(w, x).value); }
    assert AddsOne(s.rows, s'.rows, s.now) && s' == s.(rows := s'.rows);
    if s'.rows != s.rows {
      CreationAdds(s, s', w.limits.transfers);
      P.OneAction(s, w.limits.transfers, Creation(s.rows, s'.rows));
    }
  }

  lemma MoveProjects(w: World, x: Move)
    requires Integrity(w.db)
    ensures Projects(w, x)
  {
    hide DbPart, S.Step, Integrity;
    var s := TransferSystem(w);
    if Enabled(w, x) {
      if x.Pass? {
        PassTicks(w, x.ms);
        P.OneAction(s, w.limits.transfers, O.Tick(x.ms));
      } else if x.Transfer? {
        TransferMove(w, x.a);
        P.OneAction(s, w.limits.transfers, x.a);
      } else {
        OtherMoveProjects(w, x);
      }
    }
  }

  lemma PassTicks(w: World, ms: nat)
    requires Integrity(w.db)
    ensures TransferSystem(Step(w, Pass(ms))) == O.Step(TransferSystem(w), w.limits.transfers, O.Tick(ms))
  {
  }

  // ----- Runs

  ghost function Projection(w: World, moves: seq<Move>): seq<O.Action>
    requires Integrity(w.db)
    decreases |moves|
  {
    if |moves| == 0 then []
    else
      var shorter := moves[..|moves| - 1];
      Projection(w, shorter) + ActionsOf(Run(w, shorter), moves[|moves| - 1])
  }

  /** Every run of database and Stripe together is, in its transfers, a run of the outbox protocol
      with the transfer worker's threshold. */
  lemma {:induction false} EveryRunProjects(w: World, moves: seq<Move>)
    requires Integrity(w.db)
    ensures Run(w, moves).limits == w.limits
    ensures TransferSystem(Run(w, moves)) == O.Run(TransferSystem(w), w.limits.transfers, Projection(w, moves))
    decreases |moves|
  {
    hide Step, O.Step, TransferSystem, Integrity, ActionsOf;
    if |moves| > 0 {
      var shorter, x := moves[..|moves| - 1], moves[|moves| - 1];
      EveryRunProjects(w, shorter);
      var before := Run(w, shorter);
      MoveProjects(before, x);
      P.LimitsStay(before, x);
      O.RunConcat(TransferSystem(w), w.limits.transfers, Projection(w, shorter), ActionsOf(before, x));
    }
  }

  /** A transfer worker past the stale window stays silent. */
  predicate TimelyMove(w: World, x: Move) {
    x.Transfer? ==> R.Timely(TransferSystem(w), x.a)
  }

  ghost predicate TimelyMoves(w: World, moves: seq<Move>)
    requires Integrity(w.db)
    decreases |moves|
  {
    |moves| == 0
    || (&& TimelyMoves(w, moves[..|moves| - 1])
        && TimelyMove(Run(w, moves[..|moves| - 1]), moves[|moves| - 1]))
  }

  lemma TimelyActions(w: World, x: Move)
    requires Integrity(w.db) && TimelyMove(w, x)
    ensures R.TimelyRun(TransferSystem(w), w.limits.transfers, ActionsOf(w, x))
  {
    var s, max := TransferSystem(w), w.limits.transfers;
    if Enabled(w, x) && !x.Pass? && !x.Transfer? { OtherMoveProjects(w, x); }
    hide Enabled, Step, Integrity, TransferSystem, Creation, R.TimelyRun;
    var actions := ActionsOf(w, x);
    if |actions| == 1 {
      P.TimelyOne(s, max, actions[0]);
      assert actions == [actions[0]];
    } else {
      P.TimelyNone(s, max);
    }
  }

  lemma {:induction false} TimelyProjection(w: World, moves: seq<Move>)
    requires Integrity(w.db) && TimelyMoves(w, moves)
    ensures R.TimelyRun(TransferSystem(w), w.limits.transfers, Projection(w, moves))
    decreases |moves|
  {
    hide Step, O.Step, TransferSystem, Integrity, ActionsOf, TimelyMove;
    if |moves| > 0 {
      var shorter, x := moves[..|moves| - 1], moves[|moves| - 1];
      TimelyProjection(w, shorter);
      EveryRunProjects(w, shorter);
      TimelyActions(Run(w, shorter), x);
      R.TimelyConcat(TransferSystem(w), w.limits.transfers, Projection(w, shorter), ActionsOf(Run(w, shorter), x));
    }
  }

  /** On every timely run: a transfer's attempts stay within the threshold and reach it exactly when
      it is ABANDONED, with one alert, and no two live workers hold the same intent. */
  lemma TransferLifecycle(limits: Limits, moves: seq<Move>)
    requires Integrity(Init(limits).db) && limits.transfers > 0 && TimelyMoves(Init(limits), moves)
    ensures R.Lifecycle(TransferSystem(Run(Init(limits), moves)), limits.transfers)
  {
    hide Step, O.Step, Integrity, R.Lifecycle;
    EveryRunProjects(Init(limits), moves);
    TimelyProjection(Init(limits), moves);
    R.LifecycleOnEveryTimelyRun(limits.transfers, Projection(Init(limits), moves));
  }

  lemma Requeues(w: World, x: Move, k: Id)
    requires Integrity(w.db) && x != Transfer(O.Requeue(k))
    ensures forall i :: 0 <= i < |ActionsOf(w, x)| ==> ActionsOf(w, x)[i] != O.Requeue(k)
  {
    hide Enabled, Step, Integrity;
  }

  lemma {:induction false} NoRequeue(w: World, moves: seq<Move>, k: Id)
    requires Integrity(w.db) && forall i :: 0 <= i < |moves| ==> moves[i] != Transfer(O.Requeue(k))
    ensures forall i :: 0 <= i < |Projection(w, moves)| ==> Projection(w, moves)[i] != O.Requeue(k)
    decreases |moves|
  {
    hide Step, Integrity, ActionsOf;
    if |moves| > 0 {
      NoRequeue(w, moves[..|moves| - 1], k);
      Requeues(Run(w, moves[..|moves| - 1]), moves[|moves| - 1], k);
    }
  }

  /** On every timely run that does not requeue it, an intent whose first failure was at
      `firstFailure` is ABANDONED no earlier than 2^M - 2 minutes after it. */
  lemma TransferAbandonedNoEarlier(w: World, moves: seq<Move>, k: Id, firstFailure: Instant)
    requires Integrity(w.db) && w.limits.transfers > 0 && R.Lifecycle(TransferSystem(w), w.limits.transfers)
    requires k in w.db.outbox && R.BackedOff(w.db.outbox[k], firstFailure)
    requires TimelyMoves(w, moves) && forall i :: 0 <= i < |moves| ==> moves[i] != Transfer(O.Requeue(k))
    ensures var end := Run(w, moves);
            && k in end.db.outbox
            && (end.db.outbox[k].status == Abandoned ==>
                  firstFailure + O.MINUTE * (O.Pow2(w.limits.transfers) - 2) <= end.now)
  {
    hide Step, O.Step, Integrity, R.Lifecycle, R.BackedOff;
    EveryRunProjects(w, moves);
    TimelyProjection(w, moves);
    NoRequeue(w, moves, k);
    R.AbandonedNoEarlier(TransferSystem(w), w.limits.transfers, Projection(w, moves), k, firstFailure);
  }
}

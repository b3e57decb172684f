/** The penalty outbox inside the combined machine is the outbox protocol too: the debit is its
    external call, and the buyer's hold is released between that call and the verdict. Every run of
    the combined machine projects to a run of the protocol, so that what `Outbox` and
    `RetryLifecycle` prove about rows, claims, alerts and backoff holds for penalties. */
module PenaltyRefinement {
  import opened Tables
  import opened Causes
  import opened World
  import S = Steps
  import O = Outbox
  import R = RetryLifecycle

  /** The steps of the protocol that a move makes: none, one, or two for a verdict that follows a
      success the worker could not record. */
  function ActionsOf(w: World, x: Move): seq<O.Action> {
    if !Enabled(w, x) then []
    else
      match x
      case Pass(ms) => [O.Tick(ms)]
      case Arbitrate(m) => if Arbitrates(w.db, m) then [O.Create(m, PenaltyOf(w.db.missions[m]), m)] else []
      case BeginPenalty(t, m) => [O.TakeClaim(t, m)]
      case ChargePenalty(t, tookEffect, approved, reported) =>
        [O.CallStripe(t, DebitSucceeds(w, w.tasks[t].claim.key, tookEffect, approved), reported)]
      case CommitPenalty(t) => if w.tasks[t].claim.key in w.db.penalties then [O.Verdict(t)] else [O.Crash(t)]
      case FailPenalty(t, _) =>
        if w.tasks[t].claim.key in w.db.penalties then [O.VerdictWriteFails(t), O.Verdict(t)] else [O.Crash(t)]
      case EndTask(t) => [O.Crash(t)]
      case _ => []
  }

  /** The guard of the arbitration, and what it debits: 200% of budget and commission. */
  predicate Arbitrates(db: Db, m: Id) {
    && m in db.missions && m in db.escrows && db.missions[m].status == Disputed && db.missions[m].traveler.Some?
    && m !in db.penalties && !S.HasCompensation(db.compensations, m)
  }

  function PenaltyOf(m: Mission): int {
    (m.budgetCents + m.commissionCents) * 2
  }

  ghost predicate Projects(w: World, x: Move)
    requires Integrity(w.db)
  {
    PenaltySystem(Step(w, x)) == O.Run(PenaltySystem(w), w.limits.penalties, ActionsOf(w, x))
  }

  lemma OneAction(s: O.System, maxAttempts: nat, a: O.Action)
    ensures O.Run(s, maxAttempts, [a]) == O.Step(s, maxAttempts, a)
  {
    assert [a][..0] == [];
  }

  lemma TwoActions(s: O.System, maxAttempts: nat, a: O.Action, b: O.Action)
    ensures O.Run(s, maxAttempts, [a, b]) == O.Step(O.Step(s, maxAttempts, a), maxAttempts, b)
  {
    OneAction(s, maxAttempts, a);
    assert [a, b][..1] == [a];
  }

  // ----- Moves that are not the penalty worker's

  predicate ConcernsPenalties(x: Move) {
    x.BeginPenalty? || x.ChargePenalty? || x.CommitPenalty? || x.FailPenalty? || x.EndTask? || x.Arbitrate? || x.Pass?
  }

  lemma CronKeepsPenalties(db: Db, now: Instant, c: S.CronAction)
    requires !c.SettlePenalty? && !c.Arbitrate?
    ensures S.CronStep(db, now, c).penalties == db.penalties
  {
  }

  lemma DbKeepsPenalties(w: World, x: Move)
    requires Integrity(w.db) && Enabled(w, x) && !ConcernsPenalties(x)
    ensures DbPart(w, x).Some? ==> S.Step(w.db, w.now, DbPart(w, x).value).penalties == w.db.penalties
  {
    match DbPart(w, x)
    case None =>
    case Some(a) =>
      KindOfPart(w, x);
      hide Enabled, DbPart, S.CronStep, S.QueueStep, Integrity;
      match a
      case Cron(c) => CronKeepsPenalties(w.db, w.now, c);
      case Queue(q) => QueueKeepsPenalties(w.db, w.now, q);
      case _ => StepKeepsQueues(w.db, w.now, a);
  }

  lemma KindOfPart(w: World, x: Move)
    requires Enabled(w, x) && !ConcernsPenalties(x) && DbPart(w, x).Some?
    ensures var a := DbPart(w, x).value;
            && (a.Cron? ==> !a.c.SettlePenalty? && !a.c.Arbitrate?)
            && (a.Queue? ==> !a.q.UpdatePenalty?)
  {
    hide O.Step;
  }

  lemma OutsideKeepsPenalties(w: World, x: Move)
    requires Enabled(w, x) && !ConcernsPenalties(x)
    ensures var w' := OutsidePart(w, x);
            && w'.now == w.now && w'.charges == w.charges && w'.penaltyAlerts == w.penaltyAlerts
            && PenaltyClaims(w'.tasks) == PenaltyClaims(w.tasks)
  {
    hide DbPart, CancelIntent, IntentOf, SawEscrow, O.Step, S.RollbackFundingTx;
  }

  lemma OtherMoveProjects(w: World, x: Move)
    requires Integrity(w.db) && Enabled(w, x) && !ConcernsPenalties(x)
    ensures PenaltySystem(Step(w, x)) == PenaltySystem(w) && ActionsOf(w, x) == []
  {
    DbKeepsPenalties(w, x);
    OutsideKeepsPenalties(w, x);
    hide Enabled, DbPart, OutsidePart, S.Step, Integrity, PenaltyClaims;
  }

  // ----- Its moves, one by one

  lemma PassTicks(w: World, ms: nat)
    requires Integrity(w.db)
    ensures PenaltySystem(Step(w, Pass(ms))) == O.Step(PenaltySystem(w), w.limits.penalties, O.Tick(ms))
  {
    hide PenaltyClaims;
  }

  lemma BeginTakesClaim(w: World, t: Id, m: Id)
    requires Integrity(w.db) && Enabled(w, BeginPenalty(t, m))
    ensures PenaltySystem(Step(w, BeginPenalty(t, m)))
            == O.Step(PenaltySystem(w), w.limits.penalties, O.TakeClaim(t, m))
  {
    hide Integrity, S.CreditCompensationTx, S.FailCompensationTx;
  }

  lemma ChargeCallsStripe(w: World, t: Id, tookEffect: bool, approved: bool, reported: bool)
    requires Integrity(w.db) && Enabled(w, ChargePenalty(t, tookEffect, approved, reported))
    ensures var succeeds := DebitSucceeds(w, w.tasks[t].claim.key, tookEffect, approved);
            PenaltySystem(Step(w, ChargePenalty(t, tookEffect, approved, reported)))
            == O.Step(PenaltySystem(w), w.limits.penalties, O.CallStripe(t, succeeds, reported))
  {
    hide Integrity, DebitSucceeds, O.StripeCreate, O.StripeId;
  }

  lemma CommitIsVerdict(w: World, t: Id)
    requires Integrity(w.db) && Enabled(w, CommitPenalty(t))
    ensures PenaltySystem(Step(w, CommitPenalty(t)))
            == O.Step(PenaltySystem(w), w.limits.penalties,
                      if w.tasks[t].claim.key in w.db.penalties then O.Verdict(t) else O.Crash(t))
  {
    hide Integrity, S.CancelHeld;
  }

  /** The rows after a failure verdict, which is the protocol's. */
  function FailedRows(w: World, c: O.Claim): map<Id, OutboxRow>
    requires c.key in w.db.penalties
  {
    w.db.penalties[c.key :=
      O.FailureVerdict(w.db.penalties[c.key], c.attempts, w.limits.penalties).(updatedAt := w.now)]
  }

  lemma FailIs(w: World, t: Id, abandon: bool)
    requires Integrity(w.db) && Enabled(w, FailPenalty(t, abandon)) && w.tasks[t].claim.key in w.db.penalties
    ensures var c := w.tasks[t].claim;
            Step(w, FailPenalty(t, abandon))
            == w.(db := w.db.(penalties := FailedRows(w, c)), tasks := w.tasks - {t},
                  penaltyAlerts := if abandon then w.penaltyAlerts + [c.key] else w.penaltyAlerts)
  {
    hide S.CreditCompensationTx, S.FailCompensationTx;
  }

  lemma FailIsVerdict(w: World, t: Id, abandon: bool)
    requires Integrity(w.db) && Enabled(w, FailPenalty(t, abandon)) && w.tasks[t].claim.key in w.db.penalties
    ensures var s := PenaltySystem(w);
            PenaltySystem(Step(w, FailPenalty(t, abandon)))
            == O.Step(O.Step(s, w.limits.penalties, O.VerdictWriteFails(t)), w.limits.penalties, O.Verdict(t))
  {
    FailIs(w, t, abandon);
    hide Step, Integrity;
    assert PenaltyClaims(w.tasks - {t}) == PenaltyClaims(w.tasks) - {t};
    var c := w.tasks[t].claim;
    assert O.Step(PenaltySystem(w), w.limits.penalties, O.VerdictWriteFails(t)).claims
           == PenaltyClaims(w.tasks)[t := c.(stage := O.Threw)];
    assert PenaltyClaims(w.tasks)[t := c.(stage := O.Threw)] - {t} == PenaltyClaims(w.tasks) - {t};
  }

  lemma FailWithoutRow(w: World, t: Id, abandon: bool)
    requires Integrity(w.db) && Enabled(w, FailPenalty(t, abandon)) && w.tasks[t].claim.key !in w.db.penalties
    ensures PenaltySystem(Step(w, FailPenalty(t, abandon))) == O.Step(PenaltySystem(w), w.limits.penalties, O.Crash(t))
  {
    hide Integrity;
  }

  lemma EndIsCrash(w: World, t: Id)
    requires Integrity(w.db) && Enabled(w, EndTask(t))
    ensures PenaltySystem(Step(w, EndTask(t))) == O.Step(PenaltySystem(w), w.limits.penalties, O.Crash(t))
  {
    hide Integrity;
  }

  lemma ArbitrateCreates(w: World, m: Id)
    requires Integrity(w.db)
    ensures PenaltySystem(Step(w, Arbitrate(m)))
            == if Arbitrates(w.db, m)
               then O.Step(PenaltySystem(w), w.limits.penalties, O.Create(m, PenaltyOf(w.db.missions[m]), m))
               else PenaltySystem(w)
  {
    hide Integrity, PenaltyClaims;
  }

  lemma MoveProjects(w: World, x: Move)
    requires Integrity(w.db)
    ensures Projects(w, x)
  {
    if Enabled(w, x) {
      if x.Arbitrate? {
        ArbitrateCreates(w, x.m);
        OneAction(PenaltySystem(w), w.limits.penalties, O.Create(x.m, PenaltyAt(w, x.m), x.m));
        hide O.Step, Step, Integrity, PenaltySystem, Arbitrates;
      } else if x.Pass? {
        PassTicks(w, x.ms);
        OneAction(PenaltySystem(w), w.limits.penalties, O.Tick(x.ms));
        hide O.Step, Step, Integrity, PenaltySystem;
      } else if ConcernsPenalties(x) {
        WorkerMoveProjects(w, x);
      } else {
        OtherMoveProjects(w, x);
        hide O.Step, Step, Integrity, PenaltySystem, DbPart, OutsidePart, Enabled;
      }
    }
  }

  function PenaltyAt(w: World, m: Id): int {
    if m in w.db.missions then PenaltyOf(w.db.missions[m]) else 0
  }

  lemma WorkerMoveProjects(w: World, x: Move)
    requires Integrity(w.db) && Enabled(w, x) && ConcernsPenalties(x) && !x.Pass? && !x.Arbitrate?
    ensures Projects(w, x)
  {
    hide Integrity, DbPart, OutsidePart, S.Step, PenaltySystem, O.Step, Step, DebitSucceeds;
    var s, max := PenaltySystem(w), w.limits.penalties;
    match x
    case BeginPenalty(t, m) =>
      BeginTakesClaim(w, t, m);
      OneAction(s, max, O.TakeClaim(t, m));
    case ChargePenalty(t, tookEffect, approved, reported) =>
      ChargeCallsStripe(w, t, tookEffect, approved, reported);
      OneAction(s, max, O.CallStripe(t, DebitSucceeds(w, w.tasks[t].claim.key, tookEffect, approved), reported));
    case CommitPenalty(t) =>
      CommitIsVerdict(w, t);
      OneAction(s, max, O.Verdict(t));
      OneAction(s, max, O.Crash(t));
    case FailPenalty(t, abandon) =>
      if w.tasks[t].claim.key in w.db.penalties {
        FailIsVerdict(w, t, abandon);
        TwoActions(s, max, O.VerdictWriteFails(t), O.Verdict(t));
      } else {
        FailWithoutRow(w, t, abandon);
        OneAction(s, max, O.Crash(t));
      }
    case EndTask(t) =>
      EndIsCrash(w, t);
      OneAction(s, max, O.Crash(t));
  }

  lemma LimitsStay(w: World, x: Move)
    requires Integrity(w.db)
    ensures Step(w, x).limits == w.limits
  {
    hide Enabled, DbPart, OutsidePart, S.Step, Integrity;
  }

  lemma NothingYet(limits: Limits)
    ensures Integrity(Init(limits).db) && PenaltySystem(Init(limits)) == O.INIT
  {
    assert PenaltyClaims(map[]) == map[];
  }

  // ----- Runs

  function Projection(w: World, moves: seq<Move>): seq<O.Action>
    requires Integrity(w.db)
    decreases |moves|
  {
    if |moves| == 0 then []
    else
      var shorter := moves[..|moves| - 1];
      Projection(w, shorter) + ActionsOf(Run(w, shorter), moves[|moves| - 1])
  }

  /** Every run of database and Stripe together is, in its penalties, a run of the outbox protocol
      with the penalty worker's threshold. */
  lemma {:induction false} EveryRunProjectsPenalties(w: World, moves: seq<Move>)
    requires Integrity(w.db)
    ensures Run(w, moves).limits == w.limits
    ensures PenaltySystem(Run(w, moves)) == O.Run(PenaltySystem(w), w.limits.penalties, Projection(w, moves))
    decreases |moves|
  {
    hide Step, O.Step, PenaltySystem, Integrity, ActionsOf;
    if |moves| > 0 {
      var shorter, x := moves[..|moves| - 1], moves[|moves| - 1];
      EveryRunProjectsPenalties(w, shorter);
      var before := Run(w, shorter);
      MoveProjects(before, x);
      LimitsStay(before, x);
      O.RunConcat(PenaltySystem(w), w.limits.penalties, Projection(w, shorter), ActionsOf(before, x));
    }
  }

  /** A penalty worker past the stale window stays silent. */
  predicate TimelyMove(w: World, x: Move) {
    match x
    case ChargePenalty(t, _, _, _) => R.Live(PenaltySystem(w), t)
    case CommitPenalty(t) => R.Live(PenaltySystem(w), t)
    case FailPenalty(t, _) => R.Live(PenaltySystem(w), t)
    case _ => true
  }

  ghost predicate TimelyMoves(w: World, moves: seq<Move>)
    requires Integrity(w.db)
    decreases |moves|
  {
    |moves| == 0
    || (&& TimelyMoves(w, moves[..|moves| - 1])
        && TimelyMove(Run(w, moves[..|moves| - 1]), moves[|moves| - 1]))
  }

  lemma TimelyOne(s: O.System, maxAttempts: nat, a: O.Action)
    requires R.Timely(s, a)
    ensures R.TimelyRun(s, maxAttempts, [a])
  {
    assert [a][..0] == [];
  }

  lemma TimelyLostWrite(s: O.System, maxAttempts: nat, t: Id)
    requires R.Live(s, t)
    ensures R.TimelyRun(s, maxAttempts, [O.VerdictWriteFails(t), O.Verdict(t)])
  {
    var a, b := O.VerdictWriteFails(t), O.Verdict(t);
    TimelyOne(s, maxAttempts, a);
    OneAction(s, maxAttempts, a);
    assert [a, b][..1] == [a];
  }

  lemma TimelyActions(w: World, x: Move)
    requires TimelyMove(w, x)
    ensures R.TimelyRun(PenaltySystem(w), w.limits.penalties, ActionsOf(w, x))
  {
    hide PenaltySystem, Enabled, DebitSucceeds, O.Eligible, Arbitrates, R.TimelyRun;
    var s, max, actions := PenaltySystem(w), w.limits.penalties, ActionsOf(w, x);
    if |actions| == 2 {
      TimelyLostWrite(s, max, x.t);
    } else if |actions| == 1 {
      TimelyOne(s, max, actions[0]);
      assert actions == [actions[0]];
    } else {
      TimelyNone(s, max);
    }
  }

  lemma TimelyNone(s: O.System, maxAttempts: nat)
    ensures R.TimelyRun(s, maxAttempts, [])
  {
  }

  lemma {:induction false} TimelyProjection(w: World, moves: seq<Move>)
    requires Integrity(w.db) && TimelyMoves(w, moves)
    ensures R.TimelyRun(PenaltySystem(w), w.limits.penalties, Projection(w, moves))
    decreases |moves|
  {
    hide Step, O.Step, PenaltySystem, Integrity, ActionsOf, TimelyMove;
    if |moves| > 0 {
      var shorter, x := moves[..|moves| - 1], moves[|moves| - 1];
      TimelyProjection(w, shorter);
      EveryRunProjectsPenalties(w, shorter);
      TimelyActions(Run(w, shorter), x);
      R.TimelyConcat(PenaltySystem(w), w.limits.penalties, Projection(w, shorter), ActionsOf(Run(w, shorter), x));
    }
  }

  /** On every timely run: a penalty's attempts stay within the threshold and reach it exactly when
      it is ABANDONED, with one alert, and no two live workers hold the same penalty. */
  lemma PenaltyLifecycle(limits: Limits, moves: seq<Move>)
    requires Integrity(Init(limits).db) && limits.penalties > 0 && TimelyMoves(Init(limits), moves)
    ensures R.Lifecycle(PenaltySystem(Run(Init(limits), moves)), limits.penalties)
  {
    hide Step, O.Step, PenaltySystem, Integrity, R.Lifecycle;
    NothingYet(limits);
    EveryRunProjectsPenalties(Init(limits), moves);
    TimelyProjection(Init(limits), moves);
    R.LifecycleOnEveryTimelyRun(limits.penalties, Projection(Init(limits), moves));
  }

  lemma NeverRequeues(w: World, x: Move)
    ensures forall i :: 0 <= i < |ActionsOf(w, x)| ==> !ActionsOf(w, x)[i].Requeue?
  {
  }

  lemma {:induction false} NoRequeue(w: World, moves: seq<Move>)
    requires Integrity(w.db)
    ensures forall i :: 0 <= i < |Projection(w, moves)| ==> !Projection(w, moves)[i].Requeue?
    decreases |moves|
  {
    hide Step, Integrity, ActionsOf;
    if |moves| > 0 {
      NoRequeue(w, moves[..|moves| - 1]);
      NeverRequeues(Run(w, moves[..|moves| - 1]), moves[|moves| - 1]);
    }
  }

  /** The first failure verdict of a penalty starts its clock. */
  lemma FirstFailure(w: World, t: Id, abandon: bool)
    requires Integrity(w.db) && w.limits.penalties > 0 && R.Lifecycle(PenaltySystem(w), w.limits.penalties)
    requires Enabled(w, FailPenalty(t, abandon)) && TimelyMove(w, FailPenalty(t, abandon))
    requires w.tasks[t].claim.attempts == 0
    ensures var s, k := PenaltySystem(Step(w, FailPenalty(t, abandon))), w.tasks[t].claim.key;
            R.Lifecycle(s, w.limits.penalties) && k in s.rows && R.BackedOff(s.rows[k], w.now)
  {
    var s, max := PenaltySystem(w), w.limits.penalties;
    assert R.ClaimCurrent(s, t);
    FailIsVerdict(w, t, abandon);
    hide PenaltySystem, Step, Enabled;
    var threw := O.Step(s, max, O.VerdictWriteFails(t));
    R.StepKeepsLifecycle(s, max, O.VerdictWriteFails(t));
    R.StepKeepsLifecycle(threw, max, O.Verdict(t));
    R.FirstFailureStartsBackoff(threw, max, t);
  }

  /** Penalties are never requeued, so on every timely run a penalty is ABANDONED no earlier than
      2^M - 2 minutes after the verdict on its first failure. */
  lemma PenaltyAbandonedNoEarlier(w: World, t: Id, abandon: bool, moves: seq<Move>)
    requires Integrity(w.db) && w.limits.penalties > 0 && R.Lifecycle(PenaltySystem(w), w.limits.penalties)
    requires Enabled(w, FailPenalty(t, abandon)) && TimelyMove(w, FailPenalty(t, abandon))
    requires w.tasks[t].claim.attempts == 0
    requires Integrity(Step(w, FailPenalty(t, abandon)).db) && TimelyMoves(Step(w, FailPenalty(t, abandon)), moves)
    ensures var k, end := w.tasks[t].claim.key, Run(Step(w, FailPenalty(t, abandon)), moves);
            && k in end.db.penalties
            && (end.db.penalties[k].status == Abandoned ==>
                  w.now + O.MINUTE * (O.Pow2(w.limits.penalties) - 2) <= end.now)
  {
    var x, max, k := FailPenalty(t, abandon), w.limits.penalties, w.tasks[t].claim.key;
    var after := Step(w, x);
    FirstFailure(w, t, abandon);
    LimitsStay(w, x);
    hide Step, O.Step, Enabled, Integrity, R.Lifecycle, R.BackedOff;
    EveryRunProjectsPenalties(after, moves);
    TimelyProjection(after, moves);
    NoRequeue(after, moves);
    R.AbandonedNoEarlier(PenaltySystem(after), max, Projection(after, moves), k, w.now);
  }
}

/** A process that works on the database and on Stripe step by step, while every other process does
    the same: the harness that the imperative workers and routes run on. */
module Machine {
  import opened Tables
  import opened World
  import opened WorldSafety
  import opened Causes
  import S = Steps
  import O = Outbox

  /** What everyone else does at the n-th await of this process. */
  type Schedule = nat -> seq<Move>

  /** Which task a move belongs to, if it belongs to one. */
  function TaskOf(x: Move): Option<Id> {
    match x
    case BeginFunding(t, _) => Some(t)
    case Authorise(t, _) => Some(t)
    case InsertFunded(t) => Some(t)
    case CompensateFunding(t) => Some(t)
    case BeginCapture(t, _) => Some(t)
    case CallCapture(t, _) => Some(t)
    case BeginRefund(t, _) => Some(t)
    case CommitRefund(t) => Some(t)
    case BeginPenalty(t, _) => Some(t)
    case ChargePenalty(t, _, _, _) => Some(t)
    case CommitPenalty(t) => Some(t)
    case FailPenalty(t, _) => Some(t)
    case CallCancel(t, _, _) => Some(t)
    case BeginRollback(t, _) => Some(t)
    case CommitRollback(t) => Some(t)
    case CancelForCustoms(t, _, _, _) => Some(t)
    case CommitCustoms(t) => Some(t)
    case EndTask(t) => Some(t)
    case _ => None
  }

  ghost predicate Others(moves: seq<Move>, t: Id) {
    forall i :: 0 <= i < |moves| ==> TaskOf(moves[i]) != Some(t)
  }

  /** Rows are never removed, and an intent keeps its mission and its final status. */
  ghost predicate Grows(a: World, b: World) {
    DbGrows(a.db, b.db) && IntentsAdvance(a.intents, b.intents) && b.limits == a.limits
  }

  lemma OtherKeepsTask(w: World, x: Move, t: Id)
    requires Integrity(w.db) && TaskOf(x) != Some(t)
    ensures var w' := Step(w, x);
            (t in w'.tasks <==> t in w.tasks) && (t in w.tasks ==> w'.tasks[t] == w.tasks[t])
  {
    if Enabled(w, x) {
      OutsideKeepsTask(w, x, t);
      hide S.Step, Enabled, DbPart, OutsidePart, TaskOf, Integrity;
    }
  }

  lemma OutsideKeepsTask(w: World, x: Move, t: Id)
    requires Enabled(w, x) && TaskOf(x) != Some(t)
    ensures var w' := OutsidePart(w, x);
            (t in w'.tasks <==> t in w.tasks) && (t in w.tasks ==> w'.tasks[t] == w.tasks[t])
  {
    hide DbPart, CancelIntent, IntentOf, SawEscrow, O.Step, S.RollbackFundingTx;
  }

  lemma CronQueuesGrow(db: Db, now: Instant, c: S.CronAction)
    ensures db.penalties.Keys <= S.CronStep(db, now, c).penalties.Keys
            && db.refunds.Keys <= S.CronStep(db, now, c).refunds.Keys
  {
    hide S.CancelHeld;
  }

  lemma QueueQueuesGrow(db: Db, now: Instant, q: S.QueueAction)
    ensures db.penalties.Keys <= S.QueueStep(db, now, q).penalties.Keys
            && db.refunds.Keys <= S.QueueStep(db, now, q).refunds.Keys
  {
    hide S.CreditCompensationTx, S.FailCompensationTx;
    if q.CreditCompensation? || q.FailCompensation? { CompensationsKeepQueues(db, now, q); }
  }

  lemma CompensationsKeepQueues(db: Db, now: Instant, q: S.QueueAction)
    requires q.CreditCompensation? || q.FailCompensation?
    ensures S.QueueStep(db, now, q).penalties == db.penalties && S.QueueStep(db, now, q).refunds == db.refunds
  {
  }

  lemma QueuesGrow(db: Db, now: Instant, a: S.Action)
    requires Integrity(db)
    ensures db.penalties.Keys <= S.Step(db, now, a).penalties.Keys && db.refunds.Keys <= S.Step(db, now, a).refunds.Keys
  {
    hide Integrity, S.CronStep, S.QueueStep;
    match a
    case Cron(c) => CronQueuesGrow(db, now, c);
    case Queue(q) => QueueQueuesGrow(db, now, q);
    case _ =>
      StepKeepsQueues(db, now, a);
      hide S.Step;
  }

  ghost predicate DbGrows(a: Db, b: Db) {
    && a.missions.Keys <= b.missions.Keys && a.escrows.Keys <= b.escrows.Keys
    && (forall m :: m in a.escrows && m in b.escrows ==>
          b.escrows[m].stripePaymentIntentId == a.escrows[m].stripePaymentIntentId
          && (a.escrows[m].status != Held ==> b.escrows[m].status != Held))
    && a.penalties.Keys <= b.penalties.Keys && a.refunds.Keys <= b.refunds.Keys
  }

  lemma DbStepGrows(db: Db, now: Instant, a: S.Action)
    requires Integrity(db)
    ensures DbGrows(db, S.Step(db, now, a))
  {
    S.StepEvolves(db, now, a);
    QueuesGrow(db, now, a);
    hide S.Step, Integrity;
    var b := S.Step(db, now, a);
    forall m | m in db.escrows ensures m in b.escrows && S.EscrowEvolves(db.escrows[m], b.escrows[m]) {
    }
  }

  lemma StepGrows(w: World, x: Move)
    requires Integrity(w.db)
    ensures Grows(w, Step(w, x))
  {
    hide Enabled, DbPart, OutsidePart, S.Step, IntentsAdvance, Integrity, DbGrows;
    DbGrowsReflexive(w.db);
    SameIntents(w.intents);
    if Enabled(w, x) {
      OutsideAdvances(w, x);
      if DbPart(w, x).Some? { DbStepGrows(w.db, w.now, DbPart(w, x).value); }
    }
  }

  lemma DbGrowsReflexive(db: Db)
    ensures DbGrows(db, db)
  {
  }

  lemma GrowsTransitive(a: World, b: World, c: World)
    requires Grows(a, b) && Grows(b, c)
    ensures Grows(a, c)
  {
  }

  lemma GrowsReflexive(a: World)
    ensures Grows(a, a)
  {
  }

  lemma {:induction false} RunConcat(w: World, a: seq<Move>, b: seq<Move>)
    requires Integrity(w.db)
    ensures Run(w, a + b) == Run(Run(w, a), b)
    decreases |b|
  {
    hide Step;
    if |b| == 0 {
      assert a + b == a;
    } else {
      assert (a + b)[..|a + b| - 1] == a + b[..|b| - 1];
      RunConcat(w, a, b[..|b| - 1]);
    }
  }

  lemma {:induction false} OthersKeep(w: World, moves: seq<Move>, t: Id)
    requires Integrity(w.db) && Others(moves, t)
    ensures var w' := Run(w, moves);
            && (t in w'.tasks <==> t in w.tasks) && (t in w.tasks ==> w'.tasks[t] == w.tasks[t])
            && Grows(w, w')
    decreases |moves|
  {
    hide Step, Grows, TaskOf;
    if |moves| == 0 {
      GrowsReflexive(w);
    } else {
      var shorter, x := moves[..|moves| - 1], moves[|moves| - 1];
      OthersKeep(w, shorter, t);
      OtherKeepsTask(Run(w, shorter), x, t);
      StepGrows(Run(w, shorter), x);
      GrowsTransitive(w, Run(w, shorter), Run(w, moves));
    }
  }

  lemma {:induction false} InvariantThrough(w: World, moves: seq<Move>)
    requires Invariant(w) && Integrity(w.db)
    ensures Invariant(Run(w, moves))
    decreases |moves|
  {
    hide Invariant, Step;
    if |moves| > 0 {
      InvariantThrough(w, moves[..|moves| - 1]);
      StepKeepsInvariant(Run(w, moves[..|moves| - 1]), moves[|moves| - 1]);
    }
  }

  /** The moves of n rounds when nobody interferes, the i-th planned from the state it finds. */
  function Rounds(w: World, n: nat, plan: (World, nat) -> seq<Move>): seq<Move>
    requires Integrity(w.db)
  {
    if n == 0 then []
    else
      var before := Rounds(w, n - 1, plan);
      before + plan(Run(w, before), n - 1)
  }

  lemma RoundAfter(start: World, own0: seq<Move>, w0: World, n: nat, plan: (World, nat) -> seq<Move>)
    requires Integrity(start.db) && Integrity(w0.db) && w0 == Run(start, own0)
    ensures var here := Run(w0, Rounds(w0, n, plan));
            && Run(start, own0 + Rounds(w0, n, plan)) == here
            && own0 + Rounds(w0, n + 1, plan) == own0 + Rounds(w0, n, plan) + plan(here, n)
  {
    hide Run, Rounds, Integrity;
    RunConcat(start, own0, Rounds(w0, n, plan));
    NextRound(w0, n, plan);
    Associative(own0, Rounds(w0, n, plan), plan(Run(w0, Rounds(w0, n, plan)), n));
  }

  lemma {:induction false} RoundsAgree(w: World, n: nat, a: (World, nat) -> seq<Move>, b: (World, nat) -> seq<Move>)
    requires Integrity(w.db) && forall v, i: nat :: i < n ==> a(v, i) == b(v, i)
    ensures Rounds(w, n, a) == Rounds(w, n, b)
  {
    hide Run, Integrity;
    if n > 0 { RoundsAgree(w, n - 1, a, b); }
  }

  lemma NextRound(w0: World, n: nat, plan: (World, nat) -> seq<Move>)
    requires Integrity(w0.db)
    ensures Rounds(w0, n + 1, plan) == Rounds(w0, n, plan) + plan(Run(w0, Rounds(w0, n, plan)), n)
  {
    hide Run, Integrity;
  }

  lemma Associative(a: seq<Move>, b: seq<Move>, c: seq<Move>)
    ensures a + (b + c) == a + b + c
  {
  }

  lemma NothingRuns(w: World)
    requires Integrity(w.db)
    ensures Run(w, []) == w
  {
  }

  lemma CancelIs(w: World, t: Id, tookEffect: bool, reported: bool)
    requires Integrity(w.db) && Enabled(w, Move.CallCancel(t, tookEffect, reported))
    ensures var pi := w.tasks[t].pi;
            var intents := if pi in w.intents && !w.intents[pi].status.Captured? && tookEffect
                           then w.intents[pi := w.intents[pi].(status := Canceled)] else w.intents;
            Step(w, Move.CallCancel(t, tookEffect, reported))
            == w.(intents := intents,
                  tasks := if reported && pi in intents && intents[pi].status.Canceled? && !w.tasks[t].RollingBack?
                           then w.tasks[t := w.tasks[t].(cancelled := true)] else w.tasks)
  {
    hide S.Step;
  }

  /** Whether a cancel call on an intent, as it is at the call, is answered by success. */
  predicate CancelWorks(w: World, pi: Id, tookEffect: bool, reported: bool) {
    reported && pi in w.intents
    && (w.intents[pi].status.Canceled? || (tookEffect && !w.intents[pi].status.Captured?))
  }

  lemma EndTaskIs(w: World, t: Id)
    requires Integrity(w.db) && t in w.tasks
    ensures Step(w, Move.EndTask(t)) == w.(tasks := w.tasks - {t})
  {
    hide S.Step, CancelIntent, O.Step, S.RollbackFundingTx;
  }

  /** `start` and `trace` are the history of everybody since this process began, `own` its own moves
      in it. */
  class Process {
    const id: Id
    const schedule: Schedule
    var w: World
    var awaits: nat
    ghost var start: World
    ghost var trace: seq<Move>
    ghost var own: seq<Move>

    constructor (id: Id, schedule: Schedule, w: World)
      requires Integrity(w.db) && forall n :: Others(schedule(n), id)
      ensures this.id == id && this.schedule == schedule && this.w == w && start == w && Follows()
    {
      this.id, this.schedule, this.w := id, schedule, w;
      awaits, start, trace, own := 0, w, [], [];
    }

    /** The history so far is a run of the combined machine, of this process alone if nobody else
        does anything. */
    ghost predicate Follows()
      reads this`w, this`start, this`trace, this`own
    {
      && Integrity(start.db) && Integrity(w.db) && w == Run(start, trace)
      && (Quiet() ==> trace == own)
      && forall n :: Others(schedule(n), id)
    }

    /** The invariant of the combined machine survives whatever this process and the others did. */
    lemma InvariantHolds()
      requires Follows()
      ensures Invariant(start) ==> Invariant(w)
    {
      hide Invariant;
      if Invariant(start) { InvariantThrough(start, trace); }
    }

    predicate Idle()
      reads this`w
    {
      id !in w.tasks
    }

    lemma Sound()
      requires Follows()
      ensures Integrity(start.db) && Integrity(w.db)
    {
    }

    /** Since a moment, `n` rounds as planned, if nobody interferes. */
    ghost predicate OnPlan(w0: World, own0: seq<Move>, n: nat, plan: (World, nat) -> seq<Move>)
      reads this`own, this`start
    {
      && Integrity(w0.db) && Integrity(start.db)
      && (Quiet() ==> w0 == Run(start, own0) && own == own0 + Rounds(w0, n, plan))
    }

    lemma StartPlan(plan: (World, nat) -> seq<Move>)
      requires Follows()
      ensures OnPlan(w, own, 0, plan)
    {
    }

    /** Where this process then is, and what the next round adds. */
    lemma AtRound(w0: World, own0: seq<Move>, n: nat, plan: (World, nat) -> seq<Move>)
      requires Follows() && OnPlan(w0, own0, n, plan)
      ensures Quiet() ==>
                && w == Run(w0, Rounds(w0, n, plan)) && own == own0 + Rounds(w0, n, plan)
                && own0 + Rounds(w0, n + 1, plan) == own + plan(w, n)
    {
      hide Run, Rounds, Integrity;
      if Quiet() { RoundAfter(start, own0, w0, n, plan); }
    }

    /** A round done as another plan has it, that agrees on the rounds before. */
    lemma RoundDone(w0: World, own0: seq<Move>, n: nat, a: (World, nat) -> seq<Move>, b: (World, nat) -> seq<Move>,
                    here: World)
      requires Integrity(w0.db) && Integrity(start.db) && Quiet() && w0 == Run(start, own0)
      requires Rounds(w0, n, a) == Rounds(w0, n, b) && here == Run(w0, Rounds(w0, n, a))
      requires own == own0 + Rounds(w0, n, a) + b(here, n)
      ensures OnPlan(w0, own0, n + 1, b)
    {
      hide Run;
      NextRound(w0, n, b);
      Associative(own0, Rounds(w0, n, a), b(here, n));
    }

    /** The state that the planned rounds lead to. */
    lemma PlanRan(w0: World, own0: seq<Move>, n: nat, plan: (World, nat) -> seq<Move>)
      requires Follows() && OnPlan(w0, own0, n, plan)
      ensures Integrity(w0.db) && (Quiet() ==> w == Run(w0, Rounds(w0, n, plan)))
    {
      hide Run, Rounds;
      if Quiet() { RoundAfter(start, own0, w0, n, plan); }
    }

    /** Appends one move to the history; the caller then performs it statement by statement. */
    ghost method Record(x: Move)
      requires Follows()
      modifies this`trace, this`own
      ensures own == old(own) + [x] && (Quiet() ==> trace == own)
      ensures Integrity(start.db) && Integrity(w.db) && Run(start, trace) == Step(w, x)
      ensures Integrity(Step(w, x).db)
    {
      hide Step;
      assert (trace + [x])[..|trace|] == trace;
      trace, own := trace + [x], own + [x];
      StepKeepsIntegrity(w, x);
    }

    /** Nobody else does anything while this process awaits. */
    ghost predicate Quiet() {
      forall n :: schedule(n) == []
    }

    /** One move, whose result the caller has computed. */
    method Become(x: Move, next: World)
      requires Follows() && next == Step(w, x)
      modifies this`w, this`trace, this`own
      ensures Follows() && w == next && own == old(own) + [x] && Integrity(next.db) && Grows(old(w), next)
    {
      hide Run, Step, Grows, Quiet;
      StepGrows(w, x);
      Record(x);
      w := next;
    }

    /** Everyone else's moves. */
    method Await()
      requires Follows()
      modifies this`w, this`awaits, this`trace
      ensures Follows() && Grows(old(w), w)
      ensures id in w.tasks <==> id in old(w).tasks
      ensures id in w.tasks ==> w.tasks[id] == old(w).tasks[id]
      ensures Quiet() ==> w == old(w)
    {
      var meanwhile := schedule(awaits);
      NothingRuns(w);
      OthersKeep(w, meanwhile, id);
      RunConcat(start, trace, meanwhile);
      hide Run, Grows;
      w := Run(w, meanwhile);
      trace := trace + meanwhile;
      awaits := awaits + 1;
    }

    /** A task is over, or the process that held it crashed. */
    method EndTask()
      requires Follows() && !Idle()
      modifies this`w, this`trace, this`own
      ensures own == old(own) + [Move.EndTask(id)]
      ensures Follows() && Idle() && w == old(w).(tasks := old(w).tasks - {id}) && Grows(old(w), w)
    {
      StepGrows(w, Move.EndTask(id));
      EndTaskIs(w, id);
      hide Run, Step, Grows, Quiet;
      Record(Move.EndTask(id));
      w := w.(tasks := w.tasks - {id});
    }

    /** A queue verdict that concerns no task. */
    method CommitQueue(q: S.QueueAction)
      requires Follows() && !q.UpdatePenalty?
      modifies this`w, this`trace, this`own
      ensures own == old(own) + [Move.CommitQueue(q)]
      ensures Follows() && w == old(w).(db := S.QueueStep(old(w).db, old(w).now, q))
    {
      hide Run, S.QueueStep, Quiet;
      Record(Move.CommitQueue(q));
      w := w.(db := S.QueueStep(w.db, w.now, q));
    }

    /** stripe.paymentIntents.cancel: a call that takes effect cancels an intent that is not captured;
        success is reported exactly for an intent that is then cancelled. */
    method CallCancel(tookEffect: bool, reported: bool) returns (ok: bool)
      requires Follows() && Enabled(w, Move.CallCancel(id, tookEffect, reported))
      modifies this`w, this`trace, this`own
      ensures own == old(own) + [Move.CallCancel(id, tookEffect, reported)]
      ensures Follows() && w == Step(old(w), Move.CallCancel(id, tookEffect, reported)) && w.db == old(w).db
      ensures Grows(old(w), w)
      ensures id in w.tasks && old(w).tasks[id].pi == w.tasks[id].pi
      ensures ok ==> w.tasks[id].pi in w.intents && w.intents[w.tasks[id].pi].status.Canceled?
      ensures var pi, before := old(w).tasks[id].pi, old(w).intents;
              && ok == CancelWorks(old(w), pi, tookEffect, reported)
              && w.intents == (if tookEffect && pi in before && !before[pi].status.Captured?
                               then before[pi := before[pi].(status := Canceled)] else before)
      ensures ok && !old(w).tasks[id].RollingBack? ==> w.tasks[id] == old(w).tasks[id].(cancelled := true)
      ensures old(w).tasks[id].RollingBack? || !ok ==> w.tasks == old(w).tasks
    {
      CancelIs(w, id, tookEffect, reported);
      hide Run, Step, Grows, Follows, Quiet;
      var pi, intents, tasks := w.tasks[id].pi, w.intents, w.tasks;
      if pi in intents && !intents[pi].status.Captured? && tookEffect {
        intents := intents[pi := intents[pi].(status := Canceled)];
      }
      ok := reported && pi in intents && intents[pi].status.Canceled?;
      if ok && !tasks[id].RollingBack? { tasks := tasks[id := tasks[id].(cancelled := true)]; }
      Become(Move.CallCancel(id, tookEffect, reported), w.(intents := intents, tasks := tasks));
    }
  }
}

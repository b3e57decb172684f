/** The retry life cycle of an outbox row when every claimant writes its verdict within the stale
    window or never writes at all. */
module RetryLifecycle {
  import opened Tables
  import opened Outbox

  /** A claimant past the stale window stays silent: it has crashed for good. */
  predicate Timely(s: System, a: Action) {
    match a
    case CallStripe(w, _, _) => Live(s, w)
    case VerdictWriteFails(w) => Live(s, w)
    case Verdict(w) => Live(s, w)
    case _ => true
  }

  predicate Live(s: System, w: Id) {
    w in s.claims && s.now <= s.claims[w].claimedAt + STALE_SUBMITTED
  }

  ghost predicate TimelyRun(s: System, maxAttempts: nat, actions: seq<Action>)
    decreases |actions|
  {
    |actions| == 0
    || (&& TimelyRun(s, maxAttempts, actions[..|actions| - 1])
        && Timely(Run(s, maxAttempts, actions[..|actions| - 1]), actions[|actions| - 1]))
  }

  lemma {:induction false} TimelyConcat(s: System, maxAttempts: nat, a: seq<Action>, b: seq<Action>)
    requires TimelyRun(s, maxAttempts, a) && TimelyRun(Run(s, maxAttempts, a), maxAttempts, b)
    ensures TimelyRun(s, maxAttempts, a + b)
    decreases |b|
  {
    hide Step, Timely;
    if |b| == 0 {
      assert a + b == a;
    } else {
      assert (a + b)[..|a + b| - 1] == a + b[..|b| - 1];
      TimelyConcat(s, maxAttempts, a, b[..|b| - 1]);
      RunConcat(s, maxAttempts, a, b[..|b| - 1]);
    }
  }

  predicate RowBounded(row: OutboxRow, now: Instant, maxAttempts: nat) {
    && row.attempts <= maxAttempts
    && (row.status == Abandoned <==> row.attempts == maxAttempts)
    && row.updatedAt <= now
  }

  ghost predicate ClaimCurrent(s: System, w: Id)
    requires w in s.claims
  {
    var c := s.claims[w];
    c.claimedAt <= s.now
    && (Live(s, w) ==>
          && c.key in s.rows
          && s.rows[c.key].status == Submitted
          && s.rows[c.key].updatedAt == c.claimedAt
          && s.rows[c.key].attempts == c.attempts)
  }

  ghost predicate OneLiveClaimPerRow(s: System) {
    forall v, w :: Live(s, v) && Live(s, w) && v != w ==> s.claims[v].key != s.claims[w].key
  }

  ghost predicate AlertedOnce(s: System) {
    && (forall i, j :: 0 <= i < j < |s.abandonAlerts| ==> s.abandonAlerts[i] != s.abandonAlerts[j])
    && (forall k :: k in s.abandonAlerts <==> k in s.rows && s.rows[k].status == Abandoned)
  }

  ghost predicate Lifecycle(s: System, maxAttempts: nat) {
    && (forall k :: k in s.rows ==> RowBounded(s.rows[k], s.now, maxAttempts))
    && (forall w :: w in s.claims ==> ClaimCurrent(s, w))
    && OneLiveClaimPerRow(s)
    && AlertedOnce(s)
  }

  lemma VerdictKeepsRows(s: System, maxAttempts: nat, w: Id)
    requires Lifecycle(s, maxAttempts) && maxAttempts > 0 && Live(s, w)
    ensures var s' := Step(s, maxAttempts, Verdict(w));
            AlertedOnce(s') && forall k :: k in s'.rows ==> RowBounded(s'.rows[k], s'.now, maxAttempts)
  {
    hide OneLiveClaimPerRow;
    assert ClaimCurrent(s, w);
  }

  lemma VerdictKeepsClaims(s: System, maxAttempts: nat, w: Id)
    requires Lifecycle(s, maxAttempts) && maxAttempts > 0 && Live(s, w)
    ensures var s' := Step(s, maxAttempts, Verdict(w));
            OneLiveClaimPerRow(s') && forall v :: v in s'.claims ==> ClaimCurrent(s', v)
  {
    hide AlertedOnce, RowBounded, FailureVerdict;
    assert ClaimCurrent(s, w);
    var s' := Step(s, maxAttempts, Verdict(w));
    forall v | v in s'.claims ensures ClaimCurrent(s', v) {
      assert ClaimCurrent(s, v);
    }
  }

  /** Steps that only move a worker between its claim and its verdict, or let time pass. */
  lemma QuietStepKeepsLifecycle(s: System, maxAttempts: nat, a: Action)
    requires Lifecycle(s, maxAttempts)
    requires a.CallStripe? || a.VerdictWriteFails? || a.Tick? || a.Crash?
    ensures Lifecycle(Step(s, maxAttempts, a), maxAttempts)
  {
    hide StripeCreate, StripeId;
    var s' := Step(s, maxAttempts, a);
    assert s'.rows == s.rows && s'.abandonAlerts == s.abandonAlerts && s.now <= s'.now;
    forall v | v in s'.claims ensures ClaimCurrent(s', v) && (Live(s', v) ==> Live(s, v)) {
      assert ClaimCurrent(s, v);
    }
  }

  lemma RequeueKeepsLifecycle(s: System, maxAttempts: nat, a: Action)
    requires Lifecycle(s, maxAttempts) && maxAttempts > 0
    requires a.Create? || a.Requeue?
    ensures Lifecycle(Step(s, maxAttempts, a), maxAttempts)
  {
    var s' := Step(s, maxAttempts, a);
    forall v | v in s'.claims ensures ClaimCurrent(s', v) {
      assert ClaimCurrent(s, v);
    }
  }

  lemma TakeClaimKeepsLifecycle(s: System, maxAttempts: nat, w: Id, key: Id)
    requires Lifecycle(s, maxAttempts) && maxAttempts > 0
    ensures Lifecycle(Step(s, maxAttempts, TakeClaim(w, key)), maxAttempts)
  {
    var s' := Step(s, maxAttempts, TakeClaim(w, key));
    forall v | v in s'.claims ensures ClaimCurrent(s', v) {
      if v in s.claims { assert ClaimCurrent(s, v); }
    }
  }

  lemma StepKeepsLifecycle(s: System, maxAttempts: nat, a: Action)
    requires Lifecycle(s, maxAttempts) && maxAttempts > 0 && Timely(s, a)
    ensures Lifecycle(Step(s, maxAttempts, a), maxAttempts)
  {
    hide Lifecycle, Step;
    if a.Verdict? {
      VerdictKeepsRows(s, maxAttempts, a.worker);
      VerdictKeepsClaims(s, maxAttempts, a.worker);
      assert Lifecycle(Step(s, maxAttempts, a), maxAttempts) by { MakeLifecycle(Step(s, maxAttempts, a), maxAttempts); }
    } else if a.TakeClaim? {
      TakeClaimKeepsLifecycle(s, maxAttempts, a.worker, a.key);
    } else if a.Create? || a.Requeue? {
      RequeueKeepsLifecycle(s, maxAttempts, a);
    } else {
      QuietStepKeepsLifecycle(s, maxAttempts, a);
    }
  }

  lemma MakeLifecycle(s: System, maxAttempts: nat)
    requires OneLiveClaimPerRow(s) && AlertedOnce(s)
    requires forall k :: k in s.rows ==> RowBounded(s.rows[k], s.now, maxAttempts)
    requires forall w :: w in s.claims ==> ClaimCurrent(s, w)
    ensures Lifecycle(s, maxAttempts)
  {
  }

  /** On every timely run, with M the abandonment threshold: attempts stay within M and reach it
      exactly on ABANDONED rows, each of which has been alerted once and only once; and no two
      claimants that may still write hold the same row. */
  lemma {:induction false} LifecycleOnEveryTimelyRun(maxAttempts: nat, actions: seq<Action>)
    requires maxAttempts > 0 && TimelyRun(INIT, maxAttempts, actions)
    ensures Lifecycle(Run(INIT, maxAttempts, actions), maxAttempts)
    decreases |actions|
  {
    if |actions| > 0 {
      LifecycleOnEveryTimelyRun(maxAttempts, actions[..|actions| - 1]);
      StepKeepsLifecycle(Run(INIT, maxAttempts, actions[..|actions| - 1]), maxAttempts, actions[|actions| - 1]);
    }
  }

  predicate Final(status: TransferStatus) {
    status == Settled || status == Abandoned
  }

  /** SETTLED and ABANDONED are never left on a timely run; the row does not change at all. */
  lemma {:induction false} FinalRowsNeverChange(s: System, maxAttempts: nat, actions: seq<Action>, k: Id)
    requires Lifecycle(s, maxAttempts) && maxAttempts > 0 && TimelyRun(s, maxAttempts, actions)
    requires k in s.rows && Final(s.rows[k].status)
    ensures var end := Run(s, maxAttempts, actions);
            Lifecycle(end, maxAttempts) && k in end.rows && end.rows[k] == s.rows[k]
    decreases |actions|
  {
    if |actions| > 0 {
      var last := actions[|actions| - 1];
      var before := Run(s, maxAttempts, actions[..|actions| - 1]);
      FinalRowsNeverChange(s, maxAttempts, actions[..|actions| - 1], k);
      StepKeepsLifecycle(before, maxAttempts, last);
      if last.Verdict? {
        assert ClaimCurrent(before, last.worker);
      }
    }
  }

  // ----- Without the timing assumption

  /** In any state at all, the one step that takes a row out of SETTLED is the failure verdict of a
      claimant of that row. */
  lemma LeavesSettledIff(s: System, maxAttempts: nat, a: Action, k: Id)
    requires k in s.rows && s.rows[k].status == Settled
    ensures Step(s, maxAttempts, a).rows[k].status != Settled
            <==> a.Verdict? && a.worker in s.claims && s.claims[a.worker].key == k && s.claims[a.worker].stage == Threw
  {
    hide StripeCreate, StripeId;
    match a
    case CallStripe(_, _, _) =>
    case Verdict(w) =>
    case _ =>
  }

  lemma RunAppend(s: System, maxAttempts: nat, actions: seq<Action>, last: Action)
    ensures Run(s, maxAttempts, actions + [last]) == Step(Run(s, maxAttempts, actions), maxAttempts, last)
  {
    assert (actions + [last])[..|actions|] == actions;
  }

  const LATE: nat := STALE_SUBMITTED + 1

  /** Two claimants of one row: the first is slower than the stale window, the second settles. */
  const STALE_RECLAIM: seq<Action> := [Create(7, 1000, 3)] + [TakeClaim(1, 7)] + [Tick(LATE)] + [TakeClaim(2, 7)]
  const SETTLED_RUN: seq<Action> := STALE_RECLAIM + [CallStripe(2, true, true)] + [Verdict(2)]
  const FAILED_RUN: seq<Action> := SETTLED_RUN + [CallStripe(1, false, false)] + [Verdict(1)]

  lemma AfterStaleReclaim()
    ensures Run(INIT, 5, STALE_RECLAIM)
            == System(LATE, map[7 := OutboxRow(1000, 3, Submitted, 0, 0, LATE, None)],
                      map[1 := Claim(7, 1000, 3, 0, 0, Claimed), 2 := Claim(7, 1000, 3, 0, LATE, Claimed)], [], [])
  {
    var a1 := [Create(7, 1000, 3)];
    RunAppend(INIT, 5, [], a1[0]);
    assert [] + [a1[0]] == a1;
    RunAppend(INIT, 5, a1, TakeClaim(1, 7));
    RunAppend(INIT, 5, a1 + [TakeClaim(1, 7)], Tick(LATE));
    RunAppend(INIT, 5, a1 + [TakeClaim(1, 7)] + [Tick(LATE)], TakeClaim(2, 7));
  }

  lemma AfterSettled()
    ensures Run(INIT, 5, SETTLED_RUN)
            == System(LATE, map[7 := OutboxRow(1000, 3, Settled, 0, 0, LATE, Some(1))],
                      map[1 := Claim(7, 1000, 3, 0, 0, Claimed)], [External(1, 7, 1000, 3)], [])
  {
    AfterStaleReclaim();
    RunAppend(INIT, 5, STALE_RECLAIM, CallStripe(2, true, true));
    RunAppend(INIT, 5, STALE_RECLAIM + [CallStripe(2, true, true)], Verdict(2));
  }

  /** And it can happen: the slow claimant's failure verdict overwrites SETTLED. */
  lemma SlowClaimantLeavesSettled()
    ensures var settled, failed := Run(INIT, 5, SETTLED_RUN), Run(INIT, 5, FAILED_RUN);
            && 7 in settled.rows && settled.rows[7].status == Settled
            && 7 in failed.rows && failed.rows[7].status == Failed
    ensures !TimelyRun(INIT, 5, FAILED_RUN)
  {
    AfterSettled();
    RunAppend(INIT, 5, SETTLED_RUN, CallStripe(1, false, false));
    var slow := SETTLED_RUN + [CallStripe(1, false, false)];
    RunAppend(INIT, 5, slow, Verdict(1));
    assert FAILED_RUN[..|slow|] == slow;
  }

  // ----- The FAILED -> PENDING cycle is bounded

  predicate IsFailure(s: System, a: Action, k: Id) {
    a.Verdict? && a.worker in s.claims && s.claims[a.worker].key == k && k in s.rows
    && s.claims[a.worker].stage == Threw
  }

  predicate IsRequeue(s: System, a: Action, k: Id) {
    a == Requeue(k) && k in s.rows && s.rows[k].status == Failed
  }

  function Failures(s: System, maxAttempts: nat, actions: seq<Action>, k: Id): nat
    decreases |actions|
  {
    if |actions| == 0 then 0
    else Failures(s, maxAttempts, actions[..|actions| - 1], k)
         + if IsFailure(Run(s, maxAttempts, actions[..|actions| - 1]), actions[|actions| - 1], k) then 1 else 0
  }

  function Requeues(s: System, maxAttempts: nat, actions: seq<Action>, k: Id): nat
    decreases |actions|
  {
    if |actions| == 0 then 0
    else Requeues(s, maxAttempts, actions[..|actions| - 1], k)
         + if IsRequeue(Run(s, maxAttempts, actions[..|actions| - 1]), actions[|actions| - 1], k) then 1 else 0
  }

  function FailedNow(s: System, k: Id): nat
    requires k in s.rows
  {
    if s.rows[k].status == Failed || s.rows[k].status == Abandoned then 1 else 0
  }

  /** Each failure verdict spends one attempt and only a failure can be requeued. */
  lemma CycleStep(s: System, maxAttempts: nat, a: Action, k: Id)
    requires Lifecycle(s, maxAttempts) && maxAttempts > 0 && Timely(s, a) && k in s.rows
    ensures var s' := Step(s, maxAttempts, a);
            && k in s'.rows
            && s'.rows[k].attempts == s.rows[k].attempts + (if IsFailure(s, a, k) then 1 else 0)
            && (if IsRequeue(s, a, k) then 1 else 0) + FailedNow(s', k)
               <= (if IsFailure(s, a, k) then 1 else 0) + FailedNow(s, k)
  {
    hide StripeCreate, StripeId, AlertedOnce, OneLiveClaimPerRow;
    match a
    case Verdict(w) => assert ClaimCurrent(s, w);
    case _ =>
  }

  /** M - attempts bounds the cycle: from a new row, on any timely run, at most M failures, M of
      them only if the row ends ABANDONED, and fewer than M requeues. */
  lemma {:induction false} CycleIsBounded(s: System, maxAttempts: nat, actions: seq<Action>, k: Id)
    requires Lifecycle(s, maxAttempts) && maxAttempts > 0 && TimelyRun(s, maxAttempts, actions) && k in s.rows
    ensures var end, failures, requeues := Run(s, maxAttempts, actions),
                      Failures(s, maxAttempts, actions, k), Requeues(s, maxAttempts, actions, k);
            && Lifecycle(end, maxAttempts) && k in end.rows
            && end.rows[k].attempts == s.rows[k].attempts + failures
            && requeues + FailedNow(end, k) <= failures + FailedNow(s, k)
            && failures <= maxAttempts - s.rows[k].attempts
            && (failures == maxAttempts - s.rows[k].attempts <==> end.rows[k].status == Abandoned)
            && (s.rows[k].status == Pending ==> requeues < maxAttempts)
    decreases |actions|
  {
    if |actions| > 0 {
      var last := actions[|actions| - 1];
      var before := Run(s, maxAttempts, actions[..|actions| - 1]);
      CycleIsBounded(s, maxAttempts, actions[..|actions| - 1], k);
      StepKeepsLifecycle(before, maxAttempts, last);
      CycleStep(before, maxAttempts, last, k);
    }
    assert RowBounded(s.rows[k], s.now, maxAttempts);
    var end := Run(s, maxAttempts, actions);
    assert RowBounded(end.rows[k], end.now, maxAttempts);
  }

  // ----- The exponential backoff

  /** The least time after the first failure at which a row with this many failures may have been
      written last. */
  function Elapsed(failures: nat): int
    requires failures >= 1
  {
    MINUTE * (Pow2(failures) - 2) + failures - 1
  }

  predicate BackedOff(row: OutboxRow, firstFailure: Instant) {
    row.attempts >= 1
    && match row.status
       case Pending => false
       case Submitted => row.updatedAt >= firstFailure + Elapsed(row.attempts + 1)
       case Settled => true
       case Failed => row.updatedAt >= firstFailure + Elapsed(row.attempts)
       case Abandoned => row.updatedAt >= firstFailure + Elapsed(row.attempts)
  }

  lemma BackoffStep(s: System, maxAttempts: nat, a: Action, k: Id, firstFailure: Instant)
    requires Lifecycle(s, maxAttempts) && maxAttempts > 0 && Timely(s, a) && a != Requeue(k)
    requires k in s.rows && BackedOff(s.rows[k], firstFailure)
    ensures var s' := Step(s, maxAttempts, a); k in s'.rows && BackedOff(s'.rows[k], firstFailure)
  {
    hide StripeCreate, StripeId, AlertedOnce, OneLiveClaimPerRow;
    assert RowBounded(s.rows[k], s.now, maxAttempts);
    match a
    case Verdict(w) => assert ClaimCurrent(s, w);
    case _ =>
  }

  /** Without requeue, a row is abandoned no earlier than 2^M - 2 minutes after its first failure
      verdict: the sum of the backoff gaps, each exceeded by at least one millisecond. */
  lemma {:induction false} AbandonedNoEarlier(s: System, maxAttempts: nat, actions: seq<Action>, k: Id,
                                              firstFailure: Instant)
    requires Lifecycle(s, maxAttempts) && maxAttempts > 0 && TimelyRun(s, maxAttempts, actions)
    requires forall i :: 0 <= i < |actions| ==> actions[i] != Requeue(k)
    requires k in s.rows && BackedOff(s.rows[k], firstFailure)
    ensures var end := Run(s, maxAttempts, actions);
            && Lifecycle(end, maxAttempts) && k in end.rows && BackedOff(end.rows[k], firstFailure)
            && (end.rows[k].status == Abandoned ==>
                  firstFailure + MINUTE * (Pow2(maxAttempts) - 2) + maxAttempts - 1 <= end.rows[k].updatedAt <= end.now)
    decreases |actions|
  {
    if |actions| > 0 {
      var last := actions[|actions| - 1];
      var before := Run(s, maxAttempts, actions[..|actions| - 1]);
      AbandonedNoEarlier(s, maxAttempts, actions[..|actions| - 1], k, firstFailure);
      StepKeepsLifecycle(before, maxAttempts, last);
      BackoffStep(before, maxAttempts, last, k, firstFailure);
    }
    var end := Run(s, maxAttempts, actions);
    assert RowBounded(end.rows[k], end.now, maxAttempts);
  }

  /** The first failure verdict of a row starts its clock. */
  lemma FirstFailureStartsBackoff(s: System, maxAttempts: nat, w: Id)
    requires Lifecycle(s, maxAttempts) && maxAttempts > 0 && Live(s, w)
    requires s.claims[w].stage == Threw && s.claims[w].attempts == 0
    ensures var k := s.claims[w].key;
            var s' := Step(s, maxAttempts, Verdict(w));
            k in s'.rows && BackedOff(s'.rows[k], s.now)
  {
    assert ClaimCurrent(s, w);
  }
}

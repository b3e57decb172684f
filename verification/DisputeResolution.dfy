/** The worker that refunds expired disputes: enqueue, claim a batch with its attempts counted first,
    cancel the hold, then the verdict. */
module DisputeResolution {
  import opened Tables
  import opened World
  import opened WorldSafety
  import opened Machine
  import S = Steps
  import O = Outbox

  /** How the cancel call and the verdict write for one event turn out. */
  datatype Reply = Reply(cancelTookEffect: bool, cancelReported: bool, verdictWritten: bool)

  datatype Claimed = Claimed(missionId: Id, attempts: nat)

  datatype Counters = Counters(enqueued: nat, refunded: nat, failed: nat)

  /** What a process did, by its moves: only a failed refund ends its task without a verdict on the
      escrow. */
  function CountersOf(moves: seq<Move>): Counters {
    if |moves| == 0 then Counters(0, 0, 0)
    else Counted(CountersOf(moves[..|moves| - 1]), moves[|moves| - 1])
  }

  function Counted(c: Counters, x: Move): Counters {
    if x.CommitQueue? && x.q.EnqueueRefund? then c.(enqueued := c.enqueued + 1)
    else if x.CommitRefund? then c.(refunded := c.refunded + 1)
    else if x.EndTask? then c.(failed := c.failed + 1)
    else c
  }

  function Add(c: Counters, refunded: bool): Counters {
    if refunded then c.(refunded := c.refunded + 1) else c.(failed := c.failed + 1)
  }

  lemma CountedAppend(moves: seq<Move>, x: Move)
    ensures CountersOf(moves + [x]) == Counted(CountersOf(moves), x)
  {
    assert (moves + [x])[..|moves|] == moves;
  }

  /** Rows that other transactions hold locked, and that SKIP LOCKED passes over. */
  datatype Locks = Locks(missions: set<Id>, events: set<Id>)

  /** A mission in dispute past its deadline, without a refund event. */
  predicate Expired(db: Db, deadlines: map<Id, Instant>, now: Instant, m: Id) {
    && m in db.missions && db.missions[m].status == InDispute
    && m in deadlines && deadlines[m] < now && m !in db.refunds
  }

  predicate Claimable(refunds: map<Id, RefundIntent>, maxAttempts: nat, m: Id) {
    m in refunds && refunds[m].status == JobPending && refunds[m].attempts < maxAttempts
  }

  predicate Distinct(ids: seq<Id>) {
    forall i, j :: 0 <= i < j < |ids| ==> ids[i] != ids[j]
  }

  predicate Ascending(ids: seq<Id>, at: map<Id, Instant>)
    requires forall i :: 0 <= i < |ids| ==> ids[i] in at
  {
    forall i, j :: 0 <= i < j < |ids| ==> at[ids[i]] <= at[ids[j]]
  }

  predicate NotLater(at: map<Id, Instant>, a: Id, b: Id) {
    a in at && b in at && at[a] <= at[b]
  }

  predicate Older(refunds: map<Id, RefundIntent>, a: Id, b: Id) {
    a in refunds && b in refunds && refunds[a].createdAt <= refunds[b].createdAt
  }

  /** ORDER BY at LIMIT limit. */
  method SelectOldest(candidates: set<Id>, at: map<Id, Instant>, limit: nat) returns (ids: seq<Id>)
    requires candidates <= at.Keys
    ensures |ids| <= limit && Distinct(ids) && forall i :: 0 <= i < |ids| ==> ids[i] in candidates
    ensures Ascending(ids, at)
    ensures forall m :: m in candidates && m !in ids ==>
              |ids| == limit && forall i :: 0 <= i < |ids| ==> at[ids[i]] <= at[m]
  {
    ids := [];
    var left := candidates;
    while left != {} && |ids| < limit
      invariant |ids| <= limit && left <= candidates && Distinct(ids)
      invariant forall i :: 0 <= i < |ids| ==> ids[i] in candidates && ids[i] !in left
      invariant forall m :: m in candidates && m !in left ==> m in ids
      invariant Ascending(ids, at) && forall i, m :: 0 <= i < |ids| && m in left ==> at[ids[i]] <= at[m]
      decreases left
    {
      var oldest := Oldest(left, at);
      ids := ids + [oldest];
      left := left - {oldest};
    }
  }

  method Oldest(among: set<Id>, at: map<Id, Instant>) returns (oldest: Id)
    requires among != {} && among <= at.Keys
    ensures oldest in among && forall m :: m in among ==> at[oldest] <= at[m]
  {
    oldest :| oldest in among;
    var left := among - {oldest};
    while left != {}
      invariant left <= among && oldest in among
      invariant forall m :: m in among && m !in left ==> at[oldest] <= at[m]
      decreases left
    {
      var m :| m in left;
      left := left - {m};
      if at[m] < at[oldest] { oldest := m; }
    }
  }

  /** One refund event for each expired mission nobody holds locked, the oldest deadlines first. */
  method EnqueueExpired(p: Process, deadlines: map<Id, Instant>, locked: set<Id>, batchLimit: nat)
    returns (enqueued: nat)
    requires p.Follows() && p.Idle()
    modifies p`w, p`trace, p`own
    ensures p.Follows() && p.Idle() && enqueued <= batchLimit
    ensures CountersOf(p.own) == CountersOf(old(p.own)).(enqueued := CountersOf(old(p.own)).enqueued + enqueued)
    ensures p.w == old(p.w).(db := old(p.w).db.(refunds := p.w.db.refunds))
    ensures EnqueuesOldest(old(p.w).db, p.w.db.refunds, deadlines, p.w.now, locked, batchLimit)
    ensures |p.w.db.refunds| == |old(p.w).db.refunds| + enqueued
  {
    hide Run, Step, Process.Follows;
    var ids := SelectExpired(p.w.db, deadlines, p.w.now, locked, batchLimit);
    hide Expired;
    CreateMany(p, ids);
    return |ids|;
  }

  method SelectExpired(db: Db, deadlines: map<Id, Instant>, now: Instant, locked: set<Id>, batchLimit: nat)
    returns (ids: seq<Id>)
    ensures |ids| <= batchLimit && Distinct(ids)
    ensures forall i :: 0 <= i < |ids| ==>
              && ids[i] !in db.refunds && ids[i] in db.missions && db.missions[ids[i]].status == InDispute
              && Expired(db, deadlines, now, ids[i]) && ids[i] !in locked
    ensures forall m :: Expired(db, deadlines, now, m) && m !in locked && m !in ids ==>
              |ids| == batchLimit && forall i :: 0 <= i < |ids| ==> NotLater(deadlines, ids[i], m)
  {
    var candidates := set m | m in deadlines && m in db.missions && db.missions[m].status == InDispute
                              && deadlines[m] < now && m !in db.refunds && m !in locked;
    ids := SelectOldest(candidates, deadlines, batchLimit);
  }

  /** The new events: PENDING and untried, for expired missions nobody holds locked, and none left out
      that has an earlier deadline or for which there was room. */
  ghost predicate EnqueuesOldest(db: Db, after: map<Id, RefundIntent>, deadlines: map<Id, Instant>, now: Instant,
                                 locked: set<Id>, batchLimit: nat)
  {
    && db.refunds.Keys <= after.Keys && |after| <= |db.refunds| + batchLimit
    && (forall m :: m in db.refunds ==> after[m] == db.refunds[m])
    && (forall m :: m in after && m !in db.refunds ==>
          Expired(db, deadlines, now, m) && m !in locked && after[m] == RefundIntent(JobPending, 0, now))
    && (forall m :: Expired(db, deadlines, now, m) && m !in locked && m !in after ==>
          && |after| == |db.refunds| + batchLimit
          && forall k :: k in after && k !in db.refunds ==> NotLater(deadlines, k, m))
  }

  /** outboxEvent.createMany, in the transaction of the selection. */
  method CreateMany(p: Process, ids: seq<Id>)
    requires p.Follows() && p.Idle() && Distinct(ids)
    requires forall i :: 0 <= i < |ids| ==>
               ids[i] !in p.w.db.refunds && ids[i] in p.w.db.missions && p.w.db.missions[ids[i]].status == InDispute
    modifies p`w, p`trace, p`own
    ensures p.Follows() && p.Idle()
    ensures CountersOf(p.own) == CountersOf(old(p.own)).(enqueued := CountersOf(old(p.own)).enqueued + |ids|)
    ensures p.w == old(p.w).(db := old(p.w).db.(refunds := p.w.db.refunds))
    ensures |p.w.db.refunds| == |old(p.w).db.refunds| + |ids|
    ensures forall m :: m in p.w.db.refunds <==> m in old(p.w).db.refunds || m in ids
    ensures forall m :: m in p.w.db.refunds ==>
              p.w.db.refunds[m] == if m in ids then RefundIntent(JobPending, 0, p.w.now) else old(p.w).db.refunds[m]
  {
    hide Run, Step, Process.Follows;
    for i := 0 to |ids|
      invariant p.Follows() && p.Idle()
      invariant CountersOf(p.own) == CountersOf(old(p.own)).(enqueued := CountersOf(old(p.own)).enqueued + i)
      invariant p.w == old(p.w).(db := old(p.w).db.(refunds := p.w.db.refunds))
      invariant |p.w.db.refunds| == |old(p.w).db.refunds| + i
      invariant forall m :: m in p.w.db.refunds <==> m in old(p.w).db.refunds || m in ids[..i]
      invariant forall m :: m in p.w.db.refunds ==>
                  p.w.db.refunds[m] == if m in ids[..i] then RefundIntent(JobPending, 0, p.w.now)
                    else old(p.w).db.refunds[m]
    {
      assert ids[..i + 1] == ids[..i] + [ids[i]];
      EnqueueOne(p, ids[i]);
    }
    assert ids[..|ids|] == ids;
  }

  method EnqueueOne(p: Process, m: Id)
    requires p.Follows() && m !in p.w.db.refunds
    requires m in p.w.db.missions && p.w.db.missions[m].status == InDispute
    modifies p`w, p`trace, p`own
    ensures p.Follows()
    ensures CountersOf(p.own) == CountersOf(old(p.own)).(enqueued := CountersOf(old(p.own)).enqueued + 1)
    ensures p.w == old(p.w).(db := old(p.w).db.(refunds :=
                     old(p.w).db.refunds[m := RefundIntent(JobPending, 0, old(p.w).now)]))
  {
    hide Run, Step, Process.Follows;
    CountedAppend(p.own, CommitQueue(S.EnqueueRefund(m)));
    p.CommitQueue(S.EnqueueRefund(m));
  }

  method WriteRefund(p: Process, m: Id, event: RefundIntent)
    requires p.Follows() && m in p.w.db.refunds
    modifies p`w, p`trace, p`own
    ensures p.Follows() && CountersOf(p.own) == CountersOf(old(p.own))
    ensures p.own == old(p.own) + [CommitQueue(S.UpdateRefund(m, event))]
    ensures p.w == old(p.w).(db := old(p.w).db.(refunds := old(p.w).db.refunds[m := event]))
  {
    hide Run, Step, Process.Follows;
    CountedAppend(p.own, CommitQueue(S.UpdateRefund(m, event)));
    p.CommitQueue(S.UpdateRefund(m, event));
  }

  /** claimOutboxBatch on READY_FOR_REFUND events nobody holds locked: the oldest first, attempts + 1
      for every claimed event. */
  method ClaimBatch(p: Process, locked: set<Id>, maxAttempts: nat, batchLimit: nat) returns (batch: seq<Claimed>)
    requires p.Follows() && p.Idle()
    modifies p`w, p`trace, p`own
    ensures p.Follows() && p.Idle() && |batch| <= batchLimit && CountersOf(p.own) == CountersOf(old(p.own))
    ensures ClaimsOldest(old(p.w).db.refunds, locked, maxAttempts, batchLimit, batch)
    ensures p.w == old(p.w).(db := old(p.w).db.(refunds := Counting(old(p.w).db.refunds, Missions(batch))))
  {
    hide Run, Step, Process.Follows;
    var refunds := p.w.db.refunds;
    var ids := SelectClaimable(refunds, locked, maxAttempts, batchLimit);
    batch := seq(|ids|, i requires 0 <= i < |ids| => Claimed(ids[i], refunds[ids[i]].attempts + 1));
    assert Missions(batch) == ids;
    CountAttempts(p, ids);
  }

  method SelectClaimable(refunds: map<Id, RefundIntent>, locked: set<Id>, maxAttempts: nat, batchLimit: nat)
    returns (ids: seq<Id>)
    ensures |ids| <= batchLimit && Distinct(ids)
    ensures forall i :: 0 <= i < |ids| ==> Claimable(refunds, maxAttempts, ids[i]) && ids[i] !in locked
    ensures forall i, j :: 0 <= i < j < |ids| ==> Older(refunds, ids[i], ids[j])
    ensures forall m :: Claimable(refunds, maxAttempts, m) && m !in locked && m !in ids ==>
              |ids| == batchLimit && forall i :: 0 <= i < |ids| ==> Older(refunds, ids[i], m)
  {
    var candidates := set m | m in refunds && refunds[m].status == JobPending
                              && refunds[m].attempts < maxAttempts && m !in locked;
    ids := SelectOldest(candidates, map m | m in refunds :: refunds[m].createdAt, batchLimit);
  }

  /** The claimed events: PENDING, below the threshold and not locked, in order of creation, and none
      left out that is older or for which there was room. */
  ghost predicate ClaimsOldest(refunds: map<Id, RefundIntent>, locked: set<Id>, maxAttempts: nat, batchLimit: nat,
                               batch: seq<Claimed>)
  {
    && |batch| <= batchLimit
    && (forall i :: 0 <= i < |batch| ==>
          && Claimable(refunds, maxAttempts, batch[i].missionId) && batch[i].missionId !in locked
          && batch[i].attempts == refunds[batch[i].missionId].attempts + 1)
    && (forall i, j :: 0 <= i < j < |batch| ==>
          && batch[i].missionId != batch[j].missionId
          && Older(refunds, batch[i].missionId, batch[j].missionId))
    && (forall m :: Claimable(refunds, maxAttempts, m) && m !in locked && m !in Missions(batch) ==>
          |batch| == batchLimit
          && forall i :: 0 <= i < |batch| ==> Older(refunds, batch[i].missionId, m))
  }

  function Missions(batch: seq<Claimed>): seq<Id> {
    seq(|batch|, i requires 0 <= i < |batch| => batch[i].missionId)
  }

  function Counting(refunds: map<Id, RefundIntent>, ids: seq<Id>): map<Id, RefundIntent> {
    map m | m in refunds :: if m in ids then refunds[m].(attempts := refunds[m].attempts + 1) else refunds[m]
  }

  /** updateMany with attempts + 1, in the transaction of the selection. */
  method CountAttempts(p: Process, ids: seq<Id>)
    requires p.Follows() && p.Idle() && Distinct(ids) && forall i :: 0 <= i < |ids| ==> ids[i] in p.w.db.refunds
    modifies p`w, p`trace, p`own
    ensures p.Follows() && p.Idle() && CountersOf(p.own) == CountersOf(old(p.own))
    ensures p.w == old(p.w).(db := old(p.w).db.(refunds := Counting(old(p.w).db.refunds, ids)))
  {
    hide Run, Step, Process.Follows;
    assert Counting(p.w.db.refunds, ids[..0]) == p.w.db.refunds;
    for i := 0 to |ids|
      invariant p.Follows() && p.Idle() && CountersOf(p.own) == CountersOf(old(p.own))
      invariant p.w == old(p.w).(db := old(p.w).db.(refunds := Counting(old(p.w).db.refunds, ids[..i])))
    {
      ghost var before := p.w.db.refunds;
      assert ids[i] !in ids[..i];
      var event := p.w.db.refunds[ids[i]];
      WriteRefund(p, ids[i], event.(attempts := event.attempts + 1));
      assert ids[..i + 1] == ids[..i] + [ids[i]];
      assert p.w.db.refunds == Counting(old(p.w).db.refunds, ids[..i + 1]);
    }
    assert ids[..|ids|] == ids;
  }

  function FailedEvent(event: RefundIntent, terminal: bool): RefundIntent {
    event.(status := if terminal then JobFailed else JobPending)
  }

  lemma FailedStatus(event: RefundIntent, terminal: bool)
    ensures FailedEvent(event, terminal) == event.(status := if terminal then JobFailed else JobPending)
  {
  }

  /** failRefund: PENDING for a retry, FAILED when terminal. */
  method FailRefund(p: Process, c: Claimed, terminal: bool)
    requires p.Follows() && !p.Idle() && c.missionId in p.w.db.refunds
    modifies p`w, p`trace, p`own
    ensures p.Follows() && p.Idle() && c.missionId in p.w.db.refunds
    ensures CountersOf(p.own) == CountersOf(old(p.own)).(failed := CountersOf(old(p.own)).failed + 1)
    ensures var event := FailedEvent(old(p.w).db.refunds[c.missionId], terminal);
            && event == old(p.w).db.refunds[c.missionId].(status := if terminal then JobFailed else JobPending)
            && p.w.db.refunds == old(p.w).db.refunds[c.missionId := event]
            && p.own == old(p.own) + [CommitQueue(S.UpdateRefund(c.missionId, event)), EndTask(p.id)]
  {
    hide Run, Step, Process.Follows, Grows, CountersOf;
    var event := FailedEvent(p.w.db.refunds[c.missionId], terminal);
    FailedStatus(p.w.db.refunds[c.missionId], terminal);
    hide FailedEvent;
    WriteRefund(p, c.missionId, event);
    CountedAppend(p.own, EndTask(p.id));
    p.EndTask();
  }

  /** The success verdict: event SETTLED, mission IN_DISPUTE -> REFUNDED, escrow HELD -> CANCELLED. */
  method Settle(p: Process, c: Claimed, saw: Option<EscrowStatus>, pi: Id, cancelled: bool)
    requires p.Follows() && c.missionId in p.w.db.refunds
    requires p.id in p.w.tasks && p.w.tasks[p.id] == Refunding(c.missionId, saw, pi, cancelled)
    requires saw != Some(Released) && saw != Some(PartiallyRefunded) && (saw == Some(Held) ==> cancelled)
    modifies p`w, p`trace, p`own
    ensures p.Follows() && p.Idle() && p.w == Step(old(p.w), CommitRefund(p.id))
    ensures p.own == old(p.own) + [CommitRefund(p.id)]
    ensures CountersOf(p.own) == CountersOf(old(p.own)).(refunded := CountersOf(old(p.own)).refunded + 1)
    ensures c.missionId in p.w.db.refunds && p.w.db.refunds[c.missionId].status == JobSettled
    ensures c.missionId in p.w.db.missions ==>
              p.w.db.missions[c.missionId].status
              == if old(p.w).db.missions[c.missionId].status == InDispute then MissionRefunded
                 else old(p.w).db.missions[c.missionId].status
    ensures saw.Some? && c.missionId in p.w.db.escrows ==> p.w.db.escrows[c.missionId].status != Held
    ensures p.w.db.refunds.Keys == old(p.w).db.refunds.Keys
  {
    SettleIs(p.w, p.id);
    hide Run, Step, Grows, Process.Follows, Process.Quiet, S.SettleRefundTx;
    CountedAppend(p.own, CommitRefund(p.id));
    var db := Verdict(p.w.db, c.missionId, saw.Some?);
    p.Become(CommitRefund(p.id), p.w.(db := db, tasks := p.w.tasks - {p.id}));
  }

  /** The three updates of the verdict transaction. */
  method VerdictRows(db: Db, m: Id, sawEscrow: bool) returns (r: Db)
    requires m in db.refunds
    ensures r == S.SettleRefundTx(db, m, sawEscrow)
    ensures r.refunds == db.refunds[m := db.refunds[m].(status := JobSettled)]
    ensures r.missions == if m in db.missions && db.missions[m].status == InDispute
                          then db.missions[m := db.missions[m].(status := MissionRefunded)] else db.missions
    ensures r.escrows == if sawEscrow && m in db.escrows && db.escrows[m].status == Held
                         then db.escrows[m := db.escrows[m].(status := Cancelled)] else db.escrows
  {
    var refunds := db.refunds[m := db.refunds[m].(status := JobSettled)];
    var missions, escrows := db.missions, db.escrows;
    if m in missions && missions[m].status == InDispute {
      missions := missions[m := missions[m].(status := MissionRefunded)];
    }
    if sawEscrow && m in escrows && escrows[m].status == Held {
      escrows := escrows[m := escrows[m].(status := Cancelled)];
    }
    r := db.(refunds := refunds, missions := missions, escrows := escrows);
  }

  /** What the verdict leaves of the mission, the event and the escrow. */
  method Verdict(db: Db, m: Id, sawEscrow: bool) returns (r: Db)
    requires m in db.refunds
    ensures r == S.SettleRefundTx(db, m, sawEscrow) && r.refunds.Keys == db.refunds.Keys
    ensures r.refunds[m].status == JobSettled && r.missions.Keys == db.missions.Keys
    ensures m in db.missions ==>
              r.missions[m].status
              == if db.missions[m].status == InDispute then MissionRefunded else db.missions[m].status
    ensures sawEscrow && m in r.escrows ==> r.escrows[m].status != Held
  {
    hide S.SettleRefundTx;
    r := VerdictRows(db, m, sawEscrow);
  }

  lemma SettleIs(w: World, t: Id)
    requires Integrity(w.db) && Enabled(w, CommitRefund(t)) && w.tasks[t].m in w.db.refunds
    ensures Step(w, CommitRefund(t))
            == w.(db := S.SettleRefundTx(w.db, w.tasks[t].m, w.tasks[t].saw.Some?), tasks := w.tasks - {t})
  {
    hide S.SettleRefundTx;
  }

  /** What the worker knows of the escrow before it calls Stripe. */
  method ReadEscrow(p: Process, m: Id) returns (saw: Option<EscrowStatus>, pi: Id)
    requires p.Follows() && p.Idle() && m in p.w.db.refunds
    modifies p`w, p`trace, p`own
    ensures p.Follows() && p.w == old(p.w).(tasks := p.w.tasks) && p.own == old(p.own) + [BeginRefund(p.id, m)]
    ensures m in p.w.db.escrows ==>
              saw == Some(p.w.db.escrows[m].status) && pi == p.w.db.escrows[m].stripePaymentIntentId
    ensures m !in p.w.db.escrows ==> saw == None
    ensures p.id in p.w.tasks && p.w.tasks[p.id] == Refunding(m, saw, pi, false)
    ensures CountersOf(p.own) == CountersOf(old(p.own))
  {
    hide Run, O.Step, S.RollbackFundingTx, CancelIntent;
    CountedAppend(p.own, BeginRefund(p.id, m));
    p.Record(BeginRefund(p.id, m));
    saw, pi := None, 0;
    if m in p.w.db.escrows {
      saw, pi := Some(p.w.db.escrows[m].status), p.w.db.escrows[m].stripePaymentIntentId;
    }
    p.w := p.w.(tasks := p.w.tasks[p.id := Refunding(m, saw, pi, false)]);
  }

  /** What the worker does with one claimed event when nobody interferes. */
  function RefundMoves(w: World, t: Id, c: Claimed, maxAttempts: nat, r: Reply): seq<Move> {
    var m := c.missionId;
    if m !in w.db.refunds then []
    else
      var failed, retried := w.db.refunds[m].(status := JobFailed), w.db.refunds[m].(status := JobPending);
      var held := m in w.db.escrows && w.db.escrows[m].status == Held;
      [BeginRefund(t, m)]
      + if m in w.db.escrows && (w.db.escrows[m].status == Released || w.db.escrows[m].status == PartiallyRefunded)
        then [CommitQueue(S.UpdateRefund(m, failed)), EndTask(t)]
        else
          (if held then [CallCancel(t, r.cancelTookEffect, r.cancelReported)] else [])
          + if (held ==> CancelWorks(w, w.db.escrows[m].stripePaymentIntentId, r.cancelTookEffect, r.cancelReported))
          && r.verdictWritten
            then [CommitRefund(t)]
            else [CommitQueue(S.UpdateRefund(m, if c.attempts >= maxAttempts then failed else retried)), EndTask(t)]
  }

  /** executeRefund: no call for an escrow that is not HELD, no refund without a successful cancel, and
      no failure with one, once the verdict can be written. `calling` is what the cancel call met. */
  method ExecuteRefund(p: Process, c: Claimed, maxAttempts: nat, r: Reply)
    returns (refunded: bool, ghost calling: World)
    requires p.Follows() && p.Idle() && c.missionId in p.w.db.refunds
    modifies p`w, p`awaits, p`trace, p`own
    ensures p.Follows() && p.Idle() && c.missionId in p.w.db.refunds
    ensures Grows(old(p.w), calling) && (p.Quiet() ==> calling.intents == old(p.w).intents)
    ensures var m, escrows := c.missionId, old(p.w).db.escrows;
            if m in escrows && (escrows[m].status == Released || escrows[m].status == PartiallyRefunded)
            then !refunded
            else if m in escrows && escrows[m].status == Held
            then refunded <==> CancelWorks(calling, escrows[m].stripePaymentIntentId, r.cancelTookEffect,
                                           r.cancelReported) && r.verdictWritten
            else refunded <==> r.verdictWritten
    ensures refunded ==>
              && p.w.db.refunds[c.missionId].status == JobSettled
              && (c.missionId in p.w.db.missions ==> p.w.db.missions[c.missionId].status != InDispute)
    ensures !refunded ==>
              p.w.db.refunds[c.missionId].status
              == if c.attempts >= maxAttempts
                    || (c.missionId in old(p.w).db.escrows
                        && (old(p.w).db.escrows[c.missionId].status == Released
                            || old(p.w).db.escrows[c.missionId].status == PartiallyRefunded))
                 then JobFailed else JobPending
    ensures p.Quiet() ==> p.own == old(p.own) + RefundMoves(old(p.w), p.id, c, maxAttempts, r)
    ensures old(p.w).db.refunds.Keys <= p.w.db.refunds.Keys
    ensures CountersOf(p.own) == Add(CountersOf(old(p.own)), refunded)
  {
    hide Run, Step, Grows, Process.Follows, Process.Quiet, CountersOf, Integrity;
    ghost var start := p.w;
    GrowsReflexive(start);
    var saw, pi := ReadEscrow(p, c.missionId);
    ghost var before := p.w;
    p.Await();
    GrowsOn(start, before, p.w);
    RefundStays(before, p.w, c.missionId);
    calling := p.w;
    if saw == Some(Released) || saw == Some(PartiallyRefunded) {
      FailRefund(p, c, true);
      return false, calling;
    }
    refunded := CancelAndSettle(p, c, maxAttempts, r, saw, pi);
  }

  /** Growth does not look at tasks. */
  lemma GrowsOn(a: World, b: World, c: World)
    requires b == a.(tasks := b.tasks) && Grows(b, c)
    ensures Grows(a, c)
  {
  }

  lemma RefundStays(a: World, b: World, m: Id)
    requires Grows(a, b)
    ensures a.db.refunds.Keys <= b.db.refunds.Keys
  {
  }

  /** The cancel call, if the escrow was HELD, and the verdict. */
  method CancelAndSettle(p: Process, c: Claimed, maxAttempts: nat, r: Reply, saw: Option<EscrowStatus>, pi: Id)
    returns (refunded: bool)
    requires p.Follows() && c.missionId in p.w.db.refunds
    requires p.id in p.w.tasks && p.w.tasks[p.id] == Refunding(c.missionId, saw, pi, false)
    requires saw != Some(Released) && saw != Some(PartiallyRefunded)
    modifies p`w, p`awaits, p`trace, p`own
    ensures p.Follows() && p.Idle() && c.missionId in p.w.db.refunds
    ensures refunded
            <==> (saw == Some(Held) ==> CancelWorks(old(p.w), pi, r.cancelTookEffect, r.cancelReported))
                 && r.verdictWritten
    ensures refunded ==>
              && p.w.db.refunds[c.missionId].status == JobSettled
              && (c.missionId in p.w.db.missions ==> p.w.db.missions[c.missionId].status != InDispute)
    ensures !refunded ==>
              p.w.db.refunds[c.missionId].status == if c.attempts >= maxAttempts then JobFailed else JobPending
    ensures var event := old(p.w).db.refunds[c.missionId].(
              status := if c.attempts >= maxAttempts then JobFailed else JobPending);
            p.Quiet() ==>
              p.own == old(p.own)
                + (if saw == Some(Held) then [CallCancel(p.id, r.cancelTookEffect, r.cancelReported)] else [])
                + (if refunded then [CommitRefund(p.id)]
                   else [CommitQueue(S.UpdateRefund(c.missionId, event)), EndTask(p.id)])
    ensures old(p.w).db.refunds.Keys <= p.w.db.refunds.Keys
    ensures CountersOf(p.own) == Add(CountersOf(old(p.own)), refunded)
  {
    hide Run, Step, Grows, Process.Follows, Process.Quiet, CountersOf;
    var released := true;
    if saw == Some(Held) {
      released := CancelHold(p, c, r, pi);
    }
    if released && r.verdictWritten {
      Settle(p, c, saw, pi, saw == Some(Held));
      return true;
    }
    FailRefund(p, c, c.attempts >= maxAttempts);
    return false;
  }

  /** The cancel call and the await after it. */
  method CancelHold(p: Process, c: Claimed, r: Reply, pi: Id) returns (released: bool)
    requires p.Follows() && c.missionId in p.w.db.refunds
    requires p.id in p.w.tasks && p.w.tasks[p.id] == Refunding(c.missionId, Some(Held), pi, false)
    modifies p`w, p`awaits, p`trace, p`own
    ensures p.Follows() && released == CancelWorks(old(p.w), pi, r.cancelTookEffect, r.cancelReported)
    ensures old(p.w).db.refunds.Keys <= p.w.db.refunds.Keys && (p.Quiet() ==> p.w.db == old(p.w).db)
    ensures p.id in p.w.tasks && p.w.tasks[p.id] == Refunding(c.missionId, Some(Held), pi, released)
    ensures p.own == old(p.own) + [CallCancel(p.id, r.cancelTookEffect, r.cancelReported)]
    ensures CountersOf(p.own) == CountersOf(old(p.own))
  {
    hide Run, Step, Grows, Process.Follows, Process.Quiet;
    CountedAppend(p.own, CallCancel(p.id, r.cancelTookEffect, r.cancelReported));
    released := p.CallCancel(r.cancelTookEffect, r.cancelReported);
    ghost var before := p.w;
    p.Await();
    RefundStays(before, p.w, c.missionId);
  }

  function RefundPlan(t: Id, batch: seq<Claimed>, maxAttempts: nat, reply: nat -> Reply): (World, nat) -> seq<Move> {
    (w: World, i: nat) => if i < |batch| then RefundMoves(w, t, batch[i], maxAttempts, reply(i)) else []
  }

  lemma RefundRound(w: World, t: Id, batch: seq<Claimed>, maxAttempts: nat, reply: nat -> Reply, i: nat)
    requires i < |batch|
    ensures RefundPlan(t, batch, maxAttempts, reply)(w, i) == RefundMoves(w, t, batch[i], maxAttempts, reply(i))
  {
  }

  /** The i-th claimed event. */
  method NextRefund(p: Process, batch: seq<Claimed>, maxAttempts: nat, reply: nat -> Reply, i: nat,
                    ghost w0: World, ghost own0: seq<Move>)
    returns (refunded: bool)
    requires p.Follows() && p.Idle() && i < |batch| && batch[i].missionId in p.w.db.refunds
    requires p.OnPlan(w0, own0, i, RefundPlan(p.id, batch, maxAttempts, reply))
    modifies p`w, p`awaits, p`trace, p`own
    ensures p.Follows() && p.Idle() && old(p.w).db.refunds.Keys <= p.w.db.refunds.Keys
    ensures p.OnPlan(w0, own0, i + 1, RefundPlan(p.id, batch, maxAttempts, reply))
    ensures CountersOf(p.own) == Add(CountersOf(old(p.own)), refunded)
  {
    p.AtRound(w0, own0, i, RefundPlan(p.id, batch, maxAttempts, reply));
    hide Run, Step, Grows, Process.Follows, Process.Quiet, Rounds, RefundPlan, RefundMoves, CountersOf, Integrity,
      CancelWorks;
    ghost var before := p.w;
    p.Await();
    RefundStays(before, p.w, batch[i].missionId);
    RefundRound(p.w, p.id, batch, maxAttempts, reply, i);
    ghost var calling;
    refunded, calling := ExecuteRefund(p, batch[i], maxAttempts, reply(i));
  }

  /** runDisputeResolutionWorkerOnce. `enqueued` is the state after the first transaction, `claimed`
      the state after the second. */
  method RunOnce(p: Process, deadlines: map<Id, Instant>, locks: Locks, maxAttempts: nat, batchLimit: nat,
                 reply: nat -> Reply)
    returns (result: Counters, ghost batch: seq<Claimed>, ghost enqueued: World, ghost claimed: World)
    requires p.Follows() && p.Idle()
    modifies p`w, p`awaits, p`trace, p`own
    ensures p.Follows() && p.Idle()
    // the two transactions, and what is done with each claimed event
    ensures enqueued == old(p.w).(db := old(p.w).db.(refunds := enqueued.db.refunds))
            && EnqueuesOldest(old(p.w).db, enqueued.db.refunds, deadlines, old(p.w).now, locks.missions, batchLimit)
    ensures p.Quiet() ==>
              && ClaimsOldest(enqueued.db.refunds, locks.events, maxAttempts, batchLimit, batch)
              && claimed == enqueued.(db := enqueued.db.(refunds := Counting(enqueued.db.refunds, Missions(batch))))
              && Integrity(claimed.db)
              && p.w == Run(claimed, Rounds(claimed, |batch|, RefundPlan(p.id, batch, maxAttempts, reply)))
    // its counters are what it did
    ensures CountersOf(old(p.own)) == Counters(0, 0, 0) ==> result == CountersOf(p.own)
    ensures result.enqueued <= batchLimit && result.refunded + result.failed == |batch| <= batchLimit
    ensures Invariant(p.start) ==> Invariant(p.w)
  {
    hide Run, Step, Invariant, Process.Follows, Process.OnPlan, Process.Quiet, RefundPlan, Rounds, EnqueuesOldest,
      ClaimsOldest, Counting, CountersOf, Integrity;
    var n := EnqueueExpired(p, deadlines, locks.missions, batchLimit);
    enqueued := p.w;
    result := Counters(n, 0, 0);
    p.Await();
    ghost var claiming := p.w;
    var claims := ClaimBatch(p, locks.events, maxAttempts, batchLimit);
    batch, claimed := claims, p.w;
    ClaimedRows(claiming.db.refunds, p.w.db.refunds, locks.events, maxAttempts, batchLimit, claims);
    p.StartPlan(RefundPlan(p.id, claims, maxAttempts, reply));
    ghost var own1 := p.own;
    for i := 0 to |claims|
      invariant p.Follows() && p.Idle() && result.enqueued == n && result.refunded + result.failed == i
      invariant CountersOf(old(p.own)) == Counters(0, 0, 0) ==> result == CountersOf(p.own)
      invariant forall j :: 0 <= j < |claims| ==> claims[j].missionId in p.w.db.refunds
      invariant p.OnPlan(claimed, own1, i, RefundPlan(p.id, claims, maxAttempts, reply))
    {
      var refunded := NextRefund(p, claims, maxAttempts, reply, i, claimed, own1);
      if refunded { result := result.(refunded := result.refunded + 1); }
      else { result := result.(failed := result.failed + 1); }
    }
    p.PlanRan(claimed, own1, |claims|, RefundPlan(p.id, claims, maxAttempts, reply));
    p.InvariantHolds();
  }

  lemma ClaimedRows(refunds: map<Id, RefundIntent>, after: map<Id, RefundIntent>, locked: set<Id>, maxAttempts: nat,
                    batchLimit: nat, batch: seq<Claimed>)
    requires ClaimsOldest(refunds, locked, maxAttempts, batchLimit, batch)
             && after == Counting(refunds, Missions(batch))
    ensures |batch| <= batchLimit && forall j :: 0 <= j < |batch| ==> batch[j].missionId in after
  {
  }
}

/** The two timeouts of the daily reconciliation: customs locks older than seven days are cancelled,
    deposits older than five days are captured. */
module Timeouts {
  import opened Tables
  import opened Money
  import opened World
  import opened WorldSafety
  import opened Machine
  import opened Funding
  import S = Steps

  datatype Alert = CustomsTimeoutRefundFailed(m: Id) | CollectionTimeoutCaptureFailed(m: Id)

  datatype Reply = Reply(cancelTookEffect: bool, cancelReported: bool, attempts: seq<Attempt>)

  /** A mission past its timeout, with its escrow as the selection read it. */
  datatype Stalled = Stalled(m: Id, escrow: Option<Escrow>)

  function EscrowRow(db: Db, m: Id): Option<Escrow> {
    if m in db.escrows then Some(db.escrows[m]) else None
  }

  predicate Past(db: Db, m: Id, status: MissionStatus) {
    m in db.missions && db.missions[m].status == status
  }

  /** The rows of one selection: `stale` are the missions older than the cutoff. */
  method SelectStalled(db: Db, stale: seq<Id>, status: MissionStatus) returns (rows: seq<Stalled>)
    ensures |rows| <= |stale|
    ensures forall i :: 0 <= i < |rows| ==>
              Past(db, rows[i].m, status) && rows[i] == Stalled(rows[i].m, EscrowRow(db, rows[i].m))
    ensures forall m :: m in stale && Past(db, m, status) ==> Stalled(m, EscrowRow(db, m)) in rows
    // said of the tables: a mission in that status, with the escrow it has
    ensures forall i :: 0 <= i < |rows| ==>
              && rows[i].m in stale && rows[i].m in db.missions && db.missions[rows[i].m].status == status
              && (rows[i].m in db.escrows ==> rows[i].escrow == Some(db.escrows[rows[i].m]))
              && (rows[i].m !in db.escrows ==> rows[i].escrow == None)
    ensures forall m :: (m in stale && m in db.missions && db.missions[m].status == status) ==>
              exists i :: 0 <= i < |rows| && rows[i].m == m
  {
    rows := [];
    for i := 0 to |stale|
      invariant |rows| <= i
      invariant forall j :: 0 <= j < |rows| ==> rows[j].m in stale
      invariant forall j :: 0 <= j < |rows| ==>
                  Past(db, rows[j].m, status) && rows[j] == Stalled(rows[j].m, EscrowRow(db, rows[j].m))
      invariant forall m :: m in stale[..i] && Past(db, m, status) ==> Stalled(m, EscrowRow(db, m)) in rows
    {
      assert stale[..i + 1] == stale[..i] + [stale[i]];
      if Past(db, stale[i], status) { rows := rows + [Stalled(stale[i], EscrowRow(db, stale[i]))]; }
    }
    assert stale[..|stale|] == stale;
    forall m | m in stale && Past(db, m, status) ensures exists i :: 0 <= i < |rows| && rows[i].m == m {
      assert Stalled(m, EscrowRow(db, m)) in rows;
      var i :| 0 <= i < |rows| && rows[i] == Stalled(m, EscrowRow(db, m));
    }
  }

  /** An escrow read at a selection is still there, with its intent; only its status may have moved. */
  ghost predicate Known(row: Stalled, db: Db) {
    row.escrow.Some? ==>
      && row.m in db.escrows && db.escrows[row.m].stripePaymentIntentId == row.escrow.value.stripePaymentIntentId
      && (row.escrow.value.status != Held ==> db.escrows[row.m].status != Held)
  }

  lemma KnownStays(rows: seq<Stalled>, a: World, b: World)
    requires Grows(a, b) && forall i :: 0 <= i < |rows| ==> Known(rows[i], a.db)
    ensures forall i :: 0 <= i < |rows| ==> Known(rows[i], b.db)
  {
  }

  lemma CancelIs(w: World, t: Id, m: Id, tookEffect: bool, reported: bool)
    requires Integrity(w.db) && t !in w.tasks && m in w.db.escrows
    ensures var intents := CancelIntent(w.intents, IntentOf(w.db, m), tookEffect);
            Step(w, CancelForCustoms(t, m, tookEffect, reported))
            == w.(intents := intents,
                  tasks := if CancelSucceeds(intents, IntentOf(w.db, m), reported) then w.tasks[t := ClosingCustoms(m)]
                           else w.tasks)
  {
    hide CancelIntent;
  }

  lemma CloseIs(w: World, t: Id)
    requires Integrity(w.db) && Enabled(w, CommitCustoms(t)) && w.tasks[t].m in w.db.escrows
    ensures Step(w, CommitCustoms(t))
            == w.(db := w.db.(missions := Closed(w.db.missions, w.tasks[t].m),
                              ledger := w.db.ledger + [Entry(w.tasks[t].m, Refund, 0, w.now)]),
                  tasks := w.tasks - {t})
  {
  }

  function Closed(missions: map<Id, Mission>, m: Id): map<Id, Mission> {
    if m in missions && missions[m].status == EscrowLockedCustoms
    then missions[m := missions[m].(status := MissionRefunded)] else missions
  }

  /** UPDATE ... SET status = REFUNDED WHERE status = ESCROW_LOCKED_CUSTOMS. */
  method CloseRow(missions: map<Id, Mission>, m: Id) returns (closed: map<Id, Mission>)
    ensures closed == Closed(missions, m) && closed.Keys == missions.Keys
    ensures closed == if m in missions && missions[m].status == EscrowLockedCustoms
                      then missions[m := missions[m].(status := MissionRefunded)] else missions
    ensures m in missions ==> closed[m].status != EscrowLockedCustoms
                              && (closed[m] != missions[m] ==> closed[m].status == MissionRefunded)
  {
    closed := missions;
    if m in missions && missions[m].status == EscrowLockedCustoms {
      closed := missions[m := missions[m].(status := MissionRefunded)];
    }
  }

  /** The cancel call, keyed by the mission, outside any transaction. */
  method CancelHold(p: Process, m: Id, pi: Id, r: Reply) returns (ok: bool)
    requires p.Follows() && p.Idle() && m in p.w.db.escrows && pi == IntentOf(p.w.db, m)
    modifies p`w, p`trace, p`own
    ensures p.Follows() && p.w.db == old(p.w).db && Grows(old(p.w), p.w)
    ensures p.own == old(p.own) + [CancelForCustoms(p.id, m, r.cancelTookEffect, r.cancelReported)]
    ensures if ok then p.id in p.w.tasks && p.w.tasks[p.id] == ClosingCustoms(m) else p.Idle()
    ensures ok ==> pi in p.w.intents && p.w.intents[pi].status.Canceled?
    ensures ok == CancelWorks(old(p.w), pi, r.cancelTookEffect, r.cancelReported)
    ensures p.w.intents == (if r.cancelTookEffect && pi in old(p.w).intents && !old(p.w).intents[pi].status.Captured?
                            then old(p.w).intents[pi := old(p.w).intents[pi].(status := Canceled)]
                            else old(p.w).intents)
  {
    CancelIs(p.w, p.id, m, r.cancelTookEffect, r.cancelReported);
    hide Run, Step, Grows, Process.Follows, Process.Quiet;
    var intents, tasks := p.w.intents, p.w.tasks;
    if pi in intents && !intents[pi].status.Captured? && r.cancelTookEffect {
      intents := intents[pi := intents[pi].(status := Canceled)];
    }
    ok := r.cancelReported && pi in intents && intents[pi].status.Canceled?;
    if ok { tasks := tasks[p.id := ClosingCustoms(m)]; }
    p.Become(CancelForCustoms(p.id, m, r.cancelTookEffect, r.cancelReported), p.w.(intents := intents, tasks := tasks));
  }

  /** The transaction after a successful cancel: the mission conditionally, the zero line always. */
  method CloseMission(p: Process, m: Id)
    requires p.Follows() && p.id in p.w.tasks && p.w.tasks[p.id] == ClosingCustoms(m) && m in p.w.db.escrows
    modifies p`w, p`trace, p`own
    ensures p.Follows() && p.Idle() && p.own == old(p.own) + [CommitCustoms(p.id)]
    ensures p.w.db.ledger == old(p.w).db.ledger + [Entry(m, Refund, 0, p.w.now)]
    ensures p.w.db.escrows == old(p.w).db.escrows && Grows(old(p.w), p.w)
    ensures m in p.w.db.missions ==>
              p.w.db.missions[m].status != EscrowLockedCustoms
              && (p.w.db.missions[m] != old(p.w).db.missions[m] ==> p.w.db.missions[m].status == MissionRefunded)
    ensures p.w.db.missions
            == if m in old(p.w).db.missions && old(p.w).db.missions[m].status == EscrowLockedCustoms
               then old(p.w).db.missions[m := old(p.w).db.missions[m].(status := MissionRefunded)]
               else old(p.w).db.missions
  {
    CloseIs(p.w, p.id);
    hide Run, Step, Grows, Closed, Process.Follows, Process.Quiet;
    var missions := CloseRow(p.w.db.missions, m);
    p.Become(CommitCustoms(p.id),
             p.w.(db := p.w.db.(missions := missions, ledger := p.w.db.ledger + [Entry(m, Refund, 0, p.w.now)]),
                  tasks := p.w.tasks - {p.id}));
  }

  /** What the pass does with one stalled mission when nobody interferes. */
  function CloseMoves(w: World, t: Id, row: Stalled, r: Reply): seq<Move> {
    if row.escrow.None? then []
    else
      [CancelForCustoms(t, row.m, r.cancelTookEffect, r.cancelReported)]
      + if CancelWorks(w, row.escrow.value.stripePaymentIntentId, r.cancelTookEffect, r.cancelReported)
        then [CommitCustoms(t)] else []
  }

  /** One stalled mission; a failed cancel raises an alert and leaves the database alone. */
  method CloseStalled(p: Process, row: Stalled, r: Reply) returns (alerts: seq<Alert>)
    requires p.Follows() && p.Idle() && Known(row, p.w.db)
    modifies p`w, p`awaits, p`trace, p`own
    ensures p.Follows() && p.Idle() && Grows(old(p.w), p.w)
    ensures row.escrow.None? ==> alerts == [] && p.w == old(p.w) && p.own == old(p.own)
    ensures alerts == [] || (alerts == [CustomsTimeoutRefundFailed(row.m)] && p.w.db == old(p.w).db)
    ensures row.escrow.Some? ==>
              p.own == old(p.own) + [CancelForCustoms(p.id, row.m, r.cancelTookEffect, r.cancelReported)]
                       + if alerts == [] then [CommitCustoms(p.id)] else []
    // an alert exactly when the cancel call is not answered by success
    ensures row.escrow.Some? ==>
              (alerts == [] <==> CancelWorks(old(p.w), row.escrow.value.stripePaymentIntentId, r.cancelTookEffect,
                                             r.cancelReported))
    ensures p.Quiet() ==> p.own == old(p.own) + CloseMoves(old(p.w), p.id, row, r)
    ensures row.escrow.Some? && alerts == [] ==>
              && row.m in p.w.db.escrows
              && (row.m in p.w.db.missions ==> p.w.db.missions[row.m].status != EscrowLockedCustoms)
  {
    hide Run, Step, Grows, Process.Follows, Process.Quiet, CancelWorks;
    GrowsReflexive(p.w);
    if row.escrow.None? { return []; }
    ghost var start := p.w;
    var ok := CancelHold(p, row.m, row.escrow.value.stripePaymentIntentId, r);
    if !ok { return [CustomsTimeoutRefundFailed(row.m)]; }
    ghost var before := p.w;
    p.Await();
    EscrowStays(before, p.w, row.m);
    ghost var after := p.w;
    CloseMission(p, row.m);
    GrowsTransitive(start, before, after);
    GrowsTransitive(start, after, p.w);
    return [];
  }

  predicate IsCustoms(x: Move) {
    x.CancelForCustoms? || x.CommitCustoms?
  }

  /** Customs cancels without a closing, among the moves of a process. */
  function Unclosed(moves: seq<Move>): int {
    if |moves| == 0 then 0
    else Unclosed(moves[..|moves| - 1]) + UnclosedShare(moves[|moves| - 1])
  }

  function UnclosedShare(x: Move): int {
    if x.CancelForCustoms? then 1 else if x.CommitCustoms? then -1 else 0
  }

  function CustomsAlerts(alerts: seq<Alert>): int {
    if |alerts| == 0 then 0
    else CustomsAlerts(alerts[..|alerts| - 1]) + if alerts[|alerts| - 1].CustomsTimeoutRefundFailed? then 1 else 0
  }

  lemma UnclosedAppend(moves: seq<Move>, x: Move)
    ensures Unclosed(moves + [x]) == Unclosed(moves) + UnclosedShare(x)
  {
    assert (moves + [x])[..|moves|] == moves;
  }

  /** One stalled mission: nothing, a cancel alone, or a cancel and a closing. */
  lemma UnclosedAfter(before: seq<Move>, after: seq<Move>, cancel: Move, close: Move)
    requires cancel.CancelForCustoms? && close.CommitCustoms?
    requires after == before || after == before + [cancel] + [] || after == before + [cancel] + [close]
    ensures Unclosed(after) == Unclosed(before) + if after == before + [cancel] + [] then 1 else 0
  {
    UnclosedAppend(before, cancel);
    UnclosedAppend(before + [cancel], close);
    assert before + [cancel] + [] == before + [cancel];
  }

  lemma {:induction false} UnclosedKept(before: seq<Move>, after: seq<Move>)
    requires before <= after && forall i :: |before| <= i < |after| ==> !IsCustoms(after[i])
    ensures Unclosed(after) == Unclosed(before)
    decreases |after|
  {
    if |after| > |before| {
      UnclosedKept(before, after[..|after| - 1]);
    } else {
      assert after == before;
    }
  }

  lemma AlertsAppend(alerts: seq<Alert>, more: seq<Alert>)
    requires |more| <= 1
    ensures CustomsAlerts(alerts + more)
            == CustomsAlerts(alerts) + if |more| == 1 && more[0].CustomsTimeoutRefundFailed? then 1 else 0
  {
    if |more| == 1 { assert (alerts + more)[..|alerts|] == alerts; } else { assert alerts + more == alerts; }
  }

  lemma EscrowStays(a: World, b: World, m: Id)
    requires Grows(a, b) && m in a.db.escrows
    ensures m in b.db.escrows
  {
  }

  lemma ValidateIs(w: World, m: Id)
    requires Integrity(w.db) && m in w.db.missions
    ensures Step(w, Commit(S.UpdateMission(m, Validated, w.db.missions[m].traveler)))
            == w.(db := w.db.(missions := w.db.missions[m := w.db.missions[m].(status := Validated)]))
  {
  }

  /** Whether the capture of a deposit works when nobody interferes: the escrow is still HELD, the held
      budget within the backstop, and some attempt reported with the intent captured. */
  ghost predicate Collects(w: World, m: Id, r: Reply) {
    && m in w.db.escrows && m in w.db.missions && w.db.escrows[m].status == Held
    && HeldBudget(w.db.missions[m]) <= SubstitutionHardCap(w.db.missions[m].budgetCents)
    && var pi := w.db.escrows[m].stripePaymentIntentId;
    SomeAttemptWorks(IsCaptured(w, pi), AwaitsCapture(w, pi), r.attempts)
  }

  /** What the pass does with one deposit when nobody interferes. */
  ghost function CollectMoves(w: World, t: Id, row: Stalled, r: Reply): seq<Move> {
    if row.escrow.None? || row.escrow.value.status != Held then []
    else
      CaptureMoves(w, t, row.m, r.attempts)
      + if Collects(w, row.m, r) && w.db.missions[row.m].status == Deposited
        then [Commit(S.UpdateMission(row.m, Validated, w.db.missions[row.m].traveler))] else []
  }

  /** One uncollected deposit, held when it was selected: capture as /confirm-collection does, then
      DEPOSITED -> VALIDATED. An escrow that has left HELD since then is refused by the capture. */
  method CollectStalled(p: Process, row: Stalled, r: Reply) returns (alerts: seq<Alert>)
    requires p.Follows() && p.Idle() && Known(row, p.w.db)
    modifies p`w, p`awaits, p`trace, p`own
    ensures p.Follows() && p.Idle() && Grows(old(p.w), p.w)
    ensures row.escrow.None? || row.escrow.value.status != Held ==> alerts == [] && p.w == old(p.w)
    ensures alerts == [] || alerts == [CollectionTimeoutCaptureFailed(row.m)]
    ensures old(p.own) <= p.own
    ensures forall i :: |old(p.own)| <= i < |p.own| ==> !IsCustoms(p.own[i])
    // on reachable states an alert means that the escrow has left HELD or that every attempt failed
    ensures Invariant(p.start) && row.escrow.Some? && row.escrow.value.status == Held ==>
              && row.m in old(p.w).db.escrows
              && (old(p.w).db.escrows[row.m].status != Held ==> alerts != [])
              && (alerts != [] ==>
                    old(p.w).db.escrows[row.m].status != Held || |p.own| == |old(p.own)| + |r.attempts| + 2)
    ensures p.Quiet() ==> p.own == old(p.own) + CollectMoves(old(p.w), p.id, row, r)
    ensures p.Quiet() && row.escrow.Some? && row.escrow.value.status == Held ==>
              (alerts == [] <==> Collects(old(p.w), row.m, r))
    ensures row.escrow.Some? && row.escrow.value.status == Held && alerts == [] ==>
              row.m in p.w.db.missions ==> p.w.db.missions[row.m].status != Deposited
  {
    hide Run, Step, Grows, Invariant, Process.Follows, Process.Quiet, CaptureMoves, SomeAttemptWorks, IsCaptured,
      AwaitsCapture, HeldBudget, SubstitutionHardCap, EscrowTotal;
    GrowsReflexive(p.w);
    if row.escrow.None? || row.escrow.value.status != Held { return []; }
    var m := row.m;
    ghost var start := p.w;
    MissionOf(p, m);
    var captured := CaptureEscrowFunds(p, m, r.attempts);
    if captured.Err? { return [CollectionTimeoutCaptureFailed(m)]; }
    ghost var before := p.w;
    Validate(p, m);
    GrowsTransitive(start, before, p.w);
    return [];
  }

  /** The await after a capture, and DEPOSITED -> VALIDATED. */
  method Validate(p: Process, m: Id)
    requires p.Follows() && p.Idle()
    modifies p`w, p`awaits, p`trace, p`own
    ensures p.Follows() && p.Idle() && Grows(old(p.w), p.w) && old(p.own) <= p.own
    ensures forall i :: |old(p.own)| <= i < |p.own| ==> p.own[i].Commit?
    ensures m in p.w.db.missions ==> p.w.db.missions[m].status != Deposited
    ensures p.Quiet() ==>
              p.own == old(p.own)
                + if m in old(p.w).db.missions && old(p.w).db.missions[m].status == Deposited
                  then [Commit(S.UpdateMission(m, Validated, old(p.w).db.missions[m].traveler))] else []
  {
    hide Run, Step, Grows, Process.Follows, Process.Quiet;
    ghost var before := p.w;
    p.Await();
    ghost var after := p.w;
    GrowsReflexive(p.w);
    if m in p.w.db.missions && p.w.db.missions[m].status == Deposited { MarkValidated(p, m); }
    GrowsTransitive(before, after, p.w);
  }

  lemma MissionOf(p: Process, m: Id)
    requires p.Follows() && m in p.w.db.escrows
    ensures m in p.w.db.missions
  {
  }

  method MarkValidated(p: Process, m: Id)
    requires p.Follows() && p.Idle() && m in p.w.db.missions
    modifies p`w, p`trace, p`own
    ensures p.Follows() && p.Idle() && m in p.w.db.missions && p.w.db.missions[m].status == Validated
    ensures p.own == old(p.own) + [Commit(S.UpdateMission(m, Validated, old(p.w).db.missions[m].traveler))]
    ensures Grows(old(p.w), p.w)
  {
    ValidateIs(p.w, m);
    hide Run, Step, Grows, Process.Follows, Process.Quiet;
    p.Become(Commit(S.UpdateMission(m, Validated, p.w.db.missions[m].traveler)),
             p.w.(db := p.w.db.(missions := p.w.db.missions[m := p.w.db.missions[m].(status := Validated)])));
  }

  /** The rows of a selection: the missions past their timeout in that status, each with the escrow it
      has. */
  ghost predicate Picks(db: Db, stale: seq<Id>, status: MissionStatus, rows: seq<Stalled>) {
    && (forall i :: 0 <= i < |rows| ==>
          && rows[i].m in stale && rows[i].m in db.missions && db.missions[rows[i].m].status == status
          && (rows[i].m in db.escrows ==> rows[i].escrow == Some(db.escrows[rows[i].m]))
          && (rows[i].m !in db.escrows ==> rows[i].escrow == None))
    && (forall m :: (m in stale && m in db.missions && db.missions[m].status == status) ==>
          exists i :: 0 <= i < |rows| && rows[i].m == m)
  }

  /** Sections 6 and 7 of runReconciliation: `oldLocks` and `oldDeposits` are the missions older than
      the two cutoffs. */
  method RunTimeouts(p: Process, oldLocks: seq<Id>, oldDeposits: seq<Id>, reply: Id -> Reply)
    returns (alerts: seq<Alert>, ghost customs: seq<Stalled>, ghost deposits: seq<Stalled>, ghost closed: World)
    requires p.Follows() && p.Idle()
    modifies p`w, p`awaits, p`trace, p`own
    ensures p.Follows() && p.Idle() && |alerts| <= |oldLocks| + |oldDeposits|
    // every stalled mission with an escrow gets its cancel call, and each call ends in a closing or an alert
    ensures forall m :: m in oldLocks && Past(old(p.w).db, m, EscrowLockedCustoms) && m in old(p.w).db.escrows ==>
              CancelForCustoms(p.id, m, reply(m).cancelTookEffect, reply(m).cancelReported) in p.own
    ensures Unclosed(p.own) == Unclosed(old(p.own)) + CustomsAlerts(alerts)
    // undisturbed, every selected row is handled as its intent and the replies have it
    ensures Integrity(old(p.w).db) && Integrity(closed.db)
    ensures Picks(old(p.w).db, oldLocks, EscrowLockedCustoms, customs)
    ensures p.Quiet() ==>
              && closed == Run(old(p.w), Rounds(old(p.w), |customs|, ClosePlan(p.id, customs, reply)))
              && Picks(closed.db, oldDeposits, Deposited, deposits)
              && p.w == Run(closed, Rounds(closed, |deposits|, CollectPlan(p.id, deposits, reply)))
    ensures Invariant(p.start) ==> Invariant(p.w)
  {
    p.Sound();
    hide Run, Step, Grows, Invariant, Process.Follows, Process.Quiet, Integrity, Rounds, ClosePlan, CollectPlan, Picks,
      Unclosed, CustomsAlerts, Past;
    alerts, customs := CloseCustoms(p, oldLocks, reply);
    var more;
    more, deposits, closed := DepositsNext(p, oldDeposits, reply);
    CustomsAlertsOf(alerts, more);
    alerts := alerts + more;
    p.InvariantHolds();
  }

  /** The await between the two sections, and section 7. */
  method DepositsNext(p: Process, oldDeposits: seq<Id>, reply: Id -> Reply)
    returns (alerts: seq<Alert>, ghost deposits: seq<Stalled>, ghost closed: World)
    requires p.Follows() && p.Idle()
    modifies p`w, p`awaits, p`trace, p`own
    ensures p.Follows() && p.Idle() && |alerts| <= |oldDeposits| && old(p.own) <= p.own
    ensures Unclosed(p.own) == Unclosed(old(p.own))
    ensures forall i :: 0 <= i < |alerts| ==> alerts[i].CollectionTimeoutCaptureFailed?
    ensures Integrity(closed.db) && Picks(closed.db, oldDeposits, Deposited, deposits)
    ensures p.Quiet() ==>
              && closed == old(p.w)
              && p.w == Run(closed, Rounds(closed, |deposits|, CollectPlan(p.id, deposits, reply)))
  {
    hide Run, Step, Grows, Process.Follows, Process.Quiet, Integrity, Rounds, CollectPlan, Picks, Unclosed;
    p.Await();
    closed := p.w;
    p.Sound();
    ghost var own := p.own;
    alerts, deposits := CollectDeposits(p, oldDeposits, reply);
    UnclosedKept(own, p.own);
  }

  /** Section 6. */
  method CloseCustoms(p: Process, oldLocks: seq<Id>, reply: Id -> Reply)
    returns (alerts: seq<Alert>, ghost customs: seq<Stalled>)
    requires p.Follows() && p.Idle() && Integrity(p.w.db)
    modifies p`w, p`awaits, p`trace, p`own
    ensures p.Follows() && p.Idle() && |alerts| <= |oldLocks|
    ensures forall m :: m in oldLocks && Past(old(p.w).db, m, EscrowLockedCustoms) && m in old(p.w).db.escrows ==>
              CancelForCustoms(p.id, m, reply(m).cancelTookEffect, reply(m).cancelReported) in p.own
    ensures Unclosed(p.own) == Unclosed(old(p.own)) + CustomsAlerts(alerts)
    ensures Picks(old(p.w).db, oldLocks, EscrowLockedCustoms, customs)
    ensures p.Quiet() ==> p.w == Run(old(p.w), Rounds(old(p.w), |customs|, ClosePlan(p.id, customs, reply)))
  {
    hide Run, Step, Grows, Process.Follows, Process.Quiet, Process.OnPlan, Integrity, Rounds, ClosePlan, Picks, Known;
    ghost var selected, own0 := p.w, p.own;
    var locks := Select(p, oldLocks, EscrowLockedCustoms);
    customs := locks;
    p.StartPlan(ClosePlan(p.id, locks, reply));
    alerts := CloseAll(p, locks, reply);
    p.PlanRan(selected, own0, |locks|, ClosePlan(p.id, locks, reply));
    CancelledAll(selected.db, oldLocks, locks, p.id, reply, p.own);
  }

  /** Section 7. */
  method CollectDeposits(p: Process, oldDeposits: seq<Id>, reply: Id -> Reply)
    returns (alerts: seq<Alert>, ghost deposits: seq<Stalled>)
    requires p.Follows() && p.Idle() && Integrity(p.w.db)
    modifies p`w, p`awaits, p`trace, p`own
    ensures p.Follows() && p.Idle() && |alerts| <= |oldDeposits| && old(p.own) <= p.own
    ensures forall i :: |old(p.own)| <= i < |p.own| ==> !IsCustoms(p.own[i])
    ensures forall i :: 0 <= i < |alerts| ==> alerts[i].CollectionTimeoutCaptureFailed?
    ensures Picks(old(p.w).db, oldDeposits, Deposited, deposits)
    ensures p.Quiet() ==> p.w == Run(old(p.w), Rounds(old(p.w), |deposits|, CollectPlan(p.id, deposits, reply)))
  {
    hide Run, Step, Grows, Process.Follows, Process.Quiet, Process.OnPlan, Integrity, Rounds, CollectPlan, Picks, Known;
    ghost var selected, own0 := p.w, p.own;
    var waiting := Select(p, oldDeposits, Deposited);
    deposits := waiting;
    p.StartPlan(CollectPlan(p.id, waiting, reply));
    alerts := CollectAll(p, waiting, reply);
    p.PlanRan(selected, own0, |waiting|, CollectPlan(p.id, waiting, reply));
  }

  method Select(p: Process, stale: seq<Id>, status: MissionStatus) returns (rows: seq<Stalled>)
    requires p.Follows()
    ensures |rows| <= |stale| && Picks(p.w.db, stale, status, rows)
    ensures forall i :: 0 <= i < |rows| ==> Known(rows[i], p.w.db)
  {
    rows := SelectStalled(p.w.db, stale, status);
  }

  lemma CancelledAll(db: Db, oldLocks: seq<Id>, rows: seq<Stalled>, t: Id, reply: Id -> Reply, own: seq<Move>)
    requires Picks(db, oldLocks, EscrowLockedCustoms, rows)
    requires forall i :: 0 <= i < |rows| && rows[i].escrow.Some? ==>
               CancelForCustoms(t, rows[i].m, reply(rows[i].m).cancelTookEffect, reply(rows[i].m).cancelReported) in own
    ensures forall m :: m in oldLocks && Past(db, m, EscrowLockedCustoms) && m in db.escrows ==>
              CancelForCustoms(t, m, reply(m).cancelTookEffect, reply(m).cancelReported) in own
  {
    forall m | m in oldLocks && Past(db, m, EscrowLockedCustoms) && m in db.escrows
      ensures CancelForCustoms(t, m, reply(m).cancelTookEffect, reply(m).cancelReported) in own {
      var i :| 0 <= i < |rows| && rows[i].m == m;
    }
  }

  function ClosePlan(t: Id, rows: seq<Stalled>, reply: Id -> Reply): (World, nat) -> seq<Move> {
    (w: World, i: nat) => if i < |rows| then CloseMoves(w, t, rows[i], reply(rows[i].m)) else []
  }

  ghost function CollectPlan(t: Id, rows: seq<Stalled>, reply: Id -> Reply): (World, nat) -> seq<Move> {
    (w: World, i: nat) => if i < |rows| then CollectMoves(w, t, rows[i], reply(rows[i].m)) else []
  }

  method CloseAll(p: Process, rows: seq<Stalled>, reply: Id -> Reply) returns (alerts: seq<Alert>)
    requires p.Follows() && p.Idle() && forall i :: 0 <= i < |rows| ==> Known(rows[i], p.w.db)
    requires p.OnPlan(p.w, p.own, 0, ClosePlan(p.id, rows, reply))
    modifies p`w, p`awaits, p`trace, p`own
    ensures p.Follows() && p.Idle() && |alerts| <= |rows|
    ensures forall i :: 0 <= i < |rows| && rows[i].escrow.Some? ==>
              CancelForCustoms(p.id, rows[i].m, reply(rows[i].m).cancelTookEffect,
                               reply(rows[i].m).cancelReported) in p.own
    ensures Unclosed(p.own) == Unclosed(old(p.own)) + CustomsAlerts(alerts)
    ensures p.OnPlan(old(p.w), old(p.own), |rows|, ClosePlan(p.id, rows, reply))
  {
    hide Run, Step, Grows, Process.Follows, Process.OnPlan, Known, ClosePlan, UnclosedShare;
    alerts := [];
    for i := 0 to |rows|
      invariant p.Follows() && p.Idle() && |alerts| <= i && forall j :: 0 <= j < |rows| ==> Known(rows[j], p.w.db)
      invariant Unclosed(p.own) == Unclosed(old(p.own)) + CustomsAlerts(alerts)
      invariant forall j :: 0 <= j < i && rows[j].escrow.Some? ==>
                  CancelForCustoms(p.id, rows[j].m, reply(rows[j].m).cancelTookEffect,
                                   reply(rows[j].m).cancelReported) in p.own
      invariant p.OnPlan(old(p.w), old(p.own), i, ClosePlan(p.id, rows, reply))
    {
      var more := CloseNext(p, rows, reply, i, old(p.w), old(p.own));
      AlertsAppend(alerts, more);
      alerts := alerts + more;
    }
  }

  /** The i-th stalled mission, and the await after it. */
  method CloseNext(p: Process, rows: seq<Stalled>, reply: Id -> Reply, i: nat, ghost w0: World, ghost own0: seq<Move>)
    returns (alerts: seq<Alert>)
    requires p.Follows() && p.Idle() && i < |rows| && forall j :: 0 <= j < |rows| ==> Known(rows[j], p.w.db)
    requires p.OnPlan(w0, own0, i, ClosePlan(p.id, rows, reply))
    modifies p`w, p`awaits, p`trace, p`own
    ensures p.Follows() && p.Idle() && |alerts| <= 1 && forall j :: 0 <= j < |rows| ==> Known(rows[j], p.w.db)
    ensures p.OnPlan(w0, own0, i + 1, ClosePlan(p.id, rows, reply)) && old(p.own) <= p.own
    ensures rows[i].escrow.Some? ==>
              CancelForCustoms(p.id, rows[i].m, reply(rows[i].m).cancelTookEffect,
                               reply(rows[i].m).cancelReported) in p.own
    ensures Unclosed(p.own)
            == Unclosed(old(p.own)) + if |alerts| == 1 && alerts[0].CustomsTimeoutRefundFailed? then 1 else 0
  {
    p.AtRound(w0, own0, i, ClosePlan(p.id, rows, reply));
    hide Run, Step, Grows, Process.Follows, Process.Quiet, Rounds, CloseMoves, ClosePlan, CancelWorks, Known, Integrity,
      Unclosed;
    ghost var before, own, r := p.w, p.own, reply(rows[i].m);
    ghost var cancel := CancelForCustoms(p.id, rows[i].m, r.cancelTookEffect, r.cancelReported);
    CloseRound(before, p.id, rows, reply, i);
    alerts := CloseStalled(p, rows[i], reply(rows[i].m));
    assert rows[i].escrow.Some? ==> p.own[|own|] == cancel;
    UnclosedAfter(own, p.own, cancel, CommitCustoms(p.id));
    KnownStays(rows, before, p.w);
    ghost var after := p.w;
    p.Await();
    KnownStays(rows, after, p.w);
  }

  lemma CloseRound(w: World, t: Id, rows: seq<Stalled>, reply: Id -> Reply, i: nat)
    requires i < |rows|
    ensures ClosePlan(t, rows, reply)(w, i) == CloseMoves(w, t, rows[i], reply(rows[i].m))
  {
  }

  method CollectAll(p: Process, rows: seq<Stalled>, reply: Id -> Reply) returns (alerts: seq<Alert>)
    requires p.Follows() && p.Idle() && forall i :: 0 <= i < |rows| ==> Known(rows[i], p.w.db)
    requires p.OnPlan(p.w, p.own, 0, CollectPlan(p.id, rows, reply))
    modifies p`w, p`awaits, p`trace, p`own
    ensures p.Follows() && p.Idle() && |alerts| <= |rows| && old(p.own) <= p.own
    ensures forall i :: |old(p.own)| <= i < |p.own| ==> !IsCustoms(p.own[i])
    ensures forall i :: 0 <= i < |alerts| ==> alerts[i].CollectionTimeoutCaptureFailed?
    ensures p.OnPlan(old(p.w), old(p.own), |rows|, CollectPlan(p.id, rows, reply))
  {
    hide Run, Step, Grows, Process.Follows, Process.OnPlan, Known, CollectPlan;
    alerts := [];
    for i := 0 to |rows|
      invariant p.Follows() && p.Idle() && |alerts| <= i && forall j :: 0 <= j < |rows| ==> Known(rows[j], p.w.db)
      invariant old(p.own) <= p.own && forall j :: |old(p.own)| <= j < |p.own| ==> !IsCustoms(p.own[j])
      invariant forall j :: 0 <= j < |alerts| ==> alerts[j].CollectionTimeoutCaptureFailed?
      invariant p.OnPlan(old(p.w), old(p.own), i, CollectPlan(p.id, rows, reply))
    {
      var more := CollectNext(p, rows, reply, i, old(p.w), old(p.own));
      alerts := alerts + more;
    }
  }

  /** The i-th deposit, and the await after it. */
  method CollectNext(p: Process, rows: seq<Stalled>, reply: Id -> Reply, i: nat, ghost w0: World, ghost own0: seq<Move>)
    returns (alerts: seq<Alert>)
    requires p.Follows() && p.Idle() && i < |rows| && forall j :: 0 <= j < |rows| ==> Known(rows[j], p.w.db)
    requires p.OnPlan(w0, own0, i, CollectPlan(p.id, rows, reply))
    modifies p`w, p`awaits, p`trace, p`own
    ensures p.Follows() && p.Idle() && forall j :: 0 <= j < |rows| ==> Known(rows[j], p.w.db)
    ensures alerts == [] || alerts == [CollectionTimeoutCaptureFailed(rows[i].m)]
    ensures p.OnPlan(w0, own0, i + 1, CollectPlan(p.id, rows, reply)) && old(p.own) <= p.own
    ensures forall j :: |old(p.own)| <= j < |p.own| ==> !IsCustoms(p.own[j])
  {
    p.AtRound(w0, own0, i, CollectPlan(p.id, rows, reply));
    hide Run, Step, Grows, Process.Follows, Process.Quiet, Rounds, CollectMoves, CollectPlan, Collects, Known,
      Integrity, Invariant;
    ghost var before := p.w;
    CollectRound(before, p.id, rows, reply, i);
    alerts := CollectStalled(p, rows[i], reply(rows[i].m));
    KnownStays(rows, before, p.w);
    ghost var after := p.w;
    p.Await();
    KnownStays(rows, after, p.w);
  }

  lemma CollectRound(w: World, t: Id, rows: seq<Stalled>, reply: Id -> Reply, i: nat)
    requires i < |rows|
    ensures CollectPlan(t, rows, reply)(w, i) == CollectMoves(w, t, rows[i], reply(rows[i].m))
  {
  }

  lemma {:induction false} CustomsAlertsOf(alerts: seq<Alert>, more: seq<Alert>)
    requires forall i :: 0 <= i < |more| ==> more[i].CollectionTimeoutCaptureFailed?
    ensures CustomsAlerts(alerts + more) == CustomsAlerts(alerts)
    decreases |more|
  {
    if |more| == 0 {
      assert alerts + more == alerts;
    } else {
      assert (alerts + more)[..|alerts + more| - 1] == alerts + more[..|more| - 1];
      CustomsAlertsOf(alerts, more[..|more| - 1]);
    }
  }
}

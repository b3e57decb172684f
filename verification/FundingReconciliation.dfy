/** The two passes that clean up after abandoned fundings: roll back a reservation whose intent was
    never authorised, and repair or roll back a funded mission that has no escrow. */
module FundingReconciliation {
  import opened Tables
  import opened World
  import opened WorldSafety
  import opened Machine
  import S = Steps
  import T = Transactions

  const DEFAULT_BATCH_LIMIT: nat := 100

  datatype Counters = Counters(rolledBack: nat, cancelFailed: nat, skipped: nat)

  /** Whether the retrieve call answers, and how the cancel call turns out. */
  datatype Reply = Reply(retrieved: bool, cancelTookEffect: bool, cancelReported: bool)

  datatype Verdict = Skipped | RolledBack(cancelFailed: bool)

  /** The cancel calls among the moves of a process: one for each committed rollback. */
  function Cancels(moves: seq<Move>): nat {
    if |moves| == 0 then 0
    else Cancels(moves[..|moves| - 1]) + if moves[|moves| - 1].CallCancel? then 1 else 0
  }

  lemma CancelsAppend(moves: seq<Move>, x: Move)
    ensures Cancels(moves + [x]) == Cancels(moves) + if x.CallCancel? then 1 else 0
  {
    assert (moves + [x])[..|moves|] == moves;
  }

  function RolledBackBy(v: Verdict): nat {
    if v.RolledBack? then 1 else 0
  }

  /** HELD and uncaptured escrows of FUNDED missions, among those older than the threshold. */
  predicate Reserved(db: Db, m: Id) {
    && m in db.escrows && db.escrows[m].status == Held && db.escrows[m].capturedAmountCents == 0
    && m in db.missions && db.missions[m].status == Funded
  }

  method SelectCandidates(p: Process, stale: set<Id>, batchLimit: nat) returns (ids: seq<Id>)
    requires p.Follows()
    ensures |ids| <= batchLimit && forall i :: 0 <= i < |ids| ==> ids[i] in stale && Reserved(p.w.db, ids[i])
    ensures |ids| < batchLimit ==> forall m :: m in stale && Reserved(p.w.db, m) ==> m in ids
    ensures forall i, j :: 0 <= i < j < |ids| ==> ids[i] != ids[j]
  {
    ids := [];
    var left := stale;
    while left != {} && |ids| < batchLimit
      invariant |ids| <= batchLimit && left <= stale
      invariant forall i, j :: 0 <= i < j < |ids| ==> ids[i] != ids[j]
      invariant forall i :: 0 <= i < |ids| ==> ids[i] !in left
      invariant forall i :: 0 <= i < |ids| ==> ids[i] in stale && Reserved(p.w.db, ids[i])
      invariant forall m :: m in stale && Reserved(p.w.db, m) && m !in left ==> m in ids
      decreases left
    {
      var m :| m in left;
      left := left - {m};
      if Reserved(p.w.db, m) { ids := ids + [m]; }
    }
  }

  /** As many as there are, up to the limit. */
  lemma SelectedAll(seen: set<Id>, batchLimit: nat, ids: seq<Id>)
    requires |ids| <= batchLimit && forall i :: 0 <= i < |ids| ==> ids[i] in seen
    requires |ids| < batchLimit ==> forall m :: m in seen ==> m in ids
    requires forall i, j :: 0 <= i < j < |ids| ==> ids[i] != ids[j]
    ensures |ids| == if |seen| < batchLimit then |seen| else batchLimit
  {
    var chosen := Elements(ids);
    DistinctSize(ids);
    assert |chosen| == |ids|;
    Subset(chosen, seen);
    if |ids| < batchLimit {
      assert seen <= chosen;
      Subset(seen, chosen);
    }
  }

  function Elements(ids: seq<Id>): set<Id> {
    set m | m in ids
  }

  lemma {:induction false} DistinctSize(ids: seq<Id>)
    requires forall i, j :: 0 <= i < j < |ids| ==> ids[i] != ids[j]
    ensures |Elements(ids)| == |ids|
  {
    if |ids| > 0 {
      var shorter, last := ids[..|ids| - 1], ids[|ids| - 1];
      DistinctSize(shorter);
      assert ids == shorter + [last];
      assert last !in shorter;
      assert Elements(ids) == Elements(shorter) + {last};
    }
  }

  lemma Subset(a: set<Id>, b: set<Id>)
    requires a <= b
    ensures |a| <= |b|
  {
    assert b == a + (b - a);
  }

  /** The conditional rollback: both updates must hit, or neither is written. */
  method RollbackRows(db: Db, m: Id) returns (r: Db, committed: bool)
    ensures r == S.RollbackFundingTx(db, m)
    ensures committed <==> Reserved(db, m)
    ensures committed ==> r.escrows[m] == db.escrows[m].(status := Cancelled) && r.missions[m].status == Created
    ensures !committed ==> r == db
  {
    var escrows := db.escrows;
    if !(m in escrows && escrows[m].status == Held && escrows[m].capturedAmountCents == 0) { return db, false; }
    escrows := escrows[m := escrows[m].(status := Cancelled)];
    if !(m in db.missions && db.missions[m].status == Funded) { return db, false; }
    var missions := db.missions[m := db.missions[m].(status := Created)];
    return db.(escrows := escrows, missions := missions), true;
  }

  lemma BeginIs(w: World, t: Id, m: Id)
    requires Integrity(w.db) && Enabled(w, BeginRollback(t, m))
    ensures Step(w, BeginRollback(t, m)) == w.(tasks := w.tasks[t := RollingBack(m, IntentOf(w.db, m), false)])
  {
  }

  lemma CommitIs(w: World, t: Id)
    requires Integrity(w.db) && Enabled(w, CommitRollback(t))
    ensures var db := S.RollbackFundingTx(w.db, w.tasks[t].m);
            Step(w, CommitRollback(t)) == w.(db := db, tasks := w.tasks[t := w.tasks[t].(committed := db != w.db)])
  {
    hide S.RollbackFundingTx;
  }

  /** The rollback transaction of one candidate. */
  method CommitRollbackOf(p: Process, m: Id) returns (committed: bool)
    requires p.Follows() && p.id in p.w.tasks && p.w.tasks[p.id].RollingBack? && !p.w.tasks[p.id].committed
    requires p.w.tasks[p.id].m == m
    modifies p`w, p`trace, p`own
    ensures p.Follows() && p.id in p.w.tasks && p.w.tasks[p.id] == old(p.w).tasks[p.id].(committed := committed)
    ensures Cancels(p.own) == Cancels(old(p.own))
    ensures p.w.db == S.RollbackFundingTx(old(p.w).db, m) && p.w.intents == old(p.w).intents
    ensures Grows(old(p.w), p.w)
    ensures committed <==> Reserved(old(p.w).db, m)
    ensures committed ==>
              && m in p.w.db.escrows && p.w.db.escrows[m].status == Cancelled
              && p.w.db.escrows[m].capturedAmountCents == 0
              && m in p.w.db.missions && p.w.db.missions[m].status == Created
    ensures p.own == old(p.own) + [CommitRollback(p.id)]
  {
    CommitIs(p.w, p.id);
    hide Run, Step, Grows, Process.Follows, Process.Quiet;
    CancelsAppend(p.own, CommitRollback(p.id));
    var db, done := RollbackRows(p.w.db, m);
    committed := done;
    p.Become(CommitRollback(p.id), p.w.(db := db, tasks := p.w.tasks[p.id := p.w.tasks[p.id].(committed := done)]));
  }

  /** One candidate: an intent that is, or may be, authorised is never rolled back; the escrow is
      cancelled first, and only then the intent. `committing` is what the rollback transaction saw. */
  method RollbackCandidate(p: Process, m: Id, r: Reply) returns (verdict: Verdict, ghost committing: World)
    requires p.Follows() && p.Idle() && m in p.w.db.escrows
    modifies p`w, p`awaits, p`trace, p`own
    ensures p.Follows() && p.Idle() && Grows(old(p.w), p.w) && Grows(old(p.w), committing)
    // an unanswered retrieve, and an intent that is authorised, captured or cancelled: nothing happens
    ensures var pi, intents := IntentOf(old(p.w).db, m), old(p.w).intents;
            if !r.retrieved || pi !in intents || intents[pi].status.RequiresCapture?
               || intents[pi].status.Captured? || intents[pi].status.Canceled?
            then verdict == Skipped && p.w == old(p.w) && p.own == old(p.own)
            else
              // otherwise the transaction rolls back exactly a reservation it finds HELD, uncaptured and FUNDED
              && (verdict.RolledBack? <==>
                    && m in committing.db.escrows && committing.db.escrows[m].status == Held
                    && committing.db.escrows[m].capturedAmountCents == 0
                    && m in committing.db.missions && committing.db.missions[m].status == Funded)
              && p.own == old(p.own) + [BeginRollback(p.id, m), CommitRollback(p.id)]
                          + (if verdict.RolledBack? then [CallCancel(p.id, r.cancelTookEffect, r.cancelReported)]
                             else [])
                          + [EndTask(p.id)]
              && (p.Quiet() ==> committing.db == old(p.w).db && committing.intents == intents)
    ensures p.Quiet() ==> p.own == old(p.own) + CandidateMoves(old(p.w), p.id, m, r)
    ensures verdict.RolledBack? ==> m in p.w.db.escrows && p.w.db.escrows[m].status != Held
    ensures Cancels(p.own) == Cancels(old(p.own)) + RolledBackBy(verdict)
    ensures verdict == RolledBack(false) ==>
              var pi := IntentOf(old(p.w).db, m); pi in p.w.intents && p.w.intents[pi].status.Canceled?
    ensures p.Quiet() && verdict.RolledBack? ==>
              && verdict == RolledBack(!(r.cancelTookEffect && r.cancelReported))
              && m in p.w.db.missions && p.w.db.missions[m].status == Created && p.w.db.escrows[m].status == Cancelled
  {
    hide Run, Step, Cancels, Process.Follows, Integrity;
    var pi := IntentOf(p.w.db, m);
    GrowsReflexive(p.w);
    committing := p.w;
    if !r.retrieved || pi !in p.w.intents { return Skipped, committing; }
    var status := p.w.intents[pi].status;
    if !status.RequiresPaymentMethod? && !status.RequiresConfirmation? { return Skipped, committing; }
    hide Grows;
    verdict, committing := RollbackAbandoned(p, m, pi, r);
  }

  /** A candidate whose intent was never authorised. */
  method RollbackAbandoned(p: Process, m: Id, pi: Id, r: Reply) returns (verdict: Verdict, ghost committing: World)
    requires p.Follows() && p.Idle() && m in p.w.db.escrows && pi == IntentOf(p.w.db, m) && pi in p.w.intents
    requires p.w.intents[pi].status.RequiresPaymentMethod? || p.w.intents[pi].status.RequiresConfirmation?
    modifies p`w, p`awaits, p`trace, p`own
    ensures p.Follows() && p.Idle() && Grows(old(p.w), p.w) && Grows(old(p.w), committing)
    ensures verdict.RolledBack? <==> Reserved(committing.db, m)
    ensures p.own == old(p.own) + [BeginRollback(p.id, m), CommitRollback(p.id)]
                     + (if verdict.RolledBack? then [CallCancel(p.id, r.cancelTookEffect, r.cancelReported)] else [])
                     + [EndTask(p.id)]
    ensures p.Quiet() ==> committing.db == old(p.w).db && committing.intents == old(p.w).intents
    ensures verdict.RolledBack? ==> m in p.w.db.escrows && p.w.db.escrows[m].status != Held
    ensures Cancels(p.own) == Cancels(old(p.own)) + RolledBackBy(verdict)
    ensures verdict == RolledBack(false) ==> pi in p.w.intents && p.w.intents[pi].status.Canceled?
    ensures p.Quiet() && verdict.RolledBack? ==>
              && verdict == RolledBack(!(r.cancelTookEffect && r.cancelReported))
              && m in p.w.db.missions && p.w.db.missions[m].status == Created && p.w.db.escrows[m].status == Cancelled
  {
    hide Run, Step, Reserved, Cancels, Grows, Process.Follows, IntentOf;
    ghost var start := p.w;
    BeginCandidate(p, m, pi);
    ghost var begun := p.w;
    verdict, committing := Conclude(p, m, r);
    GrowsTransitive(start, begun, p.w);
    GrowsTransitive(start, begun, committing);
  }

  /** What the pass knows of the candidate once its intent has been retrieved. */
  method BeginCandidate(p: Process, m: Id, pi: Id)
    requires p.Follows() && p.Idle() && m in p.w.db.escrows && pi == IntentOf(p.w.db, m) && pi in p.w.intents
    requires p.w.intents[pi].status.RequiresPaymentMethod? || p.w.intents[pi].status.RequiresConfirmation?
    modifies p`w, p`trace, p`own
    ensures p.Follows() && p.w == old(p.w).(tasks := p.w.tasks) && Grows(old(p.w), p.w)
    ensures p.id in p.w.tasks && p.w.tasks[p.id] == RollingBack(m, pi, false)
    ensures p.own == old(p.own) + [BeginRollback(p.id, m)] && Cancels(p.own) == Cancels(old(p.own))
  {
    BeginIs(p.w, p.id, m);
    hide Run, Step, Grows, Cancels, Process.Follows, Process.Quiet;
    CancelsAppend(p.own, BeginRollback(p.id, m));
    p.Become(BeginRollback(p.id, m), p.w.(tasks := p.w.tasks[p.id := RollingBack(m, pi, false)]));
  }

  /** From the retrieved status to the end: rollback transaction, then the best-effort cancel. */
  method Conclude(p: Process, m: Id, r: Reply) returns (verdict: Verdict, ghost committing: World)
    requires p.Follows() && p.id in p.w.tasks && p.w.tasks[p.id].RollingBack? && !p.w.tasks[p.id].committed
    requires p.w.tasks[p.id].m == m
    modifies p`w, p`awaits, p`trace, p`own
    ensures Cancels(p.own) == Cancels(old(p.own)) + RolledBackBy(verdict)
    ensures p.own == old(p.own) + [CommitRollback(p.id)]
                     + (if verdict.RolledBack? then [CallCancel(p.id, r.cancelTookEffect, r.cancelReported)] else [])
                     + [EndTask(p.id)]
    ensures verdict == RolledBack(false) ==>
              var pi := old(p.w).tasks[p.id].pi; pi in p.w.intents && p.w.intents[pi].status.Canceled?
    ensures p.Follows() && p.Idle() && Grows(old(p.w), p.w) && Grows(old(p.w), committing)
    ensures verdict.RolledBack? <==> Reserved(committing.db, m)
    ensures verdict.RolledBack? ==> m in p.w.db.escrows && p.w.db.escrows[m].status != Held
    ensures p.Quiet() ==> committing.db == old(p.w).db && committing.intents == old(p.w).intents
    ensures p.Quiet() && verdict.RolledBack? ==>
              && m in p.w.db.missions && p.w.db.missions[m].status == Created && p.w.db.escrows[m].status == Cancelled
              && var pi, intents := old(p.w).tasks[p.id].pi, old(p.w).intents;
              (pi in intents && !Final(intents[pi].status) ==>
                 verdict == RolledBack(!(r.cancelTookEffect && r.cancelReported)))
  {
    hide Run, Step, Reserved, S.RollbackFundingTx, IntentsAdvance, Grows, Process.Follows, Process.Quiet, Cancels;
    ghost var w0 := p.w;
    p.Await();
    committing := p.w;
    var committed := CommitRollbackOf(p, m);
    ghost var w2 := p.w;
    GrowsTransitive(w0, committing, w2);
    if !committed {
      CancelsAppend(p.own, EndTask(p.id));
      p.EndTask();
      GrowsTransitive(w0, w2, p.w);
      return Skipped, committing;
    }
    p.Await();
    ghost var w3 := p.w;
    StaysClosed(w2, w3, m);
    GrowsTransitive(w0, w2, w3);
    CancelsAppend(p.own, CallCancel(p.id, r.cancelTookEffect, r.cancelReported));
    var cancelled := p.CallCancel(r.cancelTookEffect, r.cancelReported);
    CancelsAppend(p.own, EndTask(p.id));
    ghost var w4 := p.w;
    GrowsTransitive(w0, w3, w4);
    p.EndTask();
    GrowsTransitive(w0, w4, p.w);
    return RolledBack(!cancelled), committing;
  }

  lemma StaysClosed(a: World, b: World, m: Id)
    requires Grows(a, b) && m in a.db.escrows && a.db.escrows[m].status != Held
    ensures m in b.db.escrows && b.db.escrows[m].status != Held
  {
  }

  /** What the pass does with one candidate when nobody interferes. */
  function CandidateMoves(w: World, t: Id, m: Id, r: Reply): seq<Move> {
    var pi := IntentOf(w.db, m);
    if !r.retrieved || pi !in w.intents || w.intents[pi].status.RequiresCapture?
       || w.intents[pi].status.Captured? || w.intents[pi].status.Canceled? then []
    else
      [BeginRollback(t, m), CommitRollback(t)]
      + (if m in w.db.escrows && w.db.escrows[m].status == Held && w.db.escrows[m].capturedAmountCents == 0
            && m in w.db.missions && w.db.missions[m].status == Funded
         then [CallCancel(t, r.cancelTookEffect, r.cancelReported)] else [])
      + [EndTask(t)]
  }

  function CandidatePlan(t: Id, ids: seq<Id>, reply: nat -> Reply): (World, nat) -> seq<Move> {
    (w: World, i: nat) => if i < |ids| then CandidateMoves(w, t, ids[i], reply(i)) else []
  }

  lemma CandidateRound(w: World, t: Id, ids: seq<Id>, reply: nat -> Reply, i: nat)
    requires i < |ids|
    ensures CandidatePlan(t, ids, reply)(w, i) == CandidateMoves(w, t, ids[i], reply(i))
  {
  }

  lemma EscrowsStay(a: World, b: World)
    requires Grows(a, b)
    ensures a.db.escrows.Keys <= b.db.escrows.Keys
  {
  }

  /** The selection: the stale rows that are HELD, uncaptured and FUNDED, up to the limit. */
  ghost predicate Picks(db: Db, stale: set<Id>, batchLimit: nat, ids: seq<Id>) {
    && |ids| <= batchLimit && (forall i, j :: 0 <= i < j < |ids| ==> ids[i] != ids[j])
    && (forall i :: 0 <= i < |ids| ==>
          && ids[i] in stale && ids[i] in db.escrows && db.escrows[ids[i]].status == Held
          && db.escrows[ids[i]].capturedAmountCents == 0
          && ids[i] in db.missions && db.missions[ids[i]].status == Funded)
    && (|ids| < batchLimit ==>
          forall m :: (m in stale && m in db.escrows && db.escrows[m].status == Held
                       && db.escrows[m].capturedAmountCents == 0
                       && m in db.missions && db.missions[m].status == Funded) ==> m in ids)
  }

  /** RollbackCandidate, as the pass counts it. */
  method RollbackOne(p: Process, m: Id, r: Reply) returns (verdict: Verdict)
    requires p.Follows() && p.Idle() && m in p.w.db.escrows
    modifies p`w, p`awaits, p`trace, p`own
    ensures p.Follows() && p.Idle() && Grows(old(p.w), p.w)
    ensures p.Quiet() ==> p.own == old(p.own) + CandidateMoves(old(p.w), p.id, m, r)
    ensures Cancels(p.own) == Cancels(old(p.own)) + RolledBackBy(verdict)
  {
    hide Run, Step, Grows, Process.Follows, Process.Quiet, CandidateMoves, Cancels, IntentOf, Reserved, Integrity;
    ghost var committing;
    verdict, committing := RollbackCandidate(p, m, r);
  }

  /** The i-th candidate. */
  method NextCandidate(p: Process, ids: seq<Id>, reply: nat -> Reply, i: nat, ghost w0: World, ghost own0: seq<Move>)
    returns (verdict: Verdict)
    requires p.Follows() && p.Idle() && i < |ids| && ids[i] in p.w.db.escrows
    requires p.OnPlan(w0, own0, i, CandidatePlan(p.id, ids, reply))
    modifies p`w, p`awaits, p`trace, p`own
    ensures p.Follows() && p.Idle() && old(p.w).db.escrows.Keys <= p.w.db.escrows.Keys
    ensures p.OnPlan(w0, own0, i + 1, CandidatePlan(p.id, ids, reply))
    ensures Cancels(p.own) == Cancels(old(p.own)) + RolledBackBy(verdict)
  {
    p.AtRound(w0, own0, i, CandidatePlan(p.id, ids, reply));
    hide Run, Step, Grows, Process.Follows, Process.Quiet, Rounds, CandidatePlan, CandidateMoves, Cancels, IntentOf,
      Final, Reserved, Integrity, RolledBackBy;
    ghost var before := p.w;
    p.Await();
    EscrowsStay(before, p.w);
    before := p.w;
    verdict := RollbackOne(p, ids[i], reply(i));
    EscrowsStay(before, p.w);
    CandidateRound(before, p.id, ids, reply, i);
  }

  method PickCandidates(p: Process, stale: set<Id>, batchLimit: nat) returns (ids: seq<Id>)
    requires p.Follows()
    ensures Picks(p.w.db, stale, batchLimit, ids) && forall i :: 0 <= i < |ids| ==> ids[i] in p.w.db.escrows
    ensures var seen := set m | m in stale && Reserved(p.w.db, m);
            |ids| == if |seen| < batchLimit then |seen| else batchLimit
  {
    hide Run, Process.Follows;
    ids := SelectCandidates(p, stale, batchLimit);
    SelectedAll((set m | m in stale && Reserved(p.w.db, m)), batchLimit, ids);
  }

  /** runFundingReconciliationOnce; `stale` are the escrows older than the threshold. */
  method RunOnce(p: Process, stale: set<Id>, batchLimit: nat, reply: nat -> Reply)
    returns (result: Counters, ghost picked: seq<Id>)
    requires p.Follows() && p.Idle()
    modifies p`w, p`awaits, p`trace, p`own
    ensures p.Follows() && p.Idle()
    ensures result.rolledBack + result.skipped <= batchLimit && result.cancelFailed <= result.rolledBack
    // every rollback, and nothing else, calls cancel; no reservation abandoned at the start is passed over
    ensures Cancels(p.own) == Cancels(old(p.own)) + result.rolledBack
    ensures var seen := set m | m in stale && Reserved(old(p.w).db, m);
            result.rolledBack + result.skipped == if |seen| < batchLimit then |seen| else batchLimit
    // undisturbed, it does with each selected candidate what its intent calls for
    ensures Picks(old(p.w).db, stale, batchLimit, picked)
    ensures p.OnPlan(old(p.w), old(p.own), |picked|, CandidatePlan(p.id, picked, reply))
    ensures Invariant(p.start) ==> Invariant(p.w)
  {
    hide Run, Step, Invariant, Process.Follows, CandidatePlan, Picks, Reserved, Process.OnPlan, Cancels;
    var candidates := PickCandidates(p, stale, batchLimit);
    picked := candidates;
    p.StartPlan(CandidatePlan(p.id, candidates, reply));
    result := Counters(0, 0, 0);
    for i := 0 to |candidates|
      invariant p.Follows() && p.Idle()
      invariant result.rolledBack + result.skipped == i && result.cancelFailed <= result.rolledBack
      invariant Cancels(p.own) == Cancels(old(p.own)) + result.rolledBack
      invariant forall j :: 0 <= j < |candidates| ==> candidates[j] in p.w.db.escrows
      invariant p.OnPlan(old(p.w), old(p.own), i, CandidatePlan(p.id, candidates, reply))
    {
      var verdict := NextCandidate(p, candidates, reply, i, old(p.w), old(p.own));
      match verdict {
        case Skipped => result := result.(skipped := result.skipped + 1);
        case RolledBack(cancelFailed) =>
          result := result.(rolledBack := result.rolledBack + 1,
                            cancelFailed := if cancelFailed then result.cancelFailed + 1 else result.cancelFailed);
      }
    }
    p.InvariantHolds();
  }

  // ----- Funded missions without an escrow

  datatype OrphanCounters = OrphanCounters(escrowRecreated: nat, rolledBack: nat, skipped: nat)

  datatype OrphanVerdict = Recreated | Reopened | LeftAlone

  /** The repairs and the reopenings among the moves of a process. */
  function RepairsOf(moves: seq<Move>): OrphanCounters {
    if |moves| == 0 then OrphanCounters(0, 0, 0)
    else Sum(RepairsOf(moves[..|moves| - 1]), RepairShare(moves[|moves| - 1]))
  }

  function RepairShare(x: Move): OrphanCounters {
    if x.RepairOrphan? then OrphanCounters(1, 0, 0)
    else if x.Commit? then OrphanCounters(0, 1, 0)
    else OrphanCounters(0, 0, 0)
  }

  /** What the search by mission returns: nothing at all when the call fails, otherwise intents of that
      mission. */
  datatype Search = SearchFailed | Found(intents: seq<Id>)

  predicate SearchTruthful(w: World, m: Id, s: Search) {
    s.Found? ==> forall i :: 0 <= i < |s.intents| ==>
      s.intents[i] in w.intents && w.intents[s.intents[i]].missionId == m
  }

  /** The search answers from the intents there are. */
  ghost predicate Honest(search: (World, Id) -> Search) {
    forall w, m :: SearchTruthful(w, m, search(w, m))
  }

  lemma AnswersTruly(search: (World, Id) -> Search, w: World, m: Id)
    requires Honest(search)
    ensures SearchTruthful(w, m, search(w, m))
  {
  }

  function FirstLive(w: World, ids: seq<Id>): Option<Id> {
    if |ids| == 0 then None
    else if ids[0] in w.intents && !w.intents[ids[0]].status.Canceled? then Some(ids[0])
    else FirstLive(w, ids[1..])
  }

  /** The first intent of the search that is not cancelled, if there is one. */
  lemma {:induction false} FirstLiveIs(w: World, ids: seq<Id>)
    requires forall i :: 0 <= i < |ids| ==> ids[i] in w.intents
    ensures match FirstLive(w, ids)
            case None => forall i :: 0 <= i < |ids| ==> w.intents[ids[i]].status.Canceled?
            case Some(live) =>
              exists i :: 0 <= i < |ids| && ids[i] == live && !w.intents[live].status.Canceled?
                          && forall j :: 0 <= j < i ==> w.intents[ids[j]].status.Canceled?
  {
    if |ids| > 0 && w.intents[ids[0]].status.Canceled? {
      FirstLiveIs(w, ids[1..]);
      assert forall i :: 0 < i < |ids| ==> ids[i] == ids[1..][i - 1];
      if FirstLive(w, ids).Some? {
        var k :| 0 <= k < |ids[1..]| && ids[1..][k] == FirstLive(w, ids).value
                 && forall j :: 0 <= j < k ==> w.intents[ids[1..][j]].status.Canceled?;
        assert ids[k + 1] == FirstLive(w, ids).value;
        assert forall j :: 0 <= j < k + 1 ==> w.intents[ids[j]].status.Canceled?;
      }
    }
  }

  method FindLive(w: World, ids: seq<Id>) returns (pi: Option<Id>)
    requires forall i :: 0 <= i < |ids| ==> ids[i] in w.intents
    ensures pi == FirstLive(w, ids) && (pi.Some? ==> pi.value in ids)
  {
    for i := 0 to |ids|
      invariant FirstLive(w, ids) == FirstLive(w, ids[i..])
    {
      assert ids[i..][0] == ids[i] && ids[i..][1..] == ids[i + 1..];
      if !w.intents[ids[i]].status.Canceled? { return Some(ids[i]); }
    }
    return None;
  }

  predicate Orphan(db: Db, m: Id) {
    m in db.missions && db.missions[m].status == Funded && m !in db.escrows
  }

  lemma RepairIs(w: World, m: Id, pi: Id)
    requires Integrity(w.db) && Enabled(w, RepairOrphan(m, pi))
    ensures Step(w, RepairOrphan(m, pi))
            == w.(db := if pi in w.db.byPaymentIntent then w.db
                  else T.AddEscrow(w.db, m, pi, w.db.missions[m].budgetCents))
  {
    hide T.AddEscrow;
  }

  lemma ReopenIs(w: World, m: Id)
    requires Integrity(w.db) && Orphan(w.db, m)
    ensures Step(w, Commit(S.UpdateMission(m, Created, w.db.missions[m].traveler)))
            == w.(db := w.db.(missions := w.db.missions[m := w.db.missions[m].(status := Created)]))
  {
  }

  /** What the pass does with one orphan when nobody interferes. */
  function RepairMoves(w: World, m: Id, search: Search): seq<Move> {
    if search.SearchFailed? || m !in w.db.missions || w.db.missions[m].status != Funded || m in w.db.escrows then []
    else
      match FirstLive(w, search.intents)
      case None => [Commit(S.UpdateMission(m, Created, w.db.missions[m].traveler))]
      case Some(pi) => if pi in w.db.byPaymentIntent then [] else [RepairOrphan(m, pi)]
  }

  function RepairPlan(ids: seq<Id>, search: (World, Id) -> Search): (World, nat) -> seq<Move> {
    (w: World, i: nat) => if i < |ids| then RepairMoves(w, ids[i], search(w, ids[i])) else []
  }

  lemma RepairRound(w: World, ids: seq<Id>, search: (World, Id) -> Search, i: nat)
    requires i < |ids|
    ensures RepairPlan(ids, search)(w, i) == RepairMoves(w, ids[i], search(w, ids[i]))
  {
  }

  /** One orphan: `found` is the first live intent of the search, and the transaction checks again
      that the mission is FUNDED and has no escrow in what it sees, `checked`. */
  method RepairMission(p: Process, m: Id, search: Search)
    returns (verdict: OrphanVerdict, ghost found: Option<Id>, ghost checked: World)
    requires p.Follows() && p.Idle() && SearchTruthful(p.w, m, search)
    modifies p`w, p`awaits, p`trace, p`own
    ensures p.Follows() && p.Idle() && Grows(old(p.w), checked) && (p.Quiet() ==> checked == old(p.w))
    ensures search.SearchFailed? ==> verdict == LeftAlone && p.w == old(p.w)
    ensures search.Found? ==> found == FirstLive(old(p.w), search.intents)
    ensures search.Found? ==>
              verdict == if !(m in checked.db.missions && checked.db.missions[m].status == Funded
                              && m !in checked.db.escrows)
                         then LeftAlone
                         else if found.None? then Reopened
                         else if found.value in checked.db.byPaymentIntent then LeftAlone else Recreated
    ensures match verdict
            case Recreated =>
              && p.own == old(p.own) + [RepairOrphan(m, found.value)] && m in checked.db.missions
              && p.w.db.escrows
                 == checked.db.escrows[m := Escrow(found.value, Held, 0, checked.db.missions[m].budgetCents)]
              && p.w.db.missions == checked.db.missions
            case Reopened =>
              && m in checked.db.missions && p.w.db.escrows == checked.db.escrows
              && p.own == old(p.own) + [Commit(S.UpdateMission(m, Created, checked.db.missions[m].traveler))]
              && p.w.db.missions == checked.db.missions[m := checked.db.missions[m].(status := Created)]
            case LeftAlone => p.own == old(p.own) && p.w == checked
    ensures p.Quiet() ==> p.own == old(p.own) + RepairMoves(old(p.w), m, search)
  {
    hide Run, Step, IntentsAdvance, Process.Follows;
    found, checked := None, p.w;
    GrowsReflexive(p.w);
    if search.SearchFailed? { return LeftAlone, found, checked; }
    var pi := FindLive(p.w, search.intents);
    found := pi;
    ghost var before := p.w;
    p.Await();
    checked := p.w;
    if pi.Some? { TruthGrows(before, p.w, m, search, pi.value); }
    var db := p.w.db;
    if !(m in db.missions && db.missions[m].status == Funded && m !in db.escrows) { return LeftAlone, found, checked; }
    if pi.Some? {
      if pi.value in db.byPaymentIntent { return LeftAlone, found, checked; }
      RecreateEscrow(p, m, pi.value);
      return Recreated, found, checked;
    }
    ReopenMission(p, m);
    return Reopened, found, checked;
  }

  /** The escrow of an orphan, on the intent found for it. */
  method RecreateEscrow(p: Process, m: Id, pi: Id)
    requires p.Follows() && p.Idle() && Orphan(p.w.db, m) && pi !in p.w.db.byPaymentIntent
    requires pi in p.w.intents && p.w.intents[pi].missionId == m
    modifies p`w, p`trace, p`own
    ensures p.Follows() && p.Idle() && p.own == old(p.own) + [RepairOrphan(m, pi)]
    ensures p.w.db.escrows == old(p.w).db.escrows[m := Escrow(pi, Held, 0, old(p.w).db.missions[m].budgetCents)]
    ensures p.w.db.missions == old(p.w).db.missions
  {
    RepairIs(p.w, m, pi);
    hide Run, Step, Grows, Process.Follows, Process.Quiet;
    var db := p.w.db;
    p.Become(RepairOrphan(m, pi),
             p.w.(db := db.(escrows := db.escrows[m := Escrow(pi, Held, 0, db.missions[m].budgetCents)],
                            byPaymentIntent := db.byPaymentIntent[pi := m])));
  }

  /** No intent was ever created for the orphan: FUNDED -> CREATED. */
  method ReopenMission(p: Process, m: Id)
    requires p.Follows() && p.Idle() && Orphan(p.w.db, m)
    modifies p`w, p`trace, p`own
    ensures p.Follows() && p.Idle()
    ensures p.own == old(p.own) + [Commit(S.UpdateMission(m, Created, old(p.w).db.missions[m].traveler))]
    ensures p.w.db.missions == old(p.w).db.missions[m := old(p.w).db.missions[m].(status := Created)]
    ensures p.w.db.escrows == old(p.w).db.escrows
  {
    ReopenIs(p.w, m);
    hide Run, Step, Grows, Process.Follows, Process.Quiet;
    var db := p.w.db;
    p.Become(Commit(S.UpdateMission(m, Created, db.missions[m].traveler)),
             p.w.(db := db.(missions := db.missions[m := db.missions[m].(status := Created)])));
  }

  lemma TruthGrows(a: World, b: World, m: Id, s: Search, pi: Id)
    requires Grows(a, b) && SearchTruthful(a, m, s) && s.Found? && pi in s.intents
    ensures pi in b.intents && b.intents[pi].missionId == m
  {
    var i :| 0 <= i < |s.intents| && s.intents[i] == pi;
  }

  function RepairCount(v: OrphanVerdict): OrphanCounters {
    match v
    case Recreated => OrphanCounters(1, 0, 0)
    case Reopened => OrphanCounters(0, 1, 0)
    case LeftAlone => OrphanCounters(0, 0, 1)
  }

  function Sum(a: OrphanCounters, b: OrphanCounters): OrphanCounters {
    OrphanCounters(a.escrowRecreated + b.escrowRecreated, a.rolledBack + b.rolledBack, a.skipped + b.skipped)
  }

  /** The i-th orphan. */
  method NextOrphan(p: Process, ids: seq<Id>, search: (World, Id) -> Search, i: nat, ghost w0: World,
                    ghost own0: seq<Move>)
    returns (verdict: OrphanVerdict)
    requires p.Follows() && p.Idle() && i < |ids| && Honest(search)
    requires p.OnPlan(w0, own0, i, RepairPlan(ids, search))
    modifies p`w, p`awaits, p`trace, p`own
    ensures p.Follows() && p.Idle() && p.OnPlan(w0, own0, i + 1, RepairPlan(ids, search))
    ensures RepairsOf(p.own) == Sum(RepairsOf(old(p.own)), RepairCount(verdict).(skipped := 0))
  {
    hide Run, Step, Grows, Process.Follows, Process.Quiet, Rounds, RepairPlan, RepairMoves, RepairsOf, FirstLive,
      SearchTruthful, Integrity, Sum, RepairCount, Honest;
    p.Await();
    p.AtRound(w0, own0, i, RepairPlan(ids, search));
    var found := search(p.w, ids[i]);
    AnswersTruly(search, p.w, ids[i]);
    RepairRound(p.w, ids, search, i);
    verdict := RepairOne(p, ids[i], found);
  }

  lemma RepairsAppend(moves: seq<Move>, x: Move)
    requires x.RepairOrphan? || x.Commit?
    ensures RepairsOf(moves + [x])
            == Sum(RepairsOf(moves), RepairCount(if x.RepairOrphan? then Recreated else Reopened))
  {
    assert (moves + [x])[..|moves|] == moves;
  }

  /** RepairMission, as the pass counts it. */
  method RepairOne(p: Process, m: Id, search: Search) returns (verdict: OrphanVerdict)
    requires p.Follows() && p.Idle() && SearchTruthful(p.w, m, search)
    modifies p`w, p`awaits, p`trace, p`own
    ensures p.Follows() && p.Idle() && (p.Quiet() ==> p.own == old(p.own) + RepairMoves(old(p.w), m, search))
    ensures RepairsOf(p.own) == Sum(RepairsOf(old(p.own)), RepairCount(verdict).(skipped := 0))
  {
    hide Process.Follows, Process.Quiet, RepairMoves, SearchTruthful, FirstLive, RepairsOf, Run, Integrity;
    ghost var own := p.own;
    ghost var found, checked;
    verdict, found, checked := RepairMission(p, m, search);
    match verdict {
      case LeftAlone =>
      case Recreated => RepairsAppend(own, RepairOrphan(m, found.value));
      case Reopened => RepairsAppend(own, Commit(S.UpdateMission(m, Created, checked.db.missions[m].traveler)));
    }
  }

  /** The selection: the stale missions that are FUNDED without an escrow, up to the limit. */
  ghost predicate PicksOrphans(db: Db, stale: set<Id>, batchLimit: nat, ids: seq<Id>) {
    && |ids| <= batchLimit && (forall i, j :: 0 <= i < j < |ids| ==> ids[i] != ids[j])
    && (forall i :: 0 <= i < |ids| ==>
          ids[i] in stale && ids[i] in db.missions && db.missions[ids[i]].status == Funded && ids[i] !in db.escrows)
    && (|ids| < batchLimit ==>
          forall m :: (m in stale && m in db.missions && db.missions[m].status == Funded && m !in db.escrows) ==>
            m in ids)
  }

  /** runOrphanFundingReconciliationOnce; `stale` are the missions older than the threshold, and
      `search` answers from the intents there are. */
  method RunOrphansOnce(p: Process, stale: set<Id>, batchLimit: nat, search: (World, Id) -> Search)
    returns (result: OrphanCounters, ghost picked: seq<Id>)
    requires p.Follows() && p.Idle()
    requires Honest(search)
    modifies p`w, p`awaits, p`trace, p`own
    ensures p.Follows() && p.Idle()
    // every selected orphan is repaired, reopened or left alone
    ensures PicksOrphans(old(p.w).db, stale, batchLimit, picked)
    ensures result.escrowRecreated + result.rolledBack + result.skipped == |picked|
    ensures RepairsOf(p.own) == Sum(RepairsOf(old(p.own)), result.(skipped := 0))
    // undisturbed, by what the search found for it
    ensures p.OnPlan(old(p.w), old(p.own), |picked|, RepairPlan(picked, search))
    ensures Invariant(p.start) ==> Invariant(p.w)
  {
    hide Run, Step, Invariant, Honest, Process.Follows, Process.OnPlan, RepairPlan, RepairsOf, PicksOrphans;
    result := OrphanCounters(0, 0, 0);
    var orphans := SelectOrphans(p, stale, batchLimit);
    picked := orphans;
    p.StartPlan(RepairPlan(orphans, search));
    for i := 0 to |orphans|
      invariant p.Follows() && p.Idle()
      invariant result.escrowRecreated + result.rolledBack + result.skipped == i
      invariant RepairsOf(p.own) == Sum(RepairsOf(old(p.own)), result.(skipped := 0))
      invariant p.OnPlan(old(p.w), old(p.own), i, RepairPlan(orphans, search))
    {
      var verdict := NextOrphan(p, orphans, search, i, old(p.w), old(p.own));
      result := Sum(result, RepairCount(verdict));
    }
    p.InvariantHolds();
  }

  method SelectOrphans(p: Process, stale: set<Id>, batchLimit: nat) returns (ids: seq<Id>)
    ensures PicksOrphans(p.w.db, stale, batchLimit, ids)
  {
    ids := [];
    var left := stale;
    while left != {} && |ids| < batchLimit
      invariant |ids| <= batchLimit && left <= stale
      invariant forall i, j :: 0 <= i < j < |ids| ==> ids[i] != ids[j]
      invariant forall i :: 0 <= i < |ids| ==> ids[i] in stale && Orphan(p.w.db, ids[i]) && ids[i] !in left
      invariant forall m :: m in stale && Orphan(p.w.db, m) && m !in left ==> m in ids
      decreases left
    {
      var m :| m in left;
      left := left - {m};
      if Orphan(p.w.db, m) { ids := ids + [m]; }
    }
  }
}

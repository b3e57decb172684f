/** One pass of the worker that debits fraud penalties: claim, debit with the row's key, release the
    buyer's hold only if the debit succeeded, then escrow and row in one transaction. */
module PenaltyWorker {
  import opened Tables
  import opened World
  import opened WorldSafety
  import opened Machine
  import opened PenaltyRefinement
  import S = Steps
  import O = Outbox

  const DEFAULT_MAX_ATTEMPTS: nat := 5
  const DEFAULT_BATCH_LIMIT: nat := 50

  /** How the calls and writes for one claimed row turn out. */
  datatype Reply = Reply(
    cardOnFile: bool, reached: bool, approved: bool, debitReported: bool,
    cancelTookEffect: bool, cancelReported: bool, verdictWritten: bool)

  /** A worker's copy of the row it claimed, with the escrow as it was at the claim. */
  datatype Claimed = Claimed(claim: O.Claim, saw: Option<EscrowStatus>, pi: Id)

  datatype Counters = Counters(settled: nat, failed: nat, abandoned: nat)

  datatype Verdict = DidSettle | DidFail | DidAbandon

  /** The verdicts among the moves of a process. */
  function CountersOf(moves: seq<Move>): Counters {
    if |moves| == 0 then Counters(0, 0, 0)
    else Counted(CountersOf(moves[..|moves| - 1]), moves[|moves| - 1])
  }

  function Counted(c: Counters, x: Move): Counters {
    if x.CommitPenalty? then c.(settled := c.settled + 1)
    else if x.FailPenalty? && !x.abandon then c.(failed := c.failed + 1)
    else if x.FailPenalty? then c.(abandoned := c.abandoned + 1)
    else c
  }

  function Add(c: Counters, v: Verdict): Counters {
    match v
    case DidSettle => c.(settled := c.settled + 1)
    case DidFail => c.(failed := c.failed + 1)
    case DidAbandon => c.(abandoned := c.abandoned + 1)
  }

  lemma CountedAppend(moves: seq<Move>, x: Move)
    ensures CountersOf(moves + [x]) == Counted(CountersOf(moves), x)
  {
    assert (moves + [x])[..|moves|] == moves;
  }

  /** What this process holds for a claimed row. */
  ghost predicate Holds(p: Process, c: Claimed, cancelled: bool, stage: O.Stage)
    reads p`w
  {
    && c.claim.key in p.w.db.penalties
    && p.id in p.w.tasks && p.w.tasks[p.id] == Penalising(c.claim.(stage := stage), c.saw, c.pi, cancelled)
  }

  /** claimNext: SUBMITTED is committed before any call. */
  method ClaimNext(p: Process, locked: set<Id>) returns (claimed: Option<Claimed>)
    requires p.Follows() && p.Idle()
    modifies p`w, p`trace, p`own
    ensures p.Follows() && CountersOf(p.own) == CountersOf(old(p.own))
    ensures claimed.None? ==>
              && p.w == old(p.w)
              && forall k :: k in p.w.db.penalties && k !in locked ==>
                   !O.Eligible(p.w.db.penalties[k], p.w.now, p.w.limits.penalties)
    ensures claimed.Some? ==>
              && var m, before := claimed.value.claim.key, old(p.w).db;
              && m in before.penalties && m !in locked
              && Oldest(old(p.w), locked, m)
              && p.w == Step(old(p.w), BeginPenalty(p.id, m))
              && claimed.value == ClaimedFrom(old(p.w), m)
              && claimed.value.claim == O.Claim(m, before.penalties[m].amountCents, before.penalties[m].destination,
                                                before.penalties[m].attempts, old(p.w).now, O.Claimed)
              && (m in before.escrows ==>
                    && claimed.value.saw == Some(before.escrows[m].status)
                    && claimed.value.pi == before.escrows[m].stripePaymentIntentId)
              && (m !in before.escrows ==> claimed.value.saw == None)
              && Holds(p, claimed.value, false, O.Claimed)
    ensures p.own == old(p.own) + if claimed.Some? then [BeginPenalty(p.id, claimed.value.claim.key)] else []
    ensures Grows(old(p.w), p.w) && p.w.charges == old(p.w).charges && p.w.refusals == old(p.w).refusals
            && p.w.intents == old(p.w).intents && p.w.limits == old(p.w).limits
  {
    var candidate := O.OldestEligible(p.w.db.penalties, p.w.now, p.w.limits.penalties, locked);
    GrowsReflexive(p.w);
    if candidate.None? { return None; }
    hide Run, Step, Grows, Process.Follows, Process.Quiet, ClaimedFrom;
    var c := ClaimRow(p, candidate.value);
    return Some(c);
  }

  /** The update to SUBMITTED and the projection of the row, in the transaction of the selection. */
  method ClaimRow(p: Process, m: Id) returns (c: Claimed)
    requires p.Follows() && p.Idle() && m in p.w.db.penalties
    requires O.Eligible(p.w.db.penalties[m], p.w.now, p.w.limits.penalties)
    modifies p`w, p`trace, p`own
    ensures p.Follows() && p.w == Step(old(p.w), BeginPenalty(p.id, m)) && Grows(old(p.w), p.w)
    ensures c == ClaimedFrom(old(p.w), m) && Holds(p, c, false, O.Claimed)
    ensures c.claim == O.Claim(m, old(p.w).db.penalties[m].amountCents, old(p.w).db.penalties[m].destination,
                               old(p.w).db.penalties[m].attempts, old(p.w).now, O.Claimed)
    ensures m in old(p.w).db.escrows ==>
              c.saw == Some(old(p.w).db.escrows[m].status) && c.pi == old(p.w).db.escrows[m].stripePaymentIntentId
    ensures m !in old(p.w).db.escrows ==> c.saw == None
    ensures p.own == old(p.own) + [BeginPenalty(p.id, m)] && CountersOf(p.own) == CountersOf(old(p.own))
    ensures p.w.charges == old(p.w).charges && p.w.refusals == old(p.w).refusals
            && p.w.intents == old(p.w).intents && p.w.limits == old(p.w).limits
  {
    ClaimIs(p.w, p.id, m);
    hide Run, Step, O.Eligible, Grows, Process.Follows, Process.Quiet, ClaimedFrom;
    var row := p.w.db.penalties[m];
    c := ReadClaim(p.w, m);
    CountedAppend(p.own, BeginPenalty(p.id, m));
    p.Become(BeginPenalty(p.id, m),
             p.w.(db := p.w.db.(penalties := p.w.db.penalties[m := row.(status := Submitted, updatedAt := p.w.now)]),
                  tasks := p.w.tasks[p.id := Penalising(c.claim, c.saw, c.pi, false)]));
  }

  /** The row and the escrow as the claiming transaction reads them. */
  method ReadClaim(w: World, m: Id) returns (c: Claimed)
    requires m in w.db.penalties
    ensures c == ClaimedFrom(w, m)
    ensures c.claim == O.Claim(m, w.db.penalties[m].amountCents, w.db.penalties[m].destination,
                               w.db.penalties[m].attempts, w.now, O.Claimed)
    ensures m in w.db.escrows ==>
              c.saw == Some(w.db.escrows[m].status) && c.pi == w.db.escrows[m].stripePaymentIntentId
    ensures m !in w.db.escrows ==> c.saw == None
  {
    var row := w.db.penalties[m];
    var saw: Option<EscrowStatus>, pi := None, 0;
    if m in w.db.escrows { saw, pi := Some(w.db.escrows[m].status), w.db.escrows[m].stripePaymentIntentId; }
    return Claimed(O.Claim(m, row.amountCents, row.destination, row.attempts, w.now, O.Claimed), saw, pi);
  }

  /** The oldest eligible row nobody holds locked. */
  ghost predicate Oldest(w: World, locked: set<Id>, m: Id) {
    && m in w.db.penalties && m !in locked && O.Eligible(w.db.penalties[m], w.now, w.limits.penalties)
    && forall k :: (k in w.db.penalties && k !in locked && O.Eligible(w.db.penalties[k], w.now, w.limits.penalties)) ==>
         w.db.penalties[m].createdAt <= w.db.penalties[k].createdAt
  }

  function ClaimedFrom(w: World, m: Id): Claimed
    requires m in w.db.penalties
  {
    var row := w.db.penalties[m];
    Claimed(O.Claim(m, row.amountCents, row.destination, row.attempts, w.now, O.Claimed), SawEscrow(w.db, m),
            IntentOf(w.db, m))
  }

  lemma ClaimIs(w: World, t: Id, m: Id)
    requires Integrity(w.db) && Enabled(w, BeginPenalty(t, m))
    ensures var c := ClaimedFrom(w, m);
            Step(w, BeginPenalty(t, m))
            == w.(db := w.db.(penalties :=
                    w.db.penalties[m := w.db.penalties[m].(status := Submitted, updatedAt := w.now)]),
                  tasks := w.tasks[t := Penalising(c.claim, c.saw, c.pi, false)])
  {
    hide O.Eligible;
  }

  lemma ChargeIs(w: World, t: Id, tookEffect: bool, approved: bool, reported: bool)
    requires Integrity(w.db) && Enabled(w, ChargePenalty(t, tookEffect, approved, reported))
    ensures Step(w, ChargePenalty(t, tookEffect, approved, reported))
            == OutsidePart(w, ChargePenalty(t, tookEffect, approved, reported))
  {
    hide OutsidePart;
  }

  /** Whether the debit call leaves a succeeded charge: a card on file, a call that arrives, and a
      charge the key already has or that is approved now. */
  ghost predicate DebitWorks(w: World, key: Id, r: Reply) {
    r.cardOnFile && r.reached && key !in w.refusals
    && (r.approved || exists i :: 0 <= i < |w.charges| && w.charges[i].key == key)
  }

  /** The off-session debit, replayable by its key; it succeeds exactly when the charge has succeeded
      at Stripe and is reported so, and without a card no call is made. */
  method TakeDebit(p: Process, c: Claimed, r: Reply) returns (stage: O.Stage)
    requires p.Follows() && Holds(p, c, false, O.Claimed) && c.claim.stage == O.Claimed
    modifies p`w, p`trace, p`own
    ensures p.Follows() && p.w.db == old(p.w).db && Holds(p, c, false, stage) && stage != O.Claimed
    ensures p.w.limits == old(p.w).limits && p.w.intents == old(p.w).intents
    ensures var made := r.cardOnFile && r.reached;
            && p.w == Step(old(p.w), ChargePenalty(p.id, made, r.approved, r.debitReported))
            && p.own == old(p.own) + [ChargePenalty(p.id, made, r.approved, r.debitReported)]
            && (!made ==> stage == O.Threw && p.w.charges == old(p.w).charges && p.w.refusals == old(p.w).refusals)
    ensures stage.Succeeded? <==> DebitWorks(old(p.w), c.claim.key, r) && r.debitReported
    ensures DebitWorks(old(p.w), c.claim.key, r) ==>
              var before := old(p.w).charges;
              && p.w.refusals == old(p.w).refusals
              && if exists i :: 0 <= i < |before| && before[i].key == c.claim.key then p.w.charges == before
                 else |p.w.charges| == |before| + 1 && p.w.charges[..|before|] == before
                      && p.w.charges[|before|] == O.External(p.w.charges[|before|].id, c.claim.key,
                                                            c.claim.amountCents, c.claim.destination)
    ensures !DebitWorks(old(p.w), c.claim.key, r) ==> p.w.charges == old(p.w).charges
    ensures stage.Succeeded? ==>
              exists i :: 0 <= i < |p.w.charges| && p.w.charges[i].key == c.claim.key && p.w.charges[i].id == stage.id
    ensures CountersOf(p.own) == CountersOf(old(p.own))
  {
    var made := r.cardOnFile && r.reached;
    ChargeIs(p.w, p.id, made, r.approved, r.debitReported);
    FoundAfter(p.w.charges, c.claim);
    hide Run, Step, O.Find, O.StripeCreate, O.StripeId, Process.Follows, Process.Quiet, Grows;
    CountedAppend(p.own, ChargePenalty(p.id, made, r.approved, r.debitReported));
    var charges, refusals := p.w.charges, p.w.refusals;
    stage := O.Threw;
    if made {
      if c.claim.key !in refusals && (O.Find(charges, c.claim.key).Some? || r.approved) {
        if r.debitReported { stage := O.Succeeded(O.StripeId(charges, c.claim)); }
        charges := O.StripeCreate(charges, c.claim);
      } else {
        refusals := refusals + {c.claim.key};
      }
    }
    p.Become(ChargePenalty(p.id, made, r.approved, r.debitReported),
             p.w.(charges := charges, refusals := refusals,
                  tasks := p.w.tasks[p.id := Penalising(c.claim.(stage := stage), c.saw, c.pi, false)]));
  }

  lemma FoundAfter(charges: seq<O.External>, c: O.Claim)
    ensures var after := O.StripeCreate(charges, c);
            && (O.Find(charges, c.key).Some? <==> exists i :: 0 <= i < |charges| && charges[i].key == c.key)
            && (if O.Find(charges, c.key).Some? then after == charges
                else |after| == |charges| + 1 && after[..|charges|] == charges
                     && after[|charges|] == O.External(after[|charges|].id, c.key, c.amountCents, c.destination))
            && exists i :: 0 <= i < |after| && after[i].key == c.key && after[i].id == O.StripeId(charges, c)
  {
    if O.Find(charges, c.key).Some? {
      assert O.Find(charges, c.key).value in charges;
    } else {
      assert O.StripeCreate(charges, c)[|charges|].key == c.key;
    }  }

  /** The verdict transaction: escrow HELD -> CANCELLED if one was read, and the row SETTLED. */
  method Settle(p: Process, c: Claimed, cancelled: bool, debit: Id)
    requires p.Follows() && Holds(p, c, cancelled, O.Succeeded(debit)) && (c.saw == Some(Held) ==> cancelled)
    modifies p`w, p`trace, p`own
    ensures p.own == old(p.own) + [CommitPenalty(p.id)]
    ensures CountersOf(p.own) == Add(CountersOf(old(p.own)), DidSettle)
    ensures p.Follows() && p.Idle() && p.w == Step(old(p.w), CommitPenalty(p.id)) && p.w.limits == old(p.w).limits
    ensures var m := c.claim.key;
            && m in p.w.db.penalties
            && p.w.db.penalties[m].status == Settled && p.w.db.penalties[m].externalId == Some(debit)
            && (c.saw.Some? && m in p.w.db.escrows ==> p.w.db.escrows[m].status != Held)
  {
    SettleIs(p.w, p.id);
    hide Run, Step, Grows, Process.Follows, Process.Quiet;
    CountedAppend(p.own, CommitPenalty(p.id));
    var db := VerdictRows(p.w.db, p.w.now, c.claim.key, c.saw.Some?, debit);
    p.Become(CommitPenalty(p.id), p.w.(db := db, tasks := p.w.tasks - {p.id}));
  }

  /** The two updates of the verdict transaction. */
  method VerdictRows(db: Db, now: Instant, m: Id, sawEscrow: bool, debit: Id) returns (r: Db)
    requires m in db.penalties
    ensures r == S.SettlePenaltyTx(db, now, m, sawEscrow, debit)
    ensures m in r.penalties && r.penalties[m].status == Settled && r.penalties[m].externalId == Some(debit)
    ensures r.escrows == if sawEscrow && m in db.escrows && db.escrows[m].status == Held
                         then db.escrows[m := db.escrows[m].(status := Cancelled)] else db.escrows
  {
    var escrows := db.escrows;
    if sawEscrow && m in escrows && escrows[m].status == Held {
      escrows := escrows[m := escrows[m].(status := Cancelled)];
    }
    var row := db.penalties[m].(status := Settled, externalId := Some(debit), updatedAt := now);
    r := db.(escrows := escrows, penalties := db.penalties[m := row]);
  }

  lemma SettleIs(w: World, t: Id)
    requires Integrity(w.db) && Enabled(w, CommitPenalty(t)) && w.tasks[t].claim.key in w.db.penalties
    ensures var task := w.tasks[t];
            Step(w, CommitPenalty(t))
            == w.(db := S.SettlePenaltyTx(w.db, w.now, task.claim.key, task.saw.Some?, task.claim.stage.id),
                  tasks := w.tasks - {t})
  {
    hide S.SettlePenaltyTx;
  }

  /** The catch branch: FAILED, or ABANDONED with one alert at the last attempt counted from the
      claim; attempts + 1. */
  method Fail(p: Process, c: Claimed, cancelled: bool, stage: O.Stage) returns (verdict: Verdict)
    requires p.Follows() && Holds(p, c, cancelled, stage) && stage != O.Claimed
    modifies p`w, p`trace, p`own
    ensures p.Follows() && p.Idle()
    ensures verdict == if c.claim.attempts + 1 >= old(p.w).limits.penalties then DidAbandon else DidFail
    ensures p.w == Step(old(p.w), FailPenalty(p.id, verdict == DidAbandon))
    ensures p.w.db == old(p.w).db.(penalties := FailedRows(old(p.w), c.claim)) && p.w.limits == old(p.w).limits
    ensures p.own == old(p.own) + [FailPenalty(p.id, verdict == DidAbandon)]
    ensures CountersOf(p.own) == Add(CountersOf(old(p.own)), verdict)
  {
    var isAbandon := c.claim.attempts + 1 >= p.w.limits.penalties;
    FailIs(p.w, p.id, isAbandon);
    SameFailure(p.w, c.claim, stage);
    hide Run, Step, FailedRows, Grows, Process.Follows, Process.Quiet;
    CountedAppend(p.own, FailPenalty(p.id, isAbandon));
    var rows := FailRow(p.w, c.claim, isAbandon);
    var alerts := p.w.penaltyAlerts;
    if isAbandon { alerts := alerts + [c.claim.key]; }
    p.Become(FailPenalty(p.id, isAbandon),
             p.w.(db := p.w.db.(penalties := rows), tasks := p.w.tasks - {p.id}, penaltyAlerts := alerts));
    return if isAbandon then DidAbandon else DidFail;
  }

  lemma SameFailure(w: World, c: O.Claim, stage: O.Stage)
    requires c.key in w.db.penalties
    ensures FailedRows(w, c.(stage := stage)) == FailedRows(w, c)
  {
  }

  /** The row update of the catch branch. */
  method FailRow(w: World, c: O.Claim, isAbandon: bool) returns (rows: map<Id, OutboxRow>)
    requires c.key in w.db.penalties && isAbandon == (c.attempts + 1 >= w.limits.penalties)
    ensures rows == FailedRows(w, c)
  {
    var row := w.db.penalties[c.key];
    var status := if isAbandon then Abandoned else Failed;
    rows := w.db.penalties[c.key := row.(status := status, attempts := row.attempts + 1, updatedAt := w.now)];
  }

  lemma FailedStatus(w: World, c: O.Claim)
    requires c.key in w.db.penalties
    ensures var rows := FailedRows(w, c);
            c.key in rows
            && rows[c.key].status == if c.attempts + 1 >= w.limits.penalties then Abandoned else Failed
  {
  }

  /** An await: the row and this worker's copy of it stay. */
  method AwaitRow(p: Process, c: Claimed, cancelled: bool, stage: O.Stage)
    requires p.Follows() && Holds(p, c, cancelled, stage)
    modifies p`w, p`awaits, p`trace
    ensures p.Follows() && Holds(p, c, cancelled, stage) && p.w.limits == old(p.w).limits
    ensures p.Quiet() ==> p.w == old(p.w)
  {
    hide Run, Step, Process.Follows, Process.Quiet;
    p.Await();
  }

  /** The cancel of the buyer's hold, outside any transaction. */
  method ReleaseHold(p: Process, c: Claimed, stage: O.Stage, r: Reply) returns (released: bool)
    requires p.Follows() && Holds(p, c, false, stage) && c.saw == Some(Held) && stage.Succeeded?
    modifies p`w, p`awaits, p`trace, p`own
    ensures p.Follows() && Holds(p, c, released, stage) && p.w.limits == old(p.w).limits
    ensures released == CancelWorks(old(p.w), c.pi, r.cancelTookEffect, r.cancelReported)
    ensures p.own == old(p.own) + [CallCancel(p.id, r.cancelTookEffect, r.cancelReported)]
    ensures CountersOf(p.own) == CountersOf(old(p.own))
  {
    hide Run, Step, Process.Follows, Process.Quiet;
    CountedAppend(p.own, CallCancel(p.id, r.cancelTookEffect, r.cancelReported));
    released := p.CallCancel(r.cancelTookEffect, r.cancelReported);
    hide CountersOf, Counted;
    AwaitRow(p, c, released, stage);
  }

  /** The moves after the debit call, in a state where its outcome is known. */
  function VerdictMoves(t: Id, c: Claimed, debited: bool, cancelled: bool, maxAttempts: nat, r: Reply): seq<Move> {
    (if debited && c.saw == Some(Held) then [CallCancel(t, r.cancelTookEffect, r.cancelReported)] else [])
    + [if debited && (c.saw == Some(Held) ==> cancelled) && r.verdictWritten then CommitPenalty(t)
       else FailPenalty(t, c.claim.attempts + 1 >= maxAttempts)]
  }

  /** What the worker does with one claimed row when nobody interferes. */
  ghost function RowMoves(w: World, t: Id, c: Claimed, r: Reply): seq<Move> {
    [ChargePenalty(t, r.cardOnFile && r.reached, r.approved, r.debitReported)]
    + VerdictMoves(t, c, DebitWorks(w, c.claim.key, r) && r.debitReported,
                   CancelWorks(w, c.pi, r.cancelTookEffect, r.cancelReported), w.limits.penalties, r)
  }

  /** What happens to one claimed row: it is settled exactly when the debit succeeded, the hold, if there
      was one, is released, and the verdict could be written. `debiting` and `calling` are what the
      two calls met. */
  method ProcessRow(p: Process, c: Claimed, r: Reply)
    returns (verdict: Verdict, ghost debiting: World, ghost calling: World)
    requires p.Follows() && Holds(p, c, false, O.Claimed) && c.claim.stage == O.Claimed
    modifies p`w, p`awaits, p`trace, p`own
    ensures p.Follows() && p.Idle() && p.w.limits == old(p.w).limits
    ensures p.Quiet() ==>
              && debiting.charges == old(p.w).charges && debiting.refusals == old(p.w).refusals
              && calling.intents == old(p.w).intents
    ensures verdict == DidSettle <==>
              && DebitWorks(debiting, c.claim.key, r) && r.debitReported
              && (c.saw == Some(Held) ==> CancelWorks(calling, c.pi, r.cancelTookEffect, r.cancelReported))
              && r.verdictWritten
    ensures verdict == DidSettle ==>
              && c.claim.key in p.w.db.penalties && p.w.db.penalties[c.claim.key].status == Settled
              && (c.saw.Some? && c.claim.key in p.w.db.escrows ==> p.w.db.escrows[c.claim.key].status != Held)
    ensures CountersOf(p.own) == Add(CountersOf(old(p.own)), verdict)
    ensures p.own == old(p.own) + [ChargePenalty(p.id, r.cardOnFile && r.reached, r.approved, r.debitReported)]
                     + VerdictMoves(p.id, c, DebitWorks(debiting, c.claim.key, r) && r.debitReported,
                                    CancelWorks(calling, c.pi, r.cancelTookEffect, r.cancelReported),
                                    p.w.limits.penalties, r)
    ensures p.Quiet() ==> p.own == old(p.own) + RowMoves(old(p.w), p.id, c, r)
    ensures verdict != DidSettle ==>
              && verdict == (if c.claim.attempts + 1 >= old(p.w).limits.penalties then DidAbandon else DidFail)
              && c.claim.key in p.w.db.penalties
              && p.w.db.penalties[c.claim.key].status == if verdict == DidAbandon then Abandoned else Failed
  {
    hide Run, Step, Grows, Process.Follows, Process.Quiet, CountersOf, Counted, FailedRows, CancelWorks;
    AwaitRow(p, c, false, O.Claimed);
    debiting := p.w;
    var stage := TakeDebit(p, c, r);
    SameIntents(debiting, p.w, c.pi, r);
    hide DebitWorks, VerdictMoves;
    AwaitRow(p, c, false, stage);
    calling := p.w;
    verdict := Decide(p, c, stage, r);
  }

  /** After the debit call: the cancel, the verdict transaction, or the catch branch. */
  method Decide(p: Process, c: Claimed, stage: O.Stage, r: Reply) returns (verdict: Verdict)
    requires p.Follows() && Holds(p, c, false, stage) && stage != O.Claimed
    modifies p`w, p`awaits, p`trace, p`own
    ensures p.Follows() && p.Idle() && p.w.limits == old(p.w).limits
    ensures verdict == DidSettle <==>
              && stage.Succeeded?
              && (c.saw == Some(Held) ==> CancelWorks(old(p.w), c.pi, r.cancelTookEffect, r.cancelReported))
              && r.verdictWritten
    ensures verdict == DidSettle ==>
              && c.claim.key in p.w.db.penalties && p.w.db.penalties[c.claim.key].status == Settled
              && (c.saw.Some? && c.claim.key in p.w.db.escrows ==> p.w.db.escrows[c.claim.key].status != Held)
    ensures CountersOf(p.own) == Add(CountersOf(old(p.own)), verdict)
    ensures p.own == old(p.own) + VerdictMoves(p.id, c, stage.Succeeded?,
                                               CancelWorks(old(p.w), c.pi, r.cancelTookEffect, r.cancelReported),
                                               p.w.limits.penalties, r)
    ensures verdict != DidSettle ==>
              && verdict == (if c.claim.attempts + 1 >= old(p.w).limits.penalties then DidAbandon else DidFail)
              && c.claim.key in p.w.db.penalties
              && p.w.db.penalties[c.claim.key].status == if verdict == DidAbandon then Abandoned else Failed
  {
    hide Run, Step, Grows, Process.Follows, Process.Quiet, CountersOf, Counted, FailedRows, CancelWorks;
    var released := false;
    if stage.Succeeded? && c.saw == Some(Held) {
      released := ReleaseHold(p, c, stage, r);
    }
    if stage.Succeeded? && (c.saw == Some(Held) ==> released) && r.verdictWritten {
      Settle(p, c, released, stage.id);
      return DidSettle;
    }
    FailedStatus(p.w, c.claim);
    verdict := Fail(p, c, released, stage);
  }

  lemma SameIntents(a: World, b: World, pi: Id, r: Reply)
    requires a.intents == b.intents
    ensures CancelWorks(a, pi, r.cancelTookEffect, r.cancelReported)
            == CancelWorks(b, pi, r.cancelTookEffect, r.cancelReported)
  {
  }

  /** A claim and what follows it. */
  ghost function PenaltyPlan(t: Id, keys: seq<Id>, reply: nat -> Reply): (World, nat) -> seq<Move> {
    (w: World, i: nat) =>
      if i < |keys| && keys[i] in w.db.penalties
      then [BeginPenalty(t, keys[i])] + RowMoves(w, t, ClaimedFrom(w, keys[i]), reply(i)) else []
  }
  lemma PlanOnKeys(w: World, t: Id, keys: seq<Id>, key: Id, reply: nat -> Reply, n: nat)
    requires Integrity(w.db) && n <= |keys|
    ensures Rounds(w, n, PenaltyPlan(t, keys, reply)) == Rounds(w, n, PenaltyPlan(t, keys + [key], reply))
  {
    hide Run, RowMoves, Integrity;
    RoundsAgree(w, n, PenaltyPlan(t, keys, reply), PenaltyPlan(t, keys + [key], reply));
  }

  /** Each claim takes the oldest eligible row of the state that the rounds before it lead to. */
  ghost predicate InTurn(w: World, t: Id, keys: seq<Id>, reply: nat -> Reply, locked: nat -> set<Id>) {
    Integrity(w.db)
    && forall i :: 0 <= i < |keys| ==>
         Oldest(Run(w, Rounds(w, i, PenaltyPlan(t, keys, reply))), locked(i), keys[i])
  }

  lemma InTurnGrows(w: World, t: Id, keys: seq<Id>, key: Id, reply: nat -> Reply, locked: nat -> set<Id>)
    requires InTurn(w, t, keys, reply, locked)
    requires Oldest(Run(w, Rounds(w, |keys|, PenaltyPlan(t, keys, reply))), locked(|keys|), key)
    ensures InTurn(w, t, keys + [key], reply, locked)
  {
    hide Run, Rounds, PenaltyPlan, Oldest, Integrity;
    var more := keys + [key];
    forall i | 0 <= i < |more| ensures Oldest(Run(w, Rounds(w, i, PenaltyPlan(t, more, reply))), locked(i), more[i]) {
      PlanOnKeys(w, t, keys, key, reply, i);
    }
  }

  /** So far: the claimed keys in turn, each handled as planned, if nobody interferes. */
  ghost predicate OnTurn(p: Process, w0: World, own0: seq<Move>, keys: seq<Id>, reply: nat -> Reply,
                         locked: nat -> set<Id>)
    reads p`own, p`start
  {
    p.OnPlan(w0, own0, |keys|, PenaltyPlan(p.id, keys, reply)) && (p.Quiet() ==> InTurn(w0, p.id, keys, reply, locked))
  }

  /** The next row of a pass, if there is one to claim. */
  method NextRow(p: Process, ghost keys: seq<Id>, reply: nat -> Reply, i: nat, locked: nat -> set<Id>,
                 ghost w0: World, ghost own0: seq<Move>)
    returns (claimed: Option<Claimed>, verdict: Verdict, ghost after: seq<Id>)
    requires p.Follows() && p.Idle() && i == |keys| && OnTurn(p, w0, own0, keys, reply, locked)
    modifies p`w, p`awaits, p`trace, p`own
    ensures p.Follows() && p.Idle() && p.w.limits == old(p.w).limits
    ensures OnTurn(p, w0, own0, after, reply, locked)
    ensures claimed.None? ==>
              && after == keys && CountersOf(p.own) == CountersOf(old(p.own))
              && forall k :: k in p.w.db.penalties && k !in locked(i) ==>
                   !O.Eligible(p.w.db.penalties[k], p.w.now, p.w.limits.penalties)
    ensures claimed.Some? ==>
              after == keys + [claimed.value.claim.key] && CountersOf(p.own) == Add(CountersOf(old(p.own)), verdict)
  {
    TurnAt(p, w0, own0, keys, reply, locked);
    hide Run, Step, Process.Follows, Process.Quiet, Rounds, O.Eligible, PenaltyPlan, InTurn, RowMoves, Oldest,
      CountersOf,
      Grows, Integrity, CancelWorks, DebitWorks, Counted, VerdictMoves, OnTurn, ClaimedFrom;
    p.Await();
    ghost var here := p.w;
    ghost var begun;
    claimed, verdict, begun := ClaimAndProcess(p, locked(i), reply(i));
    after := if claimed.Some? then keys + [claimed.value.claim.key] else keys;
    if claimed.Some? { TurnGoesOn(p, w0, own0, keys, claimed.value.claim.key, reply, locked, here, begun); }
  }

  /** One row from its claim to its verdict; `begun` is the state after the claim. */
  method ClaimAndProcess(p: Process, locked: set<Id>, r: Reply)
    returns (claimed: Option<Claimed>, verdict: Verdict, ghost begun: World)
    requires p.Follows() && p.Idle()
    modifies p`w, p`awaits, p`trace, p`own
    ensures p.Follows() && p.Idle() && p.w.limits == old(p.w).limits
    ensures claimed.None? ==>
              && p.own == old(p.own) && CountersOf(p.own) == CountersOf(old(p.own))
              && forall k :: k in p.w.db.penalties && k !in locked ==>
                   !O.Eligible(p.w.db.penalties[k], p.w.now, p.w.limits.penalties)
    ensures claimed.Some? ==>
              && var key := claimed.value.claim.key;
              && Oldest(old(p.w), locked, key) && key in old(p.w).db.penalties
              && begun.charges == old(p.w).charges && begun.refusals == old(p.w).refusals
              && begun.intents == old(p.w).intents && begun.limits == old(p.w).limits
              && (p.Quiet() ==> p.own == old(p.own) + [BeginPenalty(p.id, key)]
                                         + RowMoves(begun, p.id, ClaimedFrom(old(p.w), key), r))
              && CountersOf(p.own) == Add(CountersOf(old(p.own)), verdict)
  {
    hide Run, Step, Process.Follows, Process.Quiet, O.Eligible, RowMoves, CountersOf, Grows, Integrity, CancelWorks,
      DebitWorks, Counted, VerdictMoves, ClaimedFrom;
    verdict := DidFail;
    claimed := ClaimNext(p, locked);
    begun := p.w;
    if claimed.Some? {
      ghost var debiting, calling;
      verdict, debiting, calling := ProcessRow(p, claimed.value, r);
    }
  }

  lemma TurnAt(p: Process, w0: World, own0: seq<Move>, keys: seq<Id>, reply: nat -> Reply, locked: nat -> set<Id>)
    requires p.Follows() && OnTurn(p, w0, own0, keys, reply, locked)
    ensures Integrity(w0.db) && Integrity(p.start.db)
    ensures p.Quiet() ==>
              && InTurn(w0, p.id, keys, reply, locked) && w0 == Run(p.start, own0)
              && p.w == Run(w0, Rounds(w0, |keys|, PenaltyPlan(p.id, keys, reply)))
              && p.own == own0 + Rounds(w0, |keys|, PenaltyPlan(p.id, keys, reply))
  {
    p.AtRound(w0, own0, |keys|, PenaltyPlan(p.id, keys, reply));
  }

  /** A claim in turn, handled as planned. */
  lemma TurnGoesOn(p: Process, w0: World, own0: seq<Move>, keys: seq<Id>, key: Id, reply: nat -> Reply,
                   locked: nat -> set<Id>, here: World, begun: World)
    requires Integrity(w0.db) && Integrity(p.start.db) && key in here.db.penalties
    requires begun.charges == here.charges && begun.refusals == here.refusals
    requires begun.intents == here.intents && begun.limits == here.limits
    requires p.Quiet() ==>
               && InTurn(w0, p.id, keys, reply, locked) && w0 == Run(p.start, own0)
               && here == Run(w0, Rounds(w0, |keys|, PenaltyPlan(p.id, keys, reply)))
               && Oldest(here, locked(|keys|), key)
               && p.own == own0 + Rounds(w0, |keys|, PenaltyPlan(p.id, keys, reply)) + [BeginPenalty(p.id, key)]
                           + RowMoves(begun, p.id, ClaimedFrom(here, key), reply(|keys|))
    ensures OnTurn(p, w0, own0, keys + [key], reply, locked)
  {
    hide Run, Rounds, PenaltyPlan, InTurn, Oldest, RowMoves, ClaimedFrom, Integrity, Process.Quiet;
    if p.Quiet() {
      RowRound(here, begun, p.id, keys, key, reply);
      InTurnGrows(w0, p.id, keys, key, reply, locked);
      PlanOnKeys(w0, p.id, keys, key, reply, |keys|);
      Regroup(own0 + Rounds(w0, |keys|, PenaltyPlan(p.id, keys, reply)), BeginPenalty(p.id, key),
              RowMoves(begun, p.id, ClaimedFrom(here, key), reply(|keys|)));
      p.RoundDone(w0, own0, |keys|, PenaltyPlan(p.id, keys, reply), PenaltyPlan(p.id, keys + [key], reply), here);
    }
  }

  lemma Regroup(a: seq<Move>, x: Move, b: seq<Move>)
    ensures a + [x] + b == a + ([x] + b)
  {
  }

  /** The round that a claim on `key` begins. */
  lemma RowRound(w: World, begun: World, t: Id, keys: seq<Id>, key: Id, reply: nat -> Reply)
    requires key in w.db.penalties && begun.charges == w.charges && begun.refusals == w.refusals
    requires begun.intents == w.intents && begun.limits == w.limits
    ensures PenaltyPlan(t, keys + [key], reply)(w, |keys|)
            == [BeginPenalty(t, key)] + RowMoves(begun, t, ClaimedFrom(w, key), reply(|keys|))
  {
    hide VerdictMoves, ClaimedFrom;
    var c := ClaimedFrom(w, key);
    assert DebitWorks(w, c.claim.key, reply(|keys|)) == DebitWorks(begun, c.claim.key, reply(|keys|));
  }

  /** runPenaltyWorkerOnce: a run of the combined machine, so every guarantee about runs applies. */
  method RunOnce(p: Process, batchLimit: nat, locked: nat -> set<Id>, reply: nat -> Reply)
    returns (result: Counters, ghost keys: seq<Id>)
    requires p.Follows() && p.Idle()
    modifies p`w, p`awaits, p`trace, p`own
    ensures p.Follows() && p.Idle()
    // its counters are its own verdicts, and it stops short only when nothing is eligible
    ensures CountersOf(old(p.own)) == Counters(0, 0, 0) ==> result == CountersOf(p.own)
    ensures result.settled + result.failed + result.abandoned == |keys| <= batchLimit
    ensures |keys| < batchLimit ==>
              forall k :: k in p.w.db.penalties && k !in locked(|keys|) ==>
                !O.Eligible(p.w.db.penalties[k], p.w.now, p.w.limits.penalties)
    // undisturbed, it claims the oldest eligible rows in turn and handles each as the replies have it
    ensures OnTurn(p, old(p.w), old(p.own), keys, reply, locked)
    ensures Invariant(p.start) ==> Invariant(p.w)
  {
    StartTurn(p, reply, locked);
    hide Run, Step, Invariant, Process.Follows, O.Eligible, OnTurn, CountersOf;
    result, keys := Counters(0, 0, 0), [];
    var i := 0;
    while i < batchLimit
      invariant i <= batchLimit && p.Follows() && p.Idle() && i == |keys|
      invariant result.settled + result.failed + result.abandoned == i
      invariant CountersOf(old(p.own)) == Counters(0, 0, 0) ==> result == CountersOf(p.own)
      invariant OnTurn(p, old(p.w), old(p.own), keys, reply, locked)
    {
      var claimed, verdict;
      claimed, verdict, keys := NextRow(p, keys, reply, i, locked, old(p.w), old(p.own));
      if claimed.None? {
        p.InvariantHolds();
        return;
      }
      match verdict {
        case DidSettle => result := result.(settled := result.settled + 1);
        case DidFail => result := result.(failed := result.failed + 1);
        case DidAbandon => result := result.(abandoned := result.abandoned + 1);
      }
      i := i + 1;
    }
    p.InvariantHolds();
  }

  lemma StartTurn(p: Process, reply: nat -> Reply, locked: nat -> set<Id>)
    requires p.Follows()
    ensures OnTurn(p, p.w, p.own, [], reply, locked)
  {
    p.StartPlan(PenaltyPlan(p.id, [], reply));
  }
}

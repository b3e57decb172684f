/** One tick of the dispute penalty worker as it runs, while routes impose penalties and users change
    their card; any write may throw, which ends the tick. */
module DisputePenaltyWorker {
  import opened Tables
  import opened DisputePenalties

  /** How one charge and the two possible verdict writes turn out. */
  datatype Reply = Reply(tookEffect: bool, approved: bool, reported: bool, paidWritten: bool, failureWritten: bool)

  datatype Environment = Environment(meanwhile: nat -> seq<Action>, reply: nat -> Reply)

  datatype Counters = Counters(paid: nat, failed: nat, suspended: nat)

  function Total(c: Counters): nat {
    c.paid + c.failed + c.suspended
  }

  ghost predicate Routes(actions: seq<Action>) {
    forall i :: 0 <= i < |actions| ==> actions[i].Impose? || actions[i].SetCard?
  }

  /** What the next verdict of a worker will count as. */
  function Tally(c: Counters, b: Batch, maxAttempts: nat): Counters
    requires |b.items| > 0
  {
    match b.stage
    case Waiting => c
    case Charged(_) => c.(paid := c.paid + 1)
    case Refused(terminal) =>
      if terminal || b.items[0].attempts >= maxAttempts then c.(suspended := c.suspended + 1)
      else c.(failed := c.failed + 1)
  }

  function Verdicts(s: System, maxAttempts: nat, actions: seq<Action>, w: Id): Counters
    decreases |actions|
  {
    if |actions| == 0 then Counters(0, 0, 0)
    else
      var before := Run(s, maxAttempts, actions[..|actions| - 1]);
      var c := Verdicts(s, maxAttempts, actions[..|actions| - 1], w);
      if actions[|actions| - 1] == Verdict(w) && w in before.batches && |before.batches[w].items| > 0
      then Tally(c, before.batches[w], maxAttempts) else c
  }

  lemma {:induction false} RoutesOnly(s: System, maxAttempts: nat, trace: seq<Action>, more: seq<Action>, w: Id)
    requires Routes(more)
    ensures var a, b := Run(s, maxAttempts, trace), Run(s, maxAttempts, trace + more);
            && a.batches == b.batches && a.created == b.created && a.penalties.Keys <= b.penalties.Keys
            && (forall k :: k in a.penalties ==> b.penalties[k] == a.penalties[k])
            && Verdicts(s, maxAttempts, trace + more, w) == Verdicts(s, maxAttempts, trace, w)
    decreases |more|
  {
    if |more| == 0 {
      assert trace + more == trace;
    } else {
      var shorter := more[..|more| - 1];
      assert (trace + more)[..|trace + more| - 1] == trace + shorter;
      RoutesOnly(s, maxAttempts, trace, shorter, w);
    }
  }

  lemma {:induction false} RunConcat(s: System, maxAttempts: nat, a: seq<Action>, b: seq<Action>)
    ensures Run(s, maxAttempts, a + b) == Run(Run(s, maxAttempts, a), maxAttempts, b)
    decreases |b|
  {
    hide Step;
    if |b| == 0 {
      assert a + b == a;
    } else {
      assert (a + b)[..|a + b| - 1] == a + b[..|b| - 1];
      RunConcat(s, maxAttempts, a, b[..|b| - 1]);
    }
  }

  lemma {:induction false} SoundThrough(s: System, maxAttempts: nat, actions: seq<Action>, w: Id)
    requires maxAttempts > 0 && Sound(s, maxAttempts, w)
    requires forall i :: 0 <= i < |actions| ==> ActsAlone(actions[i], w)
    ensures Sound(Run(s, maxAttempts, actions), maxAttempts, w)
    decreases |actions|
  {
    hide Sound, Step;
    if |actions| > 0 {
      SoundThrough(s, maxAttempts, actions[..|actions| - 1], w);
      StepKeepsSound(Run(s, maxAttempts, actions[..|actions| - 1]), maxAttempts, w, actions[|actions| - 1]);
    }
  }

  /** Rows are kept, and those outside a set of ids are unchanged. */
  ghost predicate KeepsOthers(a: map<Id, Penalty>, b: map<Id, Penalty>, touched: set<Id>) {
    forall k :: k in a ==> k in b && (k !in touched ==> b[k] == a[k])
  }

  lemma KeepsTransitive(a: map<Id, Penalty>, b: map<Id, Penalty>, c: map<Id, Penalty>, some: set<Id>, all: set<Id>)
    requires KeepsOthers(a, b, all) && KeepsOthers(b, c, some) && some <= all
    ensures KeepsOthers(a, c, all)
  {
  }

  lemma CountedTouches(penalties: map<Id, Penalty>, cards: map<Id, Id>, ids: seq<Id>)
    requires forall i :: 0 <= i < |ids| ==> ids[i] in penalties
    ensures var counted := Counted(penalties, ids);
            && (forall i :: 0 <= i < |ids| ==> ids[i] in counted)
            && KeepsOthers(penalties, counted, Ids(ItemsOf(counted, cards, ids)))
  {
    var counted := Counted(penalties, ids);
    var items := ItemsOf(counted, cards, ids);
    forall k | k in ids ensures k in Ids(items) {
      var i :| 0 <= i < |ids| && ids[i] == k;
      assert items[i] in items && items[i].id == k;
    }
  }

  /** Everything stuck was failed by the sweep and is not claimed again. */
  lemma SweptStays(a: map<Id, Penalty>, b: map<Id, Penalty>, c: map<Id, Penalty>, d: map<Id, Penalty>,
                   e: map<Id, Penalty>, maxAttempts: nat, touched: set<Id>)
    requires b == Swept(a, maxAttempts) && KeepsOthers(b, c, {})
    requires KeepsOthers(c, d, touched) && KeepsOthers(d, e, touched)
    requires forall k :: k in touched && k in c ==> Claimable(c[k], maxAttempts)
    ensures forall k :: k in a && Stuck(a[k], maxAttempts) ==> k in e && e[k].status == Unpaid
  {
  }

  // ----- A worker's own steps

  function OwnOf(actions: seq<Action>): seq<Action> {
    if |actions| == 0 then []
    else
      var last := actions[|actions| - 1];
      OwnOf(actions[..|actions| - 1]) + if last.Impose? || last.SetCard? then [] else [last]
  }

  lemma OwnAppend(actions: seq<Action>, a: Action)
    ensures OwnOf(actions + [a]) == OwnOf(actions) + if a.Impose? || a.SetCard? then [] else [a]
  {
    assert (actions + [a])[..|actions|] == actions;
  }

  lemma {:induction false} OwnWithRoutes(a: seq<Action>, b: seq<Action>)
    requires Routes(b)
    ensures OwnOf(a + b) == OwnOf(a)
    decreases |b|
  {
    if |b| == 0 {
      assert a + b == a;
    } else {
      assert a + b == (a + b[..|b| - 1]) + [b[|b| - 1]];
      OwnAppend(a + b[..|b| - 1], b[|b| - 1]);
      OwnWithRoutes(a, b[..|b| - 1]);
    }
  }

  /** Whether a charge call that arrives leaves a succeeded charge of this key: the one the key already
      has, or else the one that is approved now. */
  ghost predicate ChargeWorks(created: seq<Charge>, key: Id, approved: bool) {
    if forall i :: 0 <= i < |created| ==> created[i].key != key then approved
    else exists i :: 0 <= i < |created| && created[i].key == key && created[i].succeeded
                     && forall j :: 0 <= j < i ==> created[j].key != key
  }

  /** Whether the worker sees its charge succeed. */
  ghost predicate Paying(created: seq<Charge>, c: Claimed, r: Reply) {
    c.paymentMethod.Some? && r.tookEffect && r.reported && ChargeWorks(created, c.id, r.approved)
  }

  /** What it does with one claimed penalty. */
  ghost function ItemActions(w: Id, created: seq<Charge>, c: Claimed, r: Reply): seq<Action> {
    [ChargeFirst(w, r.tookEffect, r.approved, r.reported)]
    + if Paying(created, c, r) && r.paidWritten then [Verdict(w)]
      else (if Paying(created, c, r) then [PaidWriteFails(w)] else [])
           + [if r.failureWritten then Verdict(w) else Crash(w)]
  }

  /** What it does with a batch from its i-th item on; a write of a failure that throws ends the tick. */
  ghost function BatchActions(w: Id, created: seq<Charge>, batch: seq<Claimed>, reply: nat -> Reply,
                              i: nat): seq<Action>
    requires i <= |batch|
    decreases |batch| - i
  {
    if i == |batch| then []
    else
      ItemActions(w, created, batch[i], reply(i))
      + if (Paying(created, batch[i], reply(i)) && reply(i).paidWritten) || reply(i).failureWritten
        then BatchActions(w, created, batch, reply, i + 1) else []
  }

  /** What Stripe holds after the call: at most one new charge, of the key and the amount claimed. */
  ghost function ChargesAfter(created: seq<Charge>, c: Claimed, r: Reply): seq<Charge> {
    if c.paymentMethod.Some? && r.tookEffect && forall i :: 0 <= i < |created| ==> created[i].key != c.id
    then created + [Charge(|created|, c.id, c.amountCents, r.approved)] else created
  }

  /** The oldest claimable rows, up to the limit. */
  ghost predicate OldestIn(s: System, maxAttempts: nat, limit: nat, ids: seq<Id>) {
    && |ids| <= limit && Distinct(ids)
    && (forall i :: 0 <= i < |ids| ==>
          ids[i] in s.penalties && s.penalties[ids[i]].status == Due && s.penalties[ids[i]].attempts < maxAttempts)
    && (forall k :: (k in s.penalties && s.penalties[k].status == Due && s.penalties[k].attempts < maxAttempts
                     && k !in ids) ==>
          |ids| == limit && forall i :: 0 <= i < |ids| ==> s.penalties[ids[i]].createdAt <= s.penalties[k].createdAt)
  }

  /** A claimed row as it was, with this attempt counted, and its user's card. */
  ghost predicate FetchedFrom(a: System, b: System, c: Claimed) {
    && c.id in a.penalties && c.id in b.penalties
    && var row := a.penalties[c.id];
    && c.userId == row.userId && c.amountCents == row.amountCents && c.attempts == row.attempts + 1
    && b.penalties[c.id] == row.(attempts := row.attempts + 1)
    && c.paymentMethod == if row.userId in a.cards then Some(a.cards[row.userId]) else None
  }

  function BatchIds(batch: seq<Claimed>): seq<Id> {
    seq(|batch|, i requires 0 <= i < |batch| => batch[i].id)
  }

  lemma CountedRows(penalties: map<Id, Penalty>, cards: map<Id, Id>, ids: seq<Id>)
    requires forall i :: 0 <= i < |ids| ==> ids[i] in penalties
    ensures var counted := Counted(penalties, ids);
            && (forall i :: 0 <= i < |ids| ==> ids[i] in counted)
            && var items := ItemsOf(counted, cards, ids);
            && |items| == |ids|
            && forall i :: 0 <= i < |ids| ==>
                 && var row := penalties[ids[i]];
                 && counted[ids[i]] == row.(attempts := row.attempts + 1)
                 && items[i] == Claimed(ids[i], row.userId, row.amountCents, row.attempts + 1, items[i].paymentMethod)
                 && (row.userId in cards ==> items[i].paymentMethod == Some(cards[row.userId]))
                 && (row.userId !in cards ==> items[i].paymentMethod == None)
  {
    assert forall i :: 0 <= i < |ids| ==> ids[i] in ids;
  }

  lemma FoundCharge(created: seq<Charge>, c: Claimed, approved: bool)
    ensures var (after, charge) := StripeCharge(created, c, approved);
            && charge.succeeded == ChargeWorks(created, c.id, approved)
            && after == if forall i :: 0 <= i < |created| ==> created[i].key != c.id
                        then created + [Charge(|created|, c.id, c.amountCents, approved)] else created
  {
    FirstCharge(created, c.id);
  }

  lemma {:induction false} FirstCharge(created: seq<Charge>, key: Id)
    ensures Find(created, key).Some? ==>
              exists i :: 0 <= i < |created| && created[i] == Find(created, key).value && created[i].key == key
                          && forall j :: 0 <= j < i ==> created[j].key != key
  {
    if |created| > 0 && created[0].key != key && Find(created, key).Some? {
      FirstCharge(created[1..], key);
      var i :| 0 <= i < |created[1..]| && created[1..][i] == Find(created, key).value && created[1..][i].key == key
               && forall j :: 0 <= j < i ==> created[1..][j].key != key;
      assert created[i + 1] == Find(created, key).value;
      assert forall j :: 0 < j < i + 1 ==> created[j] == created[1..][j - 1];
    }
  }

  /** Charges of other keys do not matter. */
  lemma OtherCharges(before: seq<Charge>, after: seq<Charge>, key: Id, approved: bool)
    requires before <= after && forall i :: |before| <= i < |after| ==> after[i].key != key
    ensures ChargeWorks(after, key, approved) == ChargeWorks(before, key, approved)
  {
    if i :| 0 <= i < |before| && before[i].key == key {
      assert after[i].key == key;
    }
    if ChargeWorks(after, key, approved) && !(forall i :: 0 <= i < |after| ==> after[i].key != key) {
      var i :| 0 <= i < |after| && after[i].key == key && after[i].succeeded
               && forall j :: 0 <= j < i ==> after[j].key != key;
      assert before[i].key == key;
    }
    if ChargeWorks(before, key, approved) && !(forall i :: 0 <= i < |before| ==> before[i].key != key) {
      var i :| 0 <= i < |before| && before[i].key == key && before[i].succeeded
               && forall j :: 0 <= j < i ==> before[j].key != key;
      assert after[i].key == key;
    }
  }

  class Worker {
    const id: Id
    const maxAttempts: nat
    var system: System
    var counters: Counters
    ghost var start: System
    ghost var trace: seq<Action>

    constructor (id: Id, maxAttempts: nat, system: System)
      ensures this.id == id && this.maxAttempts == maxAttempts && this.system == system
    {
      this.id, this.maxAttempts, this.system := id, maxAttempts, system;
      counters, start, trace := Counters(0, 0, 0), system, [];
    }

    /** The tick so far is a run in which only this worker and the routes act. */
    ghost predicate Follows()
      reads this
    {
      && system == Run(start, maxAttempts, trace)
      && counters == Verdicts(start, maxAttempts, trace, id)
      && forall i :: 0 <= i < |trace| ==> ActsAlone(trace[i], id)
    }

    /** This worker's own steps so far. */
    ghost function Own(): seq<Action>
      reads this`trace
    {
      OwnOf(trace)
    }

    ghost method Record(a: Action)
      requires Follows() && ActsAlone(a, id)
      modifies this`trace
      ensures trace == old(trace) + [a]
      ensures Own() == old(Own()) + if a.Impose? || a.SetCard? then [] else [a]
      ensures forall i :: 0 <= i < |trace| ==> ActsAlone(trace[i], id)
      ensures Run(start, maxAttempts, trace) == Step(system, maxAttempts, a)
      ensures Verdicts(start, maxAttempts, trace, id)
              == if a == Verdict(id) && id in system.batches && |system.batches[id].items| > 0
                 then Tally(counters, system.batches[id], maxAttempts) else counters
    {
      assert (trace + [a])[..|trace|] == trace;
      OwnAppend(trace, a);
      trace := trace + [a];
    }

    /** What the routes do while this worker awaits. */
    method Await(meanwhile: seq<Action>)
      requires Follows() && Routes(meanwhile)
      modifies this`system, this`trace
      ensures old(trace) <= trace
      ensures Follows() && system.batches == old(system).batches && system.created == old(system).created
      ensures forall k :: k in old(system).penalties ==>
                k in system.penalties && system.penalties[k] == old(system).penalties[k]
      ensures Own() == old(Own())
    {
      OwnWithRoutes(trace, meanwhile);
      RoutesOnly(start, maxAttempts, trace, meanwhile, id);
      RunConcat(start, maxAttempts, trace, meanwhile);
      system := Run(system, maxAttempts, meanwhile);
      trace := trace + meanwhile;
    }

    /** sweepStuckPenalties: the stuck rows, failed without suspending anybody. */
    method SweepStuckPenalties() returns (stuck: set<Id>)
      requires Follows() && id !in system.batches
      modifies this`system, this`trace
      ensures Follows() && system == Step(old(system), maxAttempts, Sweep(id))
      ensures Own() == old(Own()) + [Sweep(id)]
      // PENDING with no attempts left: FAILED, and nothing else changes
      ensures stuck == set k | k in old(system).penalties && old(system).penalties[k].status == Due
                               && old(system).penalties[k].attempts >= maxAttempts
      ensures system == old(system).(penalties := system.penalties)
              && system.penalties.Keys == old(system).penalties.Keys
      ensures forall k :: k in system.penalties ==>
                system.penalties[k] == if k in stuck then old(system).penalties[k].(status := Unpaid)
                                       else old(system).penalties[k]
    {
      hide Run, Verdicts;
      var rows := system.penalties;
      stuck := set k | k in rows && rows[k].status == Due && rows[k].attempts >= maxAttempts;
      Record(Sweep(id));
      var swept := map k | k in rows :: if k in stuck then rows[k].(status := Unpaid) else rows[k];
      assert swept == Swept(rows, maxAttempts);
      system := system.(penalties := swept);
    }

    /** SELECT ... ORDER BY "createdAt" LIMIT: the oldest claimable rows. */
    method SelectIds(limit: nat) returns (ids: seq<Id>)
      ensures Selectable(system, maxAttempts, ids) && OldestIn(system, maxAttempts, limit, ids)
    {
      ids := [];
      var left := set k | k in system.penalties && system.penalties[k].status == Due
                          && system.penalties[k].attempts < maxAttempts;
      ghost var all := left;
      while left != {} && |ids| < limit
        invariant |ids| <= limit && left <= all && Distinct(ids)
        invariant forall i :: 0 <= i < |ids| ==> ids[i] in all && ids[i] !in left
        invariant forall k :: k in all && k !in left ==> k in ids
        invariant forall i, k :: 0 <= i < |ids| && k in left ==>
                    system.penalties[ids[i]].createdAt <= system.penalties[k].createdAt
        decreases left
      {
        var oldest := Oldest(left);
        ids := ids + [oldest];
        left := left - {oldest};
      }
    }

    method Oldest(among: set<Id>) returns (oldest: Id)
      requires among != {} && among <= system.penalties.Keys
      ensures oldest in among
      ensures forall k :: k in among ==> system.penalties[oldest].createdAt <= system.penalties[k].createdAt
    {
      oldest :| oldest in among;
      var left := among - {oldest};
      while left != {}
        invariant left <= among && oldest in among
        invariant forall k :: k in among && k !in left ==>
                    system.penalties[oldest].createdAt <= system.penalties[k].createdAt
        decreases left
      {
        var k :| k in left;
        left := left - {k};
        if system.penalties[k].createdAt < system.penalties[oldest].createdAt { oldest := k; }
      }
    }

    /** claimOutboxBatch: select, count the attempts and fetch, in one transaction. */
    method ClaimPenaltyBatch(limit: nat) returns (batch: seq<Claimed>)
      requires Follows() && id !in system.batches
      modifies this`system, this`trace
      ensures old(trace) <= trace
      ensures Follows() && |batch| <= limit && system.created == old(system).created
      ensures if |batch| == 0 then system == old(system)
              else id in system.batches && system.batches[id] == Batch(batch, Waiting)
      ensures Own() == old(Own()) + if |batch| == 0 then [] else [ClaimBatch(id, BatchIds(batch))]
      ensures |batch| > 0 ==> trace == old(trace) + [ClaimBatch(id, BatchIds(batch))]
      // the oldest claimable rows, each as it was, with this attempt counted and the card on file
      ensures OldestIn(old(system), maxAttempts, limit, BatchIds(batch))
      ensures forall i :: 0 <= i < |batch| ==> FetchedFrom(old(system), system, batch[i])
      ensures Distinct(BatchIds(batch))
      ensures forall i :: 0 <= i < |batch| ==> batch[i].id in old(system).penalties && batch[i].id in system.penalties
                                               && Claimable(old(system).penalties[batch[i].id], maxAttempts)
      ensures KeepsOthers(old(system).penalties, system.penalties, Ids(batch))
      ensures limit > 0 && |batch| == 0 ==>
                forall k :: k in system.penalties ==> !Claimable(system.penalties[k], maxAttempts)
    {
      var ids := SelectIds(limit);
      if |ids| == 0 {
        NothingClaimed(system, maxAttempts, limit);
        assert BatchIds([]) == ids;
        return [];
      }
      hide KeepsOthers, Run, Verdicts, Step, Follows, Own, FetchedFrom, OldestIn, Claimable;
      batch := ClaimIds(ids);
    }

    static lemma NothingClaimed(s: System, maxAttempts: nat, limit: nat)
      ensures KeepsOthers(s.penalties, s.penalties, Ids([]))
      ensures limit > 0 && OldestIn(s, maxAttempts, limit, []) ==>
                forall k :: k in s.penalties ==> !Claimable(s.penalties[k], maxAttempts)
    {
    }

    /** The increment and the projection, row by row. */
    method ClaimIds(ids: seq<Id>) returns (batch: seq<Claimed>)
      requires Follows() && id !in system.batches && |ids| > 0 && Selectable(system, maxAttempts, ids)
      modifies this`system, this`trace
      ensures Follows() && system.created == old(system).created && BatchIds(batch) == ids && |batch| == |ids|
      ensures id in system.batches && system.batches[id] == Batch(batch, Waiting)
      ensures Own() == old(Own()) + [ClaimBatch(id, ids)] && trace == old(trace) + [ClaimBatch(id, ids)]
      ensures forall i :: 0 <= i < |batch| ==> FetchedFrom(old(system), system, batch[i])
      ensures forall i :: 0 <= i < |batch| ==> batch[i].id in old(system).penalties && batch[i].id in system.penalties
                                               && Claimable(old(system).penalties[batch[i].id], maxAttempts)
      ensures KeepsOthers(old(system).penalties, system.penalties, Ids(batch))
    {
      CountedTouches(system.penalties, system.cards, ids);
      CountedRows(system.penalties, system.cards, ids);
      hide KeepsOthers, Run, Verdicts, Step, Counted, ItemsOf, Follows, Own;
      batch := CountAndFetch(ids);
      assert BatchIds(batch) == ids;
    }

    /** The increment and the projection of the selected rows, in the transaction of the selection. */
    method CountAndFetch(ids: seq<Id>) returns (batch: seq<Claimed>)
      requires Follows() && id !in system.batches && |ids| > 0 && Selectable(system, maxAttempts, ids)
      modifies this`system, this`trace
      ensures old(trace) <= trace
      ensures Follows() && system == Step(old(system), maxAttempts, ClaimBatch(id, ids))
      ensures Own() == old(Own()) + [ClaimBatch(id, ids)] && trace == old(trace) + [ClaimBatch(id, ids)]
      ensures (forall i :: 0 <= i < |ids| ==> ids[i] in system.penalties)
              && system.penalties == Counted(old(system).penalties, ids)
              && batch == ItemsOf(system.penalties, system.cards, ids) && system.cards == old(system).cards
              && system.created == old(system).created
              && id in system.batches && system.batches[id] == Batch(batch, Waiting)
    {
      hide Run, Verdicts;
      Record(ClaimBatch(id, ids));
      assert forall i :: 0 <= i < |ids| ==> ids[i] in ids;
      var rows, cards := system.penalties, system.cards;
      var counted := map k | k in rows :: if k in ids then rows[k].(attempts := rows[k].attempts + 1) else rows[k];
      batch := seq(|ids|, i requires 0 <= i < |ids| =>
        Claimed(ids[i], counted[ids[i]].userId, counted[ids[i]].amountCents, counted[ids[i]].attempts,
                if counted[ids[i]].userId in cards then Some(cards[counted[ids[i]].userId]) else None));
      assert counted == Counted(rows, ids) && batch == ItemsOf(counted, cards, ids);
      system := system.(penalties := counted, batches := system.batches[id := Batch(batch, Waiting)],
                        claims := system.claims + multiset(ids), lost := system.lost - (set k | k in ids));
    }

    /** The call, outside any transaction; without a card it is not made. It is seen to succeed exactly
        when it is reported and the key then has a succeeded charge. */
    method CreateCharge(claimed: Claimed, r: Reply)
      requires Follows() && id in system.batches && |system.batches[id].items| > 0
      requires system.batches[id].stage == Waiting && system.batches[id].items[0] == claimed
      modifies this`system, this`trace
      ensures old(trace) <= trace
      ensures Follows() && id in system.batches && system.batches[id].stage != Waiting
      ensures system.batches[id].items == old(system).batches[id].items && system.penalties == old(system).penalties
      ensures system == Step(old(system), maxAttempts, ChargeFirst(id, r.tookEffect, r.approved, r.reported))
      ensures Own() == old(Own()) + [ChargeFirst(id, r.tookEffect, r.approved, r.reported)]
      ensures system.batches[id].stage.Charged? <==> Paying(old(system).created, claimed, r)
      ensures system.batches[id].stage.Refused? ==> system.batches[id].stage.terminal == claimed.paymentMethod.None?
      ensures system.created == ChargesAfter(old(system).created, claimed, r)
    {
      Record(ChargeFirst(id, r.tookEffect, r.approved, r.reported));
      FoundCharge(system.created, claimed, r.approved);
      hide Run, Verdicts, OwnOf, Find;
      var stage := Refused(claimed.paymentMethod.None?);
      var created := system.created;
      if claimed.paymentMethod.Some? && r.tookEffect {
        var (charges, charge) := StripeCharge(system.created, claimed, r.approved);
        created := charges;
        if r.reported && charge.succeeded { stage := Charged(charge.id); }
      }
      system := system.(created := created, batches := system.batches[id := system.batches[id].(stage := stage)]);
    }

    /** A write of the failure threw: the tick ends and the batch is forgotten. */
    method EndTick()
      requires Follows() && id in system.batches
      modifies this`system, this`trace
      ensures old(trace) <= trace
      ensures Follows() && id !in system.batches && system.penalties == old(system).penalties
      ensures system.created == old(system).created && Own() == old(Own()) + [Crash(id)]
    {
      hide Run, Verdicts;
      Record(Crash(id));
      system := system.(batches := system.batches - {id}, lost := system.lost + Ids(system.batches[id].items));
    }

    /** The first item is done. */
    ghost predicate Advanced(before: System, after: System)
      reads this
      requires id in before.batches && |before.batches[id].items| > 0
    {
      && after.batches == SetBatch(before.batches, id, Pop(before.batches[id]))
      && forall k :: k in before.penalties ==> k in after.penalties
    }

    method WritePaid(claimed: Claimed, intent: Id)
      requires Follows() && id in system.batches && |system.batches[id].items| > 0
      requires system.batches[id].stage == Charged(intent) && system.batches[id].items[0] == claimed
      requires claimed.id in system.penalties
      modifies this
      ensures old(trace) <= trace
      ensures system.created == old(system).created && Own() == old(Own()) + [Verdict(id)]
      ensures Follows() && start == old(start) && Advanced(old(system), system)
      ensures counters == old(counters).(paid := old(counters).paid + 1)
      ensures system.penalties == old(system).penalties[claimed.id :=
                old(system).penalties[claimed.id].(status := Paid, intent := Some(intent))]
    {
      hide Run, Verdicts;
      Record(Verdict(id));
      var p := system.penalties[claimed.id];
      system := system.(batches := SetBatch(system.batches, id, Pop(system.batches[id])),
                        penalties := system.penalties[claimed.id := p.(status := Paid, intent := Some(intent))]);
      counters := counters.(paid := counters.paid + 1);
    }

    /** failPenalty: back to PENDING below the threshold, otherwise FAILED and the account suspended. */
    method FailPenalty(claimed: Claimed, terminalOverride: bool)
      requires Follows() && id in system.batches && |system.batches[id].items| > 0
      requires system.batches[id].stage == Refused(terminalOverride) && system.batches[id].items[0] == claimed
      requires claimed.id in system.penalties
      modifies this
      ensures old(trace) <= trace
      ensures system.created == old(system).created && Own() == old(Own()) + [Verdict(id)]
      ensures Follows() && start == old(start) && Advanced(old(system), system)
      ensures var terminal := terminalOverride || claimed.attempts >= maxAttempts;
              && counters == (if terminal then old(counters).(suspended := old(counters).suspended + 1)
                              else old(counters).(failed := old(counters).failed + 1))
              && system.suspensions == old(system).suspensions
                   + (if terminal then [Suspension(claimed.userId, claimed.id, terminalOverride)] else [])
              && system.penalties == old(system).penalties[claimed.id :=
                   old(system).penalties[claimed.id].(status := if terminal then Unpaid else Due)]
    {
      hide Run, Verdicts;
      Record(Verdict(id));
      var p := system.penalties[claimed.id];
      var rest := SetBatch(system.batches, id, Pop(system.batches[id]));
      if terminalOverride || claimed.attempts >= maxAttempts {
        system := system.(batches := rest, penalties := system.penalties[claimed.id := p.(status := Unpaid)],
                          suspensions := system.suspensions
                            + [Suspension(claimed.userId, claimed.id, terminalOverride)]);
        counters := counters.(suspended := counters.suspended + 1);
      } else {
        system := system.(batches := rest, penalties := system.penalties[claimed.id := p.(status := Due)]);
        counters := counters.(failed := counters.failed + 1);
      }
    }

    method LosePaidWrite()
      requires Follows() && id in system.batches && system.batches[id].stage.Charged?
      modifies this`system, this`trace
      ensures old(trace) <= trace
      ensures Follows() && system == old(system).(batches := system.batches) && id in system.batches
      ensures system.batches == old(system).batches[id := old(system).batches[id].(stage := Refused(false))]
      ensures Own() == old(Own()) + [PaidWriteFails(id)]
    {
      hide Run, Verdicts;
      Record(PaidWriteFails(id));
      system := system.(batches := system.batches[id := system.batches[id].(stage := Refused(false))]);
    }

    /** The PAID write, or failPenalty; false when the write of the failure threw. */
    method WriteOutcome(claimed: Claimed, r: Reply) returns (written: bool)
      requires Follows() && id in system.batches && |system.batches[id].items| > 0
      requires system.batches[id].stage != Waiting && system.batches[id].items[0] == claimed
      requires claimed.id in system.penalties
      modifies this
      ensures old(trace) <= trace
      ensures Follows() && start == old(start) && system.created == old(system).created
      // PAID, or the failure by the attempts, or nothing when that write throws
      ensures var stage := old(system).batches[id].stage;
              var paid, terminal := stage.Charged? && r.paidWritten,
                                    (stage.Refused? && stage.terminal) || claimed.attempts >= maxAttempts;
              && (written <==> paid || r.failureWritten)
              && claimed.id in system.penalties
              && (paid ==> system.penalties[claimed.id].status == Paid
                           && counters == old(counters).(paid := old(counters).paid + 1))
              && (!paid && written ==>
                    && system.penalties[claimed.id].status == (if terminal then Unpaid else Due)
                    && counters == if terminal then old(counters).(suspended := old(counters).suspended + 1)
                                   else old(counters).(failed := old(counters).failed + 1))
              && (!written ==> system.penalties == old(system).penalties)
              && Own() == old(Own()) + if paid then [Verdict(id)]
                                       else (if stage.Charged? then [PaidWriteFails(id)] else [])
                                            + [if r.failureWritten then Verdict(id) else Crash(id)]
      ensures written ==> Total(counters) == Total(old(counters)) + 1
                          && system.batches == SetBatch(old(system).batches, id, Pop(old(system).batches[id]))
      ensures !written ==> counters == old(counters) && id !in system.batches
      ensures KeepsOthers(old(system).penalties, system.penalties, {claimed.id})
    {
      hide Follows, Own;
      ghost var batch := system.batches[id];
      if system.batches[id].stage.Charged? {
        if r.paidWritten {
          WritePaid(claimed, system.batches[id].stage.intent);
          return true;
        }
        LosePaidWrite();
        assert Pop(system.batches[id]) == Pop(batch);
      }
      if !r.failureWritten {
        EndTick();
        return false;
      }
      FailPenalty(claimed, system.batches[id].stage.terminal);
      SetBatchAgain(old(system).batches, id, batch.(stage := Refused(false)), Pop(batch));
      return true;
    }

    static lemma SetBatchAgain(batches: map<Id, Batch>, w: Id, b: Batch, c: Batch)
      ensures SetBatch(batches[w := b], w, c) == SetBatch(batches, w, c)
    {
    }

    /** So far only charges of the items handled have been added. */
    static ghost predicate OnlyCharges(before: seq<Charge>, after: seq<Charge>, batch: seq<Claimed>, i: nat)
      requires i <= |batch|
    {
      before <= after && forall k :: |before| <= k < |after| ==> KeyAmong(after[k].key, batch, i)
    }

    static ghost predicate KeyAmong(key: Id, batch: seq<Claimed>, i: nat)
      requires i <= |batch|
    {
      exists j :: 0 <= j < i && batch[j].id == key
    }

    static lemma SameCharges(before: seq<Charge>, after: seq<Charge>, batch: seq<Claimed>, i: nat, r: Reply, w: Id)
      requires i < |batch| && Distinct(BatchIds(batch)) && OnlyCharges(before, after, batch, i)
      ensures Paying(after, batch[i], r) == Paying(before, batch[i], r)
      ensures ItemActions(w, after, batch[i], r) == ItemActions(w, before, batch[i], r)
    {
      forall k | |before| <= k < |after| ensures after[k].key != batch[i].id {
        assert KeyAmong(after[k].key, batch, i);
        var j :| 0 <= j < i && batch[j].id == after[k].key;
        assert BatchIds(batch)[j] != BatchIds(batch)[i];
      }
      OtherCharges(before, after, batch[i].id, r.approved);
    }

    static lemma ChargesStay(before: seq<Charge>, after: seq<Charge>, batch: seq<Claimed>, i: nat, r: Reply)
      requires i < |batch| && OnlyCharges(before, after, batch, i)
      ensures OnlyCharges(before, ChargesAfter(after, batch[i], r), batch, i + 1)
    {
      var more := ChargesAfter(after, batch[i], r);
      forall k | |before| <= k < |more| ensures KeyAmong(more[k].key, batch, i + 1) {
        if k < |after| {
          assert KeyAmong(after[k].key, batch, i);
          var j :| 0 <= j < i && batch[j].id == after[k].key;
          assert batch[j].id == more[k].key;
        } else {
          assert batch[i].id == more[k].key;
        }
      }
    }

    lemma Unroll(own: seq<Action>, created: seq<Charge>, batch: seq<Claimed>, reply: nat -> Reply, i: nat)
      requires i < |batch| && ((Paying(created, batch[i], reply(i)) && reply(i).paidWritten) || reply(i).failureWritten)
      ensures own + BatchActions(id, created, batch, reply, i)
              == (own + ItemActions(id, created, batch[i], reply(i))) + BatchActions(id, created, batch, reply, i + 1)
    {
      hide ItemActions, Paying;
    }

    /** chargePenalty on the first item of the batch. */
    method ChargePenalty(claimed: Claimed, before: seq<Action>, during: seq<Action>, r: Reply) returns (written: bool)
      requires Follows() && Routes(before) && Routes(during)
      requires id in system.batches && system.batches[id].stage == Waiting
      requires |system.batches[id].items| > 0 && system.batches[id].items[0] == claimed
      requires claimed.id in system.penalties
      modifies this
      ensures old(trace) <= trace
      ensures Follows() && start == old(start)
      // paid exactly when the charge is seen to succeed and can be written
      ensures var paying := Paying(old(system).created, claimed, r);
              var terminal := claimed.paymentMethod.None? || claimed.attempts >= maxAttempts;
              && (written <==> (paying && r.paidWritten) || r.failureWritten)
              && claimed.id in system.penalties
              && (paying && r.paidWritten ==>
                    && system.penalties[claimed.id].status == Paid
                    && counters == old(counters).(paid := old(counters).paid + 1))
              && (!(paying && r.paidWritten) && written ==>
                    && system.penalties[claimed.id].status == (if terminal then Unpaid else Due)
                    && counters == if terminal then old(counters).(suspended := old(counters).suspended + 1)
                                   else old(counters).(failed := old(counters).failed + 1))
      ensures Own() == old(Own()) + ItemActions(id, old(system).created, claimed, r)
      ensures system.created == ChargesAfter(old(system).created, claimed, r)
      ensures written ==> Total(counters) == Total(old(counters)) + 1
      ensures written && |old(system).batches[id].items| > 1 ==>
                id in system.batches && system.batches[id] == Pop(old(system).batches[id])
      ensures !written || |old(system).batches[id].items| == 1 ==> id !in system.batches
      ensures !written ==> counters == old(counters)
      ensures KeepsOthers(old(system).penalties, system.penalties, {claimed.id})
    {
      hide Follows, Routes, Own, Paying, ChargesAfter;
      Await(before);
      CreateCharge(claimed, r);
      Await(during);
      written := WriteOutcome(claimed, r);
    }

    /** One tick: a run of the protocol by this worker alone, in which every claimed penalty is
        handled at most once; a tick that does not throw handles all of them. */
    method RunOnce(limit: nat, env: Environment) returns (result: Counters, threw: bool, ghost claims: seq<Claimed>)
      requires id !in system.batches && forall i :: Routes(env.meanwhile(i))
      modifies this
      // and in which it sweeps, claims, and charges what it claimed one by one as the replies have it
      ensures exists actions, at :: IsTick(old(system), actions, at, limit, claims, env.reply, result)
      ensures id !in system.batches && Total(result) <= limit
      ensures maxAttempts > 0 && Sound(old(system), maxAttempts, id) ==> Sound(system, maxAttempts, id)
      // what was stuck is failed, and a tick that handles nothing had nothing to claim
      ensures forall k :: k in old(system).penalties && Stuck(old(system).penalties[k], maxAttempts) ==>
                k in system.penalties && system.penalties[k].status == Unpaid
      ensures limit > 0 && !threw && Total(result) == 0 ==>
                forall k :: k in system.penalties ==> !Claimable(system.penalties[k], maxAttempts)
    {
      Begin();
      hide Run, Verdicts, Follows, Routes, Stuck, Claimable, Own, IsTick, Sound;
      ghost var at;
      threw, claims, at := Tick(limit, env);
      result := counters;
      TickRuns();
      if maxAttempts > 0 && Sound(old(system), maxAttempts, id) {
        SoundThrough(old(system), maxAttempts, trace, id);
      }
    }

    lemma TickRuns()
      requires Follows()
      ensures system == Run(start, maxAttempts, trace) && forall i :: 0 <= i < |trace| ==> ActsAlone(trace[i], id)
      ensures counters == Verdicts(start, maxAttempts, trace, id) && Own() == OwnOf(trace)
    {
    }

    /** Sweep, claim, charge. */
    method Tick(limit: nat, env: Environment) returns (threw: bool, ghost claims: seq<Claimed>, ghost at: nat)
      requires Follows() && start == system && counters == Counters(0, 0, 0) && Own() == []
      requires id !in system.batches && forall i :: Routes(env.meanwhile(i))
      modifies this
      ensures Follows() && start == old(start) && id !in system.batches && Total(counters) <= limit
      ensures IsTick(start, trace, at, limit, claims, env.reply, counters)
      ensures forall k :: k in old(system).penalties && Stuck(old(system).penalties[k], maxAttempts) ==>
                k in system.penalties && system.penalties[k].status == Unpaid
      ensures limit > 0 && !threw && Total(counters) == 0 ==>
                forall k :: k in system.penalties ==> !Claimable(system.penalties[k], maxAttempts)
    {
      hide Run, Verdicts, Follows, Routes, Stuck, KeepsOthers, Claimable, Own, BatchActions, IsTick, OldestIn,
        FetchedFrom;
      ghost var before := system;
      Reached();
      var stuck := SweepStuckPenalties();
      ghost var swept := system;
      SweptIs(before.penalties, swept.penalties, maxAttempts);
      Await(env.meanwhile(0));
      ghost var awaited, soFar := system, trace;
      at := |soFar|;
      Reached();
      var batch := ClaimPenaltyBatch(limit);
      claims := batch;
      ghost var claimed := system.penalties;
      threw := ChargeBatch(batch, env);
      TickDone(soFar, limit, claims, awaited.created, env.reply);
      SweptStays(before.penalties, swept.penalties, awaited.penalties, claimed, system.penalties, maxAttempts,
                 Ids(batch));
    }

    method Begin()
      modifies this`counters, this`start, this`trace
      ensures Follows() && start == system && counters == Counters(0, 0, 0) && trace == [] && Own() == []
    {
      counters, start, trace := Counters(0, 0, 0), system, [];
    }

    /** A run in which only this worker and the routes act, and this worker as told; the charges of the
        batch are judged by what Stripe held at the claim. */
    ghost predicate IsTick(before: System, actions: seq<Action>, at: nat, limit: nat, claims: seq<Claimed>,
                           reply: nat -> Reply, result: Counters)
      reads this`system
    {
      && at <= |actions| && OldestIn(Run(before, maxAttempts, actions[..at]), maxAttempts, limit, BatchIds(claims))
      && (|claims| > 0 ==> at < |actions| && actions[at] == ClaimBatch(id, BatchIds(claims)))
      && (forall i :: 0 <= i < |actions| ==> ActsAlone(actions[i], id))
      && system == Run(before, maxAttempts, actions) && result == Verdicts(before, maxAttempts, actions, id)
      && OwnOf(actions) == [Sweep(id)] + if |claims| == 0 then []
                                         else [ClaimBatch(id, BatchIds(claims))]
                                              + BatchActions(id, before.created, claims, reply, 0)
    }

    lemma TickDone(soFar: seq<Action>, limit: nat, claims: seq<Claimed>, created: seq<Charge>, reply: nat -> Reply)
      requires Follows() && created == start.created && soFar <= trace
      requires OldestIn(Run(start, maxAttempts, soFar), maxAttempts, limit, BatchIds(claims))
      requires |claims| > 0 ==> soFar + [ClaimBatch(id, BatchIds(claims))] <= trace
      requires Own() == [Sweep(id)] + (if |claims| == 0 then [] else [ClaimBatch(id, BatchIds(claims))])
                        + BatchActions(id, created, claims, reply, 0)
      ensures IsTick(start, trace, |soFar|, limit, claims, reply, counters)
    {
      hide Run, Verdicts, BatchActions, OldestIn, Follows, BatchIds, OwnOf, Own;
      TickRuns();
      TickScript([Sweep(id)], if |claims| == 0 then []
                 else [ClaimBatch(id, BatchIds(claims))], id, created, claims, reply);
      assert trace[..|soFar|] == soFar;
    }

    static lemma TickScript(a: seq<Action>, b: seq<Action>, w: Id, created: seq<Charge>, claims: seq<Claimed>,
                            reply: nat -> Reply)
      requires |claims| == 0 ==> b == []
      ensures a + b + BatchActions(w, created, claims, reply, 0)
              == a + if |claims| == 0 then [] else b + BatchActions(w, created, claims, reply, 0)
    {
      var c := BatchActions(w, created, claims, reply, 0);
      assert |claims| == 0 ==> c == [];
      hide BatchActions;
      assert a + b + c == a + (b + c);
    }

    lemma Reached()
      requires Follows()
      ensures system == Run(start, maxAttempts, trace)
    {
    }

    static lemma SweptIs(a: map<Id, Penalty>, b: map<Id, Penalty>, maxAttempts: nat)
      requires b.Keys == a.Keys
      requires forall k :: k in b ==>
                 b[k] == if a[k].status == Due && a[k].attempts >= maxAttempts then a[k].(status := Unpaid) else a[k]
      ensures b == Swept(a, maxAttempts)
    {
    }

    method ChargeBatch(batch: seq<Claimed>, env: Environment) returns (threw: bool)
      requires Follows() && counters == Counters(0, 0, 0) && forall i :: Routes(env.meanwhile(i))
      requires if |batch| == 0 then id !in system.batches
               else id in system.batches && system.batches[id] == Batch(batch, Waiting)
      requires forall j :: 0 <= j < |batch| ==> batch[j].id in system.penalties
      requires Distinct(BatchIds(batch))
      modifies this
      ensures old(trace) <= trace
      ensures Follows() && start == old(start) && id !in system.batches
      ensures Own() == old(Own()) + BatchActions(id, old(system).created, batch, env.reply, 0)
      ensures Total(counters) <= |batch| && (!threw ==> Total(counters) == |batch|)
      ensures KeepsOthers(old(system).penalties, system.penalties, Ids(batch))
      ensures |batch| == 0 ==> system == old(system)
    {
      hide Run, Verdicts, Follows, Step, Routes, Own, BatchActions, OnlyCharges, KeepsOthers;
      BatchBegins(system, batch, env.reply);
      ghost var created0 := system.created;
      var i := 0;
      assert batch[0..] == batch;
      while i < |batch|
        invariant i <= |batch| && Follows() && start == old(start) && Total(counters) == i
        invariant if i < |batch| then id in system.batches && system.batches[id] == Batch(batch[i..], Waiting)
                  else id !in system.batches
        invariant forall j :: 0 <= j < |batch| ==> batch[j].id in system.penalties
        invariant KeepsOthers(old(system).penalties, system.penalties, Ids(batch))
        invariant i == 0 ==> system == old(system)
        invariant old(trace) <= trace
        invariant OnlyCharges(created0, system.created, batch, i)
        invariant old(Own()) + BatchActions(id, created0, batch, env.reply, 0)
                  == Own() + BatchActions(id, created0, batch, env.reply, i)
      {
        var written := ChargeNext(batch, env, i, created0, old(system).penalties, old(Own()));
        if !written { return true; }
        assert batch[i..][1..] == batch[i + 1..];
        i := i + 1;
      }
      BatchEnds(system.created, batch, env.reply);
      return false;
    }

    lemma BatchBegins(s: System, batch: seq<Claimed>, reply: nat -> Reply)
      ensures OnlyCharges(s.created, s.created, batch, 0) && KeepsOthers(s.penalties, s.penalties, Ids(batch))
    {
    }

    lemma BatchEnds(created: seq<Charge>, batch: seq<Claimed>, reply: nat -> Reply)
      ensures forall before :: BatchActions(id, before, batch, reply, |batch|) == []
    {
    }

    /** The i-th item of the batch. */
    method ChargeNext(batch: seq<Claimed>, env: Environment, i: nat, ghost created0: seq<Charge>,
                      ghost penalties0: map<Id, Penalty>, ghost own0: seq<Action>)
      returns (written: bool)
      requires Follows() && i < |batch| && Distinct(BatchIds(batch)) && forall n :: Routes(env.meanwhile(n))
      requires id in system.batches && system.batches[id] == Batch(batch[i..], Waiting)
      requires forall j :: 0 <= j < |batch| ==> batch[j].id in system.penalties
      requires KeepsOthers(penalties0, system.penalties, Ids(batch)) && OnlyCharges(created0, system.created, batch, i)
      requires own0 + BatchActions(id, created0, batch, env.reply, 0)
               == Own() + BatchActions(id, created0, batch, env.reply, i)
      modifies this
      ensures old(trace) <= trace
      ensures Follows() && start == old(start)
      ensures KeepsOthers(penalties0, system.penalties, Ids(batch))
              && OnlyCharges(created0, system.created, batch, i + 1)
      ensures forall j :: 0 <= j < |batch| ==> batch[j].id in system.penalties
      ensures Total(counters) == Total(old(counters)) + if written then 1 else 0
      ensures if written && i + 1 < |batch| then id in system.batches
              && system.batches[id] == Batch(batch[i + 1..], Waiting)
              else id !in system.batches
      ensures own0 + BatchActions(id, created0, batch, env.reply, 0)
              == Own() + if written then BatchActions(id, created0, batch, env.reply, i + 1) else []
    {
      hide Run, Verdicts, Follows, Step, Routes, Own, ItemActions, OnlyCharges, Paying, ChargesAfter;
      ghost var before, created, own := system.penalties, system.created, Own();
      SameCharges(created0, created, batch, i, env.reply(i), id);
      written := ChargePenalty(batch[i], env.meanwhile(2 * i + 1), env.meanwhile(2 * i + 2), env.reply(i));
      assert batch[i].id in Ids(batch);
      KeepsTransitive(penalties0, before, system.penalties, {batch[i].id}, Ids(batch));
      ChargesStay(created0, created, batch, i, env.reply(i));
      assert batch[i..][1..] == batch[i + 1..];
      if written {
        Unroll(own, created0, batch, env.reply, i);
      } else {
        assert BatchActions(id, created0, batch, env.reply, i) == ItemActions(id, created0, batch[i], env.reply(i))
          + [];
      }
    }
  }
}

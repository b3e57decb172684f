/** The worker that charges dispute penalties: sweep, claim a batch with its attempts counted before
    any call, charge with the penalty's own key, write the verdict. */
module DisputePenalties {
  import opened Tables

  datatype PenaltyStatus = Due | Paid | Unpaid // PENDING, PAID, FAILED

  datatype Penalty = Penalty(
    userId: Id, amountCents: int, status: PenaltyStatus, attempts: nat, createdAt: Instant, intent: Option<Id>)

  datatype Charge = Charge(id: Id, key: Id, amountCents: int, succeeded: bool)

  /** A claimed row, with the attempts after the increment and the card on file at the claim. */
  datatype Claimed = Claimed(id: Id, userId: Id, amountCents: int, attempts: nat, paymentMethod: Option<Id>)

  /** Where the worker stands with the first item of its batch. */
  datatype Stage = Waiting | Charged(intent: Id) | Refused(terminal: bool)

  datatype Batch = Batch(items: seq<Claimed>, stage: Stage)

  datatype Suspension = Suspension(userId: Id, penalty: Id, cardMissing: bool)

  /** `claims` counts the claims of each penalty and `lost` the penalties whose last claim was never
      followed by a verdict; the program keeps neither. */
  datatype System = System(
    penalties: map<Id, Penalty>,
    cards: map<Id, Id>,
    created: seq<Charge>,
    batches: map<Id, Batch>,
    suspensions: seq<Suspension>,
    claims: multiset<Id>,
    lost: set<Id>)

  datatype Action =
    | Impose(id: Id, userId: Id, amountCents: int, createdAt: Instant)
    | SetCard(userId: Id, card: Option<Id>)
    | Sweep(worker: Id)
    | ClaimBatch(worker: Id, ids: seq<Id>)
    | ChargeFirst(worker: Id, tookEffect: bool, approved: bool, reported: bool)
    | PaidWriteFails(worker: Id)
    | Verdict(worker: Id)
    | Crash(worker: Id)

  const DEFAULT_MAX_ATTEMPTS: nat := 3
  const DEFAULT_BATCH_LIMIT: nat := 50

  predicate Claimable(p: Penalty, maxAttempts: nat) {
    p.status == Due && p.attempts < maxAttempts
  }

  predicate Stuck(p: Penalty, maxAttempts: nat) {
    p.status == Due && p.attempts >= maxAttempts
  }

  function Swept(penalties: map<Id, Penalty>, maxAttempts: nat): map<Id, Penalty> {
    map k | k in penalties ::
      if Stuck(penalties[k], maxAttempts) then penalties[k].(status := Unpaid) else penalties[k]
  }

  function Counted(penalties: map<Id, Penalty>, ids: seq<Id>): map<Id, Penalty> {
    map k | k in penalties ::
      if k in ids then penalties[k].(attempts := penalties[k].attempts + 1) else penalties[k]
  }

  function ItemOf(penalties: map<Id, Penalty>, cards: map<Id, Id>, id: Id): Claimed
    requires id in penalties
  {
    var p := penalties[id];
    Claimed(id, p.userId, p.amountCents, p.attempts, if p.userId in cards then Some(cards[p.userId]) else None)
  }

  function ItemsOf(penalties: map<Id, Penalty>, cards: map<Id, Id>, ids: seq<Id>): seq<Claimed>
    requires forall i :: 0 <= i < |ids| ==> ids[i] in penalties
  {
    seq(|ids|, i requires 0 <= i < |ids| => ItemOf(penalties, cards, ids[i]))
  }

  predicate Distinct(ids: seq<Id>) {
    forall i, j :: 0 <= i < j < |ids| ==> ids[i] != ids[j]
  }

  predicate Selectable(s: System, maxAttempts: nat, ids: seq<Id>) {
    Distinct(ids) && forall i :: 0 <= i < |ids| ==> ids[i] in s.penalties && Claimable(s.penalties[ids[i]], maxAttempts)
  }

  /** The charge Stripe holds for a key. */
  function Find(created: seq<Charge>, key: Id): Option<Charge>
    ensures Find(created, key).Some? ==> Find(created, key).value in created && Find(created, key).value.key == key
    ensures Find(created, key).None? ==> forall i :: 0 <= i < |created| ==> created[i].key != key
  {
    if |created| == 0 then None
    else if created[0].key == key then Some(created[0])
    else Find(created[1..], key)
  }

  /** A repeated key returns the existing charge, approved or not. */
  function StripeCharge(created: seq<Charge>, c: Claimed, approved: bool): (seq<Charge>, Charge) {
    match Find(created, c.id)
    case Some(charge) => (created, charge)
    case None =>
      var charge := Charge(|created|, c.id, c.amountCents, approved);
      (created + [charge], charge)
  }

  function Pop(b: Batch): Batch
    requires |b.items| > 0
  {
    Batch(b.items[1..], Waiting)
  }

  function SetBatch(batches: map<Id, Batch>, w: Id, b: Batch): map<Id, Batch> {
    if |b.items| == 0 then batches - {w} else batches[w := b]
  }

  function WriteVerdict(s: System, maxAttempts: nat, w: Id): System
    requires w in s.batches && |s.batches[w].items| > 0 && s.batches[w].items[0].id in s.penalties
  {
    var b := s.batches[w];
    var c := b.items[0];
    var p := s.penalties[c.id];
    var popped := s.(batches := SetBatch(s.batches, w, Pop(b)));
    match b.stage
    case Waiting => s
    case Charged(intent) => popped.(penalties := s.penalties[c.id := p.(status := Paid, intent := Some(intent))])
    case Refused(terminal) =>
      if terminal || c.attempts >= maxAttempts then
        popped.(penalties := s.penalties[c.id := p.(status := Unpaid)],
                suspensions := s.suspensions + [Suspension(c.userId, c.id, terminal)])
      else popped.(penalties := s.penalties[c.id := p.(status := Due)])
  }

  function Ids(items: seq<Claimed>): set<Id> {
    set c | c in items :: c.id
  }

  function Step(s: System, maxAttempts: nat, a: Action): System {
    match a
    case Impose(id, user, amount, at) =>
      if id in s.penalties then s else s.(penalties := s.penalties[id := Penalty(user, amount, Due, 0, at, None)])
    case SetCard(user, card) => s.(cards := if card.Some? then s.cards[user := card.value] else s.cards - {user})
    case Sweep(w) =>
      if w in s.batches then s else s.(penalties := Swept(s.penalties, maxAttempts))
    case ClaimBatch(w, ids) =>
      if w in s.batches || |ids| == 0 || !Selectable(s, maxAttempts, ids) then s
      else
        var counted := Counted(s.penalties, ids);
        s.(penalties := counted, batches := s.batches[w := Batch(ItemsOf(counted, s.cards, ids), Waiting)],
           claims := s.claims + multiset(ids), lost := s.lost - (set id | id in ids))
    case ChargeFirst(w, tookEffect, approved, reported) =>
      if w !in s.batches || s.batches[w].stage != Waiting || |s.batches[w].items| == 0 then s
      else
        var b := s.batches[w];
        var c := b.items[0];
        if c.paymentMethod.None? then s.(batches := s.batches[w := b.(stage := Refused(true))])
        else if !tookEffect then s.(batches := s.batches[w := b.(stage := Refused(false))])
        else
          var (created, charge) := StripeCharge(s.created, c, approved);
          s.(created := created,
             batches := s.batches[w := b.(stage := if reported && charge.succeeded then Charged(charge.id)
                                                   else Refused(false))])
    case PaidWriteFails(w) =>
      if w in s.batches && s.batches[w].stage.Charged?
      then s.(batches := s.batches[w := s.batches[w].(stage := Refused(false))]) else s
    case Verdict(w) =>
      if w in s.batches && |s.batches[w].items| > 0 && s.batches[w].items[0].id in s.penalties
      then WriteVerdict(s, maxAttempts, w) else s
    case Crash(w) =>
      if w in s.batches then s.(batches := s.batches - {w}, lost := s.lost + Ids(s.batches[w].items)) else s
  }

  const INIT := System(map[], map[], [], map[], [], multiset{}, {})

  function Run(s: System, maxAttempts: nat, actions: seq<Action>): System
    decreases |actions|
  {
    if |actions| == 0 then s
    else Step(Run(s, maxAttempts, actions[..|actions| - 1]), maxAttempts, actions[|actions| - 1])
  }

  // ----- Any number of workers

  ghost predicate ChargesSound(s: System) {
    && (forall i, j :: 0 <= i < j < |s.created| ==> s.created[i].key != s.created[j].key)
    && (forall i :: 0 <= i < |s.created| ==>
          && s.created[i].id == i && s.created[i].key in s.penalties
          && s.created[i].amountCents == s.penalties[s.created[i].key].amountCents)
  }

  ghost predicate Succeeded(s: System, key: Id, charge: Id) {
    charge < |s.created| && s.created[charge].key == key && s.created[charge].succeeded
  }

  ghost predicate PenaltySound(s: System, maxAttempts: nat, id: Id)
    requires id in s.penalties
  {
    var p := s.penalties[id];
    && p.attempts == s.claims[id] <= maxAttempts
    && (p.status == Paid ==> p.intent.Some? && Succeeded(s, id, p.intent.value))
  }

  /** A claimed copy of a row that exists, whoever has handled the row since. */
  ghost predicate ItemFaithful(s: System, c: Claimed) {
    && c.id in s.penalties && c.attempts <= s.penalties[c.id].attempts
    && s.penalties[c.id].userId == c.userId && s.penalties[c.id].amountCents == c.amountCents
  }

  ghost predicate BatchFaithful(s: System, b: Batch) {
    && |b.items| > 0
    && (forall i :: 0 <= i < |b.items| ==> ItemFaithful(s, b.items[i]))
    && (forall i, j :: 0 <= i < j < |b.items| ==> b.items[i].id != b.items[j].id)
    && (b.stage.Charged? ==> Succeeded(s, b.items[0].id, b.stage.intent))
    && (b.stage.Refused? && b.stage.terminal ==> b.items[0].paymentMethod.None?)
  }

  ghost predicate Faithful(s: System, maxAttempts: nat) {
    && ChargesSound(s)
    && (forall id :: id in s.penalties ==> PenaltySound(s, maxAttempts, id))
    && (forall id :: id !in s.penalties ==> s.claims[id] == 0)
    && (forall w :: w in s.batches ==> BatchFaithful(s, s.batches[w]))
  }

  lemma CountedClaims(ids: seq<Id>)
    requires Distinct(ids)
    ensures forall id :: multiset(ids)[id] == if id in ids then 1 else 0
  {
    if |ids| > 0 {
      var shorter := ids[..|ids| - 1];
      CountedClaims(shorter);
      assert ids == shorter + [ids[|ids| - 1]];
      assert multiset(ids) == multiset(shorter) + multiset{ids[|ids| - 1]};
    }
  }

  /** Rows and charges only move forward, so what other batches hold stays faithful. */
  ghost predicate Forward(a: System, b: System) {
    && a.created <= b.created
    && forall id :: id in a.penalties ==>
         && id in b.penalties && a.penalties[id].attempts <= b.penalties[id].attempts
         && b.penalties[id].userId == a.penalties[id].userId
         && b.penalties[id].amountCents == a.penalties[id].amountCents
  }

  lemma BatchStaysFaithful(a: System, b: System, batch: Batch)
    requires Forward(a, b) && BatchFaithful(a, batch)
    ensures BatchFaithful(b, batch)
  {
    forall i | 0 <= i < |batch.items| ensures ItemFaithful(b, batch.items[i]) {
      assert ItemFaithful(a, batch.items[i]);
    }
  }

  lemma StepForward(s: System, maxAttempts: nat, a: Action)
    ensures Forward(s, Step(s, maxAttempts, a))
  {
    hide Selectable, Claimable, Stuck, Find, Ids, SetBatch, Pop, ItemsOf;
  }

  lemma OtherBatchesKept(s: System, maxAttempts: nat, a: Action)
    requires !a.Impose? && !a.SetCard?
    ensures var s' := Step(s, maxAttempts, a);
            forall v :: v in s'.batches && v != a.worker ==> v in s.batches && s'.batches[v] == s.batches[v]
  {
    hide Find, Selectable, Ids;
  }

  lemma OwnBatchFaithful(s: System, maxAttempts: nat, a: Action)
    requires Faithful(s, maxAttempts) && !a.Impose? && !a.SetCard?
    ensures var s' := Step(s, maxAttempts, a); a.worker in s'.batches ==> BatchFaithful(s', s'.batches[a.worker])
  {
    hide ChargesSound, PenaltySound, ItemFaithful, Find, Selectable, Ids, Succeeded;
    var s', w := Step(s, maxAttempts, a), a.worker;
    StepForward(s, maxAttempts, a);
    if w in s.batches { BatchStaysFaithful(s, s', s.batches[w]); }
    match a
    case ClaimBatch(_, ids) => ClaimedBatchFaithful(s, maxAttempts, w, ids);
    case ChargeFirst(_, x, y, z) => ChargedBatchFaithful(s, maxAttempts, w, x, y, z);
    case Verdict(_) => PoppedBatchFaithful(s, maxAttempts, w);
    case _ =>
  }

  lemma ClaimedBatchFaithful(s: System, maxAttempts: nat, w: Id, ids: seq<Id>)
    requires Faithful(s, maxAttempts)
    ensures var s' := Step(s, maxAttempts, ClaimBatch(w, ids)); w in s'.batches ==> BatchFaithful(s', s'.batches[w])
  {
    hide ChargesSound, PenaltySound;
    var s' := Step(s, maxAttempts, ClaimBatch(w, ids));
    if w in s.batches {
      StepForward(s, maxAttempts, ClaimBatch(w, ids));
      BatchStaysFaithful(s, s', s.batches[w]);
    } else if w in s'.batches {
      forall i | 0 <= i < |ids| ensures ItemFaithful(s', s'.batches[w].items[i]) {
        assert ids[i] in ids;
      }
    }
  }

  lemma ChargedBatchFaithful(s: System, maxAttempts: nat, w: Id, x: bool, y: bool, z: bool)
    requires Faithful(s, maxAttempts)
    ensures var s' := Step(s, maxAttempts, ChargeFirst(w, x, y, z)); w in s'.batches ==>
              BatchFaithful(s', s'.batches[w])
  {
    hide PenaltySound;
    var s' := Step(s, maxAttempts, ChargeFirst(w, x, y, z));
    StepForward(s, maxAttempts, ChargeFirst(w, x, y, z));
    if w in s'.batches {
      BatchStaysFaithful(s, s', s.batches[w]);
    }
  }

  lemma PoppedBatchFaithful(s: System, maxAttempts: nat, w: Id)
    requires Faithful(s, maxAttempts)
    ensures var s' := Step(s, maxAttempts, Verdict(w)); w in s'.batches ==> BatchFaithful(s', s'.batches[w])
  {
    hide ChargesSound, PenaltySound;
    var s' := Step(s, maxAttempts, Verdict(w));
    StepForward(s, maxAttempts, Verdict(w));
    if w in s'.batches {
      BatchStaysFaithful(s, s', s.batches[w]);
      if s'.batches[w] != s.batches[w] {
        forall i | 0 <= i < |s'.batches[w].items| ensures ItemFaithful(s', s'.batches[w].items[i]) {
          assert s'.batches[w].items[i] == s.batches[w].items[i + 1];
        }
      }
    }
  }

  lemma ClaimKeepsRows(s: System, maxAttempts: nat, w: Id, ids: seq<Id>)
    requires Faithful(s, maxAttempts)
    ensures RowsFaithful(Step(s, maxAttempts, ClaimBatch(w, ids)), maxAttempts)
  {
    hide BatchFaithful;
    var s' := Step(s, maxAttempts, ClaimBatch(w, ids));
    if s' != s {
      CountedClaims(ids);
      forall id | id in s'.penalties ensures PenaltySound(s', maxAttempts, id) {
        assert PenaltySound(s, maxAttempts, id);
        if id in ids {
          var i :| 0 <= i < |ids| && ids[i] == id;
          assert Claimable(s.penalties[ids[i]], maxAttempts);
        }
      }
    }
  }

  ghost predicate RowsFaithful(s: System, maxAttempts: nat) {
    && ChargesSound(s)
    && (forall id :: id in s.penalties ==> PenaltySound(s, maxAttempts, id))
    && (forall id :: id !in s.penalties ==> s.claims[id] == 0)
  }

  lemma ChargeKeepsRows(s: System, maxAttempts: nat, w: Id, x: bool, y: bool, z: bool)
    requires Faithful(s, maxAttempts)
    ensures RowsFaithful(Step(s, maxAttempts, ChargeFirst(w, x, y, z)), maxAttempts)
  {
    hide Selectable, Swept, Counted, ItemsOf, WriteVerdict, Ids;
    var s' := Step(s, maxAttempts, ChargeFirst(w, x, y, z));
    if s' != s {
      assert s'.created == s.created || exists c :: s'.created == s.created + [c];
      assert ItemFaithful(s, s.batches[w].items[0]);
    }
  }

  lemma VerdictWrites(s: System, maxAttempts: nat, w: Id)
    ensures var s' := Step(s, maxAttempts, Verdict(w));
            && s'.created == s.created && s'.claims == s.claims && s'.penalties.Keys == s.penalties.Keys
            && forall id :: id in s.penalties ==>
                 && s'.penalties[id].(status := Due, intent := None) == s.penalties[id].(status := Due, intent := None)
                 && (s'.penalties[id].status == Paid ==>
                       || s'.penalties[id] == s.penalties[id]
                       || (w in s.batches && s.batches[w].stage.Charged? && |s.batches[w].items| > 0
                           && s.batches[w].items[0].id == id
                           && s'.penalties[id].intent == Some(s.batches[w].stage.intent)))
  {
    hide SetBatch, Pop;
  }

  lemma VerdictKeepsRows(s: System, maxAttempts: nat, w: Id)
    requires Faithful(s, maxAttempts)
    ensures RowsFaithful(Step(s, maxAttempts, Verdict(w)), maxAttempts)
  {
    VerdictWrites(s, maxAttempts, w);
    hide Step, ItemFaithful;
    var s' := Step(s, maxAttempts, Verdict(w));
    forall id | id in s'.penalties ensures PenaltySound(s', maxAttempts, id) {
      assert PenaltySound(s, maxAttempts, id);
      assert w in s.batches ==> BatchFaithful(s, s.batches[w]);
      assert s'.penalties[id].attempts == s.penalties[id].(status := Due, intent := None).attempts;
    }
    assert ChargesSound(s') by {
      forall i | 0 <= i < |s'.created|
        ensures s'.penalties[s'.created[i].key].amountCents == s'.created[i].amountCents {
        var key := s'.created[i].key;
        assert s'.penalties[key].amountCents == s.penalties[key].(status := Due, intent := None).amountCents;
      }
    }
  }

  lemma StepKeepsRows(s: System, maxAttempts: nat, a: Action)
    requires Faithful(s, maxAttempts)
    ensures RowsFaithful(Step(s, maxAttempts, a), maxAttempts)
  {
    match a
    case ClaimBatch(w, ids) => ClaimKeepsRows(s, maxAttempts, w, ids);
    case ChargeFirst(w, x, y, z) => ChargeKeepsRows(s, maxAttempts, w, x, y, z);
    case Verdict(w) => VerdictKeepsRows(s, maxAttempts, w);
    case _ =>
      hide BatchFaithful;
  }

  lemma StepKeepsFaithful(s: System, maxAttempts: nat, a: Action)
    requires Faithful(s, maxAttempts)
    ensures Faithful(Step(s, maxAttempts, a), maxAttempts)
  {
    StepKeepsRows(s, maxAttempts, a);
    StepForward(s, maxAttempts, a);
    if a.Impose? || a.SetCard? {
      RoutesKeepBatches(s, maxAttempts, a);
    } else {
      OwnBatchFaithful(s, maxAttempts, a);
      OtherBatchesKept(s, maxAttempts, a);
    }
    hide Step, BatchFaithful, Forward, ChargesSound, PenaltySound;
    var s' := Step(s, maxAttempts, a);
    forall v | v in s'.batches ensures BatchFaithful(s', s'.batches[v]) {
      if a.Impose? || a.SetCard? || v != a.worker { BatchStaysFaithful(s, s', s.batches[v]); }
    }
  }

  lemma RoutesKeepBatches(s: System, maxAttempts: nat, a: Action)
    requires a.Impose? || a.SetCard?
    ensures Step(s, maxAttempts, a).batches == s.batches
  {
  }

  /** On every run of any number of workers, crashing wherever they may: each penalty is claimed at
      most maxAttempts times and charged at most once, for its amount, and PAID names a charge that
      succeeded. */
  lemma {:induction false} FaithfulOnEveryRun(maxAttempts: nat, actions: seq<Action>)
    ensures Faithful(Run(INIT, maxAttempts, actions), maxAttempts)
    decreases |actions|
  {
    hide Step, Faithful;
    if |actions| == 0 {
      assert Faithful(INIT, maxAttempts) by { NothingClaimed(maxAttempts); }
    } else {
      FaithfulOnEveryRun(maxAttempts, actions[..|actions| - 1]);
      StepKeepsFaithful(Run(INIT, maxAttempts, actions[..|actions| - 1]), maxAttempts, actions[|actions| - 1]);
    }
  }

  lemma NothingClaimed(maxAttempts: nat)
    ensures Faithful(INIT, maxAttempts)
  {
  }

  // ----- When verdicts get in each other's way

  predicate Holds(b: Batch, id: Id) {
    exists i :: 0 <= i < |b.items| && b.items[i].id == id
  }

  /** A batch that is still working on the last claim of a penalty: its attempts are the row's. */
  predicate HoldsLast(b: Batch, id: Id, attempts: nat) {
    exists i :: 0 <= i < |b.items| && b.items[i].id == id && b.items[i].attempts == attempts
  }

  predicate IsFinal(s: PenaltyStatus) {
    s == Paid || s == Unpaid
  }

  /** The status that the next verdict of a worker writes. */
  function Outcome(b: Batch, maxAttempts: nat): PenaltyStatus
    requires |b.items| > 0 && b.stage != Waiting
  {
    if b.stage.Charged? then Paid
    else if b.stage.terminal || b.items[0].attempts >= maxAttempts then Unpaid else Due
  }

  /** A verdict that is really written. */
  predicate Writes(s: System, a: Action, id: Id) {
    && a.Verdict? && a.worker in s.batches && |s.batches[a.worker].items| > 0
    && s.batches[a.worker].stage != Waiting && s.batches[a.worker].items[0].id == id && id in s.penalties
  }

  /** In any state: the steps that take a penalty out of PAID or FAILED are the verdicts on another
      claim of it that come to something else. */
  lemma LeavesFinalIff(s: System, maxAttempts: nat, a: Action, id: Id)
    requires id in s.penalties && IsFinal(s.penalties[id].status)
    ensures id in Step(s, maxAttempts, a).penalties
    ensures Step(s, maxAttempts, a).penalties[id].status != s.penalties[id].status
            <==> Writes(s, a, id) && Outcome(s.batches[a.worker], maxAttempts) != s.penalties[id].status
  {
    hide Find, Ids, SetBatch;
  }

  predicate HeldLast(s: System, id: Id, attempts: nat) {
    exists v :: v in s.batches && HoldsLast(s.batches[v], id, attempts)
  }

  predicate HeldLastByOther(s: System, w: Id, id: Id, attempts: nat) {
    exists v :: v in s.batches && v != w && HoldsLast(s.batches[v], id, attempts)
  }

  predicate Held(s: System, id: Id) {
    exists v :: v in s.batches && Holds(s.batches[v], id)
  }

  predicate HeldByOther(s: System, w: Id, id: Id) {
    exists v :: v in s.batches && v != w && Holds(s.batches[v], id)
  }

  /** A verdict lets go of the penalty it decides, and leaves the other batches alone. */
  lemma VerdictLetsGo(s: System, maxAttempts: nat, a: Action, id: Id)
    requires Faithful(s, maxAttempts) && Writes(s, a, id)
    ensures var s' := Step(s, maxAttempts, a);
            && id in s'.penalties && s'.penalties == s.penalties[id := s'.penalties[id]]
            && s'.penalties[id].status == Outcome(s.batches[a.worker], maxAttempts)
            && (forall v :: v != a.worker ==> (v in s'.batches <==> v in s.batches))
            && (forall v :: v in s'.batches && v != a.worker ==> s'.batches[v] == s.batches[v])
            && (a.worker in s'.batches ==> !Holds(s'.batches[a.worker], id))
  {
    hide ChargesSound, PenaltySound, ItemFaithful;
    var s', b := Step(s, maxAttempts, a), s.batches[a.worker];
    assert BatchFaithful(s, b);
    if a.worker in s'.batches {
      forall i | 0 <= i < |s'.batches[a.worker].items| ensures s'.batches[a.worker].items[i].id != id {
        assert s'.batches[a.worker].items[i] == b.items[i + 1];
      }
    }
  }

  /** Only sweeps and written verdicts change a status. */
  lemma StatusKept(s: System, maxAttempts: nat, a: Action, id: Id)
    requires id in s.penalties && !Writes(s, a, id)
    requires a.Sweep? && a.worker !in s.batches ==> !Stuck(s.penalties[id], maxAttempts)
    ensures id in Step(s, maxAttempts, a).penalties
    ensures Step(s, maxAttempts, a).penalties[id].status == s.penalties[id].status
  {
    hide Find, Ids, SetBatch;
  }

  /** In every reachable state: the steps that fail a penalty whose last claim a batch is still
      working on are a sweep of it at the threshold and a failing verdict on another claim. */
  lemma FailsHeldIff(s: System, maxAttempts: nat, a: Action, id: Id)
    requires Faithful(s, maxAttempts) && id in s.penalties && s.penalties[id].status != Unpaid
    ensures id in Step(s, maxAttempts, a).penalties
    ensures var s', last := Step(s, maxAttempts, a), s.penalties[id].attempts;
            (s'.penalties[id].status == Unpaid && HeldLast(s', id, last))
            <==> || (a.Sweep? && a.worker !in s.batches && Stuck(s.penalties[id], maxAttempts)
                     && HeldLast(s, id, last))
                 || (Writes(s, a, id) && Outcome(s.batches[a.worker], maxAttempts) == Unpaid
                     && HeldLastByOther(s, a.worker, id, last))
  {
    if Writes(s, a, id) {
      VerdictLetsGo(s, maxAttempts, a, id);
      hide Step, Outcome, Writes, Faithful;
    } else if a.Sweep? && a.worker !in s.batches && Stuck(s.penalties[id], maxAttempts) {
    } else {
      StatusKept(s, maxAttempts, a, id);
      hide Step;
    }
  }

  /** A decided penalty that some batch still holds a claim of. */
  ghost predicate Overlaps(s: System, id: Id) {
    id in s.penalties && IsFinal(s.penalties[id].status) && Held(s, id)
  }

  /** A sweep, or a verdict that decides, while another batch holds a claim. */
  predicate Collides(s: System, maxAttempts: nat, a: Action, id: Id) {
    || (a.Sweep? && a.worker !in s.batches && id in s.penalties && Stuck(s.penalties[id], maxAttempts) && Held(s, id))
    || (Writes(s, a, id) && IsFinal(Outcome(s.batches[a.worker], maxAttempts)) && HeldByOther(s, a.worker, id))
  }

  lemma DecidedIsNotHeldAgain(s: System, maxAttempts: nat, a: Action, id: Id)
    requires id in s.penalties && IsFinal(s.penalties[id].status) && !Held(s, id)
    ensures !Held(Step(s, maxAttempts, a), id)
  {
    hide Find, Ids;
    var s' := Step(s, maxAttempts, a);
    forall v | v in s'.batches ensures !Holds(s'.batches[v], id) {
      if v in s.batches { assert !Holds(s.batches[v], id); }
    }
  }

  /** In every reachable state: these are the steps that bring such a penalty about. */
  lemma OverlapsIff(s: System, maxAttempts: nat, a: Action, id: Id)
    requires Faithful(s, maxAttempts) && !Overlaps(s, id)
    ensures Overlaps(Step(s, maxAttempts, a), id) <==> Collides(s, maxAttempts, a, id)
  {
    if id !in s.penalties {
      NewRowIsDue(s, maxAttempts, a, id);
      hide Step;
    } else if Writes(s, a, id) {
      VerdictLetsGo(s, maxAttempts, a, id);
      hide Step, Outcome, Faithful;
      assert Holds(s.batches[a.worker], id);
    } else if a.Sweep? && a.worker !in s.batches && Stuck(s.penalties[id], maxAttempts) {
    } else {
      StatusKept(s, maxAttempts, a, id);
      if IsFinal(s.penalties[id].status) { DecidedIsNotHeldAgain(s, maxAttempts, a, id); }
      hide Step;
    }
  }

  lemma NewRowIsDue(s: System, maxAttempts: nat, a: Action, id: Id)
    requires id !in s.penalties
    ensures var s' := Step(s, maxAttempts, a); id in s'.penalties ==> !IsFinal(s'.penalties[id].status)
  {
    hide Find, Ids, SetBatch;
  }

  ghost predicate NeverCollides(maxAttempts: nat, actions: seq<Action>, id: Id) {
    forall i :: 0 <= i < |actions| ==> !Collides(Run(INIT, maxAttempts, actions[..i]), maxAttempts, actions[i], id)
  }

  lemma {:induction false} NeverOverlaps(maxAttempts: nat, actions: seq<Action>, id: Id)
    requires NeverCollides(maxAttempts, actions, id)
    ensures !Overlaps(Run(INIT, maxAttempts, actions), id)
    decreases |actions|
  {
    hide Step, Collides;
    if |actions| > 0 {
      var shorter := actions[..|actions| - 1];
      assert forall i :: 0 <= i < |shorter| ==> shorter[..i] == actions[..i];
      NeverOverlaps(maxAttempts, shorter, id);
      FaithfulOnEveryRun(maxAttempts, shorter);
      OverlapsIff(Run(INIT, maxAttempts, shorter), maxAttempts, actions[|actions| - 1], id);
    }
  }

  /** On every run of any number of workers without a collision on it, a penalty once PAID or FAILED
      keeps that status. */
  lemma {:induction false} FinalWithoutCollision(maxAttempts: nat, actions: seq<Action>, i: nat, id: Id)
    requires i <= |actions| && NeverCollides(maxAttempts, actions, id)
    requires id in Run(INIT, maxAttempts, actions[..i]).penalties
    requires IsFinal(Run(INIT, maxAttempts, actions[..i]).penalties[id].status)
    ensures id in Run(INIT, maxAttempts, actions).penalties
    ensures Run(INIT, maxAttempts, actions).penalties[id].status
            == Run(INIT, maxAttempts, actions[..i]).penalties[id].status
    decreases |actions|
  {
    hide Step, Collides, Overlaps;
    if i == |actions| {
      assert actions[..i] == actions;
    } else {
      var shorter := actions[..|actions| - 1];
      assert forall j :: 0 <= j <= |shorter| ==> shorter[..j] == actions[..j];
      FinalWithoutCollision(maxAttempts, shorter, i, id);
      NeverOverlaps(maxAttempts, shorter, id);
      KeptUnlessOverlapping(Run(INIT, maxAttempts, shorter), maxAttempts, actions[|actions| - 1], id);
    }
  }

  lemma WriterHolds(s: System, a: Action, id: Id)
    ensures Writes(s, a, id) ==> Held(s, id)
  {
    if Writes(s, a, id) { assert Holds(s.batches[a.worker], id); }
  }

  lemma KeptUnlessOverlapping(s: System, maxAttempts: nat, a: Action, id: Id)
    requires id in s.penalties && IsFinal(s.penalties[id].status) && !Overlaps(s, id)
    ensures id in Step(s, maxAttempts, a).penalties
    ensures Step(s, maxAttempts, a).penalties[id].status == s.penalties[id].status
  {
    LeavesFinalIff(s, maxAttempts, a, id);
    WriterHolds(s, a, id);
    hide Step;
  }

  // ----- One worker

  predicate ActsAlone(a: Action, w: Id) {
    a.Impose? || a.SetCard? || a.worker == w
  }

  /** The row a claimed copy was taken from has not moved since. */
  ghost predicate ItemCurrent(s: System, c: Claimed) {
    && c.id in s.penalties && c.id !in s.lost
    && s.penalties[c.id].status == Due && s.penalties[c.id].attempts == c.attempts
  }

  /** A penalty that can no longer be claimed is either being handled or lost its last verdict. */
  ghost predicate StuckIsLost(s: System, maxAttempts: nat, w: Id) {
    forall id :: id in s.penalties && Stuck(s.penalties[id], maxAttempts) ==>
      id in s.lost || (w in s.batches && id in Ids(s.batches[w].items))
  }

  ghost predicate SuspensionSound(s: System, maxAttempts: nat, x: Suspension) {
    && x.penalty in s.penalties && s.penalties[x.penalty].userId == x.userId
    && s.penalties[x.penalty].status == Unpaid
    && (x.cardMissing || s.penalties[x.penalty].attempts == maxAttempts)
  }

  /** What one worker keeps beyond what any number of them do. */
  ghost predicate Orderly(s: System, maxAttempts: nat, w: Id) {
    && s.batches.Keys <= {w}
    && (w in s.batches ==> forall i :: 0 <= i < |s.batches[w].items| ==> ItemCurrent(s, s.batches[w].items[i]))
    && StuckIsLost(s, maxAttempts, w)
    && (forall i :: 0 <= i < |s.suspensions| ==> SuspensionSound(s, maxAttempts, s.suspensions[i]))
  }

  ghost predicate Sound(s: System, maxAttempts: nat, w: Id) {
    Faithful(s, maxAttempts) && Orderly(s, maxAttempts, w)
  }

  lemma ClaimKeepsOrder(s: System, maxAttempts: nat, w: Id, ids: seq<Id>)
    requires Sound(s, maxAttempts, w)
    ensures Orderly(Step(s, maxAttempts, ClaimBatch(w, ids)), maxAttempts, w)
  {
    hide Faithful;
    var s' := Step(s, maxAttempts, ClaimBatch(w, ids));
    if s' != s {
      var b := s'.batches[w];
      forall i | 0 <= i < |b.items| ensures ItemCurrent(s', b.items[i]) {
        assert ids[i] in ids && Claimable(s.penalties[ids[i]], maxAttempts);
      }
      forall id | id in s'.penalties && Stuck(s'.penalties[id], maxAttempts)
        ensures id in s'.lost || id in Ids(b.items) {
        if id in ids {
          var i :| 0 <= i < |ids| && ids[i] == id;
          assert b.items[i] in b.items && b.items[i].id == id;
        }
      }
      forall i | 0 <= i < |s'.suspensions| ensures SuspensionSound(s', maxAttempts, s'.suspensions[i]) {
        assert SuspensionSound(s, maxAttempts, s.suspensions[i]);
      }
    }
  }

  lemma ChargeKeepsOrder(s: System, maxAttempts: nat, w: Id, tookEffect: bool, approved: bool, reported: bool)
    requires Sound(s, maxAttempts, w)
    ensures Orderly(Step(s, maxAttempts, ChargeFirst(w, tookEffect, approved, reported)), maxAttempts, w)
  {
    hide Faithful, Find;
  }

  /** A verdict on the first item leaves the rest of the batch current. */
  lemma VerdictKeepsBatch(s: System, maxAttempts: nat, w: Id)
    requires Sound(s, maxAttempts, w)
    ensures var s' := Step(s, maxAttempts, Verdict(w));
            && s'.batches.Keys <= {w}
            && (w in s'.batches ==> forall i :: 0 <= i < |s'.batches[w].items| ==>
                ItemCurrent(s', s'.batches[w].items[i]))
  {
    hide StuckIsLost, SuspensionSound, PenaltySound, ChargesSound, Succeeded;
    var s' := Step(s, maxAttempts, Verdict(w));
    if s' != s {
      assert BatchFaithful(s, s.batches[w]);
      if w in s'.batches {
        forall i | 0 <= i < |s'.batches[w].items| ensures ItemCurrent(s', s'.batches[w].items[i]) {
          assert s'.batches[w].items[i] == s.batches[w].items[i + 1];
        }
      }
    }
  }

  lemma VerdictKeepsStuck(s: System, maxAttempts: nat, w: Id)
    requires Sound(s, maxAttempts, w)
    ensures StuckIsLost(Step(s, maxAttempts, Verdict(w)), maxAttempts, w)
  {
    hide ChargesSound, Succeeded, SuspensionSound, ItemFaithful;
    var s' := Step(s, maxAttempts, Verdict(w));
    if s' != s {
      var b := s.batches[w];
      assert BatchFaithful(s, b);
      assert ItemCurrent(s, b.items[0]) && PenaltySound(s, maxAttempts, b.items[0].id);
      assert b.items == [b.items[0]] + b.items[1..];
    }
  }

  lemma VerdictKeepsSuspensions(s: System, maxAttempts: nat, w: Id)
    requires Sound(s, maxAttempts, w)
    ensures var s' := Step(s, maxAttempts, Verdict(w));
            forall i :: 0 <= i < |s'.suspensions| ==> SuspensionSound(s', maxAttempts, s'.suspensions[i])
  {
    hide ChargesSound, Succeeded, StuckIsLost, SetBatch, Pop;
    var s' := Step(s, maxAttempts, Verdict(w));
    if s' != s {
      var b := s.batches[w];
      assert BatchFaithful(s, b) && ItemFaithful(s, b.items[0]);
      assert ItemCurrent(s, b.items[0]) && PenaltySound(s, maxAttempts, b.items[0].id);
    }
  }

  lemma RestKeepsOrder(s: System, maxAttempts: nat, w: Id, a: Action)
    requires Sound(s, maxAttempts, w) && ActsAlone(a, w) && maxAttempts > 0
    requires !a.ClaimBatch? && !a.ChargeFirst? && !a.Verdict?
    ensures Orderly(Step(s, maxAttempts, a), maxAttempts, w)
  {
    hide Faithful;
  }

  lemma StepKeepsSound(s: System, maxAttempts: nat, w: Id, a: Action)
    requires Sound(s, maxAttempts, w) && ActsAlone(a, w) && maxAttempts > 0
    ensures Sound(Step(s, maxAttempts, a), maxAttempts, w)
  {
    StepKeepsFaithful(s, maxAttempts, a);
    hide Faithful, Step;
    match a
    case ClaimBatch(_, ids) => ClaimKeepsOrder(s, maxAttempts, w, ids);
    case ChargeFirst(_, x, y, z) => ChargeKeepsOrder(s, maxAttempts, w, x, y, z);
    case Verdict(_) =>
      VerdictKeepsBatch(s, maxAttempts, w);
      VerdictKeepsStuck(s, maxAttempts, w);
      VerdictKeepsSuspensions(s, maxAttempts, w);
    case _ => RestKeepsOrder(s, maxAttempts, w, a);
  }

  /** On every run of one worker, crashing wherever it may, besides: what it holds is current, what
      is stuck has lost its last verdict, and whoever is suspended has a penalty failed for good. */
  lemma {:induction false} SoundOnEveryRun(maxAttempts: nat, w: Id, actions: seq<Action>)
    requires maxAttempts > 0 && forall i :: 0 <= i < |actions| ==> ActsAlone(actions[i], w)
    ensures Sound(Run(INIT, maxAttempts, actions), maxAttempts, w)
    decreases |actions|
  {
    hide Sound, Step;
    if |actions| == 0 {
      assert Sound(INIT, maxAttempts, w) by { NothingSuspended(maxAttempts, w); }
    } else {
      SoundOnEveryRun(maxAttempts, w, actions[..|actions| - 1]);
      StepKeepsSound(Run(INIT, maxAttempts, actions[..|actions| - 1]), maxAttempts, w, actions[|actions| - 1]);
    }
  }

  lemma NothingSuspended(maxAttempts: nat, w: Id)
    ensures Sound(INIT, maxAttempts, w)
  {
    NothingClaimed(maxAttempts);
  }

  /** One worker never collides with itself. */
  lemma AloneNeverCollides(s: System, maxAttempts: nat, w: Id, a: Action, id: Id)
    requires Sound(s, maxAttempts, w) && ActsAlone(a, w)
    ensures !Collides(s, maxAttempts, a, id)
  {
    hide Faithful, StuckIsLost, SuspensionSound;
  }

  /** Hence with one worker PAID and FAILED are final. */
  lemma FinalWhenAlone(maxAttempts: nat, w: Id, actions: seq<Action>, i: nat, id: Id)
    requires maxAttempts > 0 && forall j :: 0 <= j < |actions| ==> ActsAlone(actions[j], w)
    requires i <= |actions| && id in Run(INIT, maxAttempts, actions[..i]).penalties
    requires IsFinal(Run(INIT, maxAttempts, actions[..i]).penalties[id].status)
    ensures id in Run(INIT, maxAttempts, actions).penalties
    ensures Run(INIT, maxAttempts, actions).penalties[id].status
            == Run(INIT, maxAttempts, actions[..i]).penalties[id].status
  {
    hide Run, Step, Sound, Collides;
    forall j | 0 <= j < |actions| ensures !Collides(Run(INIT, maxAttempts, actions[..j]), maxAttempts, actions[j], id) {
      SoundOnEveryRun(maxAttempts, w, actions[..j]);
      AloneNeverCollides(Run(INIT, maxAttempts, actions[..j]), maxAttempts, w, actions[j], id);
    }
    FinalWithoutCollision(maxAttempts, actions, i, id);
  }

  /** A sweep leaves nothing stuck, touches exactly the penalties that were, and each of those lost
      the verdict of its last claim. */
  lemma SweepTouchesOnlyLost(maxAttempts: nat, w: Id, actions: seq<Action>)
    requires maxAttempts > 0 && forall i :: 0 <= i < |actions| ==> ActsAlone(actions[i], w)
    requires w !in Run(INIT, maxAttempts, actions).batches
    ensures var s := Run(INIT, maxAttempts, actions);
            var s' := Step(s, maxAttempts, Sweep(w));
            && s'.penalties.Keys == s.penalties.Keys
            && (forall id :: id in s'.penalties ==> !Stuck(s'.penalties[id], maxAttempts))
            && (forall id :: id in s.penalties ==>
                  if Stuck(s.penalties[id], maxAttempts)
                  then id in s.lost && s'.penalties[id] == s.penalties[id].(status := Unpaid)
                  else s'.penalties[id] == s.penalties[id])
            && s'.suspensions == s.suspensions
  {
    hide Run;
    SoundOnEveryRun(maxAttempts, w, actions);
  }

  // ----- Two workers

  lemma RunAppend(maxAttempts: nat, actions: seq<Action>, last: Action)
    ensures Run(INIT, maxAttempts, actions + [last]) == Step(Run(INIT, maxAttempts, actions), maxAttempts, last)
  {
    assert (actions + [last])[..|actions|] == actions;
  }

  const IMPOSED: seq<Action> := [Impose(7, 1, 15000, 0)] + [SetCard(1, Some(9))]
  const SWEPT_IN_FLIGHT: seq<Action> := IMPOSED + [ClaimBatch(1, [7])] + [Sweep(2)]
  const PAID_AFTER_SWEEP: seq<Action> := SWEPT_IN_FLIGHT + [ChargeFirst(1, true, true, true)] + [Verdict(1)]

  lemma AfterSweepInFlight()
    ensures var s := Run(INIT, 1, SWEPT_IN_FLIGHT);
            && s.penalties == map[7 := Penalty(1, 15000, Unpaid, 1, 0, None)]
            && s.batches == map[1 := Batch([Claimed(7, 1, 15000, 1, Some(9))], Waiting)]
            && s.created == [] && 7 !in s.lost
  {
    var imposed := Impose(7, 1, 15000, 0);
    RunAppend(1, [], imposed);
    assert [] + [imposed] == [imposed];
    RunAppend(1, [imposed], SetCard(1, Some(9)));
    RunAppend(1, IMPOSED, ClaimBatch(1, [7]));
    var s := Run(INIT, 1, IMPOSED);
    assert [7][0] == 7 && Selectable(s, 1, [7]);
    var counted := Counted(s.penalties, [7]);
    assert counted == map[7 := Penalty(1, 15000, Due, 1, 0, None)];
    assert ItemsOf(counted, s.cards, [7]) == [Claimed(7, 1, 15000, 1, Some(9))];
    RunAppend(1, IMPOSED + [ClaimBatch(1, [7])], Sweep(2));
  }

  /** A second instance may sweep a penalty whose last claim is still being charged: claimed rows
      stay PENDING and unlocked, so the sweep reports a lost verdict that then arrives as PAID. */
  lemma SecondWorkerSweepsInFlight()
    ensures var swept, paid := Run(INIT, 1, SWEPT_IN_FLIGHT), Run(INIT, 1, PAID_AFTER_SWEEP);
            && 7 in swept.penalties && swept.penalties[7].status == Unpaid && 7 !in swept.lost
            && 7 in paid.penalties && paid.penalties[7].status == Paid
  {
    AfterSweepInFlight();
    RunAppend(1, SWEPT_IN_FLIGHT, ChargeFirst(1, true, true, true));
    RunAppend(1, SWEPT_IN_FLIGHT + [ChargeFirst(1, true, true, true)], Verdict(1));
  }

  const BOTH_CLAIM: seq<Action> := IMPOSED + [ClaimBatch(1, [7])] + [ClaimBatch(2, [7])]
  const PAID_BY_ONE: seq<Action> := BOTH_CLAIM + [ChargeFirst(1, true, true, true)] + [Verdict(1)]
  const FAILED_BY_TWO: seq<Action> := PAID_BY_ONE + [ChargeFirst(2, false, false, false)] + [Verdict(2)]

  lemma AfterBothClaim()
    ensures var s := Run(INIT, 2, BOTH_CLAIM);
            && s.penalties == map[7 := Penalty(1, 15000, Due, 2, 0, None)]
            && s.batches == map[1 := Batch([Claimed(7, 1, 15000, 1, Some(9))], Waiting),
                                2 := Batch([Claimed(7, 1, 15000, 2, Some(9))], Waiting)]
            && s.created == [] && s.suspensions == []
  {
    var imposed := Impose(7, 1, 15000, 0);
    RunAppend(2, [], imposed);
    assert [] + [imposed] == [imposed];
    RunAppend(2, [imposed], SetCard(1, Some(9)));
    RunAppend(2, IMPOSED, ClaimBatch(1, [7]));
    var s := Run(INIT, 2, IMPOSED);
    assert [7][0] == 7 && Selectable(s, 2, [7]);
    var once := Counted(s.penalties, [7]);
    assert once == map[7 := Penalty(1, 15000, Due, 1, 0, None)];
    assert ItemsOf(once, s.cards, [7]) == [Claimed(7, 1, 15000, 1, Some(9))];
    RunAppend(2, IMPOSED + [ClaimBatch(1, [7])], ClaimBatch(2, [7]));
    var t := Run(INIT, 2, IMPOSED + [ClaimBatch(1, [7])]);
    assert Selectable(t, 2, [7]);
    var twice := Counted(t.penalties, [7]);
    assert twice == map[7 := Penalty(1, 15000, Due, 2, 0, None)];
    assert ItemsOf(twice, t.cards, [7]) == [Claimed(7, 1, 15000, 2, Some(9))];
  }

  lemma AfterPaidByOne()
    ensures var s := Run(INIT, 2, PAID_BY_ONE);
            && s.penalties == map[7 := Penalty(1, 15000, Paid, 2, 0, Some(0))]
            && s.batches == map[2 := Batch([Claimed(7, 1, 15000, 2, Some(9))], Waiting)]
            && s.created == [Charge(0, 7, 15000, true)] && s.suspensions == []
  {
    AfterBothClaim();
    hide Run;
    RunAppend(2, BOTH_CLAIM, ChargeFirst(1, true, true, true));
    RunAppend(2, BOTH_CLAIM + [ChargeFirst(1, true, true, true)], Verdict(1));
  }

  /** Two instances that both claim a penalty: one charges it and writes PAID, the call of the other
      fails, and its verdict fails the paid penalty and suspends the account. */
  lemma PaidThenSuspended()
    ensures var paid, failed := Run(INIT, 2, PAID_BY_ONE), Run(INIT, 2, FAILED_BY_TWO);
            && 7 in paid.penalties && paid.penalties[7].status == Paid
            && 7 in failed.penalties && failed.penalties[7].status == Unpaid
            && failed.created == [Charge(0, 7, 15000, true)] && failed.suspensions == [Suspension(1, 7, false)]
  {
    AfterPaidByOne();
    hide Run;
    RunAppend(2, PAID_BY_ONE, ChargeFirst(2, false, false, false));
    RunAppend(2, PAID_BY_ONE + [ChargeFirst(2, false, false, false)], Verdict(2));
  }
}

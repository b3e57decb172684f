/** The outbox protocol of transfer-worker, which penalty.worker mirrors: claim a row in a short
    transaction, call Stripe outside any transaction with the row's deterministic key, write the
    verdict. Any number of workers run it concurrently, may be slow, and may crash anywhere.

    Rows are indexed by their idempotency key. Stripe's side is the list of objects it has created;
    a repeated key returns the existing one. */
module Outbox {
  import opened Tables

  const MINUTE: nat := 60_000
  const STALE_SUBMITTED: nat := 15 * MINUTE

  function Pow2(n: nat): nat {
    if n == 0 then 1 else 2 * Pow2(n - 1)
  }

  datatype External = External(id: Id, key: Id, amountCents: int, destination: Id)

  /** Where a worker stands between its claim and its verdict. */
  datatype Stage = Claimed | Succeeded(id: Id) | Threw

  /** A worker's local copy of the row it claimed. */
  datatype Claim = Claim(
    key: Id, amountCents: int, destination: Id, attempts: nat, claimedAt: Instant, stage: Stage)

  datatype System = System(
    now: Instant,
    rows: map<Id, OutboxRow>,
    claims: map<Id, Claim>,
    created: seq<External>,
    abandonAlerts: seq<Id>)

  datatype Action =
    | Tick(ms: nat)
    | Create(key: Id, amountCents: int, destination: Id)
    | TakeClaim(worker: Id, key: Id)
    | CallStripe(worker: Id, tookEffect: bool, reported: bool)
    | VerdictWriteFails(worker: Id)
    | Verdict(worker: Id)
    | Crash(worker: Id)
    | Requeue(key: Id)

  /** The row selection of claimNext: the exponential backoff applies to failures, the stale window
      to submissions. */
  predicate Eligible(row: OutboxRow, now: Instant, maxAttempts: nat) {
    || row.status == Pending
    || (row.status == Failed && row.attempts < maxAttempts && row.updatedAt + MINUTE * Pow2(row.attempts) < now)
    || (row.status == Submitted && row.updatedAt + STALE_SUBMITTED < now)
  }

  /** The WHERE clause on one row. */
  method Matches(row: OutboxRow, now: Instant, maxAttempts: nat) returns (eligible: bool)
    ensures eligible == Eligible(row, now, maxAttempts)
  {
    var wait := 60_000 * Pow2(row.attempts);
    if row.status == Pending { return true; }
    if row.status == Failed { return row.attempts < maxAttempts && now - wait > row.updatedAt; }
    return row.status == Submitted && now - 15 * 60_000 > row.updatedAt;
  }

  /** SELECT ... WHERE eligible ORDER BY "createdAt" LIMIT 1 FOR UPDATE SKIP LOCKED. */
  method OldestEligible(rows: map<Id, OutboxRow>, now: Instant, maxAttempts: nat, locked: set<Id>)
    returns (candidate: Option<Id>)
    ensures candidate.None? ==> forall k :: k in rows && k !in locked ==> !Eligible(rows[k], now, maxAttempts)
    ensures candidate.Some? ==>
              && candidate.value in rows && candidate.value !in locked
              && Eligible(rows[candidate.value], now, maxAttempts)
              && forall k :: k in rows && k !in locked && Eligible(rows[k], now, maxAttempts)
                   ==> rows[candidate.value].createdAt <= rows[k].createdAt
  {
    candidate := None;
    var left := rows.Keys - locked;
    while left != {}
      invariant left <= rows.Keys - locked
      invariant candidate.Some? ==>
                  candidate.value in rows && candidate.value !in locked
                  && Eligible(rows[candidate.value], now, maxAttempts)
      invariant forall k :: k in rows && k !in locked && k !in left && Eligible(rows[k], now, maxAttempts)
                  ==> candidate.Some? && rows[candidate.value].createdAt <= rows[k].createdAt
      decreases left
    {
      var k :| k in left;
      left := left - {k};
      var eligible := Matches(rows[k], now, maxAttempts);
      if eligible && (candidate.None? || rows[k].createdAt < rows[candidate.value].createdAt) {
        candidate := Some(k);
      }
    }
  }

  function Find(created: seq<External>, key: Id): Option<External>
    ensures Find(created, key).Some? ==> Find(created, key).value in created && Find(created, key).value.key == key
    ensures Find(created, key).None? ==> forall i :: 0 <= i < |created| ==> created[i].key != key
  {
    if |created| == 0 then None
    else if created[0].key == key then Some(created[0])
    else Find(created[1..], key)
  }

  /** An id no created object has. */
  function NewId(created: seq<External>): (id: Id)
    ensures forall i :: 0 <= i < |created| ==> created[i].id < id
  {
    if |created| == 0 then 1
    else
      var rest := NewId(created[..|created| - 1]);
      if rest > created[|created| - 1].id then rest else created[|created| - 1].id + 1
  }

  /** Stripe's create with an idempotency key. */
  function StripeCreate(created: seq<External>, c: Claim): seq<External> {
    if Find(created, c.key).Some? then created
    else created + [External(NewId(created), c.key, c.amountCents, c.destination)]
  }

  function StripeId(created: seq<External>, c: Claim): Id {
    if Find(created, c.key).Some? then Find(created, c.key).value.id else NewId(created)
  }

  function Touch(s: System, key: Id, row: OutboxRow): map<Id, OutboxRow> {
    s.rows[key := row.(updatedAt := s.now)]
  }

  /** The failure verdict: FAILED, or ABANDONED when the claimed attempt count says it is the last. */
  function FailureVerdict(row: OutboxRow, attemptsSeen: nat, maxAttempts: nat): OutboxRow {
    row.(status := if attemptsSeen + 1 >= maxAttempts then Abandoned else Failed,
         attempts := row.attempts + 1)
  }

  /** One committed transaction, one external call, or one fault; anything not enabled is a no-op. */
  function Step(s: System, maxAttempts: nat, a: Action): System {
    match a
    case Tick(ms) => s.(now := s.now + ms)
    case Create(key, amount, destination) =>
      if key in s.rows then s
      else s.(rows := s.rows[key := OutboxRow(amount, destination, Pending, 0, s.now, s.now, None)])
    case TakeClaim(w, key) =>
      if w in s.claims || key !in s.rows || !Eligible(s.rows[key], s.now, maxAttempts) then s
      else
        var row := s.rows[key];
        s.(rows := Touch(s, key, row.(status := Submitted)),
           claims := s.claims[w := Claim(key, row.amountCents, row.destination, row.attempts, s.now, Claimed)])
    case CallStripe(w, tookEffect, reported) =>
      if w !in s.claims || s.claims[w].stage != Claimed then s
      else
        var c := s.claims[w];
        var created := if tookEffect then StripeCreate(s.created, c) else s.created;
        var stage := if tookEffect && reported then Succeeded(StripeId(s.created, c)) else Threw;
        s.(created := created, claims := s.claims[w := c.(stage := stage)])
    case VerdictWriteFails(w) =>
      if w in s.claims && s.claims[w].stage.Succeeded?
      then s.(claims := s.claims[w := s.claims[w].(stage := Threw)]) else s
    case Verdict(w) =>
      if w !in s.claims || s.claims[w].stage == Claimed || s.claims[w].key !in s.rows then s
      else
        var c := s.claims[w];
        var row := s.rows[c.key];
        var rest := s.claims - {w};
        if c.stage.Succeeded? then
          s.(rows := Touch(s, c.key, row.(status := Settled, externalId := Some(c.stage.id))), claims := rest)
        else
          s.(rows := Touch(s, c.key, FailureVerdict(row, c.attempts, maxAttempts)), claims := rest,
             abandonAlerts := if c.attempts + 1 >= maxAttempts then s.abandonAlerts + [c.key] else s.abandonAlerts)
    case Crash(w) => s.(claims := s.claims - {w})
    case Requeue(key) =>
      if key in s.rows && s.rows[key].status == Failed
      then s.(rows := Touch(s, key, s.rows[key].(status := Pending))) else s
  }

  /** The exponent of the backoff adds up. */
  lemma {:induction false} Pow2Adds(a: nat, b: nat)
    ensures Pow2(a + b) == Pow2(a) * Pow2(b) && Pow2(1) == 2
    decreases a
  {
    if a > 0 {
      Pow2Adds(a - 1, b);
      assert Pow2(a - 1 + b) * 2 == Pow2(a + b);
    }
  }

  /** An idle worker takes a row exactly when it is PENDING, or FAILED below the threshold and left
      alone for more than 2^attempts minutes, or SUBMITTED and left alone for more than fifteen; what
      it takes is the row as it stands, which becomes SUBMITTED. */
  lemma ClaimTakesIff(s: System, maxAttempts: nat, w: Id, key: Id)
    requires w !in s.claims && key in s.rows
    ensures var row, s' := s.rows[key], Step(s, maxAttempts, TakeClaim(w, key));
            && (w in s'.claims <==>
                  match row.status
                  case Pending => true
                  case Failed => row.attempts < maxAttempts && s.now - row.updatedAt > 60_000 * Pow2(row.attempts)
                  case Submitted => s.now - row.updatedAt > 900_000
                  case _ => false)
            && (w !in s'.claims ==> s' == s)
            && (w in s'.claims ==>
                  && s'.claims[w] == Claim(key, row.amountCents, row.destination, row.attempts, s.now, Claimed)
                  && s'.rows == s.rows[key := row.(status := Submitted, updatedAt := s.now)])
  {
    hide Pow2;
  }

  /** A failed row below the threshold comes due: once nobody has touched it for more than its
      backoff, whoever tries takes it. */
  lemma RetryComesDue(s: System, maxAttempts: nat, w: Id, key: Id, ms: nat)
    requires w !in s.claims && key in s.rows && s.rows[key].status == Failed
    requires s.rows[key].attempts < maxAttempts && s.rows[key].updatedAt <= s.now
    requires ms > 60_000 * Pow2(s.rows[key].attempts)
    ensures w in Step(Step(s, maxAttempts, Tick(ms)), maxAttempts, TakeClaim(w, key)).claims
  {
    ClaimTakesIff(Step(s, maxAttempts, Tick(ms)), maxAttempts, w, key);
    hide Pow2, Eligible;
  }

  lemma ClockStays(s: System, maxAttempts: nat, a: Action)
    requires !a.Tick?
    ensures Step(s, maxAttempts, a).now == s.now
  {
    hide Eligible, Find;
  }

  const INIT := System(0, map[], map[], [], [])

  function Run(s: System, maxAttempts: nat, actions: seq<Action>): System
    decreases |actions|
  {
    if |actions| == 0 then s
    else Step(Run(s, maxAttempts, actions[..|actions| - 1]), maxAttempts, actions[|actions| - 1])
  }

  lemma {:induction false} RunConcat(s: System, maxAttempts: nat, a: seq<Action>, b: seq<Action>)
    ensures Run(s, maxAttempts, a + b) == Run(Run(s, maxAttempts, a), maxAttempts, b)
    decreases |b|
  {
    hide Step;
    if |b| == 0 {
      assert a + b == a;
    } else {
      var b' := b[..|b| - 1];
      assert (a + b)[..|a + b| - 1] == a + b';
      RunConcat(s, maxAttempts, a, b');
    }
  }

  // ----- One transfer per key, whatever the timing

  ghost predicate ClaimFaithful(s: System, c: Claim) {
    && c.key in s.rows
    && c.amountCents == s.rows[c.key].amountCents && c.destination == s.rows[c.key].destination
    && (c.stage.Succeeded? ==> Find(s.created, c.key).Some? && Find(s.created, c.key).value.id == c.stage.id)
  }

  ghost predicate ExternalFaithful(s: System, x: External) {
    && x.key in s.rows
    && x.amountCents == s.rows[x.key].amountCents && x.destination == s.rows[x.key].destination
  }

  ghost predicate RowNamesExternal(s: System, key: Id)
    requires key in s.rows
  {
    && (s.rows[key].status == Settled ==> s.rows[key].externalId.Some?)
    && (s.rows[key].externalId.Some? ==>
          Find(s.created, key).Some? && Find(s.created, key).value.id == s.rows[key].externalId.value)
  }

  ghost predicate OnePerKey(created: seq<External>) {
    forall i, j :: 0 <= i < j < |created| ==> created[i].key != created[j].key && created[i].id != created[j].id
  }

  ghost predicate Sound(s: System) {
    && OnePerKey(s.created)
    && (forall i :: 0 <= i < |s.created| ==> ExternalFaithful(s, s.created[i]))
    && (forall w :: w in s.claims ==> ClaimFaithful(s, s.claims[w]))
    && (forall k :: k in s.rows ==> RowNamesExternal(s, k))
  }

  lemma FindAppend(created: seq<External>, x: External, key: Id)
    ensures Find(created + [x], key)
            == if Find(created, key).Some? then Find(created, key) else if x.key == key then Some(x) else None
  {
    if |created| > 0 {
      assert (created + [x])[1..] == created[1..] + [x];
      FindAppend(created[1..], x, key);
    }
  }

  lemma CallKeepsSound(s: System, maxAttempts: nat, w: Id, tookEffect: bool, reported: bool)
    requires Sound(s)
    ensures Sound(Step(s, maxAttempts, CallStripe(w, tookEffect, reported)))
  {
    hide Find;
    var s' := Step(s, maxAttempts, CallStripe(w, tookEffect, reported));
    if s' != s && s'.created != s.created {
      var c := s.claims[w];
      var x := External(NewId(s.created), c.key, c.amountCents, c.destination);
      assert s'.created == s.created + [x];
      forall k: Id ensures Find(s'.created, k)
          == if Find(s.created, k).Some? then Find(s.created, k) else if c.key == k then Some(x) else None {
        FindAppend(s.created, x, k);
      }
      assert ClaimFaithful(s, c) && ExternalFaithful(s', x);
      assert OnePerKey(s'.created) by { FindNone(s.created, c.key); }
    }
  }

  lemma FindNone(created: seq<External>, key: Id)
    ensures Find(created, key).None? ==> forall i :: 0 <= i < |created| ==> created[i].key != key
  {
  }

  lemma StepKeepsSound(s: System, maxAttempts: nat, a: Action)
    requires Sound(s)
    ensures Sound(Step(s, maxAttempts, a))
  {
    hide Find, Eligible, OnePerKey, FailureVerdict;
    match a
    case CallStripe(w, tookEffect, reported) => CallKeepsSound(s, maxAttempts, w, tookEffect, reported);
    case Verdict(w) => VerdictKeepsSound(s, maxAttempts, w);
    case TakeClaim(w, key) => TakeClaimKeepsSound(s, maxAttempts, w, key);
    case _ =>
  }

  lemma VerdictKeepsSound(s: System, maxAttempts: nat, w: Id)
    requires Sound(s)
    ensures Sound(Step(s, maxAttempts, Verdict(w)))
  {
    hide Find, OnePerKey;
  }

  lemma TakeClaimKeepsSound(s: System, maxAttempts: nat, w: Id, key: Id)
    requires Sound(s)
    ensures Sound(Step(s, maxAttempts, TakeClaim(w, key)))
  {
    hide Find, Eligible, OnePerKey;
  }

  lemma {:induction false} RunKeepsSound(s: System, maxAttempts: nat, actions: seq<Action>)
    requires Sound(s)
    ensures Sound(Run(s, maxAttempts, actions))
    decreases |actions|
  {
    hide Sound, Step;
    if |actions| > 0 {
      RunKeepsSound(s, maxAttempts, actions[..|actions| - 1]);
      StepKeepsSound(Run(s, maxAttempts, actions[..|actions| - 1]), maxAttempts, actions[|actions| - 1]);
    }
  }

  /** On every run, with any number of workers, crashes, slow calls, stale reclaims and requeues:
      Stripe holds at most one transfer per key, each has the amount and the destination of its
      row, and a SETTLED row names that existing transfer. */
  lemma AtMostOneTransferPerKey(maxAttempts: nat, actions: seq<Action>)
    ensures Sound(Run(INIT, maxAttempts, actions))
  {
    RunKeepsSound(INIT, maxAttempts, actions);
  }
}

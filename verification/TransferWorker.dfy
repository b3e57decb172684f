/** One pass of the transfer worker as it runs, with anything at all happening at each await: other
    workers claim, call and write, rows are created and requeued, time passes. */
module TransferWorker {
  import opened Tables
  import opened Outbox

  const DEFAULT_MAX_ATTEMPTS: nat := 5
  const DEFAULT_BATCH_LIMIT: nat := 50

  /** How one Stripe call and the write after it turn out. */
  datatype Reply = Reply(tookEffect: bool, reported: bool, settledWritten: bool)

  /** The rest of the world: what happens while this worker awaits, which rows other transactions
      hold locked at its i-th claim, and how its i-th call turns out. */
  datatype Environment = Environment(meanwhile: nat -> seq<Action>, locked: nat -> set<Id>, reply: nat -> Reply)

  predicate ActsAs(a: Action, w: Id) {
    match a
    case TakeClaim(v, _) => v == w
    case CallStripe(v, _, _) => v == w
    case VerdictWriteFails(v) => v == w
    case Verdict(v) => v == w
    case Crash(v) => v == w
    case _ => false
  }

  ghost predicate Others(actions: seq<Action>, w: Id) {
    forall i :: 0 <= i < |actions| ==> !ActsAs(actions[i], w)
  }

  /** A worker's own steps among everybody's. */
  function OwnOf(actions: seq<Action>, w: Id): seq<Action> {
    if |actions| == 0 then []
    else
      OwnOf(actions[..|actions| - 1], w)
      + if ActsAs(actions[|actions| - 1], w) then [actions[|actions| - 1]] else []
  }

  lemma OwnAppend(actions: seq<Action>, a: Action, w: Id)
    ensures OwnOf(actions + [a], w) == OwnOf(actions, w) + if ActsAs(a, w) then [a] else []
  {
    assert (actions + [a])[..|actions|] == actions;
  }

  lemma {:induction false} OwnWithOthers(a: seq<Action>, b: seq<Action>, w: Id)
    requires Others(b, w)
    ensures OwnOf(a + b, w) == OwnOf(a, w)
    decreases |b|
  {
    if |b| == 0 {
      assert a + b == a;
    } else {
      assert a + b == (a + b[..|b| - 1]) + [b[|b| - 1]];
      OwnAppend(a + b[..|b| - 1], b[|b| - 1], w);
      OwnWithOthers(a, b[..|b| - 1], w);
    }
  }

  /** What a worker does with one claimed row: claim, one call, and one verdict, which a settled
      write that throws turns into a failure. */
  function Handling(w: Id, key: Id, r: Reply): seq<Action> {
    [TakeClaim(w, key)] + Deciding(w, r)
  }

  function Deciding(w: Id, r: Reply): seq<Action> {
    [CallStripe(w, r.tookEffect, r.reported)]
    + (if r.tookEffect && r.reported && !r.settledWritten then [VerdictWriteFails(w)] else [])
    + [Verdict(w)]
  }

  function Script(w: Id, keys: seq<Id>, reply: nat -> Reply): seq<Action> {
    if |keys| == 0 then []
    else Script(w, keys[..|keys| - 1], reply) + Handling(w, keys[|keys| - 1], reply(|keys| - 1))
  }

  lemma ScriptAppend(w: Id, keys: seq<Id>, key: Id, reply: nat -> Reply)
    ensures Script(w, keys + [key], reply) == Script(w, keys, reply) + Handling(w, key, reply(|keys|))
  {
    assert (keys + [key])[..|keys|] == keys;
  }

  /** The calls that took effect, were reported, and whose settled write went through. */
  function Successes(reply: nat -> Reply, n: nat): nat {
    if n == 0 then 0
    else Successes(reply, n - 1)
         + if reply(n - 1).tookEffect && reply(n - 1).reported && reply(n - 1).settledWritten then 1 else 0
  }

  datatype Counters = Counters(settled: nat, failed: nat, abandoned: nat)

  /** The verdicts a worker has written in a run. */
  function Verdicts(s: System, maxAttempts: nat, actions: seq<Action>, w: Id): Counters
    decreases |actions|
  {
    if |actions| == 0 then Counters(0, 0, 0)
    else
      var before := Run(s, maxAttempts, actions[..|actions| - 1]);
      var c := Verdicts(s, maxAttempts, actions[..|actions| - 1], w);
      if actions[|actions| - 1] != Verdict(w) || w !in before.claims then c
      else if before.claims[w].stage.Succeeded? then c.(settled := c.settled + 1)
      else if before.claims[w].attempts + 1 >= maxAttempts then c.(abandoned := c.abandoned + 1)
      else c.(failed := c.failed + 1)
  }

  /** Other workers, routes and crons neither touch a worker's local claim nor remove a row. */
  lemma {:induction false} OthersKeepClaim(s: System, maxAttempts: nat, actions: seq<Action>, w: Id)
    requires Others(actions, w)
    ensures var t := Run(s, maxAttempts, actions);
            (w in t.claims <==> w in s.claims) && (w in s.claims ==> t.claims[w] == s.claims[w])
    ensures s.rows.Keys <= Run(s, maxAttempts, actions).rows.Keys
    decreases |actions|
  {
    if |actions| > 0 {
      OthersKeepClaim(s, maxAttempts, actions[..|actions| - 1], w);
      assert !ActsAs(actions[|actions| - 1], w);
    }
  }

  lemma {:induction false} OthersWriteNoVerdict(s: System, maxAttempts: nat, a: seq<Action>, b: seq<Action>, w: Id)
    requires Others(b, w)
    ensures Verdicts(s, maxAttempts, a + b, w) == Verdicts(s, maxAttempts, a, w)
    decreases |b|
  {
    if |b| == 0 {
      assert a + b == a;
    } else {
      assert (a + b)[..|a + b| - 1] == a + b[..|b| - 1];
      assert !ActsAs(b[|b| - 1], w);
      OthersWriteNoVerdict(s, maxAttempts, a, b[..|b| - 1], w);
    }
  }

  /** The oldest eligible row nobody holds locked. */
  ghost predicate IsOldest(s: System, maxAttempts: nat, locked: set<Id>, k: Id) {
    && k in s.rows && k !in locked && Eligible(s.rows[k], s.now, maxAttempts)
    && forall j :: (j in s.rows && j !in locked && Eligible(s.rows[j], s.now, maxAttempts)) ==>
         s.rows[k].createdAt <= s.rows[j].createdAt
  }

  class Worker {
    const id: Id
    var system: System
    var counters: Counters
    ghost var start: System
    ghost var trace: seq<Action>

    constructor (id: Id, system: System)
      ensures this.id == id && this.system == system
    {
      this.id, this.system, counters, start, trace := id, system, Counters(0, 0, 0), system, [];
    }

    /** The pass so far is a run of the protocol, and the counters count this worker's verdicts. */
    ghost predicate Follows(maxAttempts: nat)
      reads this
    {
      system == Run(start, maxAttempts, trace) && counters == Verdicts(start, maxAttempts, trace, id)
    }

    /** This worker's own steps so far. */
    ghost function Own(): seq<Action>
      reads this
    {
      OwnOf(trace, id)
    }

    /** Everyone else's steps during an await. */
    method Await(maxAttempts: nat, meanwhile: seq<Action>)
      requires Follows(maxAttempts) && Others(meanwhile, id)
      modifies this`system, this`trace
      ensures Follows(maxAttempts)
      ensures id in system.claims <==> id in old(system).claims
      ensures id in system.claims ==> system.claims[id] == old(system).claims[id]
      ensures old(system).rows.Keys <= system.rows.Keys && Own() == old(Own()) && old(trace) <= trace
    {
      OwnWithOthers(trace, meanwhile, id);
      RunConcat(start, maxAttempts, trace, meanwhile);
      OthersKeepClaim(system, maxAttempts, meanwhile, id);
      OthersWriteNoVerdict(start, maxAttempts, trace, meanwhile, id);
      system := Run(system, maxAttempts, meanwhile);
      trace := trace + meanwhile;
    }

    /** claimNext: reserve the oldest eligible row nobody else holds, and commit before any call. */
    method ClaimNext(maxAttempts: nat, locked: set<Id>) returns (claimed: Option<Claim>)
      requires Follows(maxAttempts) && id !in system.claims
      modifies this`system, this`trace
      ensures Follows(maxAttempts)
      ensures claimed.None? ==>
                && system == old(system) && trace == old(trace)
                && forall k :: k in system.rows && k !in locked ==> !Eligible(system.rows[k], system.now, maxAttempts)
      ensures claimed.Some? ==>
                && var k := claimed.value.key;
                && k in old(system).rows && k !in locked
                && IsOldest(old(system), maxAttempts, locked, k) && trace == old(trace) + [TakeClaim(id, k)]
                && system == Step(old(system), maxAttempts, TakeClaim(id, k))
                && id in system.claims && system.claims[id] == claimed.value && k in system.rows
                && claimed.value.stage == Claimed && Own() == old(Own()) + [TakeClaim(id, k)]
    {
      hide Run, Verdicts, OwnOf, Pow2;
      var candidate := OldestEligible(system.rows, system.now, maxAttempts, locked);
      if candidate.None? { return None; }
      var k := candidate.value;
      var row := system.rows[k];
      var c := Claim(k, row.amountCents, row.destination, row.attempts, system.now, Claimed);
      Record(maxAttempts, TakeClaim(id, k));
      system := system.(rows := system.rows[k := row.(status := Submitted, updatedAt := system.now)],
                        claims := system.claims[id := c]);
      return Some(c);
    }

    /** Appends one step to the history; the caller then performs it. */
    ghost method Record(maxAttempts: nat, a: Action)
      requires Follows(maxAttempts)
      modifies this`trace
      ensures trace == old(trace) + [a]
      ensures ActsAs(a, id) ==> Own() == old(Own()) + [a]
      ensures Run(start, maxAttempts, trace) == Step(system, maxAttempts, a)
      ensures a != Verdict(id) ==> Verdicts(start, maxAttempts, trace, id) == counters
      ensures a == Verdict(id) && id in system.claims ==>
                Verdicts(start, maxAttempts, trace, id)
                == if system.claims[id].stage.Succeeded? then counters.(settled := counters.settled + 1)
                   else if system.claims[id].attempts + 1 >= maxAttempts
                   then counters.(abandoned := counters.abandoned + 1)
                   else counters.(failed := counters.failed + 1)
    {
      assert (trace + [a])[..|trace|] == trace;
      OwnAppend(trace, a, id);
      trace := trace + [a];
    }

    /** stripe.transfers.create with the persisted key, outside any transaction. A call that takes
        effect leaves Stripe with a transfer of that key, a new one of the claim's amount and
        destination if there was none; a call that does not leaves it as it was. */
    method CreateTransfer(maxAttempts: nat, r: Reply) returns (stage: Stage)
      requires Follows(maxAttempts) && id in system.claims && system.claims[id].stage == Claimed
      modifies this`system, this`trace
      ensures Follows(maxAttempts) && system.rows == old(system).rows
      ensures id in system.claims && stage != Claimed
              && system.claims[id] == old(system).claims[id].(stage := stage)
      ensures Own() == old(Own()) + [CallStripe(id, r.tookEffect, r.reported)] && old(trace) <= trace
      ensures stage.Succeeded? <==> r.tookEffect && r.reported
      ensures !r.tookEffect ==> system.created == old(system).created
      ensures var c, before := old(system).claims[id], old(system).created;
              r.tookEffect ==>
                if exists i :: 0 <= i < |before| && before[i].key == c.key then system.created == before
                else |system.created| == |before| + 1 && system.created[..|before|] == before
                     && system.created[|before|] == External(
                          system.created[|before|].id, c.key, c.amountCents, c.destination)
                     && forall i :: 0 <= i < |before| ==> before[i].id != system.created[|before|].id
      ensures stage.Succeeded? ==>
                exists i :: 0 <= i < |system.created| && system.created[i].key == system.claims[id].key
                            && system.created[i].id == stage.id
    {
      hide Run, Verdicts, OwnOf, Pow2;
      var c := system.claims[id];
      Record(maxAttempts, CallStripe(id, r.tookEffect, r.reported));
      stage := Threw;
      var created := system.created;
      if r.tookEffect {
        created := StripeCreate(system.created, c);
        if r.reported { stage := Succeeded(StripeId(system.created, c)); }
      }
      system := system.(created := created, claims := system.claims[id := c.(stage := stage)]);
    }

    method WriteSettled(maxAttempts: nat, key: Id, transferId: Id)
      requires Follows(maxAttempts) && id in system.claims
      requires system.claims[id].stage == Succeeded(transferId) && system.claims[id].key == key && key in system.rows
      modifies this
      ensures Own() == old(Own()) + [Verdict(id)] && old(trace) <= trace
      ensures Follows(maxAttempts) && id !in system.claims && start == old(start)
      ensures counters == old(counters).(settled := old(counters).settled + 1)
      ensures system.rows == old(system).rows[key := old(system).rows[key].(
                status := Settled, externalId := Some(transferId), updatedAt := old(system).now)]
    {
      hide Run, Verdicts, OwnOf, Pow2;
      Record(maxAttempts, Verdict(id));
      var row := system.rows[key].(status := Settled, externalId := Some(transferId), updatedAt := system.now);
      system := system.(rows := system.rows[key := row], claims := system.claims - {id});
      counters := counters.(settled := counters.settled + 1);
    }

    /** The catch branch: FAILED or ABANDONED by the attempt count read at the claim, attempts
        incremented, one alert at the abandonment. */
    method WriteFailure(maxAttempts: nat, claimed: Claim)
      requires Follows(maxAttempts) && id in system.claims && claimed.key in system.rows
      requires system.claims[id] == claimed.(stage := Threw)
      modifies this
      ensures Own() == old(Own()) + [Verdict(id)] && old(trace) <= trace
      ensures Follows(maxAttempts) && id !in system.claims && start == old(start)
      ensures var abandon := claimed.attempts + 1 >= maxAttempts;
              && counters == (if abandon then old(counters).(abandoned := old(counters).abandoned + 1)
                              else old(counters).(failed := old(counters).failed + 1))
              && system.abandonAlerts == old(system).abandonAlerts + (if abandon then [claimed.key] else [])
              && system.rows == old(system).rows[claimed.key := old(system).rows[claimed.key].(
                   status := if abandon then Abandoned else Failed,
                   attempts := old(system).rows[claimed.key].attempts + 1, updatedAt := old(system).now)]
    {
      hide Run, Verdicts, OwnOf, Pow2;
      var isAbandon := claimed.attempts + 1 >= maxAttempts;
      var row := system.rows[claimed.key];
      Record(maxAttempts, Verdict(id));
      row := row.(status := if isAbandon then Abandoned else Failed, attempts := row.attempts + 1,
                  updatedAt := system.now);
      system := system.(rows := system.rows[claimed.key := row], claims := system.claims - {id});
      if isAbandon {
        system := system.(abandonAlerts := system.abandonAlerts + [claimed.key]);
        counters := counters.(abandoned := counters.abandoned + 1);
      } else {
        counters := counters.(failed := counters.failed + 1);
      }
    }

    /** A settled write that throws falls into the same catch as a failed call. */
    method WriteVerdict(maxAttempts: nat, claimed: Claim, stage: Stage, settledWritten: bool)
      requires Follows(maxAttempts) && id in system.claims && claimed.key in system.rows && stage != Claimed
      requires system.claims[id] == claimed.(stage := stage)
      modifies this
      ensures Own() == old(Own()) + (if stage.Succeeded? && !settledWritten then [VerdictWriteFails(id)] else [])
                       + [Verdict(id)]
      ensures old(trace) <= trace
      ensures Follows(maxAttempts) && id !in system.claims && start == old(start)
      ensures counters == (if stage.Succeeded? && settledWritten
                           then old(counters).(settled := old(counters).settled + 1)
                           else if claimed.attempts + 1 >= maxAttempts
                           then old(counters).(abandoned := old(counters).abandoned + 1)
                           else old(counters).(failed := old(counters).failed + 1))
    {
      if stage.Succeeded? && settledWritten {
        WriteSettled(maxAttempts, claimed.key, stage.id);
      } else {
        if stage.Succeeded? {
          Record(maxAttempts, VerdictWriteFails(id));
          system := system.(claims := system.claims[id := claimed.(stage := Threw)]);
        }
        WriteFailure(maxAttempts, claimed);
      }
    }

    /** The state is reached by a run in which this worker claims these rows and handles each as the
        replies have it; its verdicts there are the result. */
    ghost predicate IsPass(before: System, maxAttempts: nat, actions: seq<Action>, keys: seq<Id>, at: seq<nat>,
                           env: Environment, result: Counters)
      reads this`system
    {
      && |at| == |keys|
      && (forall i :: 0 <= i < |keys| ==> ClaimedAt(before, maxAttempts, actions, at[i], env.locked(i), keys[i]))
      && system == Run(before, maxAttempts, actions) && OwnOf(actions, id) == Script(id, keys, env.reply)
      && result == Verdicts(before, maxAttempts, actions, id)
      && |keys| == result.settled + result.failed + result.abandoned
    }

    lemma Concludes(maxAttempts: nat, keys: seq<Id>, at: seq<nat>, env: Environment)
      requires Follows(maxAttempts) && Own() == Script(id, keys, env.reply) && |at| == |keys|
      requires forall i :: 0 <= i < |keys| ==> ClaimedAt(start, maxAttempts, trace, at[i], env.locked(i), keys[i])
      requires |keys| == counters.settled + counters.failed + counters.abandoned
      ensures IsPass(start, maxAttempts, trace, keys, at, env, counters)
    {
    }

    /** One claimed row, from the call to the verdict. */
    method HandleRow(maxAttempts: nat, claimed: Claim, r: Reply, before: seq<Action>, during: seq<Action>)
      requires Follows(maxAttempts) && Others(before, id) && Others(during, id)
      requires id in system.claims && system.claims[id] == claimed && claimed.stage == Claimed
      requires claimed.key in system.rows
      modifies this
      ensures Follows(maxAttempts) && id !in system.claims && start == old(start)
      ensures Own() == old(Own()) + Deciding(id, r) && old(trace) <= trace
      ensures counters == (if r.tookEffect && r.reported && r.settledWritten
                           then old(counters).(settled := old(counters).settled + 1)
                           else if claimed.attempts + 1 >= maxAttempts
                           then old(counters).(abandoned := old(counters).abandoned + 1)
                           else old(counters).(failed := old(counters).failed + 1))
    {
      hide Follows, Own;
      Await(maxAttempts, before);
      var stage := CreateTransfer(maxAttempts, r);
      Await(maxAttempts, during);
      WriteVerdict(maxAttempts, claimed, stage, r.settledWritten);
    }

    /** The i-th row of a pass, if there is one to claim. */
    method NextRow(maxAttempts: nat, env: Environment, i: nat) returns (claimed: Option<Claim>, ghost at: nat)
      requires Follows(maxAttempts) && id !in system.claims && forall n :: Others(env.meanwhile(n), id)
      modifies this
      ensures Follows(maxAttempts) && id !in system.claims && start == old(start)
      ensures old(trace) <= trace
      ensures claimed.None? ==>
                && Own() == old(Own()) && counters == old(counters)
                && forall k :: k in system.rows && k !in env.locked(i) ==>
                     !Eligible(system.rows[k], system.now, maxAttempts)
      ensures claimed.Some? ==>
                && ClaimedAt(start, maxAttempts, trace, at, env.locked(i), claimed.value.key)
                && Own() == old(Own()) + Handling(id, claimed.value.key, env.reply(i))
                && counters == (if env.reply(i).tookEffect && env.reply(i).reported && env.reply(i).settledWritten
                                then old(counters).(settled := old(counters).settled + 1)
                                else if claimed.value.attempts + 1 >= maxAttempts
                                then old(counters).(abandoned := old(counters).abandoned + 1)
                                else old(counters).(failed := old(counters).failed + 1))
    {
      hide Follows, Own, Eligible, Step, Others, Run, IsOldest;
      Await(maxAttempts, env.meanwhile(3 * i));
      at := |trace|;
      Reached(maxAttempts);
      ghost var before, soFar := system, trace;
      claimed := ClaimNext(maxAttempts, env.locked(i));
      if claimed.Some? {
        HandleRow(maxAttempts, claimed.value, env.reply(i), env.meanwhile(3 * i + 1), env.meanwhile(3 * i + 2));
        assert trace[..at] == soFar;
      }
    }

    lemma Reached(maxAttempts: nat)
      requires Follows(maxAttempts)
      ensures system == Run(start, maxAttempts, trace)
    {
    }

    /** The claim of a row at a moment of a history, when it was the oldest. */
    ghost predicate ClaimedAt(before: System, maxAttempts: nat, actions: seq<Action>, at: nat, locked: set<Id>, key: Id)
    {
      at < |actions| && actions[at] == TakeClaim(id, key)
      && IsOldest(Run(before, maxAttempts, actions[..at]), maxAttempts, locked, key)
    }

    lemma ClaimsStay(maxAttempts: nat, before: seq<Action>, at: seq<nat>, keys: seq<Id>, env: Environment)
      requires before <= trace && |at| == |keys|
      requires forall j :: 0 <= j < |keys| ==> ClaimedAt(start, maxAttempts, before, at[j], env.locked(j), keys[j])
      ensures forall j :: 0 <= j < |keys| ==> ClaimedAt(start, maxAttempts, trace, at[j], env.locked(j), keys[j])
    {
      hide Run, IsOldest;
      assert forall n :: 0 <= n < |before| ==> trace[..n] == before[..n] && trace[n] == before[n];
    }

    method Begin(maxAttempts: nat, ghost reply: nat -> Reply)
      modifies this`counters, this`start, this`trace
      ensures Follows(maxAttempts) && start == system && counters == Counters(0, 0, 0)
      ensures Own() == Script(id, [], reply)
    {
      counters, start, trace := Counters(0, 0, 0), system, [];
    }

    /** One pass. Its effect on the shared state is a run of the protocol in which this worker's
        steps are interleaved with everyone else's, and its result counts its own verdicts. */
    method RunOnce(maxAttempts: nat, batchLimit: nat, env: Environment) returns (result: Counters)
      requires id !in system.claims
      requires forall i :: Others(env.meanwhile(i), id)
      modifies this
      ensures exists actions, keys, at :: IsPass(old(system), maxAttempts, actions, keys, at, env, result)
      // counted settled are exactly the calls that took effect, were reported and written
      ensures result.settled == Successes(env.reply, result.settled + result.failed + result.abandoned)
      ensures result.settled + result.failed + result.abandoned <= batchLimit
      // it stops short only when nothing is eligible
      ensures var n := result.settled + result.failed + result.abandoned;
              n < batchLimit ==>
                forall k :: k in system.rows && k !in env.locked(n) ==>
                  !Eligible(system.rows[k], system.now, maxAttempts)
      ensures id !in system.claims
    {
      hide Run, Verdicts, Follows, Own, OwnOf, Script, Handling, Step, Eligible, Others, IsPass, ClaimedAt;
      Begin(maxAttempts, env.reply);
      ghost var keys: seq<Id>, at: seq<nat> := [], [];
      var i := 0;
      while i < batchLimit
        invariant i <= batchLimit && start == old(system)
        invariant |at| == |keys| == i
        invariant forall j :: 0 <= j < |keys| ==> ClaimedAt(start, maxAttempts, trace, at[j], env.locked(j), keys[j])
        invariant Own() == Script(id, keys, env.reply) && counters.settled == Successes(env.reply, i)
        invariant Follows(maxAttempts) && id !in system.claims
        invariant counters.settled + counters.failed + counters.abandoned == i
      {
        ghost var before, now := trace, 0;
        var claimed;
        claimed, now := NextRow(maxAttempts, env, i);
        ClaimsStay(maxAttempts, before, at, keys, env);
        if claimed.None? {
          Concludes(maxAttempts, keys, at, env);
          return counters;
        }
        ScriptAppend(id, keys, claimed.value.key, env.reply);
        keys, at := keys + [claimed.value.key], at + [now];
        i := i + 1;
      }
      result := counters;
      Concludes(maxAttempts, keys, at, env);
    }
  }

  /** requeueFailedTransfer: back to PENDING from FAILED only, attempts kept. */
  method RequeueFailedTransfer(s: System, maxAttempts: nat, key: Id) returns (s': System, requeued: bool)
    ensures s' == Step(s, maxAttempts, Requeue(key))
    ensures requeued <==> key in s.rows && s.rows[key].status == Failed
    ensures requeued ==> s'.rows[key].status == Pending && s'.rows[key].attempts == s.rows[key].attempts
    ensures !requeued ==> s' == s
  {
    s' := s;
    requeued := false;
    if key in s.rows && s.rows[key].status == Failed {
      s' := s.(rows := s.rows[key := s.rows[key].(status := Pending, updatedAt := s.now)]);
      requeued := true;
    }
  }
}

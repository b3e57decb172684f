/** One tick of the buyer compensation worker, the only instance, while everything else goes on. */
module CompensationWorker {
  import opened Tables
  import opened Steps
  import opened Wallets

  const BATCH: nat := 10

  /** What others commit at the worker's n-th await, and whether its n-th transaction throws (and so
      rolls back). */
  datatype Environment = Environment(meanwhile: nat -> seq<TimedAction>, throws: nat -> bool)

  ghost predicate Others(actions: seq<TimedAction>) {
    forall i :: 0 <= i < |actions| ==> !IsCompensation(actions[i].action)
  }

  lemma {:induction false} RunConcat(db: Db, a: seq<TimedAction>, b: seq<TimedAction>)
    requires Integrity(db)
    ensures Run(db, a + b) == Run(Run(db, a), b)
    decreases |b|
  {
    hide Step;
    if |b| == 0 {
      assert a + b == a;
    } else {
      assert (a + b)[..|a + b| - 1] == a + b[..|b| - 1];
      RunConcat(db, a, b[..|b| - 1]);
    }
  }

  lemma {:induction false} OthersAreDisciplined(db: Db, a: seq<TimedAction>, b: seq<TimedAction>)
    requires Integrity(db) && Disciplined(db, a) && Others(b)
    ensures Disciplined(db, a + b) && Run(db, a).compensations <= Run(db, a + b).compensations
    decreases |b|
  {
    hide Step;
    if |b| == 0 {
      assert a + b == a;
    } else {
      var shorter, last := b[..|b| - 1], b[|b| - 1];
      assert (a + b)[..|a + b| - 1] == a + shorter && (a + b)[|a + b| - 1] == last;
      OthersAreDisciplined(db, a, shorter);
      OthersOnlyAppend(Run(db, a + shorter), last.now, last.action);
    }
  }

  /** The first PENDING rows of the table, at most BATCH of them. */
  function PendingRows(cs: seq<Compensation>): (rows: seq<nat>)
    ensures |rows| <= BATCH
    ensures forall k :: 0 <= k < |rows| ==> rows[k] < |cs| && cs[rows[k]].status == JobPending
    ensures forall j, k :: 0 <= j < k < |rows| ==> rows[j] < rows[k]
  {
    if |cs| == 0 then []
    else
      var rows := PendingRows(cs[..|cs| - 1]);
      if |rows| < BATCH && cs[|cs| - 1].status == JobPending then rows + [|cs| - 1] else rows
  }

  lemma {:induction false} PendingRowsComplete(cs: seq<Compensation>, i: nat)
    requires i < |cs| && cs[i].status == JobPending && |PendingRows(cs)| < BATCH
    ensures i in PendingRows(cs)
  {
    if i < |cs| - 1 {
      assert cs[..|cs| - 1][i] == cs[i];
      PendingRowsComplete(cs[..|cs| - 1], i);
    }
  }

  /** What a row becomes: settled with the credit, or back to PENDING, or FAILED from the fourth
      attempt on. */
  function Processed(c: Compensation, throws: bool): Compensation {
    c.(status := if !throws then JobSettled else if c.attempts + 1 >= COMPENSATION_MAX_ATTEMPTS then JobFailed
                 else JobPending,
       attempts := c.attempts + 1)
  }

  class Worker {
    const env: Environment
    var db: Db
    var awaits: nat
    ghost var start: Db
    ghost var trace: seq<TimedAction>

    constructor (env: Environment, db: Db)
      requires Integrity(db)
      ensures this.env == env && this.db == db
    {
      this.env, this.db := env, db;
      awaits, start, trace := 0, db, [];
    }

    /** So far: a run on which no failure verdict fell on a SETTLED row. */
    ghost predicate Follows()
      reads this`db, this`start, this`trace
    {
      && Integrity(start) && db == Run(start, trace) && Disciplined(start, trace)
      && forall n :: Others(env.meanwhile(n))
    }

    ghost method Record(q: QueueAction)
      requires Follows() && !UndoesCredit(db, Queue(q))
      modifies this`trace
      ensures trace == old(trace) + [At(0, Queue(q))]
      ensures Integrity(start) && Integrity(db)
      ensures Run(start, trace) == Step(db, 0, Queue(q)) && Disciplined(start, trace)
    {
      hide Step;
      assert (trace + [At(0, Queue(q))])[..|trace|] == trace;
      trace := trace + [At(0, Queue(q))];
    }

    method Await()
      requires Follows()
      modifies this
      ensures Follows() && start == old(start) && old(db).compensations <= db.compensations
    {
      hide Step;
      var meanwhile := env.meanwhile(awaits);
      RunConcat(start, trace, meanwhile);
      OthersAreDisciplined(start, trace, meanwhile);
      db := Run(db, meanwhile);
      trace := trace + meanwhile;
      awaits := awaits + 1;
    }

    /** Claim and credit in one transaction: a row that is no longer PENDING credits nothing. */
    method ClaimAndCredit(i: nat, attemptsSeen: nat)
      requires Follows() && i < |db.compensations|
      modifies this`db, this`trace
      ensures Follows() && db == CreditCompensationTx(old(db), i, attemptsSeen)
    {
      hide Run, Disciplined;
      Record(CreditCompensation(i, attemptsSeen));
      var job := db.compensations[i];
      if job.status != JobPending { return; }
      var balance := if job.buyerId in db.wallets then db.wallets[job.buyerId] else 0;
      db := db.(compensations := db.compensations[i := job.(status := JobSettled, attempts := attemptsSeen + 1)],
                wallets := db.wallets[job.buyerId := balance + job.amountCents]);
    }

    /** The catch branch, by row id alone: FAILED from the fourth attempt on. */
    method WriteFailure(i: nat, attemptsSeen: nat)
      requires Follows() && i < |db.compensations| && db.compensations[i].status != JobSettled
      modifies this`db, this`trace
      ensures Follows() && db == FailCompensationTx(old(db), i, attemptsSeen)
      ensures db.compensations[i].status == JobFailed <==> attemptsSeen + 1 >= COMPENSATION_MAX_ATTEMPTS
    {
      hide Run, Disciplined;
      Record(FailCompensation(i, attemptsSeen));
      var nextAttempt := attemptsSeen + 1;
      var status := if nextAttempt >= 4 then JobFailed else JobPending;
      var row := db.compensations[i].(status := status, attempts := nextAttempt);
      db := db.(compensations := db.compensations[i := row]);
    }

    /** SELECT ... WHERE PENDING LIMIT 10. */
    method SelectPending() returns (rows: seq<nat>)
      ensures rows == PendingRows(db.compensations)
    {
      rows := [];
      for i := 0 to |db.compensations|
        invariant rows == PendingRows(db.compensations[..i])
      {
        assert db.compensations[..i + 1][..i] == db.compensations[..i];
        if db.compensations[i].status == JobPending && |rows| < BATCH { rows := rows + [i]; }
      }
      assert db.compensations[..|db.compensations|] == db.compensations;
    }

    /** processBuyerCompensations. With this instance alone the run is disciplined, so balances stay
        explained and nothing is credited twice. */
    method ProcessBuyerCompensations()
      requires Integrity(db) && forall n :: Others(env.meanwhile(n))
      modifies this
      ensures exists actions :: db == Run(old(db), actions) && Disciplined(old(db), actions)
      ensures Conserved(old(db)) ==> Conserved(db)
      // every selected row is processed, and nobody else touches it
      ensures var rows := PendingRows(old(db).compensations);
              |old(db).compensations| <= |db.compensations|
              && forall k :: 0 <= k < |rows| ==>
                   db.compensations[rows[k]] == Processed(old(db).compensations[rows[k]], env.throws(k))
    {
      start, trace := db, [];
      assert Follows();
      var pendings := SelectPending();
      ProcessRows(pendings);
      assert db == Run(old(db), trace) && Disciplined(old(db), trace);
      if Conserved(old(db)) { ConservedThrough(old(db), trace); }
    }

    method ProcessRows(pendings: seq<nat>)
      requires Follows()
      requires forall k :: 0 <= k < |pendings| ==>
                 pendings[k] < |db.compensations| && db.compensations[pendings[k]].status == JobPending
      requires forall j, k :: 0 <= j < k < |pendings| ==> pendings[j] < pendings[k]
      modifies this
      ensures Follows() && start == old(start) && |old(db).compensations| <= |db.compensations|
      ensures forall k :: 0 <= k < |pendings| ==>
                db.compensations[pendings[k]] == Processed(old(db).compensations[pendings[k]], env.throws(k))
    {
      hide Follows, Run;
      var selected := db.compensations;
      for n := 0 to |pendings|
        invariant Follows() && start == old(start) && |selected| <= |db.compensations|
        invariant forall k :: n <= k < |pendings| ==> db.compensations[pendings[k]] == selected[pendings[k]]
        invariant forall k :: 0 <= k < n ==>
                    db.compensations[pendings[k]] == Processed(selected[pendings[k]], env.throws(k))
      {
        Await();
        var i := pendings[n];
        if env.throws(n) {
          // the claim and the credit were rolled back
          Await();
          WriteFailure(i, selected[i].attempts);
        } else {
          ClaimAndCredit(i, selected[i].attempts);
        }
      }
    }
  }

  lemma {:induction false} ConservedThrough(db: Db, actions: seq<TimedAction>)
    requires Integrity(db) && Conserved(db) && Disciplined(db, actions)
    ensures Conserved(Run(db, actions))
    decreases |actions|
  {
    hide Conserved, Step;
    if |actions| > 0 {
      ConservedThrough(db, actions[..|actions| - 1]);
      StepConserved(Run(db, actions[..|actions| - 1]), actions[|actions| - 1].now, actions[|actions| - 1].action);
    }
  }
}

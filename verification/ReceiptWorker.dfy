/** One tick of the receipt worker as it runs, with anything at all happening at each await: other
    instances, routes and the clock. */
module ReceiptWorker {
  import opened Tables
  import opened Receipts

  predicate ActsAs(a: Action, w: Id) {
    match a
    case Tick(_) => false
    case Declare(_, _) => false
    case Upload(_, _, _) => false
    case Submit(_, _) => false
    case ReclaimStale => false
    case _ => a.worker == w
  }

  ghost predicate Others(actions: seq<Action>, w: Id) {
    forall i :: 0 <= i < |actions| ==> !ActsAs(actions[i], w)
  }

  /** What the vision call makes of an image. */
  datatype Vision = Extracted(total: Option<int>) | Deterministic | Transient

  /** Everything outside the worker: the steps of others at its n-th await and, for each job, which it
      handles at most once in a tick, the answer of the vision call and whether the sealing meets an
      unexpected database error. */
  datatype Environment = Environment(meanwhile: nat -> seq<Action>, vision: Id -> Vision, sealThrows: Id -> bool)

  datatype Reason = PurchaseAmountMissing | PriceMismatch | ReceiptAlreadySealed

  datatype Outcome = Sealed | NotSealed(reason: Reason) | Skipped | Threw

  lemma {:induction false} RunConcat(s: System, a: seq<Action>, b: seq<Action>)
    ensures Run(s, a + b) == Run(Run(s, a), b)
    decreases |b|
  {
    hide Step;
    if |b| == 0 {
      assert a + b == a;
    } else {
      assert (a + b)[..|a + b| - 1] == a + b[..|b| - 1];
      RunConcat(s, a, b[..|b| - 1]);
    }
  }

  lemma {:induction false} OthersKeepWork(s: System, actions: seq<Action>, w: Id)
    requires Others(actions, w)
    ensures var t := Run(s, actions); (w in t.work <==> w in s.work) && (w in s.work ==> t.work[w] == s.work[w])
    decreases |actions|
  {
    if |actions| > 0 {
      hide Step, ActsAs;
      OthersKeepWork(s, actions[..|actions| - 1], w);
      assert !ActsAs(actions[|actions| - 1], w);
      OtherKeepsWork(Run(s, actions[..|actions| - 1]), actions[|actions| - 1], w);
    }
  }

  lemma OtherKeepsWork(s: System, a: Action, w: Id)
    requires !ActsAs(a, w)
    ensures var t := Step(s, a); (w in t.work <==> w in s.work) && (w in s.work ==> t.work[w] == s.work[w])
  {
    hide RejectCompleted, FailProcessing, Reclaimed, SetJob, Matches;
  }

  // ----- What a worker does when nobody interferes

  lemma AdvancesReflexive(s: System)
    ensures Advances(s, s)
  {
    StepAdvances(s, Tick(0));
    assert Step(s, Tick(0)).jobs == s.jobs;
  }

  function VerdictOn(w: Id, vision: Vision): Action {
    match vision
    case Deterministic => ExtractionFails(w, true)
    case Transient => ExtractionFails(w, false)
    case Extracted(total) => Complete(w, total)
  }

  /** Sealing reads the job and, if it is COMPLETED, compares and commits. */
  function SealMoves(s: System, w: Id, job: Id, throws: bool): seq<Action> {
    if throws then [SealThrows(w)]
    else [ReadJob(w)] + if job in s.jobs && s.jobs[job].status == Completed then [CommitSeal(w)] else []
  }

  function ResealMoves(s: System, w: Id, job: Id, env: Environment): seq<Action> {
    [BeginSeal(w, job)] + SealMoves(s, w, job, env.sealThrows(job))
  }

  /** The claim and, if the job was PENDING, the verdict of the vision call, and the sealing of what
      was extracted. */
  function JobMoves(s: System, w: Id, job: Id, attemptsRead: nat, env: Environment): seq<Action> {
    [Claim(w, job, attemptsRead)]
    + if job !in s.jobs || s.jobs[job].status != Queued then []
      else
        [VerdictOn(w, env.vision(job))]
        + if !env.vision(job).Extracted? then []
          else if env.sealThrows(job) then [SealThrows(w)] else [ReadJob(w), CommitSeal(w)]
  }

  function ResealPlan(w: Id, jobs: seq<Id>, env: Environment): (System, nat) -> seq<Action> {
    (s: System, i: nat) => if i < |jobs| then ResealMoves(s, w, jobs[i], env) else []
  }

  function JobPlan(w: Id, jobs: seq<Id>, rows: map<Id, Job>, env: Environment): (System, nat) -> seq<Action> {
    (s: System, i: nat) => if i < |jobs| && jobs[i] in rows then JobMoves(s, w, jobs[i], rows[jobs[i]].attempts, env)
                           else []
  }

  /** The moves of n rounds, the i-th planned from the state it finds. */
  function Rounds(s: System, n: nat, plan: (System, nat) -> seq<Action>): seq<Action> {
    if n == 0 then []
    else Rounds(s, n - 1, plan) + plan(Run(s, Rounds(s, n - 1, plan)), n - 1)
  }

  lemma RoundAfter(start: System, own0: seq<Action>, s0: System, n: nat, plan: (System, nat) -> seq<Action>)
    requires s0 == Run(start, own0)
    ensures var here := Run(s0, Rounds(s0, n, plan));
            && Run(start, own0 + Rounds(s0, n, plan)) == here
            && own0 + Rounds(s0, n + 1, plan) == own0 + Rounds(s0, n, plan) + plan(here, n)
  {
    RunConcat(start, own0, Rounds(s0, n, plan));
    hide Run;
    var here := Run(s0, Rounds(s0, n, plan));
    assert Rounds(s0, n + 1, plan) == Rounds(s0, n, plan) + plan(here, n);
    hide Rounds;
    Associative(own0, Rounds(s0, n, plan), plan(here, n));
  }

  lemma Associative(a: seq<Action>, b: seq<Action>, c: seq<Action>)
    ensures a + (b + c) == a + b + c
  {
  }

  class Worker {
    const id: Id
    const env: Environment
    var system: System
    var awaits: nat
    ghost var start: System
    ghost var trace: seq<Action>
    ghost var own: seq<Action>

    constructor (id: Id, env: Environment, system: System)
      ensures this.id == id && this.env == env && this.system == system
    {
      this.id, this.env, this.system := id, env, system;
      awaits, start, trace, own := 0, system, [], [];
    }

    ghost predicate Follows()
      reads this`system, this`start, this`trace, this`own
    {
      && system == Run(start, trace) && (Quiet() ==> trace == own)
      && forall i :: Others(env.meanwhile(i), id)
    }

    /** Nobody else does anything while this worker awaits. */
    ghost predicate Quiet() {
      forall n :: env.meanwhile(n) == []
    }

    /** Since a moment, `n` rounds as planned, if nobody interferes. */
    ghost predicate OnPlan(s0: System, own0: seq<Action>, n: nat, plan: (System, nat) -> seq<Action>)
      reads this`own, this`start
    {
      Quiet() ==> s0 == Run(start, own0) && own == own0 + Rounds(s0, n, plan)
    }

    lemma StartPlan(plan: (System, nat) -> seq<Action>)
      requires Follows()
      ensures OnPlan(system, own, 0, plan)
    {
    }

    lemma AtRound(s0: System, own0: seq<Action>, n: nat, plan: (System, nat) -> seq<Action>)
      requires Follows() && OnPlan(s0, own0, n, plan)
      ensures Quiet() ==> own0 + Rounds(s0, n + 1, plan) == own + plan(system, n)
    {
      hide Run, Rounds;
      if Quiet() { RoundAfter(start, own0, s0, n, plan); }
    }

    ghost method Record(a: Action)
      requires Follows()
      modifies this`trace, this`own
      ensures trace == old(trace) + [a] && own == old(own) + [a] && Run(start, trace) == Step(system, a)
      ensures Quiet() ==> trace == own
    {
      RunAppend(start, trace, a);
      trace, own := trace + [a], own + [a];
    }

    /** Everyone else's steps: finished jobs, receipts and declarations are kept. */
    method Await()
      requires Follows()
      modifies this`system, this`awaits, this`trace
      ensures Follows()
      ensures id in system.work <==> id in old(system).work
      ensures id in system.work ==> system.work[id] == old(system).work[id]
      ensures Advances(old(system), system) && (Quiet() ==> system == old(system))
    {
      var meanwhile := env.meanwhile(awaits);
      RunConcat(start, trace, meanwhile);
      OthersKeepWork(system, meanwhile, id);
      SealedForever(system, meanwhile);
      system := Run(system, meanwhile);
      trace := trace + meanwhile;
      awaits := awaits + 1;
    }

    /** One step of this worker. */
    method Perform(a: Action)
      requires Follows()
      modifies this`system, this`trace, this`own
      ensures Follows() && system == Step(old(system), a) && Advances(old(system), system) && own == old(own) + [a]
    {
      hide Run, Others, Quiet;
      Record(a);
      StepAdvances(system, a);
      hide Step, Advances;
      system := Step(system, a);
    }

    /** The reads of the sealing transaction: false when there is nothing to seal. */
    method ReadForSeal(job: Id) returns (completed: bool)
      requires Follows() && id in system.work && system.work[id].AboutToSeal? && system.work[id].job == job
      modifies this`system, this`trace, this`own
      ensures Follows() && system == old(system).(work := system.work) && own == old(own) + [ReadJob(id)]
      ensures Advances(old(system), system)
      ensures completed <==> job in old(system).jobs && old(system).jobs[job].status == Completed
      ensures !completed ==> id !in system.work
      ensures completed ==>
                && id in system.work && system.work[id].Comparing? && system.work[id].job == job
                && var c, m := system.work[id], old(system).jobs[job].missionId;
                && c.read == old(system).jobs[job] && c.existing == (m in old(system).receipts)
                && c.declared == if m in old(system).declared then Some(old(system).declared[m]) else None
    {
      hide Run, Reclaimed, Others, Quiet, Advances;
      Record(ReadJob(id));
      StepAdvances(system, ReadJob(id));
      var claimed := system.work[id].claimed;
      if job !in system.jobs || system.jobs[job].status != Completed {
        system := system.(work := system.work - {id});
        return false;
      }
      var row := system.jobs[job];
      var declared: Option<int> := None;
      if row.missionId in system.declared { declared := Some(system.declared[row.missionId]); }
      var existing := row.missionId in system.receipts;
      system := system.(work := system.work[id := Comparing(job, claimed, row, declared, existing)]);
      return true;
    }

    /** The transaction of sealReceipt after its reads: compare, create, consume. */
    method Compare(job: Id) returns (outcome: Outcome)
      requires Follows() && id in system.work && system.work[id].Comparing? && system.work[id].job == job
      modifies this`system, this`trace, this`own
      ensures Follows() && system == Step(old(system), CommitSeal(id)) && own == old(own) + [CommitSeal(id)]
      ensures outcome == Concluded(old(system).work[id], old(system))
      ensures outcome == Sealed ==>
                && var c := old(system).work[id];
                && c.declared.Some? && job in system.jobs && system.jobs[job].status == Consumed
                && system.receipts == old(system).receipts[c.read.missionId := Receipt(c.declared.value, c.read.image)]
      ensures outcome.NotSealed? ==> job in system.jobs ==> system.jobs[job].status != Completed
      ensures outcome != Sealed ==> system.receipts == old(system).receipts
      ensures outcome == Skipped ==> id in system.work && system.work[id] == Recovering(job)
      ensures outcome != Skipped ==> id !in system.work
    {
      hide Run, Reclaimed, Others, Quiet;
      var Comparing(_, claimed, read, declared, existing) := system.work[id];
      Record(CommitSeal(id));
      if declared.None? || read.total != declared || existing {
        outcome := NotSealed(if declared.None? then PurchaseAmountMissing
                             else if read.total != declared then PriceMismatch else ReceiptAlreadySealed);
        system := system.(jobs := RejectCompleted(system, job), work := system.work - {id});
        return;
      }
      if read.missionId in system.receipts {
        // unique violation: the transaction is rolled back
        system := system.(work := system.work[id := Recovering(job)]);
        return Skipped;
      }
      if job !in system.jobs || system.jobs[job].status != Completed {
        system := system.(work := system.work - {id});
        return Threw;
      }
      system := system.(receipts := system.receipts[read.missionId := Receipt(read.total.value, read.image)],
                        jobs := SetJob(system, job, system.jobs[job].(status := Consumed)),
                        work := system.work - {id});
      return Sealed;
    }

    /** What the comparison concludes; Skipped stands for a unique violation. */
    static function Concluded(c: Work, s: System): Outcome
      requires c.Comparing?
    {
      if c.declared.None? then NotSealed(PurchaseAmountMissing)
      else if c.read.total != c.declared then NotSealed(PriceMismatch)
      else if c.existing then NotSealed(ReceiptAlreadySealed)
      else if c.read.missionId in s.receipts then Skipped
      else if c.job !in s.jobs || s.jobs[c.job].status != Completed then Threw
      else Sealed
    }

    /** After a unique violation, outside the rolled-back transaction. */
    method RecoverSeal(job: Id)
      requires Follows() && id in system.work && system.work[id] == Recovering(job)
      modifies this`system, this`trace, this`own
      ensures Follows() && Advances(old(system), system) && id !in system.work && own == old(own) + [Recover(id)]
      ensures job in system.jobs ==> system.jobs[job].status != Completed
    {
      hide Run, Reclaimed, Others, Advances, Quiet;
      Record(Recover(id));
      StepAdvances(system, Recover(id));
      system := system.(jobs := RejectCompleted(system, job), work := system.work - {id});
    }

    /** An unexpected error in the sealing; a job this tick has claimed falls into the catch branch. */
    method SealingThrows(job: Id)
      requires Follows() && id in system.work && system.work[id].AboutToSeal? && system.work[id].job == job
      modifies this`system, this`trace, this`own
      ensures Follows() && system == Step(old(system), SealThrows(id)) && own == old(own) + [SealThrows(id)]
      ensures id !in system.work && Advances(old(system), system)
    {
      hide Run, Reclaimed, Others, Quiet, Advances;
      Record(SealThrows(id));
      StepAdvances(system, SealThrows(id));
      var claimed, jobs := system.work[id].claimed, system.jobs;
      if claimed.Some? && job in jobs && jobs[job].status == Processing {
        var status := if claimed.value >= 4 then Rejected else Queued;
        jobs := jobs[job := jobs[job].(status := status, updatedAt := system.now)];
      }
      system := system.(jobs := jobs, work := system.work - {id});
    }

    /** sealReceipt on the job as it is when the call begins. Unless the call throws, a job that is not
        COMPLETED is skipped, and a COMPLETED one is refused for its reason or sealed as CONSUMED;
        `committing` is what the comparison committed on. */
    method SealReceipt(job: Id) returns (outcome: Outcome, ghost committing: System)
      requires Follows() && id in system.work && system.work[id].AboutToSeal? && system.work[id].job == job
      modifies this
      ensures Follows() && start == old(start) && id !in system.work && Advances(old(system), system)
      ensures Advances(old(system), committing)
      ensures Quiet() ==> committing.(work := map[]) == old(system).(work := map[])
      ensures if env.sealThrows(job) then outcome == Threw && own == old(own) + [SealThrows(id)]
              else if job !in old(system).jobs || old(system).jobs[job].status != Completed
              then outcome == Skipped && own == old(own) + [ReadJob(id)]
              else
                var row := old(system).jobs[job];
                var m := row.missionId;
                if m !in old(system).declared
                then outcome == NotSealed(PurchaseAmountMissing) && own == old(own) + [ReadJob(id), CommitSeal(id)]
                else if row.total != Some(old(system).declared[m])
                then outcome == NotSealed(PriceMismatch) && own == old(own) + [ReadJob(id), CommitSeal(id)]
                else if m in old(system).receipts
                then outcome == NotSealed(ReceiptAlreadySealed) && own == old(own) + [ReadJob(id), CommitSeal(id)]
                else if m in committing.receipts
                then outcome == NotSealed(ReceiptAlreadySealed)
                     && own == old(own) + [ReadJob(id), CommitSeal(id), Recover(id)]
                else
                  && own == old(own) + [ReadJob(id), CommitSeal(id)]
                  && outcome == if job in committing.jobs && committing.jobs[job].status == Completed
                                then Sealed else Threw
      ensures outcome == Sealed ==>
                && job in system.jobs && system.jobs[job].status == Consumed && job in old(system).jobs
                && var row := old(system).jobs[job];
                && row.missionId in system.receipts && row.total.Some?
                && system.receipts[row.missionId] == Receipt(row.total.value, row.image)
      ensures outcome.NotSealed? ==> job in system.jobs ==> system.jobs[job].status != Completed
      ensures Quiet() ==> own == old(own) + SealMoves(old(system), id, job, env.sealThrows(job))
    {
      hide Run, Others, Follows, Advances, Quiet, Commit, FailProcessing, RejectCompleted;
      committing := system;
      AdvancesReflexive(system);
      if env.sealThrows(job) {
        SealingThrows(job);
        return Threw, committing;
      }
      ghost var s0 := system;
      var completed := ReadForSeal(job);
      if !completed { return Skipped, committing; }
      ghost var s1 := system;
      Await();
      committing := system;
      AdvancesTransitive(s0, s1, committing);
      outcome := Compare(job);
      StepAdvances(committing, CommitSeal(id));
      AdvancesTransitive(s0, committing, system);
      if outcome == Skipped {
        ghost var s3 := system;
        Await();
        AdvancesTransitive(s0, s3, system);
        ghost var s4 := system;
        RecoverSeal(job);
        AdvancesTransitive(s0, s4, system);
        outcome := NotSealed(ReceiptAlreadySealed);
      }
    }

    /** SELECT ... WHERE status LIMIT 10, in the database's order. */
    method SelectJobs(status: ReceiptJobStatus) returns (ids: seq<Id>)
      ensures |ids| <= BATCH_SIZE && forall i, j :: 0 <= i < j < |ids| ==> ids[i] != ids[j]
      ensures forall i :: 0 <= i < |ids| ==> ids[i] in system.jobs && system.jobs[ids[i]].status == status
      ensures |ids| < BATCH_SIZE ==> forall k :: k in system.jobs && system.jobs[k].status == status ==> k in ids
    {
      ids := [];
      var left := system.jobs.Keys;
      while left != {} && |ids| < BATCH_SIZE
        invariant |ids| <= BATCH_SIZE && left <= system.jobs.Keys
        invariant forall i, j :: 0 <= i < j < |ids| ==> ids[i] != ids[j]
        invariant forall i :: 0 <= i < |ids| ==>
                    ids[i] in system.jobs && system.jobs[ids[i]].status == status && ids[i] !in left
        invariant forall k :: k in system.jobs && system.jobs[k].status == status && k !in left ==> k in ids
        decreases left
      {
        var k :| k in left;
        left := left - {k};
        if system.jobs[k].status == status { ids := ids + [k]; }
      }
    }

    /** The conditional claim; false when another instance took the job first. */
    method ClaimJob(job: Id, attemptsRead: nat) returns (claimed: bool)
      requires Follows() && id !in system.work
      modifies this`system, this`trace, this`own
      ensures Follows() && system == Step(old(system), Claim(id, job, attemptsRead))
      ensures own == old(own) + [Claim(id, job, attemptsRead)]
      ensures claimed <==> job in old(system).jobs && old(system).jobs[job].status == Queued
      ensures claimed ==> id in system.work && system.work[id] == Extracting(job, attemptsRead + 1)
      ensures claimed ==>
                && job in old(system).jobs && job in system.jobs
                && system.jobs[job] == old(system).jobs[job].(
                     status := Processing, attempts := old(system).jobs[job].attempts + 1, updatedAt := system.now)
      ensures !claimed ==> system == old(system)
    {
      hide Run, Reclaimed, Others, Quiet;
      Record(Claim(id, job, attemptsRead));
      if job !in system.jobs || system.jobs[job].status != Queued { return false; }
      var row := system.jobs[job];
      row := row.(status := Processing, attempts := row.attempts + 1, updatedAt := system.now);
      system := system.(jobs := system.jobs[job := row], work := system.work[id := Extracting(job, attemptsRead + 1)]);
      return true;
    }

    /** PROCESSING -> COMPLETED with the extracted total, if the job is still PROCESSING. */
    method StoreResult(job: Id, attempts: nat, total: Option<int>)
      requires Follows() && id in system.work && system.work[id] == Extracting(job, attempts)
      modifies this`system, this`trace, this`own
      ensures Follows() && system == Step(old(system), Complete(id, total)) && own == old(own) + [Complete(id, total)]
      ensures id in system.work && system.work[id] == AboutToSeal(job, Some(attempts))
      ensures job in old(system).jobs && old(system).jobs[job].status == Processing ==>
                job in system.jobs && system.jobs[job].status == Completed && system.jobs[job].total == total
    {
      hide Run, Reclaimed, Others, Quiet;
      Record(Complete(id, total));
      if job in system.jobs && system.jobs[job].status == Processing {
        var row := system.jobs[job].(status := Completed, total := total, updatedAt := system.now);
        system := system.(jobs := system.jobs[job := row]);
      }
      system := system.(work := system.work[id := AboutToSeal(job, Some(attempts))]);
    }

    /** The catch branch of an extraction. */
    method FailJob(job: Id, attempts: nat, deterministic: bool)
      requires Follows() && id in system.work && system.work[id] == Extracting(job, attempts)
      modifies this`system, this`trace, this`own
      ensures Follows() && system == Step(old(system), ExtractionFails(id, deterministic)) && id !in system.work
      ensures own == old(own) + [ExtractionFails(id, deterministic)]
    {
      hide Run, Reclaimed, Others, Quiet;
      Record(ExtractionFails(id, deterministic));
      var terminal := deterministic || attempts >= 4;
      if job in system.jobs && system.jobs[job].status == Processing {
        var row := system.jobs[job].(status := if terminal then Rejected else Queued, updatedAt := system.now);
        system := system.(jobs := system.jobs[job := row]);
      }
      system := system.(work := system.work - {id});
    }

    /** Claim, extract, verdict and seal for one selected job. */
    method ProcessJob(job: Id, attemptsRead: nat)
      requires Follows() && id !in system.work
      modifies this
      ensures Follows() && start == old(start) && id !in system.work
      // the claim; and if it took, the verdict that the vision call calls for
      ensures old(own) + [Claim(id, job, attemptsRead)] <= own
      ensures if job in old(system).jobs && old(system).jobs[job].status == Queued
              then |own| > |old(own)| + 1 && own[|old(own)| + 1] == VerdictOn(id, env.vision(job))
              else own == old(own) + [Claim(id, job, attemptsRead)]
      // and the sealing of what was extracted
      ensures Quiet() ==> own == old(own) + JobMoves(old(system), id, job, attemptsRead, env)
    {
      hide Follows, Advances, Step, Quiet, SealMoves;
      var claimed := ClaimJob(job, attemptsRead);
      if !claimed { return; }
      ghost var taken := system;
      var attemptsNow := attemptsRead + 1;
      var vision := env.vision(job);
      Await();
      match vision
      case Deterministic => FailJob(job, attemptsNow, true);
      case Transient => FailJob(job, attemptsNow, false);
      case Extracted(total) => StoreAndSeal(job, attemptsNow, total);
    }

    /** What follows an extraction that succeeded. */
    method StoreAndSeal(job: Id, attempts: nat, total: Option<int>)
      requires Follows() && id in system.work && system.work[id] == Extracting(job, attempts)
      modifies this
      ensures Follows() && start == old(start) && id !in system.work
      ensures old(own) + [Complete(id, total)] <= own
      ensures Quiet() && job in old(system).jobs && old(system).jobs[job].status == Processing ==>
                own == old(own) + [Complete(id, total)]
                       + if env.sealThrows(job) then [SealThrows(id)] else [ReadJob(id), CommitSeal(id)]
    {
      hide Follows, Advances, Step, Quiet, SealMoves;
      StoreResult(job, attempts, total);
      Await();
      ghost var sealing := system;
      var outcome, _ := SealReceipt(job);
      SealsCompleted(sealing, id, job, env.sealThrows(job));
    }

    static lemma SealsCompleted(s: System, w: Id, job: Id, throws: bool)
      ensures job in s.jobs && s.jobs[job].status == Completed ==>
                SealMoves(s, w, job, throws) == if throws then [SealThrows(w)] else [ReadJob(w), CommitSeal(w)]
    {
    }

    /** The reclaim of jobs whose worker died: PROCESSING for more than fifteen minutes. */
    method ReclaimJobs()
      requires Follows()
      modifies this`system, this`trace, this`own
      ensures Follows() && own == old(own) + [ReclaimStale]
      ensures system == Step(old(system), ReclaimStale)
      ensures forall k :: k in old(system).jobs ==>
                k in system.jobs
                && system.jobs[k] == if old(system).jobs[k].status == Processing
                                        && old(system).now - old(system).jobs[k].updatedAt > 900_000
                                     then old(system).jobs[k].(status := Queued, updatedAt := old(system).now)
                                     else old(system).jobs[k]
    {
      hide Run, Others, Quiet;
      Record(ReclaimStale);
      var jobs, now := system.jobs, system.now;
      var reclaimed := map k | k in jobs ::
        if jobs[k].status == Processing && now - jobs[k].updatedAt > 900_000
        then jobs[k].(status := Queued, updatedAt := now) else jobs[k];
      assert reclaimed == Reclaimed(system);
      system := system.(jobs := reclaimed);
    }

    /** processReceiptOutbox: reclaim, reseal orphans, then one pass over a batch; whatever happens,
        the shared state follows the protocol. */
    method ProcessReceiptOutbox() returns (ghost orphans: seq<Id>, ghost pendings: seq<Id>)
      requires id !in system.work && forall i :: Others(env.meanwhile(i), id)
      modifies this
      ensures id !in system.work
      ensures exists actions :: system == Run(old(system), actions)
      ensures |own| > 0 && own[0] == ReclaimStale
      ensures Sound(old(system)) ==> Sound(system)
      // undisturbed: the reclaim, the orphans it then finds COMPLETED, the jobs it then finds PENDING
      ensures Quiet() ==>
                && var reclaimed := Step(old(system), ReclaimStale);
                && var resealed := Run(reclaimed, Rounds(reclaimed, |orphans|, ResealPlan(id, orphans, env)));
                && Picks(reclaimed, Completed, orphans) && Picks(resealed, Queued, pendings)
                && system == Run(resealed, Rounds(resealed, |pendings|, JobPlan(id, pendings, resealed.jobs, env)))
    {
      Begin();
      ghost var system0 := system;
      hide Run, Step, Follows, Sound, Advances, Quiet, Rounds, ResealPlan, JobPlan, Picks;
      ReclaimJobs();
      Await();
      ghost var reclaimed, own1 := system, own;
      orphans := ResealOrphans();
      PlanRuns(reclaimed, own1, |orphans|, ResealPlan(id, orphans, env));
      Await();
      ghost var resealed, own2 := system, own;
      pendings := ProcessPendings();
      PlanRuns(resealed, own2, |pendings|, JobPlan(id, pendings, resealed.jobs, env));
      assert system == Run(system0, trace) by { assert Follows(); }
      if Sound(system0) { SoundThrough(system0, trace); }
    }

    method Begin()
      requires forall i :: Others(env.meanwhile(i), id)
      modifies this`start, this`trace, this`own
      ensures Follows() && start == system && trace == [] && own == []
    {
      start, trace, own := system, [], [];
    }

    lemma PlanRuns(s0: System, own0: seq<Action>, n: nat, plan: (System, nat) -> seq<Action>)
      requires Follows() && OnPlan(s0, own0, n, plan)
      ensures Quiet() ==> system == Run(s0, Rounds(s0, n, plan))
    {
      hide Run, Rounds;
      if Quiet() { RunConcat(start, own0, Rounds(s0, n, plan)); }
    }

    /** WHERE status LIMIT 10. */
    static ghost predicate Picks(s: System, status: ReceiptJobStatus, ids: seq<Id>) {
      && |ids| <= BATCH_SIZE && (forall i, j :: 0 <= i < j < |ids| ==> ids[i] != ids[j])
      && (forall i :: 0 <= i < |ids| ==> ids[i] in s.jobs && s.jobs[ids[i]].status == status)
      && (|ids| < BATCH_SIZE ==> forall k :: (k in s.jobs && s.jobs[k].status == status) ==> k in ids)
    }

    /** Every selected COMPLETED job is sealed again. */
    method ResealOrphans() returns (ghost orphans: seq<Id>)
      requires Follows() && id !in system.work
      modifies this
      ensures Follows() && start == old(start) && id !in system.work && old(own) <= own
      ensures Picks(old(system), Completed, orphans) && forall k :: k in orphans ==> BeginSeal(id, k) in own
      ensures OnPlan(old(system), old(own), |orphans|, ResealPlan(id, orphans, env))
    {
      hide Run, Follows, Advances, OnPlan, ResealPlan;
      var jobs := SelectJobs(Completed);
      orphans := jobs;
      StartPlan(ResealPlan(id, jobs, env));
      for i := 0 to |jobs|
        invariant Follows() && start == old(start) && id !in system.work && old(own) <= own
        invariant forall j :: 0 <= j < i ==> BeginSeal(id, jobs[j]) in own
        invariant OnPlan(old(system), old(own), i, ResealPlan(id, jobs, env))
      {
        ghost var before := own;
        Reseal(jobs, i, old(system), old(own));
        assert own[|before|] == BeginSeal(id, jobs[i]);
        StillIn(before, own);
      }
    }

    method Reseal(jobs: seq<Id>, i: nat, ghost s0: System, ghost own0: seq<Action>)
      requires Follows() && id !in system.work && i < |jobs| && OnPlan(s0, own0, i, ResealPlan(id, jobs, env))
      modifies this
      ensures Follows() && start == old(start) && id !in system.work && old(own) + [BeginSeal(id, jobs[i])] <= own
      ensures OnPlan(s0, own0, i + 1, ResealPlan(id, jobs, env))
    {
      AtRound(s0, own0, i, ResealPlan(id, jobs, env));
      hide Run, Follows, Advances, Quiet, Rounds, SealMoves;
      Await();
      ghost var before := system;
      Perform(BeginSeal(id, jobs[i]));
      SealsAlike(before, system, id, jobs[i], env.sealThrows(jobs[i]));
      var outcome, _ := SealReceipt(jobs[i]);
    }

    static lemma SealsAlike(a: System, b: System, w: Id, job: Id, throws: bool)
      requires a.jobs == b.jobs
      ensures SealMoves(a, w, job, throws) == SealMoves(b, w, job, throws)
    {
    }

    /** Every selected PENDING job gets a claim, with the attempts of the selection. */
    method ProcessPendings() returns (ghost picked: seq<Id>)
      requires Follows() && id !in system.work
      modifies this
      ensures Follows() && start == old(start) && id !in system.work && old(own) <= own
      ensures Picks(old(system), Queued, picked)
              && forall k :: k in picked ==> k in old(system).jobs && Claim(id, k, old(system).jobs[k].attempts) in own
      ensures OnPlan(old(system), old(own), |picked|, JobPlan(id, picked, old(system).jobs, env))
    {
      hide Run, Follows, Advances, OnPlan, JobPlan;
      var pendings := SelectJobs(Queued);
      picked := pendings;
      var rows := system.jobs;
      StartPlan(JobPlan(id, pendings, rows, env));
      for i := 0 to |pendings|
        invariant Follows() && start == old(start) && id !in system.work && old(own) <= own
        invariant forall j :: 0 <= j < i ==> Claim(id, pendings[j], rows[pendings[j]].attempts) in own
        invariant OnPlan(old(system), old(own), i, JobPlan(id, pendings, rows, env))
      {
        ghost var before := own;
        NextJob(pendings, rows, i, old(system), old(own));
        assert own[|before|] == Claim(id, pendings[i], rows[pendings[i]].attempts);
        StillIn(before, own);
      }
    }

    /** The attempts are those of the batch selection. */
    method NextJob(jobs: seq<Id>, rows: map<Id, Job>, i: nat, ghost s0: System, ghost own0: seq<Action>)
      requires Follows() && id !in system.work && i < |jobs| && jobs[i] in rows
      requires OnPlan(s0, own0, i, JobPlan(id, jobs, rows, env))
      modifies this
      ensures Follows() && start == old(start) && id !in system.work
      ensures old(own) + [Claim(id, jobs[i], rows[jobs[i]].attempts)] <= own
      ensures OnPlan(s0, own0, i + 1, JobPlan(id, jobs, rows, env))
    {
      AtRound(s0, own0, i, JobPlan(id, jobs, rows, env));
      hide Run, Follows, Advances, Quiet, Rounds, JobMoves;
      Await();
      ProcessJob(jobs[i], rows[jobs[i]].attempts);
    }
  }

  lemma StillIn(before: seq<Action>, after: seq<Action>)
    requires before <= after
    ensures forall a :: a in before ==> a in after
  {
    forall a | a in before ensures a in after {
      var i :| 0 <= i < |before| && before[i] == a;
      assert after[i] == a;
    }
  }

  lemma {:induction false} SoundThrough(s: System, actions: seq<Action>)
    requires Sound(s)
    ensures Sound(Run(s, actions))
    decreases |actions|
  {
    hide Sound, Step;
    if |actions| > 0 {
      SoundThrough(s, actions[..|actions| - 1]);
      StepKeepsSound(Run(s, actions[..|actions| - 1]), actions[|actions| - 1]);
    }
  }
}

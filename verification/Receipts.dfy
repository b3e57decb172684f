/** Receipt extraction and sealing: jobs claimed by any number of workers, a slow call outside any
    transaction, a conditional verdict, then a transaction that compares, seals and consumes. A
    transaction that reads first and writes later is two steps here, with anything in between. */
module Receipts {
  import opened Tables

  const BATCH_SIZE: nat := 10
  const MAX_ATTEMPTS: nat := 4
  const STALE_PROCESSING: nat := 15 * 60_000

  datatype ReceiptJobStatus = Queued | Processing | Completed | Consumed | Rejected // PENDING ... FAILED

  /** `total` is the whole number of cents in the extracted result, if there is one. */
  datatype Job = Job(
    missionId: Id, image: Id, status: ReceiptJobStatus, attempts: nat, updatedAt: Instant, total: Option<int>)

  datatype Receipt = Receipt(totalCents: int, image: Id)

  /** What a worker is in the middle of; `attempts` is the count it computed when it claimed. */
  datatype Work =
    | Extracting(job: Id, attempts: nat)
    | AboutToSeal(job: Id, claimed: Option<nat>)
    | Comparing(job: Id, claimed: Option<nat>, read: Job, declared: Option<int>, existing: bool)
    | Recovering(job: Id)

  datatype System = System(
    now: Instant,
    jobs: map<Id, Job>,
    declared: map<Id, int>,
    receipts: map<Id, Receipt>,
    work: map<Id, Work>)

  datatype Action =
    | Tick(ms: nat)
    // mission routes: shipping declares the purchase; upload; manual submission
    | Declare(m: Id, purchaseCents: int)
    | Upload(job: Id, m: Id, image: Id)
    | Submit(m: Id, receipt: Receipt)
    // receipt outbox worker
    | ReclaimStale
    | Claim(worker: Id, job: Id, attemptsRead: nat)
    | Complete(worker: Id, total: Option<int>)
    | ExtractionFails(worker: Id, deterministic: bool)
    | BeginSeal(worker: Id, job: Id)
    | ReadJob(worker: Id)
    | CommitSeal(worker: Id)
    | Recover(worker: Id)
    | SealThrows(worker: Id)
    | Crash(worker: Id)

  function SetJob(s: System, id: Id, j: Job): map<Id, Job> {
    s.jobs[id := j.(updatedAt := s.now)]
  }

  /** UPDATE ... FAILED WHERE id AND COMPLETED. */
  function RejectCompleted(s: System, id: Id): map<Id, Job> {
    if id in s.jobs && s.jobs[id].status == Completed then SetJob(s, id, s.jobs[id].(status := Rejected)) else s.jobs
  }

  /** The catch branch: only a job still PROCESSING is moved. */
  function FailProcessing(s: System, id: Id, terminal: bool): map<Id, Job> {
    if id in s.jobs && s.jobs[id].status == Processing
    then SetJob(s, id, s.jobs[id].(status := if terminal then Rejected else Queued)) else s.jobs
  }

  predicate Stale(j: Job, now: Instant) {
    j.status == Processing && j.updatedAt + STALE_PROCESSING < now
  }

  function Reclaimed(s: System): map<Id, Job> {
    map k | k in s.jobs :: if Stale(s.jobs[k], s.now) then s.jobs[k].(status := Queued, updatedAt := s.now)
      else s.jobs[k]
  }

  /** What the sealing transaction concludes from what it read. */
  predicate Matches(read: Job, declared: Option<int>, existing: bool) {
    declared.Some? && read.total == declared && !existing
  }

  function Idle(s: System, w: Id): map<Id, Work> {
    s.work - {w}
  }

  function Commit(s: System, w: Id): System
    requires w in s.work && s.work[w].Comparing?
  {
    var Comparing(id, attempts, read, declared, existing) := s.work[w];
    if !Matches(read, declared, existing) then s.(jobs := RejectCompleted(s, id), work := Idle(s, w))
    else if read.missionId in s.receipts then s.(work := s.work[w := Recovering(id)])
    else if id !in s.jobs || s.jobs[id].status != Completed then
      // SEAL_RACE: the receipt is rolled back, the error reaches the worker
      s.(work := Idle(s, w))
    else
      s.(receipts := s.receipts[read.missionId := Receipt(declared.value, read.image)],
         jobs := SetJob(s, id, s.jobs[id].(status := Consumed)), work := Idle(s, w))
  }

  function Step(s: System, a: Action): System {
    match a
    case Tick(ms) => s.(now := s.now + ms)
    case Declare(m, p) => if m in s.declared then s else s.(declared := s.declared[m := p])
    case Upload(id, m, image) =>
      if id in s.jobs then s else s.(jobs := s.jobs[id := Job(m, image, Queued, 0, s.now, None)])
    case Submit(m, receipt) => if m in s.receipts then s else s.(receipts := s.receipts[m := receipt])
    case ReclaimStale => s.(jobs := Reclaimed(s))
    case Claim(w, id, attemptsRead) =>
      if w in s.work || id !in s.jobs || s.jobs[id].status != Queued then s
      else
        var j := s.jobs[id];
        s.(jobs := SetJob(s, id, j.(status := Processing, attempts := j.attempts + 1)),
           work := s.work[w := Extracting(id, attemptsRead + 1)])
    case Complete(w, total) =>
      if w !in s.work || !s.work[w].Extracting? then s
      else
        var Extracting(id, attempts) := s.work[w];
        s.(jobs := if id in s.jobs && s.jobs[id].status == Processing
                   then SetJob(s, id, s.jobs[id].(status := Completed, total := total)) else s.jobs,
           work := s.work[w := AboutToSeal(id, Some(attempts))])
    case ExtractionFails(w, deterministic) =>
      if w !in s.work || !s.work[w].Extracting? then s
      else
        var Extracting(id, attempts) := s.work[w];
        s.(jobs := FailProcessing(s, id, deterministic || attempts >= MAX_ATTEMPTS), work := Idle(s, w))
    case BeginSeal(w, id) => if w in s.work then s else s.(work := s.work[w := AboutToSeal(id, None)])
    case ReadJob(w) =>
      if w !in s.work || !s.work[w].AboutToSeal? then s
      else
        var AboutToSeal(id, attempts) := s.work[w];
        if id !in s.jobs || s.jobs[id].status != Completed then s.(work := Idle(s, w))
        else
          var m := s.jobs[id].missionId;
          s.(work := s.work[w := Comparing(id, attempts, s.jobs[id],
                                           if m in s.declared then Some(s.declared[m]) else None, m in s.receipts)])
    case CommitSeal(w) => if w in s.work && s.work[w].Comparing? then Commit(s, w) else s
    case Recover(w) =>
      if w in s.work && s.work[w].Recovering?
      then s.(jobs := RejectCompleted(s, s.work[w].job), work := Idle(s, w)) else s
    case SealThrows(w) =>
      // an unexpected error in the sealing of a job this worker has just completed
      if w !in s.work || s.work[w].Extracting? then s
      else
        var attempts: Option<nat> := if s.work[w].Recovering? then None else s.work[w].claimed;
        s.(jobs := if attempts.Some? then FailProcessing(s, s.work[w].job, attempts.value >= MAX_ATTEMPTS) else s.jobs,
           work := Idle(s, w))
    case Crash(w) => s.(work := Idle(s, w))
  }

  const INIT := System(0, map[], map[], map[], map[])

  function Run(s: System, actions: seq<Action>): System
    decreases |actions|
  {
    if |actions| == 0 then s
    else Step(Run(s, actions[..|actions| - 1]), actions[|actions| - 1])
  }

  // ----- Safety

  /** A consumed job was sealed as the mission's receipt, for the amount the traveler declared. */
  predicate ConsumedSound(s: System, id: Id)
    requires id in s.jobs
  {
    var j := s.jobs[id];
    j.status == Consumed ==>
      && j.missionId in s.receipts && j.missionId in s.declared
      && s.receipts[j.missionId] == Receipt(s.declared[j.missionId], j.image)
      && j.total == Some(s.declared[j.missionId])
  }

  ghost predicate OneConsumedPerMission(s: System) {
    forall i, j ::
      (i in s.jobs && j in s.jobs && s.jobs[i].status == Consumed && s.jobs[j].status == Consumed
       && s.jobs[i].missionId == s.jobs[j].missionId) ==> i == j
  }

  predicate Finished(status: ReceiptJobStatus) {
    status == Completed || status == Consumed || status == Rejected
  }

  /** What a sealing transaction read is still so: results and declarations are written once. */
  ghost predicate ReadSound(s: System, t: Work) {
    t.Comparing? ==>
      && t.job in s.jobs && Finished(s.jobs[t.job].status)
      && s.jobs[t.job].missionId == t.read.missionId && s.jobs[t.job].image == t.read.image
      && s.jobs[t.job].total == t.read.total
      && (t.declared.Some? ==> t.read.missionId in s.declared && s.declared[t.read.missionId] == t.declared.value)
  }

  ghost predicate Sound(s: System) {
    && (forall id :: id in s.jobs ==> ConsumedSound(s, id))
    && OneConsumedPerMission(s)
    && (forall w :: w in s.work ==> ReadSound(s, s.work[w]))
  }

  /** From one state to a later one: receipts and declarations never change, finished jobs keep
      their result, and CONSUMED and FAILED are never left. */
  predicate JobAdvances(a: Job, b: Job) {
    && b.missionId == a.missionId && b.image == a.image && a.attempts <= b.attempts
    && (Finished(a.status) ==> Finished(b.status) && b.total == a.total)
    && (a.status == Consumed || a.status == Rejected ==> b.status == a.status)
  }

  ghost predicate Advances(a: System, b: System) {
    && (forall m :: m in a.receipts ==> m in b.receipts && b.receipts[m] == a.receipts[m])
    && (forall m :: m in a.declared ==> m in b.declared && b.declared[m] == a.declared[m])
    && (forall id :: id in a.jobs ==> id in b.jobs && JobAdvances(a.jobs[id], b.jobs[id]))
  }

  lemma StepAdvances(s: System, a: Action)
    ensures Advances(s, Step(s, a))
  {
    hide JobAdvances, Reclaimed;
    JobsAdvance(s, a);
  }

  lemma JobsAdvance(s: System, a: Action)
    ensures forall id :: id in s.jobs ==> id in Step(s, a).jobs && JobAdvances(s.jobs[id], Step(s, a).jobs[id])
  {
  }

  lemma ReadStaysSound(a: System, b: System, t: Work)
    requires Advances(a, b) && ReadSound(a, t)
    ensures ReadSound(b, t)
  {
    if t.Comparing? {
      assert JobAdvances(a.jobs[t.job], b.jobs[t.job]);
    }
  }

  lemma CommitKeepsSound(s: System, w: Id)
    requires Sound(s) && w in s.work && s.work[w].Comparing?
    ensures Sound(Commit(s, w))
  {
    StepAdvances(s, CommitSeal(w));
    var s' := Commit(s, w);
    assert ReadSound(s, s.work[w]);
    forall id | id in s'.jobs ensures ConsumedSound(s', id) {
      assert ConsumedSound(s, id);
    }
    forall v | v in s'.work ensures ReadSound(s', s'.work[v]) {
      if s'.work[v].Comparing? { ReadStaysSound(s, s', s.work[v]); }
    }
  }

  lemma OtherStepKeepsReads(s: System, a: Action)
    requires Sound(s) && !a.CommitSeal?
    ensures var s' := Step(s, a); forall v :: v in s'.work ==> ReadSound(s', s'.work[v])
  {
    hide ConsumedSound, OneConsumedPerMission, Advances, Reclaimed;
    StepAdvances(s, a);
    var s' := Step(s, a);
    forall v | v in s'.work ensures ReadSound(s', s'.work[v]) {
      if v in s.work && s'.work[v] == s.work[v] { ReadStaysSound(s, s', s.work[v]); }
    }
  }

  lemma OtherStepKeepsSound(s: System, a: Action)
    requires Sound(s) && !a.CommitSeal?
    ensures Sound(Step(s, a))
  {
    hide ReadSound;
    StepAdvances(s, a);
    OtherStepKeepsReads(s, a);
    var s' := Step(s, a);
    forall id | id in s'.jobs
      ensures ConsumedSound(s', id)
              && (s'.jobs[id].status == Consumed ==> id in s.jobs && s.jobs[id].status == Consumed) {
      if id in s.jobs { assert ConsumedSound(s, id) && JobAdvances(s.jobs[id], s'.jobs[id]); }
    }
  }

  lemma StepKeepsSound(s: System, a: Action)
    requires Sound(s)
    ensures Sound(Step(s, a))
  {
    hide Sound;
    if a.CommitSeal? {
      if a.worker in s.work && s.work[a.worker].Comparing? { CommitKeepsSound(s, a.worker); }
    } else {
      OtherStepKeepsSound(s, a);
    }
  }

  /** On every run of any number of workers, with stale reclaims, crashes and replays: at most one
      receipt and one consumed job per mission, the consumed job's total being the sealed total and
      the declared purchase. */
  lemma {:induction false} SoundOnEveryRun(actions: seq<Action>)
    ensures Sound(Run(INIT, actions))
    decreases |actions|
  {
    if |actions| > 0 {
      SoundOnEveryRun(actions[..|actions| - 1]);
      StepKeepsSound(Run(INIT, actions[..|actions| - 1]), actions[|actions| - 1]);
    }
  }

  lemma AdvancesTransitive(a: System, b: System, c: System)
    requires Advances(a, b) && Advances(b, c)
    ensures Advances(a, c)
  {
    forall id | id in a.jobs ensures id in c.jobs && JobAdvances(a.jobs[id], c.jobs[id]) {
      assert JobAdvances(a.jobs[id], b.jobs[id]) && JobAdvances(b.jobs[id], c.jobs[id]);
    }
  }

  /** A sealed receipt is never overwritten or removed, and CONSUMED and FAILED are final. */
  lemma {:induction false} SealedForever(s: System, actions: seq<Action>)
    ensures Advances(s, Run(s, actions))
    decreases |actions|
  {
    hide Advances;
    if |actions| == 0 {
      StepAdvances(s, Tick(0));
    } else {
      SealedForever(s, actions[..|actions| - 1]);
      StepAdvances(Run(s, actions[..|actions| - 1]), actions[|actions| - 1]);
      AdvancesTransitive(s, Run(s, actions[..|actions| - 1]), Run(s, actions));
    }
  }

  // ----- Sealing decides

  /** Left alone, sealing a COMPLETED job ends it: CONSUMED exactly when the extracted total is the
      declared purchase and no receipt exists yet, FAILED otherwise; any other job is untouched. */
  lemma SealingDecides(s: System, w: Id, id: Id)
    requires w !in s.work
    ensures var s' := Step(Step(Step(s, BeginSeal(w, id)), ReadJob(w)), CommitSeal(w));
            && w !in s'.work
            && if id !in s.jobs || s.jobs[id].status != Completed then s' == s
               else
                 var j := s.jobs[id];
                 var m := j.missionId;
                 && id in s'.jobs
                 && s'.jobs[id].status == (if m in s.declared && j.total == Some(s.declared[m]) && m !in s.receipts
                                           then Consumed else Rejected)
                 && s'.receipts == if s'.jobs[id].status == Consumed
                                   then s.receipts[m := Receipt(s.declared[m], j.image)] else s.receipts
  {
    var one := Step(s, BeginSeal(w, id));
    var two := Step(one, ReadJob(w));
    assert s.work[w := AboutToSeal(id, None)] - {w} == s.work;
    assert one.work - {w} == s.work && two.work - {w} == s.work;
  }

  // ----- The attempt threshold

  /** Waiting for a claim although the threshold is reached. */
  predicate Overrun(j: Job) {
    j.status == Queued && j.attempts >= MAX_ATTEMPTS
  }

  /** The one step that takes a job past the threshold: a claim of a job that is waiting at it. */
  lemma PassesThresholdIff(s: System, a: Action, id: Id)
    requires id in s.jobs && s.jobs[id].attempts <= MAX_ATTEMPTS
    ensures id in Step(s, a).jobs
    ensures Step(s, a).jobs[id].attempts > MAX_ATTEMPTS
            <==> && a.Claim? && a.job == id && a.worker !in s.work
                 && s.jobs[id].status == Queued && s.jobs[id].attempts == MAX_ATTEMPTS
  {
    JobsAdvance(s, a);
  }

  /** A step that sends a job back although the threshold is reached: a reclaim of it as stale, or
      the failure of a claimant whose own count is below the threshold. */
  predicate Reopens(s: System, a: Action, id: Id)
    requires id in s.jobs
  {
    && s.jobs[id].status == Processing && s.jobs[id].attempts >= MAX_ATTEMPTS
    && match a
       case ReclaimStale => Stale(s.jobs[id], s.now)
       case ExtractionFails(w, deterministic) =>
         !deterministic && w in s.work && s.work[w].Extracting? && s.work[w].job == id
         && s.work[w].attempts < MAX_ATTEMPTS
       case SealThrows(w) =>
         w in s.work && (s.work[w].AboutToSeal? || s.work[w].Comparing?) && s.work[w].job == id
         && s.work[w].claimed.Some? && s.work[w].claimed.value < MAX_ATTEMPTS
       case _ => false
  }

  lemma OverrunIff(s: System, a: Action, id: Id)
    requires id in s.jobs && !Overrun(s.jobs[id])
    ensures id in Step(s, a).jobs
    ensures Overrun(Step(s, a).jobs[id]) <==> Reopens(s, a, id)
  {
  }

  ghost predicate ThresholdHolds(s: System) {
    forall id :: id in s.jobs ==> s.jobs[id].attempts <= MAX_ATTEMPTS && !Overrun(s.jobs[id])
  }

  /** From a state where it holds, the threshold keeps holding exactly across steps that reopen no
      job. */
  lemma ThresholdStepIff(s: System, a: Action)
    requires ThresholdHolds(s)
    ensures ThresholdHolds(Step(s, a)) <==> forall id :: id in s.jobs ==> !Reopens(s, a, id)
  {
    hide Overrun, Reopens;
    forall id | id in s.jobs
      ensures id in Step(s, a).jobs && (Overrun(Step(s, a).jobs[id]) <==> Reopens(s, a, id))
              && (Step(s, a).jobs[id].attempts <= MAX_ATTEMPTS) {
      OverrunIff(s, a, id);
      PassesThresholdIff(s, a, id);
      if Step(s, a).jobs[id].attempts > MAX_ATTEMPTS { WaitingIsOverrun(s.jobs[id]); }
    }
    NewJobs(s, a);
  }

  lemma WaitingIsOverrun(j: Job)
    ensures Overrun(j) <==> j.status == Queued && j.attempts >= MAX_ATTEMPTS
  {
  }

  lemma NewJobs(s: System, a: Action)
    ensures forall id :: id in Step(s, a).jobs && id !in s.jobs ==>
              Step(s, a).jobs[id].attempts == 0 && !Overrun(Step(s, a).jobs[id])
  {
    if !a.Upload? { JobsOnlyUploaded(s, a); }
  }

  lemma JobsOnlyUploaded(s: System, a: Action)
    requires !a.Upload?
    ensures Step(s, a).jobs.Keys == s.jobs.Keys
  {
  }

  ghost predicate NeverReopens(s: System, actions: seq<Action>)
    decreases |actions|
  {
    |actions| == 0
    || (&& NeverReopens(s, actions[..|actions| - 1])
        && var before := Run(s, actions[..|actions| - 1]);
           forall id :: id in before.jobs ==> !Reopens(before, actions[|actions| - 1], id))
  }

  /** On every run that reopens no job past the threshold, no job is claimed, and so no vision call
      made, more than MAX_ATTEMPTS times. */
  lemma {:induction false} ThresholdOnEveryRun(actions: seq<Action>)
    requires NeverReopens(INIT, actions)
    ensures ThresholdHolds(Run(INIT, actions))
    decreases |actions|
  {
    hide ThresholdHolds, Step, Reopens;
    if |actions| == 0 {
      assert ThresholdHolds(INIT) by { NoJobs(); }
    } else {
      ThresholdOnEveryRun(actions[..|actions| - 1]);
      ThresholdStepIff(Run(INIT, actions[..|actions| - 1]), actions[|actions| - 1]);
    }
  }

  lemma NoJobs()
    ensures ThresholdHolds(INIT)
  {
  }

  const AGE: nat := STALE_PROCESSING + 1

  /** A worker that claims, dies, and is reclaimed n times. */
  function CrashLoop(n: nat): seq<Action> {
    if n == 0 then [Upload(7, 1, 3)]
    else CrashLoop(n - 1) + [Claim(1, 7, n - 1)] + [Crash(1)] + [Tick(AGE)] + [ReclaimStale]
  }

  lemma RunAppend(s: System, actions: seq<Action>, last: Action)
    ensures Run(s, actions + [last]) == Step(Run(s, actions), last)
  {
    assert (actions + [last])[..|actions|] == actions;
  }

  function CrashState(n: nat, now: Instant): System {
    System(now, map[7 := Job(1, 3, Queued, n, now, None)], map[], map[], map[])
  }

  lemma CrashOnce(n: nat, now: Instant)
    ensures Step(Step(Step(Step(CrashState(n, now), Claim(1, 7, n)), Crash(1)), Tick(AGE)), ReclaimStale)
            == CrashState(n + 1, now + AGE)
  {
    var claimed := Step(CrashState(n, now), Claim(1, 7, n));
    assert claimed == System(now, map[7 := Job(1, 3, Processing, n + 1, now, None)], map[], map[],
                             map[1 := Extracting(7, n + 1)]);
    var dead := Step(claimed, Crash(1));
    assert dead.work == map[];
    assert Reclaimed(Step(dead, Tick(AGE))) == map[7 := Job(1, 3, Queued, n + 1, now + AGE, None)];
  }

  /** The threshold bounds verdicts, not claims: a stale reclaim does not look at the attempts, so a
      job whose workers keep dying is claimed any number of times. */
  lemma {:induction false} CrashesAreUnbounded(n: nat)
    ensures Run(INIT, CrashLoop(n)) == CrashState(n, n * AGE)
  {
    if n == 0 {
      RunAppend(INIT, [], Upload(7, 1, 3));
      assert [] + [Upload(7, 1, 3)] == CrashLoop(0);
    } else {
      CrashesAreUnbounded(n - 1);
      CrashOnce(n - 1, (n - 1) * AGE);
      hide Step, CrashState;
      var before := CrashLoop(n - 1);
      RunAppend(INIT, before, Claim(1, 7, n - 1));
      RunAppend(INIT, before + [Claim(1, 7, n - 1)], Crash(1));
      RunAppend(INIT, before + [Claim(1, 7, n - 1)] + [Crash(1)], Tick(AGE));
      RunAppend(INIT, before + [Claim(1, 7, n - 1)] + [Crash(1)] + [Tick(AGE)], ReclaimStale);
    }
  }
}

/** The inductive invariant of the combined machine and what it gives on every run. */
module WorldSafety {
  import opened Tables
  import opened Money
  import opened Ledger
  import opened Transactions
  import opened Accounting
  import opened Payouts
  import opened Missions
  import opened Causes
  import opened World
  import opened PenaltyRefinement
  import S = Steps
  import O = Outbox

  // ----- The parts of the invariant

  /** An intent belongs to a mission, is authorised for its total, and can only capture that. */
  predicate IntentSound(i: PaymentIntent, missions: map<Id, Mission>) {
    && i.missionId in missions
    && i.amountCents == EscrowTotal(missions[i.missionId])
    && (i.status.Captured? ==> i.status.amount == i.amountCents)
  }

  ghost predicate IntentsSound(w: World) {
    forall p :: p in w.intents ==> IntentSound(w.intents[p], w.db.missions)
  }

  /** A journalled capture is Stripe's, and a cancelled escrow never captured anything. */
  predicate EscrowLinked(e: Escrow, m: Id, intents: map<Id, PaymentIntent>) {
    && e.stripePaymentIntentId in intents
    && intents[e.stripePaymentIntentId].missionId == m
    && (e.capturedAmountCents > 0 ==> intents[e.stripePaymentIntentId].status == Captured(e.capturedAmountCents))
    && (e.status == Cancelled ==> e.capturedAmountCents == 0)
  }

  ghost predicate EscrowsLinked(w: World) {
    forall m :: m in w.db.escrows ==> EscrowLinked(w.db.escrows[m], m, w.intents)
  }

  /** Events on the wire stay true, because Stripe's final states are final. */
  ghost predicate SentSound(w: World) {
    forall d :: d in w.sent ==> Truthful(w, d.event)
  }

  /** What a task read is still true in the direction it relies on. */
  predicate ReadSound(w: World, m: Id, saw: Option<EscrowStatus>, pi: Id, cancelled: bool) {
    saw.Some? ==>
      && m in w.db.escrows
      && w.db.escrows[m].stripePaymentIntentId == pi
      && (saw != Some(Held) ==> w.db.escrows[m].status != Held)
      && (saw == Some(Held) && cancelled ==> pi in w.intents && w.intents[pi].status.Canceled?)
  }

  predicate TaskSound(w: World, t: Task) {
    match t
    case Funding(m, intent) =>
      intent.Some? ==> intent.value in w.intents && w.intents[intent.value].missionId == m
    case Capturing(m, pi, amount) =>
      pi in w.intents && w.intents[pi].amountCents == amount
    case Refunding(m, saw, pi, cancelled) => ReadSound(w, m, saw, pi, cancelled)
    case Penalising(c, saw, pi, cancelled) => ReadSound(w, c.key, saw, pi, cancelled)
    case RollingBack(_, _, _) => true
    case ClosingCustoms(_) => true
  }

  ghost predicate TasksSound(w: World) {
    forall t :: t in w.tasks ==> TaskSound(w, w.tasks[t])
  }

  ghost predicate PayoutsBounded(w: World) {
    forall m :: m in w.db.outbox ==>
      m in w.db.missions && 0 < w.db.outbox[m].amountCents <= HeldBudget(w.db.missions[m])
  }

  ghost predicate Invariant(w: World) {
    && Integrity(w.db) && Balanced(w.db) && ReleasesBooked(w.db) && MissionsSound(w.db)
    && IntentsSound(w) && EscrowsLinked(w) && SentSound(w) && TasksSound(w)
    && PayoutsBounded(w)
    && O.Sound(TransferSystem(w))
    && O.Sound(PenaltySystem(w))
  }

  // ----- How one move may change each side

  /** Final intents stay, and nothing about an intent but its status ever changes. */
  ghost predicate IntentsAdvance(a: map<Id, PaymentIntent>, b: map<Id, PaymentIntent>) {
    forall p :: p in a ==>
      && p in b && b[p].missionId == a[p].missionId && b[p].amountCents == a[p].amountCents
      && (Final(a[p].status) ==> b[p].status == a[p].status)
  }

  lemma OutsideAdvances(w: World, x: Move)
    requires Enabled(w, x)
    ensures IntentsAdvance(w.intents, OutsidePart(w, x).intents)
    ensures w.sent <= OutsidePart(w, x).sent
  {
    hide IntentsAdvance, Enabled, OutsidePart, DbPart;
    OutsideIntentsAdvance(w, x);
    OutsideSentGrows(w, x);
  }

  lemma OutsideIntentsAdvance(w: World, x: Move)
    requires Enabled(w, x)
    ensures IntentsAdvance(w.intents, OutsidePart(w, x).intents)
  {
    hide DbPart, EscrowTotal, SawEscrow, DebitSucceeds, O.Step, S.RollbackFundingTx, CancelSucceeds;
  }

  lemma OutsideSentGrows(w: World, x: Move)
    requires Enabled(w, x)
    ensures w.sent <= OutsidePart(w, x).sent
  {
    hide DbPart, EscrowTotal, Enabled, CancelIntent;
  }

  /** The database side of a move, as the relations the invariant needs. */
  ghost predicate DbAdvances(a: Db, b: Db) {
    && S.Evolves(a, b)
    && MissionsAdvance(a, b)
  }

  lemma StepAdvances(w: World, x: Move)
    requires Integrity(w.db) && MissionsSound(w.db) && Enabled(w, x)
    ensures DbAdvances(w.db, Step(w, x).db)
  {
    hide S.Step, Enabled, DbPart, OutsidePart, S.Evolves, MissionsAdvance;
    match DbPart(w, x)
    case None =>
      S.EvolvesReflexive(w.db);
      SameMissionsAdvance(w.db, w.db);
    case Some(a) =>
      S.StepEvolves(w.db, w.now, a);
      StepAdvancesMissions(w.db, w.now, a);
  }

  lemma BooksKept(w: World, x: Move)
    requires Invariant(w)
    ensures var db := Step(w, x).db; Integrity(db) && Balanced(db) && ReleasesBooked(db) && MissionsSound(db)
  {
    hide S.Step, Enabled, DbPart, OutsidePart, Balanced, ReleasesBooked, MissionsSound;
    if Enabled(w, x) && DbPart(w, x).Some? {
      var a := DbPart(w, x).value;
      StepBalanced(w.db, w.now, a);
      StepKeepsBooks(w.db, w.now, a);
      StepAdvancesMissions(w.db, w.now, a);
      S.StepEvolves(w.db, w.now, a);
      FromMissionsAdvance(w.db, S.Step(w.db, w.now, a));
    }
  }

  lemma FromMissionsAdvance(a: Db, b: Db)
    requires MissionsAdvance(a, b)
    ensures MissionsSound(b)
  {
  }

  /** Intents created or captured by a move. */
  lemma OutsideIntentsSound(w: World, x: Move)
    requires IntentsSound(w) && TasksSound(w) && Enabled(w, x)
    ensures forall p :: p in OutsidePart(w, x).intents ==> IntentSound(OutsidePart(w, x).intents[p], w.db.missions)
  {
    hide DbPart;
    if x.CallCapture? {
      assert TaskSound(w, w.tasks[x.t]);
    }
  }

  lemma IntentsStaySound(w: World, x: Move)
    requires Invariant(w) && Enabled(w, x)
    ensures IntentsSound(Step(w, x))
  {
    hide Enabled, DbPart, OutsidePart, S.Step, Balanced, ReleasesBooked, O.Sound;
    OutsideIntentsSound(w, x);
    StepAdvances(w, x);
    var w' := Step(w, x);
    forall p | p in w'.intents ensures IntentSound(w'.intents[p], w'.db.missions) {
      assert w'.intents == OutsidePart(w, x).intents;
      var m := w'.intents[p].missionId;
      assert S.MissionEvolves(w.db.missions[m], w'.db.missions[m]);
    }
  }

  lemma TruthPersists(w: World, w': World, event: Event)
    requires IntentsAdvance(w.intents, w'.intents) && Truthful(w, event)
    ensures Truthful(w', event)
  {
  }

  lemma SentStaysTrue(w: World, x: Move)
    requires Invariant(w) && Enabled(w, x)
    ensures SentSound(Step(w, x))
  {
    hide DbPart, S.Step, Balanced, ReleasesBooked, O.Sound, Integrity, MissionsSound;
    OutsideAdvances(w, x);
    var w' := Step(w, x);
    assert w'.intents == OutsidePart(w, x).intents && w'.sent == OutsidePart(w, x).sent;
    forall d | d in w'.sent ensures Truthful(w', d.event) {
      assert d in w.sent || x == Emit(d);
      TruthPersists(w, w', d.event);
    }
  }

  // ----- Escrows and Stripe

  lemma OpeningIsLinked(w: World, x: Move, m: Id, pi: Id)
    requires SentSound(w) && TasksSound(w) && Enabled(w, x) && DbPart(w, x).Some?
    requires OpensEscrow(DbPart(w, x).value, m, pi)
    ensures pi in w.intents && w.intents[pi].missionId == m
  {
    match x
    case Receive(d) => assert Truthful(w, d.event);
    case InsertFunded(t) => assert TaskSound(w, w.tasks[t]);
    case RepairOrphan(_, _) =>
    case _ =>
  }

  lemma CaptureIsStripes(w: World, x: Move, pi: Id, amount: int)
    requires SentSound(w) && Enabled(w, x) && DbPart(w, x).Some?
    requires DeliversCapture(DbPart(w, x).value, pi, amount)
    ensures pi in w.intents && w.intents[pi].status == Captured(amount)
  {
    assert x.Receive? && Truthful(w, x.d.event);
  }

  /** The two verdicts that cancel without looking at the capture come after a cancel that Stripe
      accepted, if the escrow can still be HELD. */
  lemma CancelIsStripes(w: World, x: Move, m: Id)
    requires TasksSound(w) && O.Sound(PenaltySystem(w)) && Enabled(w, x) && DbPart(w, x).Some?
    requires CancelsUnconditionally(DbPart(w, x).value, m)
    requires m in w.db.escrows && w.db.escrows[m].status == Held
    ensures var pi := w.db.escrows[m].stripePaymentIntentId; pi in w.intents && w.intents[pi].status.Canceled?
    ensures x.CommitPenalty? ==> O.Find(w.charges, m) == Some(ChargeOf(w, x.t))
  {
    assert x.CommitRefund? || x.CommitPenalty?;
    assert TaskSound(w, w.tasks[x.t]);
    if x.CommitPenalty? { CommitHasCharge(w, x.t); }
  }

  /** The charge a penalty worker is about to name in its verdict. */
  function ChargeOf(w: World, t: Id): O.External
    requires t in w.tasks && w.tasks[t].Penalising? && w.tasks[t].claim.stage.Succeeded?
  {
    var c := w.tasks[t].claim;
    O.External(c.stage.id, c.key, c.amountCents, c.destination)
  }

  /** It exists at Stripe, with the amount of the row. */
  lemma CommitHasCharge(w: World, t: Id)
    requires O.Sound(PenaltySystem(w)) && Enabled(w, CommitPenalty(t))
    ensures O.Find(w.charges, w.tasks[t].claim.key) == Some(ChargeOf(w, t))
    ensures w.tasks[t].claim.key in w.db.penalties
            && w.db.penalties[w.tasks[t].claim.key].amountCents == w.tasks[t].claim.amountCents
  {
    hide O.Find;
    var s := PenaltySystem(w);
    assert t in s.claims && O.ClaimFaithful(s, s.claims[t]);
    var x := O.Find(s.created, w.tasks[t].claim.key).value;
    assert x in s.created;
    var i :| 0 <= i < |s.created| && s.created[i] == x;
    assert O.ExternalFaithful(s, s.created[i]);
  }

  lemma LinkAdvances(e: Escrow, m: Id, a: map<Id, PaymentIntent>, b: map<Id, PaymentIntent>)
    requires EscrowLinked(e, m, a) && IntentsAdvance(a, b)
    ensures EscrowLinked(e, m, b)
  {
  }

  lemma EscrowLinkKept(w: World, x: Move, a: S.Action, db: Db, m: Id)
    requires Integrity(w.db) && Balanced(w.db) && EscrowsLinked(w) && SentSound(w) && TasksSound(w)
    requires O.Sound(PenaltySystem(w))
    requires Enabled(w, x) && DbPart(w, x) == Some(a)
    requires Caused(w.db, a, db) && S.Evolves(w.db, db) && m in db.escrows
    ensures EscrowLinked(db.escrows[m], m, w.intents)
  {
    hide Enabled, DbPart, Integrity, OpensEscrow, DeliversCapture, CancelsUnconditionally, TaskSound, Truthful,
      SumOf, O.Sound;
    var after := db.escrows[m];
    if m !in w.db.escrows {
      assert CausedOpening(a, db, m);
      OpeningIsLinked(w, x, m, after.stripePaymentIntentId);
    } else {
      var before := w.db.escrows[m];
      assert CausedChange(w.db, a, db, m) && EscrowLinked(before, m, w.intents);
      assert S.EscrowEvolves(before, after);
      assert EscrowBalanced(w.db.ledger, m, before);
      if after.capturedAmountCents != before.capturedAmountCents {
        CaptureIsStripes(w, x, before.stripePaymentIntentId, after.capturedAmountCents);
      } else if after.status == Cancelled && before.status != Cancelled && before.capturedAmountCents != 0 {
        CancelIsStripes(w, x, m);
      }
    }
  }

  lemma EscrowsStayLinked(w: World, x: Move)
    requires Invariant(w) && Enabled(w, x)
    ensures EscrowsLinked(Step(w, x))
  {
    hide Enabled, DbPart, OutsidePart, S.Step, Integrity, Balanced, ReleasesBooked, MissionsSound, O.Sound,
      Caused, S.Evolves, TasksSound, SentSound, EscrowLinked, IntentsAdvance;
    OutsideAdvances(w, x);
    var w' := Step(w, x);
    forall m | m in w'.db.escrows ensures EscrowLinked(w'.db.escrows[m], m, w'.intents) {
      if DbPart(w, x).Some? {
        var a := DbPart(w, x).value;
        StepCaused(w.db, w.now, a);
        S.StepEvolves(w.db, w.now, a);
        EscrowLinkKept(w, x, a, w'.db, m);
      }
      assert EscrowLinked(w'.db.escrows[m], m, w.intents);
      LinkAdvances(w'.db.escrows[m], m, w.intents, w'.intents);
    }
  }

  // ----- What tasks know

  lemma TaskAdvances(w: World, w': World, t: Task)
    requires TaskSound(w, t) && S.Evolves(w.db, w'.db)
    requires IntentsAdvance(w.intents, w'.intents)
    ensures TaskSound(w', t)
  {
    hide Integrity;
    if (t.Refunding? || t.Penalising?) && t.saw.Some? {
      var m := if t.Refunding? then t.m else t.claim.key;
      assert S.EscrowEvolves(w.db.escrows[m], w'.db.escrows[m]);
    }
  }

  lemma OutsideTasksSound(w: World, x: Move)
    requires Integrity(w.db) && IntentsSound(w) && EscrowsLinked(w) && TasksSound(w) && Enabled(w, x)
    ensures TasksSound(OutsidePart(w, x))
  {
    hide DbPart, Integrity, TaskSound, IntentsAdvance, S.Evolves;
    var w' := OutsidePart(w, x);
    OutsideAdvances(w, x);
    S.EvolvesReflexive(w.db);
    forall t | t in w'.tasks ensures TaskSound(w', w'.tasks[t]) {
      if t in w.tasks && w'.tasks[t] == w.tasks[t] {
        TaskAdvances(w, w', w.tasks[t]);
      } else {
        NewTaskSound(w, x, t);
      }
    }
  }

  lemma NewTaskSound(w: World, x: Move, t: Id)
    requires IntentsSound(w) && EscrowsLinked(w) && TasksSound(w) && Enabled(w, x)
    requires var w' := OutsidePart(w, x); t in w'.tasks && (t !in w.tasks || w'.tasks[t] != w.tasks[t])
    ensures TaskSound(OutsidePart(w, x), OutsidePart(w, x).tasks[t])
  {
    if x.BeginCapture? {
      NewCaptureSound(w, x);
    } else if x.ChargePenalty? {
      ChargedTaskSound(w, x);
    } else if x.CallCancel? {
      CancelledTaskSound(w, x);
    } else if x.BeginRefund? || x.BeginPenalty? {
      NewReadSound(w, x);
    } else {
      OtherNewTask(w, x, t);
    }
  }

  /** The other tasks that a move creates or changes hold no money. */
  lemma OtherNewTask(w: World, x: Move, t: Id)
    requires Enabled(w, x) && !x.BeginCapture? && !x.ChargePenalty? && !x.CallCancel?
    requires !x.BeginRefund? && !x.BeginPenalty?
    requires var w' := OutsidePart(w, x); t in w'.tasks && (t !in w.tasks || w'.tasks[t] != w.tasks[t])
    ensures TaskSound(OutsidePart(w, x), OutsidePart(w, x).tasks[t])
  {
    hide DbPart, EscrowTotal, ReadSound, CancelIntent, HeldBudget, O.Eligible, O.Step, DebitSucceeds, SawEscrow,
      S.RollbackFundingTx, CancelSucceeds, Truthful, SubstitutionHardCap;
  }

  lemma ChargedTaskSound(w: World, x: Move)
    requires TasksSound(w) && Enabled(w, x) && x.ChargePenalty?
    ensures TaskSound(OutsidePart(w, x), OutsidePart(w, x).tasks[x.t])
  {
    hide DbPart;
    assert TaskSound(w, w.tasks[x.t]);
  }

  lemma CancelledTaskSound(w: World, x: Move)
    requires TasksSound(w) && Enabled(w, x) && x.CallCancel?
    ensures TaskSound(OutsidePart(w, x), OutsidePart(w, x).tasks[x.t])
  {
    hide DbPart;
    assert TaskSound(w, w.tasks[x.t]);
  }

  lemma NewReadSound(w: World, x: Move)
    requires Enabled(w, x) && (x.BeginRefund? || x.BeginPenalty?)
    ensures TaskSound(OutsidePart(w, x), OutsidePart(w, x).tasks[x.t])
  {
    hide DbPart;
  }

  lemma NewCaptureSound(w: World, x: Move)
    requires IntentsSound(w) && EscrowsLinked(w) && Enabled(w, x) && x.BeginCapture?
    ensures TaskSound(OutsidePart(w, x), OutsidePart(w, x).tasks[x.t])
  {
    hide DbPart;
    assert EscrowLinked(w.db.escrows[x.m], x.m, w.intents);
    assert IntentSound(w.intents[IntentOf(w.db, x.m)], w.db.missions);
  }

  lemma TasksStaySound(w: World, x: Move)
    requires Invariant(w) && Enabled(w, x)
    ensures TasksSound(Step(w, x))
  {
    hide Enabled, DbPart, OutsidePart, S.Step, Integrity, Balanced, ReleasesBooked, MissionsSound, O.Sound,
      S.Evolves, TaskSound, EscrowsLinked, IntentsSound, IntentsAdvance;
    var mid, w' := OutsidePart(w, x), Step(w, x);
    OutsideTasksSound(w, x);
    StepAdvances(w, x);
    assert S.Evolves(mid.db, w'.db);
    SameIntents(mid.intents);
    forall t | t in w'.tasks ensures TaskSound(w', w'.tasks[t]) {
      TaskAdvances(mid, w', mid.tasks[t]);
    }
  }

  lemma SameIntents(intents: map<Id, PaymentIntent>)
    ensures IntentsAdvance(intents, intents)
  {
  }

  // ----- The transfer outbox inside the world

  lemma TransferStepKeepsIntents(s: O.System, maxAttempts: nat, a: O.Action)
    requires !a.Create?
    ensures S.SameIntents(s.rows, O.Step(s, maxAttempts, a).rows)
  {
    hide O.Eligible, O.Find;
  }

  lemma TransferMove(w: World, a: O.Action)
    requires Integrity(w.db) && Enabled(w, Transfer(a))
    ensures TransferSystem(Step(w, Transfer(a))) == O.Step(TransferSystem(w), w.limits.transfers, a)
  {
    hide Integrity;
    TransferStepKeepsIntents(TransferSystem(w), w.limits.transfers, a);
    O.ClockStays(TransferSystem(w), w.limits.transfers, a);
    hide O.Step;
  }

  /** New rows start unexecuted and are nobody's claim. */
  lemma RowsAddedKeepSound(s: O.System, s': O.System)
    requires O.Sound(s) && IntentsKept(s.rows, s'.rows)
    requires s'.claims == s.claims && s'.created == s.created
    ensures O.Sound(s')
  {
    hide O.Find, O.OnePerKey;
  }

  lemma SameRowsKept(rows: map<Id, OutboxRow>)
    ensures IntentsKept(rows, rows)
  {
  }

  lemma OtherMovesKeepTransfers(w: World, x: Move)
    requires Enabled(w, x) && !x.Transfer?
    ensures var w' := OutsidePart(w, x); w'.claims == w.claims && w'.created == w.created
  {
    hide Enabled, DbPart, CancelIntent;
  }

  lemma OtherMovesCommitNoTransfer(w: World, x: Move)
    requires Enabled(w, x) && !x.Transfer?
    ensures DbPart(w, x).Some? ==> !DbPart(w, x).value.Transfers?
  {
    hide Enabled, OutsidePart;
  }

  lemma TransfersStaySound(w: World, x: Move)
    requires Integrity(w.db) && O.Sound(TransferSystem(w)) && Enabled(w, x)
    ensures O.Sound(TransferSystem(Step(w, x)))
  {
    hide Enabled, DbPart, OutsidePart, S.Step, Integrity, O.Sound, IntentsKept, O.Step;
    if x.Transfer? {
      TransferMove(w, x.a);
      O.StepKeepsSound(TransferSystem(w), w.limits.transfers, x.a);
    } else {
      OtherMovesKeepTransfers(w, x);
      OtherMovesCommitNoTransfer(w, x);
      SameRowsKept(w.db.outbox);
      if DbPart(w, x).Some? { StepKeepsIntents(w.db, w.now, DbPart(w, x).value); }
      RowsAddedKeepSound(TransferSystem(w), TransferSystem(Step(w, x)));
    }
  }

  lemma PenaltiesStaySound(w: World, x: Move)
    requires Integrity(w.db) && O.Sound(PenaltySystem(w))
    ensures O.Sound(PenaltySystem(Step(w, x)))
  {
    hide O.Sound, O.Step, Step, PenaltySystem, Integrity, ActionsOf;
    MoveProjects(w, x);
    O.RunKeepsSound(PenaltySystem(w), w.limits.penalties, ActionsOf(w, x));
  }

  // ----- Amounts

  /** A release that a genuine capture event causes divides exactly what T0 authorised. */
  lemma NewPayoutSplit(w: World, x: Move, m: Id)
    requires Invariant(w)
    requires m in Step(w, x).db.outbox && m !in w.db.outbox
    ensures m in w.db.missions
    ensures var payout, mission := Step(w, x).db.outbox[m].amountCents, w.db.missions[m];
            && 0 < payout <= HeldBudget(mission)
            && payout == (if mission.substitutionAuthorized && mission.purchaseAmountCents.Some?
                          then mission.purchaseAmountCents.value else HeldBudget(mission))
  {
    hide Enabled, DbPart, OutsidePart, S.Step, Balanced, ReleasesBooked, O.Sound, S.Evolves, DeliversCapture,
      SplitSpendable, Priced, TasksSound;
    var a := DbPart(w, x).value;
    var db := S.Step(w.db, w.now, a);
    StepCausesIntent(w.db, w.now, a, m);
    S.StepEvolves(w.db, w.now, a);
    StepCaused(w.db, w.now, a);
    assert CausedIntent(w.db, a, db, m);
    var e := db.escrows[m];
    CaptureIsStripes(w, x, e.stripePaymentIntentId, e.capturedAmountCents);
    EscrowLinkKept(w, x, a, db, m);
    assert IntentSound(w.intents[e.stripePaymentIntentId], w.db.missions);
    assert MissionSound(w.db.missions[m]);
    SplitOfAuthorisedTotal(w.db.missions[m]);
  }

  lemma PayoutsStayBounded(w: World, x: Move)
    requires Invariant(w) && Enabled(w, x)
    ensures PayoutsBounded(Step(w, x))
  {
    hide Enabled, DbPart, OutsidePart, S.Step, Integrity, Balanced, ReleasesBooked, O.Sound,
      EscrowsLinked, IntentsSound, TasksSound, SentSound, HeldBudget;
    var w' := Step(w, x);
    StepAdvances(w, x);
    forall m | m in w'.db.outbox
      ensures m in w'.db.missions && 0 < w'.db.outbox[m].amountCents <= HeldBudget(w'.db.missions[m]) {
      if m !in w.db.outbox { NewPayoutSplit(w, x, m); }
      assert S.MissionEvolves(w.db.missions[m], w'.db.missions[m]);
      SameHeldBudget(w.db.missions[m], w'.db.missions[m]);
    }
  }

  lemma SameHeldBudget(a: Mission, b: Mission)
    requires S.MissionEvolves(a, b)
    ensures HeldBudget(a) == HeldBudget(b) && EscrowTotal(a) == EscrowTotal(b)
  {
  }

  // ----- Every run

  lemma StepKeepsInvariant(w: World, x: Move)
    requires Invariant(w)
    ensures Invariant(Step(w, x))
  {
    if Enabled(w, x) {
      hide Step, Enabled, Balanced, ReleasesBooked, MissionsSound, Integrity, IntentsSound, EscrowsLinked,
        TasksSound, SentSound, PayoutsBounded, O.Sound;
      BooksKept(w, x);
      StepKeepsIntegrity(w, x);
      IntentsStaySound(w, x);
      SentStaysTrue(w, x);
      EscrowsStayLinked(w, x);
      TasksStaySound(w, x);
      PayoutsStayBounded(w, x);
      TransfersStaySound(w, x);
      PenaltiesStaySound(w, x);
    }
  }

  lemma InvariantAtStart(limits: Limits)
    ensures Invariant(Init(limits))
  {
    NothingYet(limits);
  }

  /** Every reachable state of the combined machine satisfies the invariant. */
  lemma {:induction false} InvariantOnEveryRun(limits: Limits, moves: seq<Move>)
    ensures Integrity(Init(limits).db) && Invariant(Run(Init(limits), moves))
    decreases |moves|
  {
    hide Invariant, Step;
    InvariantAtStart(limits);
    IntegrityAtStart(limits);
    if |moves| > 0 {
      var before := Run(Init(limits), moves[..|moves| - 1]);
      InvariantOnEveryRun(limits, moves[..|moves| - 1]);
      InvariantGivesIntegrity(before);
      StepKeepsInvariant(before, moves[|moves| - 1]);
    }
  }

  lemma IntegrityAtStart(limits: Limits)
    ensures Integrity(Init(limits).db)
  {
  }

  lemma InvariantGivesIntegrity(w: World)
    requires Invariant(w)
    ensures Integrity(w.db)
  {
  }
}

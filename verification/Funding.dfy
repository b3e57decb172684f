/** Both ends of the escrow: the funding routes that authorise and open it, and the service that
    captures it. */
module Funding {
  import opened Tables
  import opened Money
  import opened World
  import opened WorldSafety
  import opened Machine
  import S = Steps
  import T = Transactions
  import Missions
  import opened Wallets

  datatype Result<+T> = Ok(value: T) | Err(error: Error)

  datatype Error =
    | MissionNotFound | MissionAlreadyFunded | MissionNotFundable | StripeFailed
    | InvalidAuthorizationAmount | InsufficientFunds
    | EscrowNotFound | EscrowNotHeld | SubstitutionHardCapExceeded | CaptureFailed

  // ----- POST /:id/intent and /:id/checkout-session

  /** How Stripe answers the creation of the intent, from what it holds: with an error, or with an
      intent that is new or already belongs to this mission. `inserted` is whether the escrow insert
      meets no error other than a unique violation. */
  datatype Reply = Reply(create: World -> Option<Id>, inserted: bool)

  ghost predicate Keyed(reply: Reply, m: Id) {
    forall w :: OwnIntent(w, reply.create(w), m)
  }

  predicate OwnIntent(w: World, intent: Option<Id>, m: Id) {
    intent.Some? && intent.value in w.intents ==> w.intents[intent.value].missionId == m
  }

  predicate Reserved(w: World, m: Id, t: Id, intent: Option<Id>) {
    t in w.tasks && w.tasks[t] == Task.Funding(m, intent) && m in w.db.missions
  }

  lemma ReserveIs(w: World, t: Id, m: Id)
    requires Integrity(w.db) && Enabled(w, BeginFunding(t, m))
    ensures Step(w, BeginFunding(t, m))
            == w.(db := w.db.(missions := w.db.missions[m := w.db.missions[m].(status := Funded)]),
                  tasks := w.tasks[t := Task.Funding(m, None)])
  {
  }

  lemma AuthoriseIs(w: World, t: Id, pi: Id)
    requires Integrity(w.db) && Enabled(w, Authorise(t, pi))
    ensures Step(w, Authorise(t, pi))
            == w.(tasks := w.tasks[t := Task.Funding(w.tasks[t].m, Some(pi))],
                  intents := if pi in w.intents then w.intents
                             else w.intents[pi := PaymentIntent(w.tasks[t].m, EscrowTotal(w.db.missions[w.tasks[t].m]),
                                                                RequiresPaymentMethod)])
  {
    hide EscrowTotal;
  }

  lemma InsertIs(w: World, t: Id)
    requires Integrity(w.db) && Enabled(w, InsertFunded(t))
    ensures var m, pi := w.tasks[t].m, w.tasks[t].intent.value;
            Step(w, InsertFunded(t))
            == w.(db := if m !in w.db.escrows && pi !in w.db.byPaymentIntent
                        then T.AddEscrow(w.db, m, pi, HeldBudget(w.db.missions[m])) else w.db,
                  tasks := w.tasks - {t})
  {
    hide T.AddEscrow, HeldBudget;
  }

  lemma CompensateIs(w: World, t: Id)
    requires Integrity(w.db) && Enabled(w, CompensateFunding(t))
    ensures var m := w.tasks[t].m;
            Step(w, CompensateFunding(t))
            == w.(db := if w.db.missions[m].status == Funded
                        then w.db.(missions := w.db.missions[m := w.db.missions[m].(status := Created)]) else w.db,
                  tasks := w.tasks - {t})
  {
  }

  /** 120% of the mission's total, what card and wallet must cover together. */
  function RequiredCapacity(mission: Mission): int {
    (mission.budgetCents + mission.commissionCents) * 12 / 10
  }

  /** The authorisation the buyer declares, by default exactly what is required. */
  function Declared(mission: Mission, declared: Option<int>): int {
    if declared.Some? then declared.value else RequiredCapacity(mission)
  }

  lemma AuthorizationIs(mission: Mission, declared: Option<int>)
    ensures Declared(mission, declared)
            == if declared.Some? then declared.value else (mission.budgetCents + mission.commissionCents) * 12 / 10
  {
  }

  /** validateMissionFunding, from what its transaction reads. */
  function CapacityError(db: Db, m: Id, authorization: int): Option<Error> {
    if authorization < 0 then Some(InvalidAuthorizationAmount)
    else if m !in db.missions then Some(MissionNotFound)
    else if authorization + BalanceOf(db.wallets, db.missions[m].buyerId) < RequiredCapacity(db.missions[m])
    then Some(InsufficientFunds) else None
  }

  /** On every run of the database a buyer who declares nothing is not refused for funds: the default
      is what is required, and no wallet is overdrawn. */
  lemma UndeclaredIsNeverRefused(actions: seq<S.TimedAction>, m: Id)
    requires Integrity(EMPTY_DB)
    ensures var db := S.Run(EMPTY_DB, actions);
            m in db.missions ==> CapacityError(db, m, Declared(db.missions[m], None)) == None
  {
    hide S.Run;
    BalancesNeverNegative(actions);
    var db := S.Run(EMPTY_DB, actions);
    assert m in db.missions ==>
      Missions.MissionSound(db.missions[m]) && BalanceOf(db.wallets, db.missions[m].buyerId) >= 0;
  }

  /** The reads, the capacity check and the conditional reservation CREATED -> FUNDED. `checked` is
      what the capacity check saw. */
  method Reserve(p: Process, m: Id, declared: Option<int>)
    returns (error: Option<Error>, ghost checked: World, ghost reserving: World)
    requires p.Follows() && p.Idle()
    modifies p`w, p`awaits, p`trace, p`own
    ensures p.Follows() && Grows(old(p.w), p.w)
    ensures error.Some? ==> p.Idle() && error.value != StripeFailed
    ensures Grows(old(p.w), checked) && Grows(checked, p.w)
    ensures m in old(p.w).db.missions && m !in old(p.w).db.escrows && old(p.w).db.missions[m].status == Created ==>
              match CapacityError(checked.db, m, Declared(old(p.w).db.missions[m], declared))
              case Some(e) => error == Some(e) && p.w == checked
              // the reservation fails exactly when the mission has left CREATED by then
              case None =>
                && m in reserving.db.missions
                && error == if reserving.db.missions[m].status == Created then None else Some(MissionAlreadyFunded)
    ensures p.Quiet() ==> checked == old(p.w) && reserving == old(p.w)
    ensures error.Some? ==> p.w == checked || p.w == reserving
    ensures error.None? ==> Integrity(reserving.db) && p.w == Step(reserving, BeginFunding(p.id, m))
    ensures error.None? ==> Reserved(p.w, m, p.id, None) && p.w.db.missions[m].status == Funded
    ensures p.own == old(p.own) + if error.None? then [BeginFunding(p.id, m)] else []
    ensures m in old(p.w).db.missions && m !in old(p.w).db.escrows ==>
              (error == Some(MissionNotFundable) <==> old(p.w).db.missions[m].status != Created)
    ensures m !in old(p.w).db.missions ==> error == Some(MissionNotFound)
    ensures m in old(p.w).db.missions && m in old(p.w).db.escrows ==> error == Some(MissionAlreadyFunded)
  {
    hide Run, Step, Grows, RequiredCapacity, Process.Follows, Process.Quiet, CapacityError, Declared;
    checked, reserving := p.w, p.w;
    GrowsReflexive(p.w);
    if m !in p.w.db.missions { return Some(MissionNotFound), checked, reserving; }
    if m in p.w.db.escrows { return Some(MissionAlreadyFunded), checked, reserving; }
    if p.w.db.missions[m].status != Created { return Some(MissionNotFundable), checked, reserving; }
    ghost var w0 := p.w;
    var mission := p.w.db.missions[m];
    var authorization := if declared.Some? then declared.value
                         else (mission.budgetCents + mission.commissionCents) * 12 / 10;
    AuthorizationIs(mission, declared);
    p.Await();
    MissionStays(w0, p.w, m);
    checked := p.w;
    GrowsReflexive(p.w);
    error := CheckFundingCapacity(p.w.db, m, authorization);
    if error.Some? { return error, checked, reserving; }
    p.Await();
    MissionStays(checked, p.w, m);
    GrowsTransitive(w0, checked, p.w);
    reserving := p.w;
    if p.w.db.missions[m].status != Created { return Some(MissionAlreadyFunded), checked, reserving; }
    ghost var w1 := p.w;
    MarkFunded(p, m);
    GrowsTransitive(w0, w1, p.w);
    GrowsTransitive(checked, w1, p.w);
    return None, checked, reserving;
  }

  /** The conditional update that hits. */
  method MarkFunded(p: Process, m: Id)
    requires p.Follows() && p.Idle() && m in p.w.db.missions && p.w.db.missions[m].status == Created
    modifies p`w, p`trace, p`own
    ensures p.Follows() && Grows(old(p.w), p.w) && p.own == old(p.own) + [BeginFunding(p.id, m)]
    ensures Reserved(p.w, m, p.id, None) && p.w.db.missions[m].status == Funded
    ensures p.w == old(p.w).(
              db := old(p.w).db.(missions := old(p.w).db.missions[m := old(p.w).db.missions[m].(status := Funded)]),
              tasks := old(p.w).tasks[p.id := Task.Funding(m, None)])
    ensures Integrity(old(p.w).db) && p.w == Step(old(p.w), BeginFunding(p.id, m))
  {
    ReserveIs(p.w, p.id, m);
    hide Run, Step, Grows, Process.Follows, Process.Quiet;
    p.Become(BeginFunding(p.id, m),
             p.w.(db := p.w.db.(missions := p.w.db.missions[m := p.w.db.missions[m].(status := Funded)]),
                  tasks := p.w.tasks[p.id := Task.Funding(m, None)]));
  }

  /** checkFundingCapacity: the wallet is read as it is committed. */
  method CheckFundingCapacity(db: Db, m: Id, authorization: int) returns (error: Option<Error>)
    ensures error == CapacityError(db, m, authorization)
    ensures authorization < 0 <==> error == Some(InvalidAuthorizationAmount)
    ensures error.Some? ==>
              error.value == InvalidAuthorizationAmount || error.value == InsufficientFunds
              || (error.value == MissionNotFound && m !in db.missions)
    ensures authorization >= 0 && m in db.missions ==>
              (error.Some? <==>
                 10 * (authorization + BalanceOf(db.wallets, db.missions[m].buyerId) + 1)
                 <= 12 * (db.missions[m].budgetCents + db.missions[m].commissionCents))
  {
    if authorization < 0 { return Some(InvalidAuthorizationAmount); }
    if m !in db.missions { return Some(MissionNotFound); }
    var mission := db.missions[m];
    var balance := 0;
    if mission.buyerId in db.wallets { balance := db.wallets[mission.buyerId]; }
    var capacity := authorization + balance;
    if capacity < (mission.budgetCents + mission.commissionCents) * 12 / 10 { return Some(InsufficientFunds); }
    return None;
  }

  lemma MissionStays(a: World, b: World, m: Id)
    requires Grows(a, b) && m in a.db.missions
    ensures m in b.db.missions
  {
  }

  /** paymentIntents.create, for the held budget and the commission. */
  method CreateIntent(p: Process, m: Id, pi: Id)
    requires p.Follows() && Reserved(p.w, m, p.id, None)
    requires pi in p.w.intents ==> p.w.intents[pi].missionId == m
    modifies p`w, p`trace, p`own
    ensures p.Follows() && Grows(old(p.w), p.w) && Reserved(p.w, m, p.id, Some(pi)) && p.w.db == old(p.w).db
    ensures pi in p.w.intents && p.own == old(p.own) + [Authorise(p.id, pi)]
    ensures pi !in old(p.w).intents ==>
              p.w.intents[pi] == PaymentIntent(m, EscrowTotal(p.w.db.missions[m]), RequiresPaymentMethod)
  {
    AuthoriseIs(p.w, p.id, pi);
    var total := TotalAmount(p.w.db.missions[m]);
    hide Run, Step, Grows, EscrowTotal, Process.Follows, Process.Quiet;
    var intents := p.w.intents;
    if pi !in intents { intents := intents[pi := PaymentIntent(m, total, RequiresPaymentMethod)]; }
    p.Become(Authorise(p.id, pi),
             p.w.(tasks := p.w.tasks[p.id := Task.Funding(m, Some(pi))], intents := intents));
  }

  method TotalAmount(mission: Mission) returns (totalAmountCents: int)
    ensures totalAmountCents == EscrowTotal(mission)
  {
    var heldBudgetCents := mission.budgetCents;
    if mission.substitutionAuthorized { heldBudgetCents := SubstitutionCeiling(mission.budgetCents); }
    totalAmountCents := heldBudgetCents + mission.commissionCents;
  }

  /** The escrow insert; its unique columns are the mission and the intent. */
  method InsertEscrow(p: Process, m: Id, pi: Id)
    requires p.Follows() && Reserved(p.w, m, p.id, Some(pi))
    requires m !in p.w.db.escrows && pi !in p.w.db.byPaymentIntent
    modifies p`w, p`trace, p`own
    ensures p.Follows() && p.Idle() && p.own == old(p.own) + [InsertFunded(p.id)]
    ensures m in p.w.db.escrows && m in p.w.db.missions
    ensures p.w.db.escrows[m] == Escrow(pi, Held, 0, HeldBudget(p.w.db.missions[m]))
    ensures p.w.intents == old(p.w).intents && p.w.db.missions == old(p.w).db.missions
  {
    InsertIs(p.w, p.id);
    hide Run, Step, Grows, Process.Follows, Process.Quiet;
    var limit := HeldBudget(p.w.db.missions[m]);
    p.Become(InsertFunded(p.id),
             p.w.(db := p.w.db.(escrows := p.w.db.escrows[m := Escrow(pi, Held, 0, limit)],
                                byPaymentIntent := p.w.db.byPaymentIntent[pi := m]),
                  tasks := p.w.tasks - {p.id}));
  }

  /** The catch branch: FUNDED -> CREATED, conditionally. */
  method Compensate(p: Process, m: Id, intent: Option<Id>)
    requires p.Follows() && Reserved(p.w, m, p.id, intent)
    modifies p`w, p`trace, p`own
    ensures p.Follows() && p.Idle() && p.own == old(p.own) + [CompensateFunding(p.id)]
    ensures m in p.w.db.missions && p.w.db.missions[m].status != Funded
    ensures p.w.db.missions
            == if old(p.w).db.missions[m].status == Funded
               then old(p.w).db.missions[m := old(p.w).db.missions[m].(status := Created)] else old(p.w).db.missions
    ensures p.w.db.escrows == old(p.w).db.escrows && p.w.db.byPaymentIntent == old(p.w).db.byPaymentIntent
  {
    CompensateIs(p.w, p.id);
    hide Run, Step, Grows, Process.Follows, Process.Quiet;
    var db := p.w.db;
    if db.missions[m].status == Funded {
      db := db.(missions := db.missions[m := db.missions[m].(status := Created)]);
    }
    p.Become(CompensateFunding(p.id), p.w.(db := db, tasks := p.w.tasks - {p.id}));
  }

  lemma ReservedStays(a: World, b: World, m: Id, t: Id, intent: Option<Id>)
    requires Reserved(a, m, t, intent) && Grows(a, b) && t in b.tasks && b.tasks[t] == a.tasks[t]
    ensures Reserved(b, m, t, intent)
  {
  }

  /** After the reservation: create the intent, insert the escrow, or undo the reservation. */
  method OpenEscrow(p: Process, m: Id, reply: Reply) returns (result: Result<Id>, ghost inserting: World)
    requires p.Follows() && Reserved(p.w, m, p.id, None) && Keyed(reply, m)
    modifies p`w, p`awaits, p`trace, p`own
    ensures p.Follows() && p.Idle()
    ensures result.Ok? ==>
              && m in p.w.db.escrows && m in p.w.db.missions && result.value in p.w.intents
              && p.w.db.escrows[m] == Escrow(result.value, Held, 0, HeldBudget(p.w.db.missions[m]))
    // no intent, a failed insert, a unique violation on what the insert meets, or the escrow
    ensures p.Quiet() ==> inserting.db == old(p.w).db
    ensures var created := reply.create(old(p.w));
            && result == Opening(created, reply.inserted, m, inserting.db)
            && p.own == old(p.own) + (if created.Some? then [Authorise(p.id, created.value)] else [])
                        + [if result.Ok? then InsertFunded(p.id) else CompensateFunding(p.id)]
    ensures result.Err? ==>
              && (result.error == StripeFailed || result.error == MissionAlreadyFunded)
              && m in p.w.db.missions && p.w.db.missions[m].status != Funded
  {
    hide Run, Step, Grows, IntentsAdvance, HeldBudget, Process.Follows, Process.Quiet;
    var created := reply.create(p.w);
    inserting := p.w;
    if created.None? {
      Compensate(p, m, None);
      return Err(StripeFailed), inserting;
    }
    var pi := created.value;
    assert OwnIntent(p.w, created, m);
    CreateIntent(p, m, pi);
    ghost var before := p.w;
    p.Await();
    ReservedStays(before, p.w, m, p.id, Some(pi));
    IntentStays(before, p.w, pi);
    inserting := p.w;
    if m in p.w.db.escrows || pi in p.w.db.byPaymentIntent || !reply.inserted {
      var error := if reply.inserted then MissionAlreadyFunded else StripeFailed;
      Compensate(p, m, Some(pi));
      return Err(error), inserting;
    }
    InsertEscrow(p, m, pi);
    return Ok(pi), inserting;
  }

  lemma IntentStays(a: World, b: World, pi: Id)
    requires Grows(a, b) && pi in a.intents
    ensures pi in b.intents
  {
  }

  /** What the route does when nobody interferes. */
  ghost function FundMoves(w: World, t: Id, m: Id, declared: Option<int>, reply: Reply): seq<Move>
    requires Integrity(w.db)
  {
    if m !in w.db.missions || m in w.db.escrows || w.db.missions[m].status != Created
       || CapacityError(w.db, m, Declared(w.db.missions[m], declared)).Some? then []
    else
      [BeginFunding(t, m)]
      + match reply.create(Step(w, BeginFunding(t, m)))
        case None => [CompensateFunding(t)]
        case Some(pi) =>
          [Authorise(t, pi)]
          + [if reply.inserted && pi !in w.db.byPaymentIntent then InsertFunded(t) else CompensateFunding(t)]
  }

  /** Check the capacity, reserve, authorise, open the escrow; any failure after the reservation undoes it. */
  method FundMission(p: Process, m: Id, declared: Option<int>, reply: Reply)
    returns (result: Result<Id>, ghost checked: World)
    requires p.Follows() && p.Idle() && Keyed(reply, m)
    modifies p`w, p`awaits, p`trace, p`own
    ensures p.Follows() && p.Idle()
    ensures m !in old(p.w).db.missions ==> result == Err(MissionNotFound)
    ensures m in old(p.w).db.missions && m in old(p.w).db.escrows ==> result == Err(MissionAlreadyFunded)
    ensures result.Ok? ==>
              && m in p.w.db.escrows && m in p.w.db.missions && result.value in p.w.intents
              && p.w.db.escrows[m] == Escrow(result.value, Held, 0, HeldBudget(p.w.db.missions[m]))
    ensures m in old(p.w).db.missions && m !in old(p.w).db.escrows ==>
              (result == Err(MissionNotFundable) <==> old(p.w).db.missions[m].status != Created)
    ensures result == Err(StripeFailed) ==> m in p.w.db.missions && p.w.db.missions[m].status != Funded
    ensures result == Err(StripeFailed) ==>
              !reply.inserted || p.own == old(p.own) + [BeginFunding(p.id, m), CompensateFunding(p.id)]
    // refused for capacity exactly when the check, once reached, says so; then nothing is written
    ensures Grows(old(p.w), checked)
    ensures m in old(p.w).db.missions && m !in old(p.w).db.escrows && old(p.w).db.missions[m].status == Created ==>
              match CapacityError(checked.db, m, Declared(old(p.w).db.missions[m], declared))
              case Some(e) => result == Err(e) && p.own == old(p.own)
              case None => result.Ok? || result.error == MissionAlreadyFunded || result.error == StripeFailed
    // reserve, authorise, open; every reservation that opens no escrow is undone
    ensures result.Ok? ==>
              p.own == old(p.own) + [BeginFunding(p.id, m), Authorise(p.id, result.value), InsertFunded(p.id)]
    ensures result.Err? ==> p.own == old(p.own)
                            || (|p.own| > |old(p.own)| && p.own[|old(p.own)|] == BeginFunding(p.id, m)
                                && p.own[|p.own| - 1] == CompensateFunding(p.id))
    ensures Integrity(old(p.w).db)
    ensures p.Quiet() ==> p.own == old(p.own) + FundMoves(old(p.w), p.id, m, declared, reply)
    ensures p.Quiet() && |p.own| > |old(p.own)| ==>
              result == Opening(reply.create(Step(old(p.w), BeginFunding(p.id, m))), reply.inserted, m,
                                Step(old(p.w), BeginFunding(p.id, m)).db)
    ensures Invariant(p.start) ==> Invariant(p.w)
    // authorised for exactly the held budget and the commission
    ensures Invariant(p.start) && result.Ok? ==>
              p.w.intents[result.value].amountCents == EscrowTotal(p.w.db.missions[m])
  {
    hide Run, Step, Grows, IntentsAdvance, HeldBudget, Invariant, EscrowTotal, Process.Follows, Process.Quiet,
      CapacityError, Declared, FundMoves, Integrity;
    p.Sound();
    result, checked := TryFund(p, m, declared, reply);
    p.InvariantHolds();
    if Invariant(p.start) && result.Ok? { AuthorisedForTotal(p.w, m); }
  }

  /** No reservation, or one that ends in its compensation. */
  ghost predicate Undone(before: seq<Move>, after: seq<Move>, t: Id, m: Id) {
    || after == before
    || (|after| > |before| && after[|before|] == BeginFunding(t, m) && after[|after| - 1] == CompensateFunding(t))
  }

  lemma UndoneIs(before: seq<Move>, after: seq<Move>, t: Id, m: Id)
    requires before + [BeginFunding(t, m)] <= after && after[|after| - 1] == CompensateFunding(t)
    ensures Undone(before, after, t, m)
  {
  }

  lemma NothingUndone(before: seq<Move>, t: Id, m: Id)
    ensures Undone(before, before, t, m)
  {
  }

  method TryFund(p: Process, m: Id, declared: Option<int>, reply: Reply)
    returns (result: Result<Id>, ghost checked: World)
    requires p.Follows() && p.Idle() && Keyed(reply, m) && Integrity(p.w.db)
    modifies p`w, p`awaits, p`trace, p`own
    ensures p.Follows() && p.Idle() && Grows(old(p.w), checked)
    ensures m !in old(p.w).db.missions ==> result == Err(MissionNotFound)
    ensures m in old(p.w).db.missions && m in old(p.w).db.escrows ==> result == Err(MissionAlreadyFunded)
    ensures result.Ok? ==>
              && m in p.w.db.escrows && m in p.w.db.missions && result.value in p.w.intents
              && p.w.db.escrows[m] == Escrow(result.value, Held, 0, HeldBudget(p.w.db.missions[m]))
    ensures m in old(p.w).db.missions && m !in old(p.w).db.escrows ==>
              (result == Err(MissionNotFundable) <==> old(p.w).db.missions[m].status != Created)
    ensures result == Err(StripeFailed) ==>
              && m in p.w.db.missions && p.w.db.missions[m].status != Funded
              && (!reply.inserted || p.own == old(p.own) + [BeginFunding(p.id, m), CompensateFunding(p.id)])
    ensures m in old(p.w).db.missions && m !in old(p.w).db.escrows && old(p.w).db.missions[m].status == Created ==>
              match CapacityError(checked.db, m, Declared(old(p.w).db.missions[m], declared))
              case Some(e) => result == Err(e) && p.own == old(p.own)
              case None => result.Ok? || result.error == MissionAlreadyFunded || result.error == StripeFailed
    ensures result.Ok? ==>
              p.own == old(p.own) + [BeginFunding(p.id, m), Authorise(p.id, result.value), InsertFunded(p.id)]
    ensures result.Err? ==> Undone(old(p.own), p.own, p.id, m)
    ensures p.Quiet() ==>
              && p.own == old(p.own) + FundMoves(old(p.w), p.id, m, declared, reply)
              && (|p.own| > |old(p.own)| ==>
                    result == Opening(reply.create(Step(old(p.w), BeginFunding(p.id, m))), reply.inserted, m,
                                      Step(old(p.w), BeginFunding(p.id, m)).db))
  {
    hide Run, Step, Grows, IntentsAdvance, HeldBudget, Process.Follows, Process.Quiet, CapacityError, Declared,
      Integrity,
      Opening, FundMoves, OpenMoves, Enabled, Undone, Keyed, Reserved, IntentOf;
    ghost var start, own := p.w, p.own;
    NothingUndone(own, p.id, m);
    var error;
    ghost var reserving;
    error, checked, reserving := Reserve(p, m, declared);
    RefusedMoves(start, p.id, m, declared, reply);
    if error.Some? {
      assert p.own == own;
      return Err(error.value), checked;
    }
    CanBegin(start, p.id, m);
    result := OpenReserved(p, m, reply);
    if result.Err? { UndoneIs(own, p.own, p.id, m); }
    if p.Quiet() { OpeningMoves(start, p.id, m, declared, reply); }
  }

  lemma CanBegin(w: World, t: Id, m: Id)
    ensures Enabled(w, BeginFunding(t, m))
            <==> t !in w.tasks && m in w.db.missions && w.db.missions[m].status == Created
  {
  }

  lemma RefusedMoves(w: World, t: Id, m: Id, declared: Option<int>, reply: Reply)
    requires Integrity(w.db)
    ensures (m !in w.db.missions || m in w.db.escrows || w.db.missions[m].status != Created
             || CapacityError(w.db, m, Declared(w.db.missions[m], declared)).Some?) ==>
              FundMoves(w, t, m, declared, reply) == []
  {
    hide CapacityError, Declared, Step;
  }

  lemma OpeningMoves(w: World, t: Id, m: Id, declared: Option<int>, reply: Reply)
    requires Integrity(w.db) && Enabled(w, BeginFunding(t, m)) && m !in w.db.escrows
    requires CapacityError(w.db, m, Declared(w.db.missions[m], declared)).None?
    ensures var begun := Step(w, BeginFunding(t, m));
            FundMoves(w, t, m, declared, reply)
            == [BeginFunding(t, m)]
              + OpenMoves(t, reply.create(begun), Opening(reply.create(begun), reply.inserted, m, begun.db))
  {
    ReserveIs(w, t, m);
    hide Step;
  }

  /** What opening an escrow comes to, from the intent Stripe gave and what the insert meets. */
  function Opening(created: Option<Id>, inserted: bool, m: Id, db: Db): Result<Id> {
    if created.None? || !inserted then Err(StripeFailed)
    else if m in db.escrows || created.value in db.byPaymentIntent then Err(MissionAlreadyFunded)
    else Ok(created.value)
  }

  function OpenMoves(t: Id, created: Option<Id>, result: Result<Id>): seq<Move> {
    (if created.Some? then [Authorise(t, created.value)] else [])
    + [if result.Ok? then InsertFunded(t) else CompensateFunding(t)]
  }

  /** The await after the reservation, and the opening. */
  method OpenReserved(p: Process, m: Id, reply: Reply) returns (result: Result<Id>)
    requires p.Follows() && Reserved(p.w, m, p.id, None) && Keyed(reply, m)
    modifies p`w, p`awaits, p`trace, p`own
    ensures p.Follows() && p.Idle()
    ensures result.Ok? ==>
              && m in p.w.db.escrows && m in p.w.db.missions && result.value in p.w.intents
              && p.w.db.escrows[m] == Escrow(result.value, Held, 0, HeldBudget(p.w.db.missions[m]))
              && p.own == old(p.own) + [Authorise(p.id, result.value), InsertFunded(p.id)]
    ensures result.Err? ==>
              && (result.error == StripeFailed || result.error == MissionAlreadyFunded)
              && m in p.w.db.missions && p.w.db.missions[m].status != Funded
              && |p.own| > |old(p.own)| && old(p.own) <= p.own && p.own[|p.own| - 1] == CompensateFunding(p.id)
              && (result.error == StripeFailed ==> !reply.inserted || p.own == old(p.own) + [CompensateFunding(p.id)])
    ensures p.Quiet() ==>
              && result == Opening(reply.create(old(p.w)), reply.inserted, m, old(p.w).db)
              && p.own == old(p.own) + OpenMoves(p.id, reply.create(old(p.w)), result)
  {
    hide Run, Step, Grows, IntentsAdvance, HeldBudget, Process.Follows, Process.Quiet;
    ghost var before := p.w;
    p.Await();
    ReservedStays(before, p.w, m, p.id, None);
    ghost var inserting;
    result, inserting := OpenEscrow(p, m, reply);
  }

  /** The escrow that the checkout webhook opens has a lower spending limit than the one the funding
      routes open, exactly under substitution with a budget of at least five cents. */
  lemma CheckoutLimitIsLowerIff(db: Db, m: Id, pi: Id)
    requires Integrity(db) && m in db.missions && Priced(db.missions[m])
    requires T.CheckoutEffect(db, Some(m), Some(pi)).Applied? && T.CheckoutEffect(db, Some(m), Some(pi)).handled
    ensures var checkout := T.CheckoutEffect(db, Some(m), Some(pi)).db;
            var inserted := S.RouteStep(db, S.InsertEscrow(m, pi, HeldBudget(db.missions[m])));
            && m in checkout.escrows && m in inserted.escrows
            && checkout.escrows[m].spendingLimitCents <= inserted.escrows[m].spendingLimitCents
            && (checkout.escrows[m].spendingLimitCents < inserted.escrows[m].spendingLimitCents
                <==> db.missions[m].substitutionAuthorized && db.missions[m].budgetCents >= 5)
  {
  }

  lemma AuthorisedForTotal(w: World, m: Id)
    requires Invariant(w) && m in w.db.escrows
    ensures var pi := w.db.escrows[m].stripePaymentIntentId;
            && m in w.db.missions && pi in w.intents && w.intents[pi].missionId == m
            && w.intents[pi].amountCents == EscrowTotal(w.db.missions[m])
  {
    assert EscrowLinked(w.db.escrows[m], m, w.intents);
    assert IntentSound(w.intents[w.db.escrows[m].stripePaymentIntentId], w.db.missions);
  }

  // ----- captureEscrowFunds

  /** One attempt of the capture call: it may take effect and still report failure. */
  datatype Attempt = Attempt(tookEffect: bool, reported: bool)

  lemma CaptureIs(w: World, t: Id, tookEffect: bool)
    requires Integrity(w.db) && Enabled(w, CallCapture(t, tookEffect))
    ensures var Capturing(m, pi, amount) := w.tasks[t];
            Step(w, CallCapture(t, tookEffect))
            == w.(intents := if tookEffect && pi in w.intents && w.intents[pi].status.RequiresCapture?
                             then w.intents[pi := w.intents[pi].(status := Captured(amount))] else w.intents)
  {
  }

  lemma BeginIs(w: World, t: Id, m: Id)
    requires Integrity(w.db) && Enabled(w, BeginCapture(t, m))
    ensures Step(w, BeginCapture(t, m))
            == w.(tasks := w.tasks[t := Capturing(m, IntentOf(w.db, m), EscrowTotal(w.db.missions[m]))])
  {
  }

  /** Whether an intent is captured after a call, from what the call finds. */
  predicate CapturedAfter(w: World, pi: Id, tookEffect: bool) {
    pi in w.intents && (w.intents[pi].status.Captured? || (tookEffect && w.intents[pi].status.RequiresCapture?))
  }

  /** One call, with the same amount and the same key at each attempt: it succeeds exactly when it is
      reported and the intent is then captured. */
  method CallStripeCapture(p: Process, m: Id, pi: Id, amount: int, attempt: Attempt) returns (ok: bool)
    requires p.Follows() && p.id in p.w.tasks && p.w.tasks[p.id] == Capturing(m, pi, amount)
    modifies p`w, p`trace, p`own
    ensures p.Follows() && p.w == old(p.w).(intents := p.w.intents) && Grows(old(p.w), p.w)
    ensures p.own == old(p.own) + [CallCapture(p.id, attempt.tookEffect)]
    ensures ok <==> attempt.reported && CapturedAfter(old(p.w), pi, attempt.tookEffect)
    ensures p.w.intents == (if attempt.tookEffect && pi in old(p.w).intents
                            && old(p.w).intents[pi].status.RequiresCapture?
                            then old(p.w).intents[pi := old(p.w).intents[pi].(status := Captured(amount))]
                            else old(p.w).intents)
    ensures ok ==> pi in p.w.intents && p.w.intents[pi].status.Captured?
  {
    CaptureIs(p.w, p.id, attempt.tookEffect);
    hide Run, Step, Grows, Process.Follows, Process.Quiet;
    var intents := p.w.intents;
    if attempt.tookEffect && pi in intents && intents[pi].status.RequiresCapture? {
      intents := intents[pi := intents[pi].(status := Captured(amount))];
    }
    p.Become(CallCapture(p.id, attempt.tookEffect), p.w.(intents := intents));
    ok := attempt.reported && pi in p.w.intents && p.w.intents[pi].status.Captured?;
  }

  /** The calls of a retried capture, up to the first that succeeds, when nobody interferes: `captured`
      and `open` say whether the intent is captured or awaits capture. */
  function AttemptMoves(t: Id, captured: bool, open: bool, attempts: seq<Attempt>): seq<Move>
    decreases |attempts|
  {
    if |attempts| == 0 then []
    else
      var now := captured || (open && attempts[0].tookEffect);
      [CallCapture(t, attempts[0].tookEffect)]
      + if attempts[0].reported && now then [] else AttemptMoves(t, now, open && !now, attempts[1..])
  }

  /** Some attempt is reported when the intent has been captured by it or before it. */
  ghost predicate SomeAttemptWorks(captured: bool, open: bool, attempts: seq<Attempt>) {
    exists i :: 0 <= i < |attempts| && attempts[i].reported
                && (captured || (open && exists j :: 0 <= j <= i && attempts[j].tookEffect))
  }

  lemma LaterAttempts(captured: bool, open: bool, attempts: seq<Attempt>)
    requires |attempts| > 0
    ensures var now := captured || (open && attempts[0].tookEffect);
            SomeAttemptWorks(captured, open, attempts)
            <==> (attempts[0].reported && now) || SomeAttemptWorks(now, open && !now, attempts[1..])
  {
    var now := captured || (open && attempts[0].tookEffect);
    assert forall i :: 0 < i < |attempts| ==> attempts[i] == attempts[1..][i - 1];
    if SomeAttemptWorks(captured, open, attempts) {
      var i :| 0 <= i < |attempts| && attempts[i].reported
               && (captured || (open && exists j :: 0 <= j <= i && attempts[j].tookEffect));
      if i > 0 {
        if !now { var j :| 0 <= j <= i && attempts[j].tookEffect; assert attempts[1..][j - 1].tookEffect; }
        assert attempts[1..][i - 1].reported;
      }
    }
    if SomeAttemptWorks(now, open && !now, attempts[1..]) {
      var i :| 0 <= i < |attempts[1..]| && attempts[1..][i].reported
               && (now || (open && !now && exists j :: 0 <= j <= i && attempts[1..][j].tookEffect));
      assert attempts[i + 1].reported;
      if !captured {
        if now { assert attempts[0].tookEffect; } else {
          var j :| 0 <= j <= i && attempts[1..][j].tookEffect;
          assert attempts[j + 1].tookEffect;
        }
      }
    }
  }

  predicate IsCaptured(w: World, pi: Id) {
    pi in w.intents && w.intents[pi].status.Captured?
  }

  predicate AwaitsCapture(w: World, pi: Id) {
    pi in w.intents && w.intents[pi].status.RequiresCapture?
  }

  /** What captureEscrowFunds does when nobody interferes. */
  function CaptureMoves(w: World, t: Id, m: Id, attempts: seq<Attempt>): seq<Move> {
    if m !in w.db.escrows || m !in w.db.missions || w.db.escrows[m].status != Held
       || HeldBudget(w.db.missions[m]) > SubstitutionHardCap(w.db.missions[m].budgetCents) then []
    else
      var pi := w.db.escrows[m].stripePaymentIntentId;
      [BeginCapture(t, m)] + AttemptMoves(t, IsCaptured(w, pi), AwaitsCapture(w, pi), attempts) + [EndTask(t)]
  }

  /** captureEscrowFunds: read-only preconditions, then the capture, retried. Nothing is written to
      the database; a reported success means the intent is captured, for the authorised total. */
  method CaptureEscrowFunds(p: Process, m: Id, attempts: seq<Attempt>) returns (result: Result<int>)
    requires p.Follows() && p.Idle()
    modifies p`w, p`awaits, p`trace, p`own
    ensures p.Follows() && p.Idle() && Grows(old(p.w), p.w)
    ensures result == Err(EscrowNotFound) <==> m !in old(p.w).db.escrows || m !in old(p.w).db.missions
    ensures result == Err(EscrowNotHeld) <==>
              m in old(p.w).db.escrows && m in old(p.w).db.missions && old(p.w).db.escrows[m].status != Held
    ensures result == Err(EscrowNotFound) || result == Err(EscrowNotHeld) ==> p.w == old(p.w)
    ensures result.Err? ==> result.error == EscrowNotFound || result.error == EscrowNotHeld
                            || result.error == SubstitutionHardCapExceeded || result.error == CaptureFailed
    ensures result == Err(SubstitutionHardCapExceeded) <==>
              && m in old(p.w).db.escrows && m in old(p.w).db.missions && old(p.w).db.escrows[m].status == Held
              && HeldBudget(old(p.w).db.missions[m]) > SubstitutionHardCap(old(p.w).db.missions[m].budgetCents)
    ensures result == Err(SubstitutionHardCapExceeded) ==>
              p.w == old(p.w)
              && HeldBudget(p.w.db.missions[m]) > SubstitutionHardCap(p.w.db.missions[m].budgetCents)
    ensures result.Ok? ==>
              && m in old(p.w).db.missions && result.value == EscrowTotal(old(p.w).db.missions[m])
              && var pi := IntentOf(old(p.w).db, m); pi in p.w.intents && p.w.intents[pi].status.Captured?
    ensures old(p.own) <= p.own
    ensures forall i :: |old(p.own)| <= i < |p.own| ==>
              p.own[i] == BeginCapture(p.id, m) || p.own[i].CallCapture? || p.own[i] == EndTask(p.id)
    // a failure has made every attempt
    ensures result == Err(CaptureFailed) ==> |p.own| == |old(p.own)| + |attempts| + 2
    ensures result.Ok? ==> |old(p.own)| + 2 < |p.own| <= |old(p.own)| + |attempts| + 2
    // undisturbed, it succeeds exactly when some attempt is reported with the intent captured
    ensures p.Quiet() ==> p.own == old(p.own) + CaptureMoves(old(p.w), p.id, m, attempts)
    ensures p.Quiet() ==> p.w.db == old(p.w).db
    ensures p.Quiet() && (result.Ok? || result == Err(CaptureFailed)) ==>
              var pi := IntentOf(old(p.w).db, m);
              result.Ok? <==> SomeAttemptWorks(IsCaptured(old(p.w), pi), AwaitsCapture(old(p.w), pi), attempts)
    ensures Invariant(p.start) ==> Invariant(p.w)
    // on reachable states the backstop never fires and the capture is the authorised amount
    ensures Invariant(p.start) ==> result != Err(SubstitutionHardCapExceeded)
    ensures Invariant(p.start) && result.Ok? ==>
              p.w.intents[IntentOf(old(p.w).db, m)].status
                == Captured(p.w.intents[IntentOf(old(p.w).db, m)].amountCents)
  {
    hide Run, Step, Grows, IntentsAdvance, HeldBudget, SubstitutionHardCap, Invariant, EscrowTotal, Process.Follows,
      Process.Quiet, AttemptMoves, SomeAttemptWorks, IsCaptured, AwaitsCapture;
    p.InvariantHolds();
    GrowsReflexive(p.w);
    if m !in p.w.db.escrows || m !in p.w.db.missions { return Err(EscrowNotFound); }
    if p.w.db.escrows[m].status != Held { return Err(EscrowNotHeld); }
    var mission := p.w.db.missions[m];
    if HeldBudget(mission) > SubstitutionHardCap(mission.budgetCents) {
      if Invariant(p.start) { CapNeverExceeded(p.w, m); }
      return Err(SubstitutionHardCapExceeded);
    }
    var pi, amount := IntentOf(p.w.db, m), EscrowTotal(mission);
    var ok := CaptureHeld(p, m, pi, amount, attempts);
    p.InvariantHolds();
    if Invariant(p.start) && ok { CapturedInFull(p.w, pi); }
    return if ok then Ok(amount) else Err(CaptureFailed);
  }

  /** What the service has read when it makes its call. */
  method ReadHeld(p: Process, m: Id, pi: Id, amount: int)
    requires p.Follows() && p.Idle() && Enabled(p.w, BeginCapture(p.id, m))
    requires pi == IntentOf(p.w.db, m) && amount == EscrowTotal(p.w.db.missions[m])
    modifies p`w, p`trace, p`own
    ensures p.Follows() && p.own == old(p.own) + [BeginCapture(p.id, m)] && p.w == old(p.w).(tasks := p.w.tasks)
            && Grows(old(p.w), p.w)
    ensures p.id in p.w.tasks && p.w.tasks[p.id] == Capturing(m, pi, amount)
  {
    BeginIs(p.w, p.id, m);
    hide Run, Step, EscrowTotal, Enabled, Grows, Process.Follows, Process.Quiet;
    p.Become(BeginCapture(p.id, m), p.w.(tasks := p.w.tasks[p.id := Capturing(m, pi, amount)]));
  }

  /** The capture of an escrow read as HELD, within the backstop. */
  method CaptureHeld(p: Process, m: Id, pi: Id, amount: int, attempts: seq<Attempt>) returns (ok: bool)
    requires p.Follows() && p.Idle() && m in p.w.db.escrows && m in p.w.db.missions
    requires Enabled(p.w, BeginCapture(p.id, m))
    requires pi == IntentOf(p.w.db, m) && amount == EscrowTotal(p.w.db.missions[m])
    modifies p`w, p`awaits, p`trace, p`own
    ensures p.Follows() && p.Idle() && Grows(old(p.w), p.w)
    ensures ok ==> pi in p.w.intents && p.w.intents[pi].status.Captured?
    ensures old(p.own) <= p.own
    ensures forall i :: |old(p.own)| <= i < |p.own| ==>
              p.own[i] == BeginCapture(p.id, m) || p.own[i].CallCapture? || p.own[i] == EndTask(p.id)
    ensures !ok ==> |p.own| == |old(p.own)| + |attempts| + 2
    ensures ok ==> |old(p.own)| + 2 < |p.own| <= |old(p.own)| + |attempts| + 2
    ensures p.Quiet() ==>
              && p.own == old(p.own) + ([BeginCapture(p.id, m)]
                            + AttemptMoves(p.id, IsCaptured(old(p.w), pi), AwaitsCapture(old(p.w), pi), attempts)
                            + [EndTask(p.id)])
              && ok == SomeAttemptWorks(IsCaptured(old(p.w), pi), AwaitsCapture(old(p.w), pi), attempts)
              && p.w.db == old(p.w).db
  {
    hide Run, Step, Grows, EscrowTotal, Process.Follows, Process.Quiet, Enabled, AttemptMoves, SomeAttemptWorks;
    ghost var before := p.w;
    ReadHeld(p, m, pi, amount);
    ghost var reading := p.w;
    ok := RetryCapture(p, m, pi, amount, attempts);
    GrowsTransitive(before, reading, p.w);
    ghost var called := p.w;
    p.EndTask();
    GrowsTransitive(before, called, p.w);
  }

  lemma CapNeverExceeded(w: World, m: Id)
    requires Invariant(w) && m in w.db.missions
    ensures HeldBudget(w.db.missions[m]) <= SubstitutionHardCap(w.db.missions[m].budgetCents)
  {
    assert Missions.MissionSound(w.db.missions[m]);
    SplitOfAuthorisedTotal(w.db.missions[m]);
  }

  lemma CapturedInFull(w: World, pi: Id)
    requires Invariant(w) && pi in w.intents && w.intents[pi].status.Captured?
    ensures w.intents[pi].status == Captured(w.intents[pi].amountCents)
  {
    assert IntentSound(w.intents[pi], w.db.missions);
  }

  method RetryCapture(p: Process, m: Id, pi: Id, amount: int, attempts: seq<Attempt>) returns (ok: bool)
    requires p.Follows() && p.id in p.w.tasks && p.w.tasks[p.id] == Capturing(m, pi, amount)
    modifies p`w, p`awaits, p`trace, p`own
    ensures p.Follows() && p.id in p.w.tasks && Grows(old(p.w), p.w)
    ensures ok ==> pi in p.w.intents && p.w.intents[pi].status.Captured?
    ensures old(p.own) <= p.own && |p.own| <= |old(p.own)| + |attempts|
    ensures forall i :: |old(p.own)| <= i < |p.own| ==> p.own[i].CallCapture?
    ensures ok ==> |old(p.own)| < |p.own|
    ensures !ok ==> |p.own| == |old(p.own)| + |attempts|
    ensures p.Quiet() ==>
              && p.own == old(p.own)
                   + AttemptMoves(p.id, IsCaptured(old(p.w), pi), AwaitsCapture(old(p.w), pi), attempts)
              && ok == SomeAttemptWorks(IsCaptured(old(p.w), pi), AwaitsCapture(old(p.w), pi), attempts)
              && p.w.db == old(p.w).db
  {
    hide Run, Step, Grows, Process.Follows, Process.Quiet, SomeAttemptWorks, AttemptMoves, IsCaptured, AwaitsCapture;
    ghost var captured0, open0 := IsCaptured(p.w, pi), AwaitsCapture(p.w, pi);
    NoAttempts(captured0, open0);
    assert attempts[0..] == attempts;
    ok := false;
    GrowsReflexive(p.w);
    var i := 0;
    while i < |attempts| && !ok
      invariant i <= |attempts| && p.Follows() && old(p.own) <= p.own && |p.own| == |old(p.own)| + i && (ok ==> i > 0)
      invariant forall j :: |old(p.own)| <= j < |p.own| ==> p.own[j].CallCapture?
      invariant p.id in p.w.tasks && p.w.tasks[p.id] == Capturing(m, pi, amount) && Grows(old(p.w), p.w)
      invariant ok ==> pi in p.w.intents && p.w.intents[pi].status.Captured?
      invariant p.Quiet() ==>
                  && p.w.db == old(p.w).db
                  && old(p.own) + AttemptMoves(p.id, captured0, open0, attempts)
                     == p.own + (if ok then []
                                 else AttemptMoves(p.id, IsCaptured(p.w, pi), AwaitsCapture(p.w, pi), attempts[i..]))
                  && (SomeAttemptWorks(captured0, open0, attempts)
                      <==> ok || SomeAttemptWorks(IsCaptured(p.w, pi), AwaitsCapture(p.w, pi), attempts[i..]))
    {
      assert attempts[i..][0] == attempts[i] && attempts[i..][1..] == attempts[i + 1..];
      LaterAttempts(IsCaptured(p.w, pi), AwaitsCapture(p.w, pi), attempts[i..]);
      NextMoves(p.id, IsCaptured(p.w, pi), AwaitsCapture(p.w, pi), attempts[i..]);
      ghost var before := p.w;
      ok := TryCapture(p, m, pi, amount, attempts[i]);
      GrowsTransitive(old(p.w), before, p.w);
      i := i + 1;
    }
    assert attempts[|attempts|..] == [];
    NoAttempts(IsCaptured(p.w, pi), AwaitsCapture(p.w, pi));
    NoMoves(p.id, IsCaptured(p.w, pi), AwaitsCapture(p.w, pi));
  }

  /** An await and a call; what the call makes of the intent if nobody interferes. */
  method TryCapture(p: Process, m: Id, pi: Id, amount: int, attempt: Attempt) returns (ok: bool)
    requires p.Follows() && p.id in p.w.tasks && p.w.tasks[p.id] == Capturing(m, pi, amount)
    modifies p`w, p`awaits, p`trace, p`own
    ensures p.Follows() && p.id in p.w.tasks && p.w.tasks[p.id] == Capturing(m, pi, amount) && Grows(old(p.w), p.w)
    ensures p.own == old(p.own) + [CallCapture(p.id, attempt.tookEffect)]
    ensures ok ==> pi in p.w.intents && p.w.intents[pi].status.Captured?
    ensures var now := IsCaptured(old(p.w), pi) || (AwaitsCapture(old(p.w), pi) && attempt.tookEffect);
            p.Quiet() ==>
              && p.w.db == old(p.w).db && (ok <==> attempt.reported && now)
              && IsCaptured(p.w, pi) == now && AwaitsCapture(p.w, pi) == (AwaitsCapture(old(p.w), pi) && !now)
  {
    hide Run, Step, Grows, Process.Follows, Process.Quiet;
    ghost var before := p.w;
    p.Await();
    ghost var awaited := p.w;
    ok := CallStripeCapture(p, m, pi, amount, attempt);
    GrowsTransitive(before, awaited, p.w);
  }

  lemma NextMoves(t: Id, captured: bool, open: bool, attempts: seq<Attempt>)
    requires |attempts| > 0
    ensures var now := captured || (open && attempts[0].tookEffect);
            AttemptMoves(t, captured, open, attempts)
            == [CallCapture(t, attempts[0].tookEffect)]
               + if attempts[0].reported && now then [] else AttemptMoves(t, now, open && !now, attempts[1..])
  {
  }

  lemma NoMoves(t: Id, captured: bool, open: bool)
    ensures AttemptMoves(t, captured, open, []) == []
  {
  }

  lemma NoAttempts(captured: bool, open: bool)
    ensures !SomeAttemptWorks(captured, open, [])
  {
  }
}

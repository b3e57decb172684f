/** The whole life of one escrow, from its creation to the settled transfer: what the guarantees
    speak about does happen. */
module Scenario {
  import opened Tables
  import opened World
  import T = Transactions
  import S = Steps
  import O = Outbox
  import WorldSafety

  const LIMITS := Limits(5, 5)

  const TRAVELER := Some(Traveler(Some(30), true))
  const ORDER := Mission(Created, 20, None, 100_00, 10_00, true, None)
  const CAPTURE_EVENT := T.Delivery(3, T.IntentSucceeded(5, 130_00, Some(1)))

  const CREATE := Commit(S.CreateMission(1, ORDER))
  const VALIDATE := Commit(S.UpdateMission(1, Validated, TRAVELER))

  /** The mission row and the rows of its escrow at each stage. */
  function Ordered(status: MissionStatus): Db {
    EMPTY_DB.(missions := map[1 := ORDER.(status := status)])
  }

  function FundedDb(status: MissionStatus, traveler: Option<Traveler>): Db {
    EMPTY_DB.(missions := map[1 := ORDER.(status := status, traveler := traveler)],
             escrows := map[1 := Escrow(5, Held, 0, 120_00)], byPaymentIntent := map[5 := 1])
  }

  function At(db: Db, intents: map<Id, PaymentIntent>, tasks: map<Id, Task>, sent: set<T.Delivery>): World {
    Init(LIMITS).(db := db, intents := intents, tasks := tasks, sent := sent)
  }

  function Intent(status: IntentStatus): map<Id, PaymentIntent> {
    map[5 := PaymentIntent(1, 130_00, status)]
  }

  function Held0(): World {
    At(FundedDb(Funded, None), Intent(RequiresPaymentMethod), map[], {})
  }

  function Authorised(): World {
    At(FundedDb(Validated, TRAVELER), Intent(RequiresCapture), map[], {})
  }

  function CapturedAtStripe(): World {
    At(FundedDb(Validated, TRAVELER), Intent(Captured(130_00)), map[9 := Capturing(1, 5, 130_00)], {CAPTURE_EVENT})
  }

  function ReleasedBooks(): Db {
    FundedDb(MissionReleased, TRAVELER).(
      escrows := map[1 := Escrow(5, Released, 130_00, 120_00)],
      ledger := [Entry(1, Capture, 130_00, 0), Entry(1, Payout, 120_00, 0), Entry(1, Commission, 10_00, 0)],
      outbox := map[1 := OutboxRow(120_00, 30, Pending, 0, 0, 0, None)],
      processed := {3})
  }

  function ReleasedWorld(): World {
    CapturedAtStripe().(db := ReleasedBooks())
  }

  function Row(status: TransferStatus, id: Option<Id>): map<Id, OutboxRow> {
    map[1 := OutboxRow(120_00, 30, status, 0, 0, 0, id)]
  }

  function ClaimedWorld(): World {
    ReleasedWorld().(db := ReleasedBooks().(outbox := Row(Submitted, None)),
                     claims := map[4 := O.Claim(1, 120_00, 30, 0, 0, O.Claimed)])
  }

  function CalledWorld(): World {
    ClaimedWorld().(claims := map[4 := O.Claim(1, 120_00, 30, 0, 0, O.Succeeded(1))],
                    created := [O.External(1, 1, 120_00, 30)])
  }

  function SettledWorld(): World {
    CalledWorld().(db := ReleasedBooks().(outbox := Row(Settled, Some(1))), claims := map[])
  }

  lemma Opening()
    ensures Integrity(Init(LIMITS).db)
    ensures Step(Init(LIMITS), CREATE) == At(Ordered(Created), map[], map[], {})
  {
    hide O.Step;
  }

  lemma Reserving()
    ensures Integrity(Ordered(Created))
    ensures Step(At(Ordered(Created), map[], map[], {}), BeginFunding(9, 1))
            == At(Ordered(Funded), map[], map[9 := Funding(1, None)], {})
  {
    hide O.Step;
  }

  lemma Authorising()
    ensures Integrity(Ordered(Funded))
    ensures Step(At(Ordered(Funded), map[], map[9 := Funding(1, None)], {}), Authorise(9, 5))
            == At(Ordered(Funded), Intent(RequiresPaymentMethod), map[9 := Funding(1, Some(5))], {})
  {
    hide O.Step;
  }

  lemma Inserting()
    ensures Integrity(Ordered(Funded)) && Integrity(Held0().db)
    ensures Step(At(Ordered(Funded), Intent(RequiresPaymentMethod), map[9 := Funding(1, Some(5))], {}), InsertFunded(9))
            == Held0()
  {
    hide O.Step;
    assert map[9 := Funding(1, Some(5))] - {9} == map[];
  }

  lemma Validating()
    ensures Integrity(Held0().db)
    ensures Step(Step(Held0(), Progress(5, RequiresCapture)), VALIDATE) == Authorised()
  {
    hide O.Step;
  }

  lemma Asking()
    ensures Integrity(Authorised().db)
    ensures Step(Authorised(), BeginCapture(9, 1)) == Authorised().(tasks := map[9 := Capturing(1, 5, 130_00)])
  {
    hide O.Step;
  }

  lemma Charging()
    ensures Integrity(FundedDb(Validated, TRAVELER))
    ensures var begun := Authorised().(tasks := map[9 := Capturing(1, 5, 130_00)]);
            Step(Step(begun, CallCapture(9, true)), Emit(CAPTURE_EVENT)) == CapturedAtStripe()
  {
    hide O.Step;
  }

  lemma Releasing()
    ensures Integrity(CapturedAtStripe().db)
    ensures Step(CapturedAtStripe(), Receive(CAPTURE_EVENT)) == ReleasedWorld()
  {
    CaptureReleases();
    hide O.Step, T.Deliver;
  }

  lemma CaptureReleases()
    ensures Integrity(CapturedAtStripe().db)
    ensures T.Deliver(CapturedAtStripe().db, 0, CAPTURE_EVENT).db == ReleasedBooks()
  {
  }

  lemma TransferIs(w: World, a: O.Action)
    requires Integrity(w.db) && !a.Create? && !a.Tick?
    ensures var s := O.Step(TransferSystem(w), w.limits.transfers, a);
            Step(w, Transfer(a)) == w.(db := w.db.(outbox := s.rows), claims := s.claims, created := s.created,
                                       abandonAlerts := s.abandonAlerts)
  {
    WorldSafety.TransferStepKeepsIntents(TransferSystem(w), w.limits.transfers, a);
    RowsWritten(w.db, w.now, O.Step(TransferSystem(w), w.limits.transfers, a).rows);
    hide O.Step, Integrity, S.Step;
  }

  lemma RowsWritten(db: Db, now: Instant, rows: map<Id, OutboxRow>)
    requires Integrity(db) && S.SameIntents(db.outbox, rows)
    ensures S.Step(db, now, S.Transfers(rows)) == db.(outbox := rows)
  {
  }

  lemma Claiming()
    ensures Integrity(ReleasedWorld().db) && Step(ReleasedWorld(), Transfer(O.TakeClaim(4, 1))) == ClaimedWorld()
  {
    TransferIs(ReleasedWorld(), O.TakeClaim(4, 1));
    hide Step;
  }

  lemma Calling()
    ensures Integrity(ClaimedWorld().db) && Step(ClaimedWorld(), Transfer(O.CallStripe(4, true, true))) == CalledWorld()
  {
    TransferIs(ClaimedWorld(), O.CallStripe(4, true, true));
    CallComputes();
    hide Step, O.Step;
  }

  lemma CallComputes()
    ensures O.Step(TransferSystem(ClaimedWorld()), 5, O.CallStripe(4, true, true)) == TransferSystem(CalledWorld())
  {
  }

  lemma Settling()
    ensures Integrity(CalledWorld().db) && Step(CalledWorld(), Transfer(O.Verdict(4))) == SettledWorld()
  {
    TransferIs(CalledWorld(), O.Verdict(4));
    SettleComputes();
    hide Step, O.Step;
  }

  lemma SettleComputes()
    ensures O.Step(TransferSystem(CalledWorld()), 5, O.Verdict(4)) == TransferSystem(SettledWorld())
  {
    assert map[4 := O.Claim(1, 120_00, 30, 0, 0, O.Succeeded(1))] - {4} == map[];
  }

  // ----- The run

  const FUNDING: seq<Move> := [CREATE] + [BeginFunding(9, 1)] + [Authorise(9, 5)] + [InsertFunded(9)]
  const CAPTURING: seq<Move> :=
    FUNDING + [Progress(5, RequiresCapture)] + [VALIDATE] + [BeginCapture(9, 1)] + [CallCapture(9, true)]
  const RELEASING: seq<Move> := CAPTURING + [Emit(CAPTURE_EVENT)] + [Receive(CAPTURE_EVENT)]
  const SETTLING: seq<Move> :=
    RELEASING + [Transfer(O.TakeClaim(4, 1))] + [Transfer(O.CallStripe(4, true, true))] + [Transfer(O.Verdict(4))]

  lemma Then(moves: seq<Move>, x: Move)
    ensures Integrity(Init(LIMITS).db)
    ensures Run(Init(LIMITS), moves + [x]) == Step(Run(Init(LIMITS), moves), x)
  {
    Opening();
    assert (moves + [x])[..|moves|] == moves;
  }

  lemma FundingRuns()
    ensures Integrity(Init(LIMITS).db) && Run(Init(LIMITS), FUNDING) == Held0()
  {
    Opening();
    Reserving();
    Authorising();
    Inserting();
    hide Step, Run, Integrity;
    Then([], CREATE);
    assert [] + [CREATE] == [CREATE];
    assert Run(Init(LIMITS), []) == Init(LIMITS) by { NoMoves(); }
    Then([CREATE], BeginFunding(9, 1));
    Then([CREATE] + [BeginFunding(9, 1)], Authorise(9, 5));
    Then([CREATE] + [BeginFunding(9, 1)] + [Authorise(9, 5)], InsertFunded(9));
  }

  lemma NoMoves()
    requires Integrity(Init(LIMITS).db)
    ensures Run(Init(LIMITS), []) == Init(LIMITS)
  {
  }

  lemma ReleasingRuns()
    ensures Integrity(Init(LIMITS).db) && Run(Init(LIMITS), RELEASING) == ReleasedWorld()
  {
    FundingRuns();
    Validating();
    Asking();
    Charging();
    Releasing();
    hide Step, Run, Integrity;
    Then(FUNDING, Progress(5, RequiresCapture));
    Then(FUNDING + [Progress(5, RequiresCapture)], VALIDATE);
    var validated := FUNDING + [Progress(5, RequiresCapture)] + [VALIDATE];
    Then(validated, BeginCapture(9, 1));
    Then(validated + [BeginCapture(9, 1)], CallCapture(9, true));
    Then(CAPTURING, Emit(CAPTURE_EVENT));
    Then(CAPTURING + [Emit(CAPTURE_EVENT)], Receive(CAPTURE_EVENT));
  }

  /** A mission of 100.00 with substitutions and a commission of 10.00: 130.00 authorised and
      captured, 120.00 paid out by one transfer that the settled row names. */
  lemma ReleaseAndTransferHappen()
    ensures Integrity(Init(LIMITS).db)
    ensures var w := Run(Init(LIMITS), SETTLING);
            && 1 in w.db.escrows && w.db.escrows[1].status == Released && w.db.escrows[1].capturedAmountCents == 130_00
            && 1 in w.db.outbox && w.db.outbox[1].status == Settled && w.db.outbox[1].externalId == Some(1)
            && w.created == [O.External(1, 1, 120_00, 30)]
  {
    ReleasingRuns();
    Claiming();
    Calling();
    Settling();
    hide Step, Run, Integrity;
    Then(RELEASING, Transfer(O.TakeClaim(4, 1)));
    Then(RELEASING + [Transfer(O.TakeClaim(4, 1))], Transfer(O.CallStripe(4, true, true)));
    Then(RELEASING + [Transfer(O.TakeClaim(4, 1))] + [Transfer(O.CallStripe(4, true, true))], Transfer(O.Verdict(4)));
  }
}

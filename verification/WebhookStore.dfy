/** The webhook route as it runs: handlers that update the tables statement by statement inside a
    transaction, and the wrapper that commits or rolls back. */
module WebhookStore {
  import opened Tables
  import opened Money
  import opened Ledger
  import T = Transactions

  /** What a handler hands back: an outcome for the wrapper to commit, or a thrown abort. */
  datatype Outcome = Done(handled: bool, alerts: seq<T.AlertCode>) | Threw(cause: T.Cause)

  class Store {
    var missions: map<Id, Mission>
    var escrows: map<Id, Escrow>
    var byPaymentIntent: map<Id, Id>
    var ledger: seq<Entry>
    var wallets: map<Id, int>
    var walletTxs: seq<WalletTx>
    var outbox: map<Id, OutboxRow>
    var penalties: map<Id, OutboxRow>
    var compensations: seq<Compensation>
    var refunds: map<Id, RefundIntent>
    var processed: set<Id>

    function State(): Db
      reads this
    {
      Db(missions, escrows, byPaymentIntent, ledger, wallets, walletTxs, outbox, penalties,
         compensations, refunds, processed)
    }

    constructor ()
      ensures State() == EMPTY_DB && Integrity(State())
    {
      missions, escrows, byPaymentIntent := map[], map[], map[];
      ledger, wallets, walletTxs := [], map[], [];
      outbox, penalties, compensations, refunds, processed := map[], map[], [], map[], {};
    }

    /** Whether a handler did what its transaction function says: on an abort only the cause counts,
        since the wrapper rolls back. */
    ghost predicate Performs(effect: T.Effect, out: Outcome)
      reads this
    {
      match effect
      case Applied(db, handled, alerts) => State() == db && out == Done(handled, alerts)
      case Aborted(cause) => out == Threw(cause)
    }

    method HandleCheckoutCompleted(missionId: Option<Id>, intent: Option<Id>) returns (out: Outcome)
      requires Integrity(State())
      modifies this
      ensures Performs(T.CheckoutEffect(old(State()), missionId, intent), out)
    {
      if missionId.None? { return Done(false, []); }
      if intent.None? { return Threw(T.CheckoutNoPaymentIntent); }
      var m := missionId.value;
      if m in escrows { return Done(false, []); }
      if m !in missions { return Done(false, []); }
      var mission := missions[m];
      var funded := 0;
      if mission.status == Created {
        missions := missions[m := mission.(status := Funded)];
        funded := 1;
      }
      if funded != 1 { return Threw(T.MissionNotFundable); }
      if intent.value in byPaymentIntent { return Threw(T.UniqueViolation); }
      escrows := escrows[m := Escrow(intent.value, Held, 0, mission.budgetCents)];
      byPaymentIntent := byPaymentIntent[intent.value := m];
      return Done(true, []);
    }

    method HandleCapture(now: Instant, intentId: Id, amountReceived: int, metadata: Option<Id>)
      returns (out: Outcome)
      requires Integrity(State())
      modifies this
      ensures Performs(T.CaptureEffect(old(State()), now, intentId, amountReceived, metadata), out)
    {
      if intentId !in byPaymentIntent {
        return Done(false, if metadata.Some? then [T.WebhookMissionNotFound] else []);
      }
      var m := byPaymentIntent[intentId];
      var mission := missions[m];  // read with the escrow, before the row lock
      var locked := escrows[m];     // read again under the row lock
      if locked.status == Released { return Done(false, []); }
      if amountReceived <= 0 { return Threw(T.EmptyCapture); }

      // Step 1: the capture is journalled first, once.
      var captured := 0;
      if escrows[m].status == Held && escrows[m].capturedAmountCents == 0 {
        escrows := escrows[m := escrows[m].(capturedAmountCents := amountReceived)];
        captured := 1;
      }
      if captured != 1 {
        if locked.capturedAmountCents == amountReceived { return Done(false, []); }
        return Threw(T.CaptureStateConflict);
      }
      ledger := ledger + [Entry(m, Capture, amountReceived, now)];

      // Step 2: without a payout account the money is journalled and the mission waits.
      var destination := if mission.traveler.Some? && mission.traveler.value.kycVerified
                         then mission.traveler.value.stripeAccountId else None;
      if destination.None? {
        missions := missions[m := missions[m].(status := AwaitingTravelerAccount)];
        return Done(true, [T.TravelerAccountMissing]);
      }
      out := Release(now, m, amountReceived, mission, destination.value);
    }

    /** Step 3 of the capture: the release. */
    method Release(now: Instant, m: Id, amountReceived: int, mission: Mission, destination: Id)
      returns (out: Outcome)
      requires m in escrows && m in missions && missions[m] == mission && escrows[m].status == Held
      modifies this
      ensures Performs(T.ReleaseEffect(old(State()), now, m, amountReceived, destination), out)
    {
      hide T.HasWalletTx, T.CreditWallet;
      escrows := escrows[m := escrows[m].(status := Released)];
      var spendable := amountReceived - mission.commissionCents;
      if spendable < 0 { return Threw(T.NegativePayout); }

      var payout := spendable;
      var walletCredit := 0;
      if mission.substitutionAuthorized && mission.purchaseAmountCents.Some?
         && mission.purchaseAmountCents.value < spendable {
        payout := mission.purchaseAmountCents.value;
        walletCredit := spendable - mission.purchaseAmountCents.value;
      }
      assert T.ReleaseLines(now, m, mission.commissionCents, SplitSpendable(mission, spendable))
             == [Entry(m, Payout, payout, now), Entry(m, Commission, mission.commissionCents, now)]
                + if walletCredit > 0 then [Entry(m, BuyerWalletCredit, walletCredit, now)] else [];
      ledger := ledger
        + ([Entry(m, Payout, payout, now), Entry(m, Commission, mission.commissionCents, now)]
           + if walletCredit > 0 then [Entry(m, BuyerWalletCredit, walletCredit, now)] else []);
      if walletCredit > 0 {
        var inserted := CreditResidual(m, mission.buyerId, walletCredit);
        if !inserted { return Threw(T.UniqueViolation); }
      }
      if m in outbox { return Threw(T.UniqueViolation); }
      outbox := outbox[m := OutboxRow(payout, destination, Pending, 0, now, now, None)];

      var status := missions[m].status;
      if status == EscrowLockedCustoms || status == PendingCustomsReview {
        return Threw(T.CustomsLock);
      }
      if status == AwaitingValidation || status == Validated {
        missions := missions[m := missions[m].(status := MissionReleased)];
      }
      return Done(true, []);
    }

    /** Wallet upsert, then the append-only line whose mission column is unique. */
    method CreditResidual(m: Id, user: Id, amount: int) returns (inserted: bool)
      modifies this`wallets, this`walletTxs
      ensures inserted <==> forall i :: 0 <= i < |old(walletTxs)| ==> old(walletTxs)[i].missionId != m
      ensures inserted == !T.HasWalletTx(old(walletTxs), m)
      ensures inserted ==> wallets == T.CreditWallet(old(wallets), user, amount)
                           && walletTxs == old(walletTxs) + [WalletTx(m, user, amount)]
    {
      var balance := if user in wallets then wallets[user] else 0;
      wallets := wallets[user := balance + amount];
      if T.HasWalletTx(walletTxs, m) { return false; }
      walletTxs := walletTxs + [WalletTx(m, user, amount)];
      return true;
    }

    method HandlePaymentFailed(intentId: Id) returns (out: Outcome)
      requires Integrity(State())
      modifies this
      ensures Performs(T.PaymentFailedEffect(old(State()), intentId), out)
    {
      if intentId !in byPaymentIntent { return Done(false, []); }
      var m := byPaymentIntent[intentId];
      var seen := escrows[m].status;
      var cancelled := 0;
      if escrows[m].status == Held && escrows[m].capturedAmountCents == 0 {
        escrows := escrows[m := escrows[m].(status := Cancelled)];
        cancelled := 1;
      }
      if cancelled != 1 {
        if seen == Cancelled { return Done(false, []); }
        return Threw(T.EscrowNotCancellable);
      }
      var status := missions[m].status;
      if status != MissionReleased && status != MissionRefunded && status != MissionCancelled {
        missions := missions[m := missions[m].(status := MissionCancelled)];
      }
      return Done(true, []);
    }

    /** The aggregate of the refund lines of one escrow, as the database computes it. */
    method SumRefunds(m: Id) returns (sum: int)
      ensures sum == SumOf(ledger, m, Refund)
    {
      sum := 0;
      for i := 0 to |ledger|
        invariant sum == SumOf(ledger[..i], m, Refund)
      {
        assert ledger[..i + 1] == ledger[..i] + [ledger[i]];
        SumAppend(ledger[..i], ledger[i]);
        if ledger[i].escrow == m && ledger[i].kind == Refund {
          sum := sum + ledger[i].amountCents;
        }
      }
      assert ledger[..|ledger|] == ledger;
    }

    method ApplyRefund(now: Instant, intentId: Option<Id>, amountRefunded: int) returns (out: Outcome)
      requires Integrity(State())
      modifies this
      ensures Performs(T.RefundEffect(old(State()), now, intentId, amountRefunded), out)
    {
      if intentId.None? { return Done(false, []); }
      if intentId.value !in byPaymentIntent { return Done(false, []); }
      var m := byPaymentIntent[intentId.value];
      var escrow := escrows[m];
      if escrow.capturedAmountCents <= 0 { return Threw(T.RefundBeforeCapture); }
      var refundedSoFar := SumRefunds(m);
      var delta := amountRefunded - refundedSoFar;
      if delta == 0 { return Done(false, []); }
      if delta < 0 { return Threw(T.RefundLedgerAheadOfStripe); }
      if refundedSoFar + delta > escrow.capturedAmountCents { return Threw(T.OverRefund); }
      var fullRefund := amountRefunded >= escrow.capturedAmountCents;
      var updated := 0;
      if escrows[m].status == Held || escrows[m].status == PartiallyRefunded {
        escrows := escrows[m := escrows[m].(status := if fullRefund then Refunded else PartiallyRefunded)];
        updated := 1;
      }
      if updated != 1 { return Threw(T.EscrowRefundConflict); }
      ledger := ledger + [Entry(m, Refund, delta, now)];
      return Done(true, []);
    }

    method ApplyBusinessEffect(now: Instant, event: T.Event) returns (out: Outcome)
      requires Integrity(State())
      modifies this
      ensures Performs(T.BusinessEffect(old(State()), now, event), out)
    {
      match event
      case CheckoutCompleted(m, pi) => out := HandleCheckoutCompleted(m, pi);
      case IntentSucceeded(pi, amount, metadata) => out := HandleCapture(now, pi, amount, metadata);
      case PaymentFailed(pi) => out := HandlePaymentFailed(pi);
      case ChargeRefunded(pi, cumul) => out := ApplyRefund(now, pi, cumul);
      case OutOfScope => return Done(false, []);
    }

    method Rollback(savepoint: Db)
      modifies this
      ensures State() == savepoint
    {
      missions, escrows, byPaymentIntent := savepoint.missions, savepoint.escrows, savepoint.byPaymentIntent;
      ledger, wallets, walletTxs := savepoint.ledger, savepoint.wallets, savepoint.walletTxs;
      outbox, penalties, compensations := savepoint.outbox, savepoint.penalties, savepoint.compensations;
      refunds, processed := savepoint.refunds, savepoint.processed;
    }

    /** POST /webhook after signature verification: 200 only after a commit, 500 after a rollback. */
    method Deliver(now: Instant, d: T.Delivery)
      returns (status: int, duplicate: bool, handled: bool, alerts: seq<T.AlertCode>)
      requires Integrity(State())
      modifies this
      ensures State() == T.Deliver(old(State()), now, d).db
      ensures var r := T.Deliver(old(State()), now, d);
              status == (if r.committed then 200 else 500)
              && duplicate == r.duplicate && handled == r.handled && alerts == r.alerts
      ensures status == 500 ==> State() == old(State())
    {
      if d.eventId in processed { return 200, true, false, []; }
      hide T.BusinessEffect;
      var savepoint := State();
      processed := processed + {d.eventId};
      var out := ApplyBusinessEffect(now, d.event);
      match out
      case Done(h, a) => return 200, false, h, a;
      case Threw(cause) =>
        Rollback(savepoint);
        // deliberate aborts have raised their own alert; the route raises one for anything unexpected
        var alert := if cause == T.CustomsLock then T.CustomsLockCaptured
                     else if cause == T.UniqueViolation then T.WebhookProcessingFailed
                     else T.WebhookAbortNonRecoverable;
        return 500, false, false, [alert];
    }
  }
}

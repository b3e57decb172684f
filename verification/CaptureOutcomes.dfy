/** What a capture or failure event comes to, said of the rows it finds and the rows it leaves, and
    who is paid on every run. */
module CaptureOutcomes {
  import opened Tables
  import opened Money
  import opened Transactions
  import opened Causes

  predicate Payable(m: Mission) {
    m.traveler.Some? && m.traveler.value.kycVerified && m.traveler.value.stripeAccountId.Some?
  }

  /** The journalling capture: once, on a held escrow. */
  predicate FirstCapture(db: Db, pi: Id)
    requires Integrity(db) && pi in db.byPaymentIntent
  {
    var e := db.escrows[db.byPaymentIntent[pi]];
    e.status == Held && e.capturedAmountCents == 0
  }

  /** A first capture that applies releases the escrow, with a transfer intent to the traveler's
      account, exactly when the traveler is there, verified and has an account; otherwise the money
      is journalled, the mission waits for the account and the alert says so. */
  lemma CaptureReleasesIff(db: Db, now: Instant, pi: Id, amount: int, metadata: Option<Id>)
    requires Integrity(db) && pi in db.byPaymentIntent && FirstCapture(db, pi)
    requires CaptureEffect(db, now, pi, amount, metadata).Applied?
    ensures var m := db.byPaymentIntent[pi];
            var mission, b := db.missions[m], CaptureEffect(db, now, pi, amount, metadata).db;
            && m in b.escrows && m in b.missions && b.escrows[m].capturedAmountCents == amount
            && (b.escrows[m].status == Released <==> Payable(mission))
            && (Payable(mission) ==> m in b.outbox && PayableTo(mission, b.outbox[m].destination)
                                     && CaptureEffect(db, now, pi, amount, metadata).alerts == [])
            && (!Payable(mission) ==>
                  && b.escrows[m].status == Held && b.outbox == db.outbox
                  && b.missions[m] == mission.(status := AwaitingTravelerAccount)
                  && CaptureEffect(db, now, pi, amount, metadata).alerts == [TravelerAccountMissing])
  {
    hide SplitSpendable, ReleaseLines;
  }

  /** What is left of the capture for the traveler and the buyer's wallet. */
  predicate LeavesResidual(m: Mission, spendable: int) {
    m.substitutionAuthorized && m.purchaseAmountCents.Some? && m.purchaseAmountCents.value < spendable
  }

  predicate LockedByCustoms(s: MissionStatus) {
    s == EscrowLockedCustoms || s == PendingCustomsReview
  }

  /** Every way a capture event can abort, in the order of the checks. */
  lemma CaptureAborts(db: Db, now: Instant, pi: Id, amount: int, metadata: Option<Id>)
    requires Integrity(db) && pi in db.byPaymentIntent
    ensures var m := db.byPaymentIntent[pi];
            var mission, e, effect := db.missions[m], db.escrows[m], CaptureEffect(db, now, pi, amount, metadata);
            var left := amount - mission.commissionCents;
            if e.status == Released then effect == Applied(db, false, [])
            else if amount <= 0 then effect == Aborted(EmptyCapture)
            else if !FirstCapture(db, pi) then
              effect == if e.capturedAmountCents == amount then Applied(db, false, [])
                else Aborted(CaptureStateConflict)
            else if !Payable(mission) then effect.Applied? && effect.handled
            else if left < 0 then effect == Aborted(NegativePayout)
            else if m in db.outbox
                    || (LeavesResidual(mission, left)
                        && exists i :: 0 <= i < |db.walletTxs| && db.walletTxs[i].missionId == m)
            then effect == Aborted(UniqueViolation)
            else if LockedByCustoms(mission.status) then effect == Aborted(CustomsLock)
            else effect.Applied? && effect.handled
  {
    hide ReleasedDb, ReleaseLines;
  }

  /** A failed payment cancels exactly a held, uncaptured escrow, and its mission unless that one has
      already ended; on a CANCELLED escrow it changes nothing, and on any other it aborts. */
  lemma FailureOutcome(db: Db, pi: Id)
    requires Integrity(db) && pi in db.byPaymentIntent
    ensures var m := db.byPaymentIntent[pi];
            var mission, e, effect := db.missions[m], db.escrows[m], PaymentFailedEffect(db, pi);
            if FirstCapture(db, pi) then
              && effect.Applied? && effect.handled && effect.alerts == []
              && effect.db == db.(escrows := effect.db.escrows, missions := effect.db.missions)
              && effect.db.escrows == db.escrows[m := e.(status := Cancelled)]
              && m in effect.db.missions && effect.db.missions == db.missions[m := effect.db.missions[m]]
              && effect.db.missions[m]
                 == mission.(status := match mission.status
                                       case MissionReleased => MissionReleased
                                       case MissionRefunded => MissionRefunded
                                       case _ => MissionCancelled)
            else if e.status == Cancelled then effect == Applied(db, false, [])
            else effect == Aborted(EscrowNotCancellable)
  {
  }
}

/** The daily checker: it reads escrows, ledger groups, payouts and transfer intents, and emits
    alerts. It must agree with the accounting rules it was written from. */
module Reconciliation {
  import opened Tables
  import opened Ledger
  import opened Accounting
  import opened Steps
  import opened PayoutLines
  import H = Histories
  import T = Transactions

  datatype Rule = A | B | C

  datatype Alert =
    | LedgerInvariantBroken(escrow: Id, rule: Rule)
    | PayoutNotSettled(escrow: Id, payoutCents: int, settledCents: int)
    | OrphanTransfer(escrow: Id)

  /** A row of TransferOutbox as the checker selects it. */
  datatype Transfer = Transfer(escrow: Id, status: TransferStatus, amountCents: int)

  datatype Group = Group(escrow: Id, kind: LedgerType)

  const PAYOUT_GRACE: nat := 60 * 60_000

  // ----- What it should emit

  /** The rules, read off the ledger itself. */
  function BrokenRules(ledger: seq<Entry>, m: Id, e: Escrow): seq<Alert> {
    (if RuleA(ledger, m, e) then [] else [LedgerInvariantBroken(m, A)])
    + (if RuleB(ledger, m) then [] else [LedgerInvariantBroken(m, B)])
    + (if RuleC(ledger, m, e) then [] else [LedgerInvariantBroken(m, C)])
  }

  function AllBrokenRules(ledger: seq<Entry>, order: seq<Id>, escrows: map<Id, Escrow>): seq<Alert>
    requires forall i :: 0 <= i < |order| ==> order[i] in escrows
  {
    if |order| == 0 then []
    else
      var last := order[|order| - 1];
      AllBrokenRules(ledger, order[..|order| - 1], escrows) + BrokenRules(ledger, last, escrows[last])
  }

  function SettledTotal(transfers: seq<Transfer>, m: Id): int {
    if |transfers| == 0 then 0
    else
      var t := transfers[|transfers| - 1];
      SettledTotal(transfers[..|transfers| - 1], m) + if t.escrow == m && t.status == Settled then t.amountCents else 0
  }

  function Overdue(payouts: seq<Entry>, transfers: seq<Transfer>, now: int): seq<Alert> {
    if |payouts| == 0 then []
    else
      var p := payouts[|payouts| - 1];
      var settled := SettledTotal(transfers, p.escrow);
      Overdue(payouts[..|payouts| - 1], transfers, now)
      + if settled < p.amountCents && p.createdAt < now - PAYOUT_GRACE
        then [PayoutNotSettled(p.escrow, p.amountCents, settled)] else []
  }

  predicate HasPayout(payouts: seq<Entry>, m: Id) {
    exists i :: 0 <= i < |payouts| && payouts[i].escrow == m
  }

  function Orphans(transfers: seq<Transfer>, payouts: seq<Entry>): seq<Alert> {
    if |transfers| == 0 then []
    else
      var t := transfers[|transfers| - 1];
      Orphans(transfers[..|transfers| - 1], payouts)
      + if t.status == Settled && !HasPayout(payouts, t.escrow) then [OrphanTransfer(t.escrow)] else []
  }

  lemma {:induction false} BrokenRulesIff(ledger: seq<Entry>, order: seq<Id>, escrows: map<Id, Escrow>, m: Id)
    requires forall i :: 0 <= i < |order| ==> order[i] in escrows
    ensures (exists r :: LedgerInvariantBroken(m, r) in AllBrokenRules(ledger, order, escrows))
            <==> m in order && !RulesHold(ledger, m, escrows[m])
  {
    if |order| > 0 {
      var shorter, last := order[..|order| - 1], order[|order| - 1];
      BrokenRulesIff(ledger, shorter, escrows, m);
      var mine := BrokenRules(ledger, last, escrows[last]);
      var before := AllBrokenRules(ledger, shorter, escrows);
      assert order == shorter + [last];
      assert AllBrokenRules(ledger, order, escrows) == before + mine;
      forall r ensures LedgerInvariantBroken(m, r) in before + mine
                       <==> LedgerInvariantBroken(m, r) in before || LedgerInvariantBroken(m, r) in mine {
      }
      OneBroken(ledger, last, escrows[last], m);
    }
  }

  lemma OneBroken(ledger: seq<Entry>, last: Id, e: Escrow, m: Id)
    ensures (exists r :: LedgerInvariantBroken(m, r) in BrokenRules(ledger, last, e))
            <==> m == last && !RulesHold(ledger, last, e)
  {
    hide SumOf, Outflow, RuleA, RuleB, RuleC;
    var mine := BrokenRules(ledger, last, e);
    if !RuleA(ledger, last, e) { assert LedgerInvariantBroken(last, A) in mine; }
    if !RuleB(ledger, last) { assert LedgerInvariantBroken(last, B) in mine; }
    if !RuleC(ledger, last, e) { assert LedgerInvariantBroken(last, C) in mine; }
  }

  lemma {:induction false} OrphanIff(transfers: seq<Transfer>, payouts: seq<Entry>, m: Id)
    ensures OrphanTransfer(m) in Orphans(transfers, payouts)
            <==> !HasPayout(payouts, m) && exists i :: 0 <= i < |transfers| && transfers[i].escrow == m
                                                       && transfers[i].status == Settled
  {
    if |transfers| > 0 {
      var shorter, t := transfers[..|transfers| - 1], transfers[|transfers| - 1];
      OrphanIff(shorter, payouts, m);
      forall i | 0 <= i < |shorter| ensures transfers[i] == shorter[i] {
      }
      assert forall i :: 0 <= i < |transfers| ==> i == |shorter| || transfers[i] == shorter[i];
    }
  }

  /** A payout is reported exactly when it is past the grace period and settled for less. */
  lemma {:induction false} OverdueIff(payouts: seq<Entry>, transfers: seq<Transfer>, now: int, m: Id)
    ensures (exists a, b :: PayoutNotSettled(m, a, b) in Overdue(payouts, transfers, now))
            <==> exists i :: 0 <= i < |payouts| && payouts[i].escrow == m
                             && SettledTotal(transfers, m) < payouts[i].amountCents
                             && payouts[i].createdAt < now - PAYOUT_GRACE
  {
    hide SettledTotal;
    if |payouts| > 0 {
      var shorter, p := payouts[..|payouts| - 1], payouts[|payouts| - 1];
      OverdueIff(shorter, transfers, now, m);
      assert forall i :: 0 <= i < |payouts| ==> i == |shorter| || payouts[i] == shorter[i];
      var before, after := Overdue(shorter, transfers, now), Overdue(payouts, transfers, now);
      var mine := PayoutNotSettled(p.escrow, p.amountCents, SettledTotal(transfers, p.escrow));
      assert forall x :: x in after ==> x in before || x == mine;
      assert before <= after;
      if p.escrow == m && SettledTotal(transfers, m) < p.amountCents && p.createdAt < now - PAYOUT_GRACE {
        assert mine in after;
      }
    }
  }

  // ----- What it emits

  class Checker {
    var alerts: seq<Alert>

    constructor ()
      ensures alerts == []
    {
      alerts := [];
    }

    method Emit(a: Alert)
      modifies this
      ensures alerts == old(alerts) + [a]
    {
      alerts := alerts + [a];
    }

    /** groupBy escrow and type, as the database sums it: a group exists only if it has a line. */
    static method GroupLedger(ledger: seq<Entry>) returns (sums: map<Group, int>)
      ensures forall e, k :: SumIn(sums, e, k) == SumOf(ledger, e, k)
    {
      sums := map[];
      for i := 0 to |ledger|
        invariant forall e, k :: SumIn(sums, e, k) == SumOf(ledger[..i], e, k)
      {
        var line := ledger[i];
        assert ledger[..i + 1] == ledger[..i] + [line];
        SumAppend(ledger[..i], line);
        var g := Group(line.escrow, line.kind);
        sums := sums[g := SumIn(sums, g.escrow, g.kind) + line.amountCents];
      }
      assert ledger[..|ledger|] == ledger;
    }

    /** The lookup the checker makes: a missing group is a sum of 0. */
    static function SumIn(sums: map<Group, int>, e: Id, k: LedgerType): int {
      if Group(e, k) in sums then sums[Group(e, k)] else 0
    }

    /** Section 1. The escrows and the groups come from two queries, so from two snapshots. */
    method CheckInvariants(order: seq<Id>, escrows: map<Id, Escrow>, ledger: seq<Entry>)
      requires forall i :: 0 <= i < |order| ==> order[i] in escrows
      modifies this
      ensures alerts == old(alerts) + AllBrokenRules(ledger, order, escrows)
    {
      var sums := GroupLedger(ledger);
      for i := 0 to |order|
        invariant alerts == old(alerts) + AllBrokenRules(ledger, order[..i], escrows)
      {
        assert order[..i + 1][..i] == order[..i];
        CheckEscrow(order[i], escrows[order[i]], sums, ledger);
      }
      assert order[..|order|] == order;
    }

    method CheckEscrow(m: Id, escrow: Escrow, sums: map<Group, int>, ghost ledger: seq<Entry>)
      requires forall e, k :: SumIn(sums, e, k) == SumOf(ledger, e, k)
      modifies this
      ensures alerts == old(alerts) + BrokenRules(ledger, m, escrow)
    {
      var capture := SumIn(sums, m, Capture);
      var outflow := SumIn(sums, m, Payout) + SumIn(sums, m, Commission) + SumIn(sums, m, Refund)
                     + SumIn(sums, m, BuyerWalletCredit);
      assert capture == SumOf(ledger, m, Capture) && outflow == Outflow(ledger, m);
      hide SumIn, SumOf, Outflow;
      if capture != escrow.capturedAmountCents {
        Emit(LedgerInvariantBroken(m, A));
      }
      if outflow > capture {
        Emit(LedgerInvariantBroken(m, B));
      }
      if (escrow.status == Released || escrow.status == Refunded) && outflow != capture {
        Emit(LedgerInvariantBroken(m, C));
      }
    }

    /** Section 2. Payouts and transfer intents come from two queries as well. */
    method CrossCheckPayouts(payouts: seq<Entry>, transfers: seq<Transfer>, now: int)
      modifies this
      ensures alerts == old(alerts) + Overdue(payouts, transfers, now) + Orphans(transfers, payouts)
    {
      var cutoff := now - PAYOUT_GRACE;
      var settledByEscrow: map<Id, int> := map[];
      for i := 0 to |transfers|
        invariant forall m ::
                    (if m in settledByEscrow then settledByEscrow[m] else 0) == SettledTotal(transfers[..i], m)
      {
        var o := transfers[i];
        assert transfers[..i + 1][..i] == transfers[..i];
        if o.status == Settled {
          settledByEscrow := settledByEscrow[o.escrow :=
            (if o.escrow in settledByEscrow then settledByEscrow[o.escrow] else 0) + o.amountCents];
        }
      }
      assert transfers[..|transfers|] == transfers;
      ghost var start := alerts;
      var payoutEscrows: set<Id> := {};
      for i := 0 to |payouts|
        invariant alerts == start + Overdue(payouts[..i], transfers, now)
        invariant forall m :: m in payoutEscrows <==> HasPayout(payouts[..i], m)
      {
        var p := payouts[i];
        assert payouts[..i + 1][..i] == payouts[..i];
        assert payouts[..i + 1] == payouts[..i] + [p];
        HasPayoutAppend(payouts[..i], p);
        var settledCents := if p.escrow in settledByEscrow then settledByEscrow[p.escrow] else 0;
        if settledCents < p.amountCents && p.createdAt < cutoff {
          Emit(PayoutNotSettled(p.escrow, p.amountCents, settledCents));
        }
        payoutEscrows := payoutEscrows + {p.escrow};
      }
      assert payouts[..|payouts|] == payouts;
      for i := 0 to |transfers|
        invariant alerts == start + Overdue(payouts, transfers, now) + Orphans(transfers[..i], payouts)
      {
        assert transfers[..i + 1][..i] == transfers[..i];
        var o := transfers[i];
        if o.status == Settled && o.escrow !in payoutEscrows {
          Emit(OrphanTransfer(o.escrow));
        }
      }
    }
  }

  lemma HasPayoutAppend(payouts: seq<Entry>, p: Entry)
    ensures forall m :: HasPayout(payouts + [p], m) <==> HasPayout(payouts, m) || m == p.escrow
  {
    forall m ensures HasPayout(payouts + [p], m) <==> HasPayout(payouts, m) || m == p.escrow {
      if HasPayout(payouts, m) {
        var i :| 0 <= i < |payouts| && payouts[i].escrow == m;
        assert (payouts + [p])[i] == payouts[i];
      }
      if m == p.escrow { assert (payouts + [p])[|payouts|] == p; }
    }
  }

  // ----- What it emits on reachable states

  lemma {:induction false} NothingBroken(ledger: seq<Entry>, order: seq<Id>, escrows: map<Id, Escrow>)
    requires forall i :: 0 <= i < |order| ==> order[i] in escrows && RulesHold(ledger, order[i], escrows[order[i]])
    ensures AllBrokenRules(ledger, order, escrows) == []
  {
    if |order| > 0 {
      var last := order[|order| - 1];
      NothingBroken(ledger, order[..|order| - 1], escrows);
      assert RulesHold(ledger, last, escrows[last]);
    }
  }

  /** The PAYOUT lines of the ledger, in order. */
  function PayoutsOf(ledger: seq<Entry>): (r: seq<Entry>)
    ensures forall i :: 0 <= i < |r| ==> r[i] in ledger && r[i].kind == Payout
    ensures forall i :: 0 <= i < |ledger| && ledger[i].kind == Payout ==> ledger[i] in r
  {
    if |ledger| == 0 then []
    else
      PayoutsOf(ledger[..|ledger| - 1])
      + if ledger[|ledger| - 1].kind == Payout then [ledger[|ledger| - 1]] else []
  }

  /** What a query on TransferOutbox returns: its rows, each once. */
  ghost predicate Selects(transfers: seq<Transfer>, outbox: map<Id, OutboxRow>) {
    && (forall i :: 0 <= i < |transfers| ==>
          && transfers[i].escrow in outbox
          && transfers[i].status == outbox[transfers[i].escrow].status
          && transfers[i].amountCents == outbox[transfers[i].escrow].amountCents)
    && forall i, j :: 0 <= i < j < |transfers| ==> transfers[i].escrow != transfers[j].escrow
  }

  /** On every reachable state the checker reports no broken rule and no orphan transfer. */
  lemma CheckerIsSilentOnEveryRun(actions: seq<TimedAction>, order: seq<Id>, transfers: seq<Transfer>)
    requires Integrity(EMPTY_DB)
    requires var db := Run(EMPTY_DB, actions);
             && (forall i :: 0 <= i < |order| ==> order[i] in db.escrows)
             && Selects(transfers, db.outbox)
    ensures var db := Run(EMPTY_DB, actions);
            && AllBrokenRules(db.ledger, order, db.escrows) == []
            && forall m :: OrphanTransfer(m) !in Orphans(transfers, PayoutsOf(db.ledger))
  {
    hide Run, Balanced, RulesHold, SumOf;
    RulesHoldOnEveryRun(actions);
    LinesBookedOnEveryRun(actions);
    var db := Run(EMPTY_DB, actions);
    NothingBroken(db.ledger, order, db.escrows);
    forall m ensures OrphanTransfer(m) !in Orphans(transfers, PayoutsOf(db.ledger)) {
      OrphanIff(transfers, PayoutsOf(db.ledger), m);
      if m in db.outbox {
        assert HasLine(db.ledger, m);
        var i :| 0 <= i < |db.ledger| && db.ledger[i].kind == Payout && db.ledger[i].escrow == m;
        assert db.ledger[i] in PayoutsOf(db.ledger);
      }
    }
  }

  lemma {:induction false} SettledTotalOfRow(transfers: seq<Transfer>, outbox: map<Id, OutboxRow>, i: nat)
    requires Selects(transfers, outbox) && i < |transfers|
    ensures var t := transfers[i];
            SettledTotal(transfers, t.escrow) == if t.status == Settled then t.amountCents else 0
  {
    var shorter, last := transfers[..|transfers| - 1], transfers[|transfers| - 1];
    if i < |shorter| {
      SettledTotalOfRow(shorter, outbox, i);
    } else {
      NotSelected(shorter, last.escrow);
    }
  }

  lemma {:induction false} NotSelected(transfers: seq<Transfer>, m: Id)
    requires forall i :: 0 <= i < |transfers| ==> transfers[i].escrow != m
    ensures SettledTotal(transfers, m) == 0
  {
    if |transfers| > 0 {
      NotSelected(transfers[..|transfers| - 1], m);
    }
  }

  // ----- Two queries, two snapshots

  /** The states that the first and the second query of a section see: two moments of one run. */
  ghost predicate Moments(actions: seq<TimedAction>, i: nat, mid: Db, end: Db) {
    && i <= |actions| && Integrity(EMPTY_DB)
    && mid == Run(EMPTY_DB, actions[..i]) && end == Run(EMPTY_DB, actions)
  }

  lemma BetweenMoments(actions: seq<TimedAction>, i: nat, mid: Db, end: Db)
    requires Moments(actions, i, mid, end)
    ensures H.EscrowsPersist(mid, end)
  {
    H.EscrowsPersistOnEveryRun(EMPTY_DB, actions, i);
  }

  /** Escrows read first, ledger groups later: a rule is reported for an escrow exactly when its
      capture was written in between. */
  lemma ReportedIffCapturedBetween(actions: seq<TimedAction>, i: nat, mid: Db, end: Db, m: Id)
    requires Moments(actions, i, mid, end) && m in mid.escrows
    ensures m in end.escrows
    ensures BrokenRules(end.ledger, m, mid.escrows[m]) == []
            <==> mid.escrows[m].capturedAmountCents == end.escrows[m].capturedAmountCents
  {
    hide Run, SumOf, Balanced, Outflow;
    BetweenMoments(actions, i, mid, end);
    RulesHoldOnEveryRun(actions);
    assert H.Persists(mid.escrows[m], end.escrows[m]);
    assert RulesHold(end.ledger, m, end.escrows[m]);
  }

  /** The alerts of a whole pass over the two snapshots. */
  lemma CheckerReportsIff(actions: seq<TimedAction>, i: nat, mid: Db, end: Db, order: seq<Id>, m: Id)
    requires Moments(actions, i, mid, end) && forall j :: 0 <= j < |order| ==> order[j] in mid.escrows
    ensures (exists r :: LedgerInvariantBroken(m, r) in AllBrokenRules(end.ledger, order, mid.escrows))
            <==> m in order && m in end.escrows
                 && mid.escrows[m].capturedAmountCents != end.escrows[m].capturedAmountCents
  {
    hide Run, SumOf, Balanced, RulesHold, AllBrokenRules, Moments;
    BrokenRulesIff(end.ledger, order, mid.escrows, m);
    if m in order {
      ReportedIffCapturedBetween(actions, i, mid, end, m);
      OneBroken(end.ledger, m, mid.escrows[m], m);
      NoneBroken(end.ledger, m, mid.escrows[m]);
    }
  }

  lemma NoneBroken(ledger: seq<Entry>, m: Id, e: Escrow)
    ensures BrokenRules(ledger, m, e) == [] <==> RulesHold(ledger, m, e)
  {
  }

  /** Payouts read first, transfer intents later: a transfer is reported as an orphan exactly when
      its release and its SETTLED verdict both fall in between. */
  lemma OrphanIffReleasedAndSettledBetween(
    actions: seq<TimedAction>, i: nat, mid: Db, end: Db, transfers: seq<Transfer>, m: Id)
    requires Moments(actions, i, mid, end) && Selects(transfers, end.outbox) && Complete(transfers, end.outbox)
    ensures OrphanTransfer(m) in Orphans(transfers, PayoutsOf(mid.ledger))
            <==> m in end.outbox && end.outbox[m].status == Settled && m !in mid.outbox
  {
    hide Run;
    LinesBookedOnEveryRun(actions[..i]);
    OrphanIff(transfers, PayoutsOf(mid.ledger), m);
    PaidIff(mid, m);
    if m in end.outbox {
      var k :| 0 <= k < |transfers| && transfers[k].escrow == m;
    }
  }

  ghost predicate Complete(transfers: seq<Transfer>, outbox: map<Id, OutboxRow>) {
    forall k :: k in outbox ==> exists i :: 0 <= i < |transfers| && transfers[i].escrow == k
  }

  lemma PaidIff(db: Db, m: Id)
    requires LinesBooked(db.ledger, db.outbox)
    ensures HasPayout(PayoutsOf(db.ledger), m) <==> m in db.outbox
  {
    if m in db.outbox {
      assert HasLine(db.ledger, m);
      var i :| 0 <= i < |db.ledger| && db.ledger[i].kind == Payout && db.ledger[i].escrow == m;
      assert db.ledger[i] in PayoutsOf(db.ledger);
    }
    if HasPayout(PayoutsOf(db.ledger), m) {
      var j :| 0 <= j < |PayoutsOf(db.ledger)| && PayoutsOf(db.ledger)[j].escrow == m;
      var i :| 0 <= i < |db.ledger| && db.ledger[i] == PayoutsOf(db.ledger)[j];
      assert LineBooked(db.ledger, db.outbox, i);
    }
  }

  /** A payout is reported as unsettled exactly when it was there at the first query, is past the
      grace period, is positive, and its intent is not SETTLED at the second. */
  lemma OverdueMeansUnsettled(
    actions: seq<TimedAction>, i: nat, mid: Db, end: Db, transfers: seq<Transfer>, now: int, m: Id)
    requires Moments(actions, i, mid, end) && Selects(transfers, end.outbox) && Complete(transfers, end.outbox)
    ensures (exists a, b :: PayoutNotSettled(m, a, b) in Overdue(PayoutsOf(mid.ledger), transfers, now))
            <==> && m in mid.outbox && m in end.outbox
                 && end.outbox[m].status != Settled && end.outbox[m].amountCents > 0
                 && HasOldPayout(mid.ledger, m, now - PAYOUT_GRACE)
  {
    hide Run, SettledTotal, Overdue, Integrity;
    BetweenMoments(actions, i, mid, end);
    LinesBookedOnEveryRun(actions[..i]);
    LinesBookedOnEveryRun(actions);
    OverdueIff(PayoutsOf(mid.ledger), transfers, now, m);
    PaidIff(mid, m);
    forall j | 0 <= j < |mid.ledger| && mid.ledger[j].kind == Payout && mid.ledger[j].escrow == m
      ensures mid.ledger[j] in PayoutsOf(mid.ledger)
              && m in end.outbox && mid.ledger[j].amountCents == end.outbox[m].amountCents {
      assert end.ledger[j] == mid.ledger[j] && LineBooked(end.ledger, end.outbox, j);
    }
    forall j | 0 <= j < |PayoutsOf(mid.ledger)| && PayoutsOf(mid.ledger)[j].escrow == m
      ensures m in end.outbox && PayoutsOf(mid.ledger)[j].amountCents == end.outbox[m].amountCents {
      var k :| 0 <= k < |mid.ledger| && mid.ledger[k] == PayoutsOf(mid.ledger)[j];
    }
    if m in end.outbox {
      var k :| 0 <= k < |transfers| && transfers[k].escrow == m;
      SettledTotalOfRow(transfers, end.outbox, k);
    }
  }

  predicate HasOldPayout(ledger: seq<Entry>, m: Id, cutoff: int) {
    exists i :: 0 <= i < |ledger| && ledger[i].kind == Payout && ledger[i].escrow == m && ledger[i].createdAt < cutoff
  }

  // ----- Both happen

  const ORDER := Mission(Created, 20, None, 100_00, 10_00, false, None)
  const READY := Some(Traveler(Some(30), true))
  const CAPTURE_EVENT := T.Delivery(3, T.IntentSucceeded(5, 110_00, Some(1)))

  const OPENED: seq<TimedAction> :=
    [At(0, Route(CreateMission(1, ORDER)))] + [At(0, Route(InsertEscrow(1, 5, 100_00)))]
    + [At(0, Route(UpdateMission(1, Validated, READY)))]
  const TORN: seq<TimedAction> := OPENED + [At(0, Webhook(CAPTURE_EVENT))]
  const SETTLED_ROWS := map[1 := OutboxRow(100_00, 30, Settled, 0, 0, 0, Some(1))]
  const SELECTED := [Transfer(1, Settled, 100_00)]
  const PAID: seq<TimedAction> := TORN + [At(0, Transfers(SETTLED_ROWS))]

  function OpenedDb(): Db {
    EMPTY_DB.(missions := map[1 := ORDER.(status := Validated, traveler := READY)],
              escrows := map[1 := Escrow(5, Held, 0, 100_00)], byPaymentIntent := map[5 := 1])
  }

  lemma OpeningRuns()
    ensures Integrity(EMPTY_DB) && Run(EMPTY_DB, OPENED) == OpenedDb()
  {
    var create, open := At(0, Route(CreateMission(1, ORDER))), At(0, Route(InsertEscrow(1, 5, 100_00)));
    H.RunAppend(EMPTY_DB, [], create);
    assert [] + [create] == [create];
    H.RunAppend(EMPTY_DB, [create], open);
    H.RunAppend(EMPTY_DB, [create] + [open], At(0, Route(UpdateMission(1, Validated, READY))));
  }

  lemma TornRuns()
    ensures Integrity(EMPTY_DB) && Integrity(OpenedDb())
    ensures Run(EMPTY_DB, TORN) == Step(OpenedDb(), 0, Webhook(CAPTURE_EVENT))
    ensures var end := Run(EMPTY_DB, TORN);
            && 1 in end.escrows && end.escrows[1].capturedAmountCents == 110_00
            && end.outbox == map[1 := OutboxRow(100_00, 30, Pending, 0, 0, 0, None)]
  {
    OpeningRuns();
    H.RunAppend(EMPTY_DB, OPENED, At(0, Webhook(CAPTURE_EVENT)));
    hide Run, SumOf, T.ReleaseLines;
  }

  /** A capture between the two queries of section 1 is reported although the rules hold at both
      moments. */
  lemma TornReadIsReported()
    ensures Moments(TORN, |OPENED|, OpenedDb(), Run(EMPTY_DB, TORN))
    ensures exists r :: LedgerInvariantBroken(1, r) in AllBrokenRules(Run(EMPTY_DB, TORN).ledger, [1],
                                                                      OpenedDb().escrows)
  {
    OpeningRuns();
    TornRuns();
    assert TORN[..|OPENED|] == OPENED;
    CheckerReportsIff(TORN, |OPENED|, OpenedDb(), Run(EMPTY_DB, TORN), [1], 1);
  }

  lemma TransfersWrite(db: Db, now: Instant, rows: map<Id, OutboxRow>)
    requires Integrity(db) && SameIntents(db.outbox, rows)
    ensures Step(db, now, Transfers(rows)).outbox == rows
  {
  }

  lemma PaidRuns()
    ensures Integrity(EMPTY_DB)
    ensures Run(EMPTY_DB, PAID).outbox == SETTLED_ROWS
  {
    TornRuns();
    H.RunAppend(EMPTY_DB, TORN, At(0, Transfers(SETTLED_ROWS)));
    hide Step, Run, Integrity;
    TransfersWrite(Run(EMPTY_DB, TORN), 0, SETTLED_ROWS);
  }

  lemma SelectsSettled()
    ensures Selects(SELECTED, SETTLED_ROWS) && Complete(SELECTED, SETTLED_ROWS)
  {
    assert SELECTED[0].escrow == 1;
  }

  /** A release and its settlement between the two queries of section 2 are reported as an orphan. */
  lemma TornReadOrphans()
    ensures Moments(PAID, |OPENED|, OpenedDb(), Run(EMPTY_DB, PAID))
    ensures OrphanTransfer(1) in Orphans(SELECTED, PayoutsOf(OpenedDb().ledger))
    ensures Selects(SELECTED, Run(EMPTY_DB, PAID).outbox)
  {
    OpeningRuns();
    PaidRuns();
    assert PAID[..|OPENED|] == OPENED;
    SelectsSettled();
    hide Run, Step, Integrity, Orphans, Selects, Complete;
    OrphanIffReleasedAndSettledBetween(PAID, |OPENED|, OpenedDb(), Run(EMPTY_DB, PAID), SELECTED, 1);
  }
}

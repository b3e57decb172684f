/** The client extension that refuses to mutate a terminal escrow: it reads the targeted rows with
    the caller's own filter, from what is committed, and only then lets the write through. */
module EscrowGuard {
  import opened Tables
  import Money
  import Ledger
  import T = Transactions
  import S = Steps

  type Table = map<Id, Escrow>
  type Where = Escrow -> bool

  /** A write refused by the guard, a write of a row that does not exist, or the new table. */
  datatype Outcome =
    | Immutable(statuses: seq<EscrowStatus>)
    | NotFound
    | Written(table: Table, count: nat)

  // ----- The writes themselves

  function Selected(table: Table, where: Where): set<Id> {
    set m | m in table && where(table[m])
  }

  function Overwritten(table: Table, where: Where, data: Escrow -> Escrow): Table {
    map m | m in table :: if where(table[m]) then data(table[m]) else table[m]
  }

  function UpdateMany(table: Table, where: Where, data: Escrow -> Escrow): Outcome {
    Written(Overwritten(table, where, data), |Selected(table, where)|)
  }

  function Update(table: Table, m: Id, data: Escrow -> Escrow): Outcome {
    if m in table then Written(table[m := data(table[m])], 1) else NotFound
  }

  function Upsert(table: Table, m: Id, created: Escrow, data: Escrow -> Escrow): Outcome {
    Written(table[m := if m in table then data(table[m]) else created], 1)
  }

  // ----- The guard in front of them

  function TerminalAmong(rows: seq<EscrowStatus>): seq<EscrowStatus> {
    if |rows| == 0 then []
    else TerminalAmong(rows[..|rows| - 1]) + if Terminal(rows[|rows| - 1]) then [rows[|rows| - 1]] else []
  }

  lemma {:induction false} TerminalAmongIff(rows: seq<EscrowStatus>)
    ensures TerminalAmong(rows) == [] <==> forall i :: 0 <= i < |rows| ==> !Terminal(rows[i])
  {
    if |rows| > 0 {
      TerminalAmongIff(rows[..|rows| - 1]);
    }
  }

  /** ensureMutable: the terminal statuses found, to be thrown if there are any. */
  method EnsureMutable(rows: seq<EscrowStatus>) returns (terminal: seq<EscrowStatus>)
    ensures terminal == TerminalAmong(rows)
  {
    terminal := [];
    for i := 0 to |rows|
      invariant terminal == TerminalAmong(rows[..i])
    {
      assert rows[..i + 1][..i] == rows[..i];
      if rows[i] == Released || rows[i] == Refunded || rows[i] == Cancelled {
        terminal := terminal + [rows[i]];
      }
    }
    assert rows[..|rows|] == rows;
  }

  /** What a query selects, in some order. */
  ghost predicate Lists(order: seq<Id>, table: Table, where: Where) {
    && (forall i :: 0 <= i < |order| ==> order[i] in Selected(table, where))
    && (forall m :: m in Selected(table, where) ==> m in order)
  }

  function StatusesOf(order: seq<Id>, table: Table): seq<EscrowStatus>
    requires forall i :: 0 <= i < |order| ==> order[i] in table
  {
    seq(|order|, i requires 0 <= i < |order| => table[order[i]].status)
  }

  class EscrowTable {
    var rows: Table

    constructor (rows: Table)
      ensures this.rows == rows
    {
      this.rows := rows;
    }

    /** updateMany behind the guard. `committed` is what the base client reads, `order` the order it
        returns the rows in; the write itself sees this transaction's rows. */
    method GuardedUpdateMany(committed: Table, order: seq<Id>, where: Where, data: Escrow -> Escrow)
      returns (out: Outcome)
      requires Lists(order, committed, where)
      modifies this
      ensures out.Immutable? <==>
                exists m :: m in committed && where(committed[m])
                            && (committed[m].status == Released || committed[m].status == Refunded
                                || committed[m].status == Cancelled)
      ensures out.Immutable? ==> rows == old(rows)
      ensures !out.Immutable? ==> out == UpdateMany(old(rows), where, data) && rows == out.table
    {
      var statuses := AssertManyMutable(committed, order, where);
      if |statuses| > 0 { return Immutable(statuses); }
      out := WriteMany(where, data);
    }

    /** assertManyMutable: the terminal statuses among the selected rows. */
    static method AssertManyMutable(committed: Table, order: seq<Id>, where: Where)
      returns (terminal: seq<EscrowStatus>)
      requires Lists(order, committed, where)
      ensures terminal != [] <==> exists m :: m in committed && where(committed[m]) && Terminal(committed[m].status)
    {
      var statuses := StatusesOf(order, committed);
      terminal := EnsureMutable(statuses);
      TerminalAmongIff(statuses);
      if terminal == [] {
        forall m | m in committed && where(committed[m]) ensures !Terminal(committed[m].status) {
          assert m in Selected(committed, where);
          var i :| 0 <= i < |order| && order[i] == m;
          assert !Terminal(statuses[i]);
        }
      } else {
        var i :| 0 <= i < |statuses| && Terminal(statuses[i]);
        assert order[i] in Selected(committed, where);
      }
    }

    method WriteMany(where: Where, data: Escrow -> Escrow) returns (out: Outcome)
      modifies this
      ensures out == UpdateMany(old(rows), where, data) && rows == out.table
    {
      ghost var before := rows;
      ghost var selected, target := Selected(before, where), Overwritten(before, where, data);
      SelectedIs(before, where, data);
      PartlyEnds(before, target);
      hide Selected, Overwritten, Partly;
      var count, left := 0, rows.Keys;
      assert selected - left == {};
      while left != {}
        invariant left <= before.Keys && rows == Partly(before, target, left)
        invariant count == |selected - left|
        decreases left
      {
        var m :| m in left;
        CountOne(selected, left, m);
        PartlyStep(before, target, left, m);
        left := left - {m};
        if where(rows[m]) {
          rows := rows[m := data(rows[m])];
          count := count + 1;
        }
      }
      assert selected - left == selected;
      return Written(rows, count);
    }

    /** The table when the rows in `left` are still to be visited. */
    static ghost function Partly(before: Table, target: Table, left: set<Id>): Table
      requires before.Keys == target.Keys
    {
      map m | m in before :: if m in left then before[m] else target[m]
    }

    static lemma PartlyEnds(before: Table, target: Table)
      requires before.Keys == target.Keys
      ensures Partly(before, target, before.Keys) == before && Partly(before, target, {}) == target
    {
    }

    static lemma PartlyStep(before: Table, target: Table, left: set<Id>, m: Id)
      requires before.Keys == target.Keys && m in left && m in before
      ensures m in Partly(before, target, left) && Partly(before, target, left)[m] == before[m]
      ensures Partly(before, target, left - {m}) == Partly(before, target, left)[m := target[m]]
      ensures target[m] == before[m] ==> Partly(before, target, left - {m}) == Partly(before, target, left)
    {
    }

    static lemma CountOne(selected: set<Id>, left: set<Id>, m: Id)
      requires m in left
      ensures |selected - (left - {m})| == |selected - left| + if m in selected then 1 else 0
    {
      assert selected - (left - {m}) == (selected - left) + if m in selected then {m} else {};
    }

    static function OverwrittenRow(table: Table, where: Where, data: Escrow -> Escrow, m: Id): Escrow
      requires m in table
    {
      if where(table[m]) then data(table[m]) else table[m]
    }

    static lemma SelectedIs(table: Table, where: Where, data: Escrow -> Escrow)
      ensures forall m :: m in Selected(table, where) <==> m in table && where(table[m])
      ensures Overwritten(table, where, data).Keys == table.Keys
      ensures forall m :: m in table ==> Overwritten(table, where, data)[m] == OverwrittenRow(table, where, data, m)
    {
    }

    /** update and upsert: the guard looks the row up by its unique column. */
    method GuardedUpdate(committed: Table, m: Id, data: Escrow -> Escrow) returns (out: Outcome)
      modifies this
      ensures if m in committed && Terminal(committed[m].status)
              then out == Immutable([committed[m].status]) && rows == old(rows)
              else out == Update(old(rows), m, data) && rows == if out.Written? then out.table else old(rows)
    {
      if m in committed {
        var terminal := EnsureMutable([committed[m].status]);
        TerminalAmongIff([committed[m].status]);
        assert TerminalAmong([committed[m].status][..0]) == [];
        if |terminal| > 0 { return Immutable(terminal); }
      }
      if m !in rows { return NotFound; }
      rows := rows[m := data(rows[m])];
      return Written(rows, 1);
    }

    method GuardedUpsert(committed: Table, m: Id, created: Escrow, data: Escrow -> Escrow) returns (out: Outcome)
      modifies this
      ensures if m in committed && Terminal(committed[m].status)
              then out == Immutable([committed[m].status]) && rows == old(rows)
              else out == Upsert(old(rows), m, created, data) && rows == out.table
    {
      if m in committed {
        var terminal := EnsureMutable([committed[m].status]);
        TerminalAmongIff([committed[m].status]);
        assert TerminalAmong([committed[m].status][..0]) == [];
        if |terminal| > 0 { return Immutable(terminal); }
      }
      rows := rows[m := if m in rows then data(rows[m]) else created];
      return Written(rows, 1);
    }
  }

  // ----- What the guard guarantees

  /** updateMany behind the guard, as one value: `committed` is what the pre-read sees. */
  ghost function Guarded(committed: Table, table: Table, where: Where, data: Escrow -> Escrow): Outcome {
    if exists m :: m in committed && where(committed[m]) && Terminal(committed[m].status) then Immutable([])
    else UpdateMany(table, where, data)
  }

  ghost predicate ChangesTerminal(table: Table, out: Outcome) {
    out.Written? && exists m :: m in table && Terminal(table[m].status)
                                && (m !in out.table || out.table[m] != table[m])
  }

  /** Exactly when a terminal row is changed: the pre-read saw no terminal row that the filter
      selects, and the table the write sees has one that the data would change. */
  lemma ChangesTerminalIff(committed: Table, table: Table, where: Where, data: Escrow -> Escrow)
    ensures ChangesTerminal(table, Guarded(committed, table, where, data))
            <==> && (forall m :: m in committed && where(committed[m]) ==> !Terminal(committed[m].status))
                 && exists m :: m in table && Terminal(table[m].status) && where(table[m]) && data(table[m]) != table[m]
  {
    var out := Guarded(committed, table, where, data);
    if m :| m in table && Terminal(table[m].status) && where(table[m]) && data(table[m]) != table[m] {
      if out.Written? { assert out.table[m] != table[m]; }
    }
  }

  /** On a table nobody else disturbs, no terminal row ever changes, whatever the filter. */
  lemma UndisturbedIsSafe(table: Table, where: Where, data: Escrow -> Escrow)
    ensures !ChangesTerminal(table, Guarded(table, table, where, data))
  {
    ChangesTerminalIff(table, table, where, data);
  }

  ghost predicate ExcludesTerminal(where: Where) {
    forall e: Escrow :: Terminal(e.status) ==> !where(e)
  }

  ghost predicate GuardIsIdentity(where: Where) {
    forall committed, table, data :: Guarded(committed, table, where, data) == UpdateMany(table, where, data)
  }

  /** The guard never gets in the way of a write, whatever commits between its pre-read and the
      write, exactly for the filters that exclude the terminal statuses. */
  lemma IdentityIff(where: Where)
    ensures GuardIsIdentity(where) <==> ExcludesTerminal(where)
  {
    if !ExcludesTerminal(where) {
      var e: Escrow :| Terminal(e.status) && where(e);
      var committed: Table := map[0 := e];
      assert committed[0] == e;
      assert Guarded(committed, map[], where, x => x) != UpdateMany(map[], where, x => x);
    }
  }

  // ----- The transitions of the repository behind the guard

  /** The filter { id, status: HELD }. */
  function HeldRow(pi: Id): Where {
    (e: Escrow) => e.stripePaymentIntentId == pi && e.status == Held
  }

  /** The filter { id, status: HELD, capturedAmountCents: 0 }. */
  function UncapturedRow(pi: Id): Where {
    (e: Escrow) => e.stripePaymentIntentId == pi && e.status == Held && e.capturedAmountCents == 0
  }

  /** The filter { id, status: { in: [HELD, PARTIALLY_REFUNDED] } }. */
  function RefundableRow(pi: Id): Where {
    (e: Escrow) => e.stripePaymentIntentId == pi && (e.status == Held || e.status == PartiallyRefunded)
  }

  function SetStatus(s: EscrowStatus): Escrow -> Escrow {
    (e: Escrow) => e.(status := s)
  }

  /** Behind the guard, a filter on one open escrow updates that escrow or nothing, whatever is
      committed at the pre-read. */
  lemma OneOpenRow(db: Db, m: Id, committed: Table, where: Where, data: Escrow -> Escrow)
    requires Integrity(db) && m in db.escrows && ExcludesTerminal(where)
    requires forall e: Escrow :: where(e) ==> e.stripePaymentIntentId == db.escrows[m].stripePaymentIntentId
    ensures Guarded(committed, db.escrows, where, data)
            == if where(db.escrows[m]) then Written(db.escrows[m := data(db.escrows[m])], 1) else Written(db.escrows, 0)
  {
    IdentityIff(where);
    assert Guarded(committed, db.escrows, where, data) == UpdateMany(db.escrows, where, data);
    assert forall k :: k in db.escrows && where(db.escrows[k]) ==> k == m;
    assert Selected(db.escrows, where) == if where(db.escrows[m]) then {m} else {};
    assert Overwritten(db.escrows, where, data)
           == if where(db.escrows[m]) then db.escrows[m := data(db.escrows[m])] else db.escrows;
  }

  /** The guard never refuses the journalling of a capture: it hits exactly a held, uncaptured
      escrow, and writes what the capture transaction writes. */
  lemma CaptureBehindGuard(db: Db, now: Instant, m: Id, amount: int, committed: Table)
    requires Integrity(db) && m in db.escrows
    ensures var e := db.escrows[m];
            Guarded(committed, db.escrows, UncapturedRow(e.stripePaymentIntentId),
                    (x: Escrow) => x.(capturedAmountCents := amount))
            == if e.status == Held && e.capturedAmountCents == 0
               then Written(T.Journal(db, now, m, amount).escrows, 1) else Written(db.escrows, 0)
  {
    var e := db.escrows[m];
    OneOpenRow(db, m, committed, UncapturedRow(e.stripePaymentIntentId),
               (x: Escrow) => x.(capturedAmountCents := amount));
  }

  lemma ReleaseBehindGuard(db: Db, now: Instant, m: Id, account: Id, split: Money.Split, committed: Table)
    requires Integrity(db) && m in db.escrows
    ensures var e := db.escrows[m];
            Guarded(committed, db.escrows, HeldRow(e.stripePaymentIntentId), SetStatus(Released))
            == if e.status == Held then Written(T.ReleasedDb(db, now, m, account, split).escrows, 1)
               else Written(db.escrows, 0)
  {
    T.ReleasedParts(db, now, m, account, split);
    OneOpenRow(db, m, committed, HeldRow(db.escrows[m].stripePaymentIntentId), SetStatus(Released));
  }

  lemma FailureBehindGuard(db: Db, m: Id, committed: Table)
    requires Integrity(db) && m in db.escrows
    ensures var e := db.escrows[m];
            var out := Guarded(committed, db.escrows, UncapturedRow(e.stripePaymentIntentId), SetStatus(Cancelled));
            var failed := T.PaymentFailedEffect(db, e.stripePaymentIntentId);
            && out.Written? && (failed.Applied? ==> out.table == failed.db.escrows)
            && (out.count == 1 <==> failed.Applied? && failed.handled)
            && (S.RollbackFundingTx(db, m) != db ==> out == Written(S.RollbackFundingTx(db, m).escrows, 1))
  {
    OneOpenRow(db, m, committed, UncapturedRow(db.escrows[m].stripePaymentIntentId), SetStatus(Cancelled));
  }

  lemma RefundBehindGuard(db: Db, now: Instant, m: Id, cumul: int, committed: Table)
    requires Integrity(db) && m in db.escrows
    ensures var e, sofar := db.escrows[m], Ledger.SumOf(db.ledger, m, Refund);
            var status := if cumul >= e.capturedAmountCents then Refunded else PartiallyRefunded;
            cumul <= e.capturedAmountCents ==>
              Guarded(committed, db.escrows, RefundableRow(e.stripePaymentIntentId), SetStatus(status))
              == if e.status == Held || e.status == PartiallyRefunded
                 then Written(T.RefundedDb(db, now, m, cumul, sofar).escrows, 1) else Written(db.escrows, 0)
  {
    var status := if cumul >= db.escrows[m].capturedAmountCents then Refunded else PartiallyRefunded;
    OneOpenRow(db, m, committed, RefundableRow(db.escrows[m].stripePaymentIntentId), SetStatus(status));
  }

  /** The success verdicts of the dispute resolution and penalty workers. */
  lemma VerdictBehindGuard(db: Db, m: Id, committed: Table)
    requires Integrity(db) && m in db.escrows
    ensures var out := Guarded(committed, db.escrows, HeldRow(db.escrows[m].stripePaymentIntentId),
                               SetStatus(Cancelled));
            out.Written? && out.table == S.CancelHeld(db.escrows, m)
  {
    OneOpenRow(db, m, committed, HeldRow(db.escrows[m].stripePaymentIntentId), SetStatus(Cancelled));
  }

  /** A filter by id alone is not safe: another transaction releases the row after the pre-read. */
  lemma DisturbedByIdAlone(pi: Id, amount: int)
    ensures var held, released := Escrow(pi, Held, amount, 0), Escrow(pi, Released, amount, 0);
            ChangesTerminal(map[7 := released],
                            Guarded(map[7 := held], map[7 := released], _ => true,
                                    (e: Escrow) => e.(status := Cancelled)))
  {
    var held, released := Escrow(pi, Held, amount, 0), Escrow(pi, Released, amount, 0);
    var data := (e: Escrow) => e.(status := Cancelled);
    assert map[7 := released][7] == released;
    ChangesTerminalIff(map[7 := held], map[7 := released], _ => true, data);
  }
}

/** Concurrent transactions on one escrow, statement by statement, under READ COMMITTED: a statement
    sees what is committed plus its own transaction's writes, SELECT FOR UPDATE and a matching
    UPDATE take the row lock until the transaction ends, and an INSERT takes no lock.

    `locking` says whether the two money handlers issue their SELECT FOR UPDATE. */
module RowLock {
  import opened Tables
  import opened Money
  import opened Ledger
  import opened Transactions

  /** A transaction on the escrow with the arguments it was started with; `mission` is what the
      capture handler read before it asked for the lock. */
  datatype Job =
    | CaptureJob(now: Instant, amount: int, mission: Mission)
    | RefundJob(now: Instant, cumul: int)
    | PaymentFailedJob
    | CancelJob                // UPDATE ... CANCELLED WHERE HELD, by a worker's verdict
    | CustomsJob(now: Instant) // an unlocked INSERT of a zero refund line

  /** The next statement of a transaction. */
  datatype Phase =
    | Begin | AwaitLock | Locked | FreshRead(seen: Escrow) | CaptureWritten | Journalled
    | MarkedReleased | Summed(delta: int) | RefundMarked(delta: int) | Ready

  /** `read` is the row as read before the lock; `row` and `lines` are uncommitted writes. */
  datatype Tx = Tx(job: Job, phase: Phase, read: Escrow, row: Escrow, lines: seq<Entry>)

  /** What is committed for the escrow `m`. */
  datatype Books = Books(row: Escrow, ledger: seq<Entry>)

  datatype System = System(m: Id, books: Books, owner: Option<Id>, txs: map<Id, Tx>, history: seq<Job>)

  datatype Action = Start(t: Id, job: Job) | Advance(t: Id) | Abort(t: Id)

  datatype Next = Blocked | Rollback | Continue(tx: Tx, owns: bool)

  function CaptureStatement(m: Id, locking: bool, tx: Tx, view: Escrow, owns: bool, free: bool): Next
    requires tx.job.CaptureJob?
  {
    var CaptureJob(now, amount, mission) := tx.job;
    match tx.phase
    case Begin => Continue(tx.(phase := AwaitLock, read := view), owns)
    case AwaitLock =>
      if !locking then Continue(tx.(phase := Locked), owns)
      else if !free then Blocked else Continue(tx.(phase := Locked, row := view), true)
    case Locked =>
      if view.status == Released then Continue(tx.(phase := Ready), owns)
      else if amount <= 0 then Rollback
      else Continue(tx.(phase := FreshRead(view)), owns)
    case FreshRead(seen) =>
      if view.status == Held && view.capturedAmountCents == 0 then
        if !free then Blocked
        else Continue(tx.(phase := CaptureWritten, row := view.(capturedAmountCents := amount)), true)
      else if seen.capturedAmountCents == amount then Continue(tx.(phase := Ready), owns)
      else Rollback
    case CaptureWritten =>
      Continue(tx.(phase := Journalled, lines := tx.lines + [Entry(m, Capture, amount, now)]), owns)
    case Journalled =>
      if PayoutAccount(mission).None? then Continue(tx.(phase := Ready), owns)
      else if view.status != Held then Rollback
      else if !free then Blocked
      else Continue(tx.(phase := MarkedReleased, row := view.(status := Released)), true)
    case MarkedReleased =>
      var spendable := amount - mission.commissionCents;
      if spendable < 0 then Rollback
      else
        Continue(tx.(phase := Ready,
                     lines := tx.lines + ReleaseLines(now, m, mission.commissionCents,
                                                      SplitSpendable(mission, spendable))), owns)
    case _ => Blocked
  }

  function RefundStatement(m: Id, locking: bool, tx: Tx, view: Escrow, owns: bool, free: bool, refunded: int): Next
    requires tx.job.RefundJob?
  {
    var RefundJob(now, cumul) := tx.job;
    match tx.phase
    case Begin =>
      if view.capturedAmountCents <= 0 then Rollback else Continue(tx.(phase := AwaitLock, read := view), owns)
    case AwaitLock =>
      if !locking then Continue(tx.(phase := Locked), owns)
      else if !free then Blocked else Continue(tx.(phase := Locked, row := view), true)
    case Locked =>
      var delta := cumul - refunded;
      if delta == 0 then Continue(tx.(phase := Ready), owns)
      else if delta < 0 then Rollback
      else if refunded + delta > tx.read.capturedAmountCents then Rollback
      else Continue(tx.(phase := Summed(delta)), owns)
    case Summed(delta) =>
      if view.status != Held && view.status != PartiallyRefunded then Rollback
      else if !free then Blocked
      else Continue(tx.(phase := RefundMarked(delta),
                        row := view.(status := if cumul >= tx.read.capturedAmountCents then Refunded
                                               else PartiallyRefunded)), true)
    case RefundMarked(delta) =>
      Continue(tx.(phase := Ready, lines := tx.lines + [Entry(m, Refund, delta, now)]), owns)
    case _ => Blocked
  }

  function OtherStatement(m: Id, tx: Tx, view: Escrow, owns: bool, free: bool): Next
    requires !tx.job.CaptureJob? && !tx.job.RefundJob?
  {
    match tx.job
    case PaymentFailedJob =>
      (match tx.phase
       case Begin => Continue(tx.(phase := AwaitLock, read := view), owns)
       case AwaitLock =>
         if view.status == Held && view.capturedAmountCents == 0 then
           if !free then Blocked else Continue(tx.(phase := Ready, row := view.(status := Cancelled)), true)
         else if tx.read.status == Cancelled then Continue(tx.(phase := Ready), owns)
         else Rollback
       case _ => Blocked)
    case CancelJob =>
      if tx.phase != Begin then Blocked
      else if view.status != Held then Continue(tx.(phase := Ready), owns)
      else if !free then Blocked
      else Continue(tx.(phase := Ready, row := view.(status := Cancelled)), true)
    case CustomsJob(now) =>
      if tx.phase != Begin then Blocked
      else Continue(tx.(phase := Ready, lines := tx.lines + [Entry(m, Refund, 0, now)]), owns)
  }

  function Statement(locking: bool, s: System, t: Id): Next
    requires t in s.txs
  {
    var tx, owns := s.txs[t], s.owner == Some(t);
    var view := if owns then tx.row else s.books.row;
    var free := owns || s.owner.None?;
    if tx.job.CaptureJob? then CaptureStatement(s.m, locking, tx, view, owns, free)
    else if tx.job.RefundJob? then
      RefundStatement(s.m, locking, tx, view, owns, free, SumOf(s.books.ledger + tx.lines, s.m, Refund))
    else OtherStatement(s.m, tx, view, owns, free)
  }

  function Release(s: System, t: Id): System {
    s.(txs := s.txs - {t}, owner := if s.owner == Some(t) then None else s.owner)
  }

  function Commit(s: System, t: Id): System
    requires t in s.txs
  {
    var tx := s.txs[t];
    Release(s, t).(
      books := Books(if s.owner == Some(t) then tx.row else s.books.row, s.books.ledger + tx.lines),
      history := s.history + [tx.job])
  }

  function Step(locking: bool, s: System, a: Action): System {
    match a
    case Start(t, job) => if t in s.txs then s else s.(txs := s.txs[t := Tx(job, Begin, s.books.row, s.books.row, [])])
    case Abort(t) => if t in s.txs then Release(s, t) else s
    case Advance(t) =>
      if t !in s.txs then s
      else if s.txs[t].phase == Ready then Commit(s, t)
      else
        match Statement(locking, s, t)
        case Blocked => s
        case Rollback => Release(s, t)
        case Continue(tx, owns) => s.(txs := s.txs[t := tx], owner := if owns then Some(t) else s.owner)
  }

  function Init(m: Id, books: Books): System {
    System(m, books, None, map[], [])
  }

  function Run(locking: bool, s: System, actions: seq<Action>): System
    decreases |actions|
  {
    if |actions| == 0 then s
    else Step(locking, Run(locking, s, actions[..|actions| - 1]), actions[|actions| - 1])
  }

  // ----- The serial meaning of one transaction

  datatype Change = Change(row: Escrow, lines: seq<Entry>)

  /** The effect of a whole transaction that runs alone; None when it aborts. */
  function Alone(m: Id, job: Job, row: Escrow, refunded: int): Option<Change> {
    match job
    case CaptureJob(now, amount, mission) =>
      if row.status == Released then Some(Change(row, []))
      else if amount <= 0 then None
      else if row.status != Held || row.capturedAmountCents != 0 then
        if row.capturedAmountCents == amount then Some(Change(row, [])) else None
      else if PayoutAccount(mission).None? then
        Some(Change(row.(capturedAmountCents := amount), [Entry(m, Capture, amount, now)]))
      else if amount < mission.commissionCents then None
      else
        Some(Change(row.(capturedAmountCents := amount, status := Released),
                    [Entry(m, Capture, amount, now)]
                    + ReleaseLines(now, m, mission.commissionCents,
                                   SplitSpendable(mission, amount - mission.commissionCents))))
    case RefundJob(now, cumul) =>
      if row.capturedAmountCents <= 0 then None
      else if cumul == refunded then Some(Change(row, []))
      else if cumul < refunded || cumul > row.capturedAmountCents then None
      else if row.status != Held && row.status != PartiallyRefunded then None
      else
        Some(Change(row.(status := if cumul == row.capturedAmountCents then Refunded else PartiallyRefunded),
                    [Entry(m, Refund, cumul - refunded, now)]))
    case PaymentFailedJob =>
      if row.status == Held && row.capturedAmountCents == 0 then Some(Change(row.(status := Cancelled), []))
      else if row.status == Cancelled then Some(Change(row, [])) else None
    case CancelJob => Some(Change(if row.status == Held then row.(status := Cancelled) else row, []))
    case CustomsJob(now) => Some(Change(row, [Entry(m, Refund, 0, now)]))
  }

  function AloneOn(m: Id, job: Job, books: Books): Option<Books> {
    match Alone(m, job, books.row, SumOf(books.ledger, m, Refund))
    case None => None
    case Some(c) => Some(Books(c.row, books.ledger + c.lines))
  }

  /** The jobs one after the other; None if one of them would abort. */
  function Serial(m: Id, books: Books, jobs: seq<Job>): Option<Books>
    decreases |jobs|
  {
    if |jobs| == 0 then Some(books)
    else
      match Serial(m, books, jobs[..|jobs| - 1])
      case None => None
      case Some(before) => AloneOn(m, jobs[|jobs| - 1], before)
  }

  // ----- The serial meaning is the one of the committed transactions

  /** What the row and its lines do not show of a release: a unique violation on the wallet transaction
      or the transfer intent, or a mission locked by customs. */
  predicate StoppedElsewhere(db: Db, m: Id, amount: int)
    requires m in db.missions
  {
    var mission := db.missions[m];
    || (HasWalletTx(db.walletTxs, m) && SplitSpendable(mission, amount - mission.commissionCents).walletCreditCents > 0)
    || m in db.outbox
    || CustomsLocked(mission.status)
  }

  /** Alone on the row, a capture does what the committed transaction does; they differ exactly when a
      release is stopped by other tables, and then nothing is written. */
  lemma CaptureAlone(db: Db, now: Instant, pi: Id, amount: int, metadata: Option<Id>)
    requires Integrity(db) && pi in db.byPaymentIntent
    ensures var m := db.byPaymentIntent[pi];
            var e := CaptureEffect(db, now, pi, amount, metadata);
            match Alone(m, CaptureJob(now, amount, db.missions[m]), db.escrows[m], SumOf(db.ledger, m, Refund))
            case None => e.Aborted?
            case Some(c) =>
              && (e.Applied? ==> e.db.escrows == db.escrows[m := c.row] && e.db.ledger == db.ledger + c.lines)
              && (e.Aborted? <==>
                    db.escrows[m].status == Held && c.row.status == Released && StoppedElsewhere(db, m, amount))
  {
    CaptureStopped(db, now, pi, amount, metadata);
    CaptureWrites(db, now, pi, amount, metadata);
    hide Alone, CaptureEffect, StoppedElsewhere, SumOf;
  }

  lemma CaptureWrites(db: Db, now: Instant, pi: Id, amount: int, metadata: Option<Id>)
    requires Integrity(db) && pi in db.byPaymentIntent
    ensures var m := db.byPaymentIntent[pi];
            var e := CaptureEffect(db, now, pi, amount, metadata);
            match Alone(m, CaptureJob(now, amount, db.missions[m]), db.escrows[m], SumOf(db.ledger, m, Refund))
            case None => true
            case Some(c) => e.Applied? ==> e.db.escrows == db.escrows[m := c.row] && e.db.ledger == db.ledger + c.lines
  {
    hide SumOf, SplitSpendable, ReleaseLines, ReleasedDb, SetMission;
    var m := db.byPaymentIntent[pi];
    var e := CaptureEffect(db, now, pi, amount, metadata);
    CaptureCases(db, now, pi, amount, metadata);
    if e.Applied? && e.handled && PayoutAccount(db.missions[m]).Some? {
      var split := SplitSpendable(db.missions[m], amount - db.missions[m].commissionCents);
      ReleasedParts(Journal(db, now, m, amount), now, m, PayoutAccount(db.missions[m]).value, split);
      var lines := ReleaseLines(now, m, db.missions[m].commissionCents, split);
      assert db.ledger + [Entry(m, Capture, amount, now)] + lines == db.ledger
        + ([Entry(m, Capture, amount, now)] + lines);
    } else if e.Applied? && !e.handled {
      assert db.ledger + [] == db.ledger;
    }
  }

  lemma CaptureStopped(db: Db, now: Instant, pi: Id, amount: int, metadata: Option<Id>)
    requires Integrity(db) && pi in db.byPaymentIntent
    ensures var m := db.byPaymentIntent[pi];
            match Alone(m, CaptureJob(now, amount, db.missions[m]), db.escrows[m], SumOf(db.ledger, m, Refund))
            case None => CaptureEffect(db, now, pi, amount, metadata).Aborted?
            case Some(c) =>
              CaptureEffect(db, now, pi, amount, metadata).Aborted? <==>
                db.escrows[m].status == Held && c.row.status == Released && StoppedElsewhere(db, m, amount)
  {
    hide SumOf, SplitSpendable, ReleaseLines, ReleasedDb, SetMission, HasWalletTx;
  }

  lemma RefundAlone(db: Db, now: Instant, pi: Id, cumul: int)
    requires Integrity(db) && pi in db.byPaymentIntent
    ensures var m := db.byPaymentIntent[pi];
            var e := RefundEffect(db, now, Some(pi), cumul);
            match Alone(m, RefundJob(now, cumul), db.escrows[m], SumOf(db.ledger, m, Refund))
            case None => e.Aborted?
            case Some(c) =>
              e.Applied? && e.db.escrows == db.escrows[m := c.row] && e.db.ledger == db.ledger + c.lines
  {
    hide SumOf;
  }

  lemma PaymentFailedAlone(db: Db, pi: Id)
    requires Integrity(db) && pi in db.byPaymentIntent
    ensures var m := db.byPaymentIntent[pi];
            var e := PaymentFailedEffect(db, pi);
            match Alone(m, PaymentFailedJob, db.escrows[m], SumOf(db.ledger, m, Refund))
            case None => e.Aborted?
            case Some(c) =>
              e.Applied? && e.db.escrows == db.escrows[m := c.row] && e.db.ledger == db.ledger + c.lines
  {
    hide SumOf;
  }

  // ----- What other transactions may change while one is under way

  /** A capture once written stays, CANCELLED stays, HELD is not re-entered, and only the owner of
      the lock changes the row or adds to the refunds. */
  predicate Progresses(m: Id, a: Books, b: Books) {
    && (a.row.capturedAmountCents > 0 ==> b.row.capturedAmountCents == a.row.capturedAmountCents)
    && (a.row.status == Cancelled ==> b.row.status == Cancelled)
    && (a.row.status != Held ==> b.row.status != Held)
  }

  predicate SameMoney(m: Id, a: Books, b: Books) {
    a.row == b.row && SumOf(a.ledger, m, Refund) == SumOf(b.ledger, m, Refund)
  }

  /** The locked transaction has made this much of its change against the committed books. */
  ghost predicate UnderLock(m: Id, books: Books, tx: Tx) {
    var row, refunded := books.row, SumOf(books.ledger, m, Refund);
    match tx.job
    case CaptureJob(now, amount, mission) =>
      (match tx.phase
       case Locked => tx.row == row && tx.lines == []
       case FreshRead(seen) => tx.row == row && seen == row && tx.lines == [] && row.status != Released && amount > 0
       case CaptureWritten =>
         && amount > 0 && row.status == Held && row.capturedAmountCents == 0
         && tx.row == row.(capturedAmountCents := amount) && tx.lines == []
       case Journalled =>
         && amount > 0 && row.status == Held && row.capturedAmountCents == 0
         && tx.row == row.(capturedAmountCents := amount) && tx.lines == [Entry(m, Capture, amount, now)]
       case MarkedReleased =>
         && amount > 0 && row.status == Held && row.capturedAmountCents == 0 && PayoutAccount(mission).Some?
         && tx.row == row.(capturedAmountCents := amount, status := Released)
         && tx.lines == [Entry(m, Capture, amount, now)]
       case Ready => Alone(m, tx.job, row, refunded) == Some(Change(tx.row, tx.lines))
       case _ => false)
    case RefundJob(now, cumul) =>
      && tx.read.capturedAmountCents == row.capturedAmountCents > 0
      && (match tx.phase
          case Locked => tx.row == row && tx.lines == []
          case Summed(delta) =>
            tx.row == row && tx.lines == [] && delta == cumul - refunded > 0 && cumul <= row.capturedAmountCents
          case RefundMarked(delta) =>
            && tx.lines == [] && delta == cumul - refunded > 0 && cumul <= row.capturedAmountCents
            && (row.status == Held || row.status == PartiallyRefunded)
            && tx.row == row.(status := if cumul == row.capturedAmountCents then Refunded else PartiallyRefunded)
          case Ready => Alone(m, tx.job, row, refunded) == Some(Change(tx.row, tx.lines))
          case _ => false)
    case _ => tx.phase == Ready && Alone(m, tx.job, row, refunded) == Some(Change(tx.row, tx.lines))
  }

  /** A transaction without the lock: what it read before still holds where it matters. */
  ghost predicate Unlocked(m: Id, books: Books, tx: Tx) {
    match tx.job
    case CaptureJob(_, _, _) => (tx.phase == Begin || tx.phase == AwaitLock) && tx.lines == []
    case RefundJob(_, _) =>
      && (tx.phase == Begin || tx.phase == AwaitLock) && tx.lines == []
      && (tx.phase == AwaitLock ==> tx.read.capturedAmountCents == books.row.capturedAmountCents > 0)
    case PaymentFailedJob =>
      && (tx.phase == Begin || tx.phase == AwaitLock || tx.phase == Ready) && tx.lines == []
      && (tx.phase != Begin && tx.read.status == Cancelled ==> books.row.status == Cancelled)
      && (tx.phase == Ready ==> books.row.status == Cancelled)
    case CancelJob => (tx.phase == Begin || (tx.phase == Ready && books.row.status != Held)) && tx.lines == []
    case CustomsJob(now) =>
      (tx.phase == Begin && tx.lines == []) || (tx.phase == Ready && tx.lines == [Entry(m, Refund, 0, now)])
  }

  ghost predicate TxSound(s: System, t: Id)
    requires t in s.txs
  {
    if s.owner == Some(t) then UnderLock(s.m, s.books, s.txs[t]) else Unlocked(s.m, s.books, s.txs[t])
  }

  ghost predicate Sound(s: System) {
    && (s.owner.Some? ==> s.owner.value in s.txs)
    && forall t :: t in s.txs ==> TxSound(s, t)
  }

  // ----- Proof

  lemma UnlockedProgresses(m: Id, a: Books, b: Books, tx: Tx)
    requires Unlocked(m, a, tx) && Progresses(m, a, b)
    ensures Unlocked(m, b, tx)
  {
  }

  lemma UnderLockFrames(m: Id, a: Books, b: Books, tx: Tx)
    requires UnderLock(m, a, tx) && SameMoney(m, a, b)
    ensures UnderLock(m, b, tx)
  {
    hide SumOf, Alone;
  }

  ghost predicate NextSound(m: Id, books: Books, owns: bool, free: bool, next: Next) {
    next.Continue? ==>
      && (owns ==> next.owns) && (next.owns ==> free)
      && if next.owns then UnderLock(m, books, next.tx) else Unlocked(m, books, next.tx)
  }

  lemma CaptureStatementSound(m: Id, books: Books, tx: Tx, owns: bool, free: bool)
    requires tx.job.CaptureJob? && tx.phase != Ready && (owns ==> free)
    requires if owns then UnderLock(m, books, tx) else Unlocked(m, books, tx)
    ensures NextSound(m, books, owns, free,
                      CaptureStatement(m, true, tx, if owns then tx.row else books.row, owns, free))
  {
    hide SumOf, SplitSpendable, ReleaseLines;
  }

  lemma RefundStatementSound(m: Id, books: Books, tx: Tx, owns: bool, free: bool)
    requires tx.job.RefundJob? && tx.phase != Ready && (owns ==> free)
    requires if owns then UnderLock(m, books, tx) else Unlocked(m, books, tx)
    ensures NextSound(m, books, owns, free,
                      RefundStatement(m, true, tx, if owns then tx.row else books.row, owns, free,
                                  SumOf(books.ledger + tx.lines, m, Refund)))
  {
    hide SumOf;
    if tx.lines == [] { assert books.ledger + tx.lines == books.ledger; }
    var entry := Entry(m, Refund, if tx.phase.RefundMarked? then tx.phase.delta else 0, tx.job.now);
    assert [] + [entry] == [entry];
  }

  lemma OtherStatementSound(m: Id, books: Books, tx: Tx, owns: bool, free: bool)
    requires !tx.job.CaptureJob? && !tx.job.RefundJob? && tx.phase != Ready && (owns ==> free)
    requires if owns then UnderLock(m, books, tx) else Unlocked(m, books, tx)
    ensures NextSound(m, books, owns, free,
                      OtherStatement(m, tx, if owns then tx.row else books.row, owns, free))
  {
    hide SumOf;
  }

  /** A transaction that is ready to commit has computed what it would have computed alone. */
  lemma CommitIsSerial(s: System, t: Id)
    requires Sound(s) && t in s.txs && s.txs[t].phase == Ready
    ensures AloneOn(s.m, s.txs[t].job, s.books) == Some(Commit(s, t).books)
  {
    hide SumOf;
    assert TxSound(s, t);
  }

  lemma {:induction false} ZeroLineKeepsRefunds(ledger: seq<Entry>, m: Id, now: Instant)
    ensures SumOf(ledger + [Entry(m, Refund, 0, now)], m, Refund) == SumOf(ledger, m, Refund)
  {
    SumAppend(ledger, Entry(m, Refund, 0, now));
  }

  lemma CommitProgresses(s: System, t: Id)
    requires Sound(s) && t in s.txs && s.txs[t].phase == Ready
    ensures Progresses(s.m, s.books, Commit(s, t).books)
    ensures s.owner != Some(t) ==> SameMoney(s.m, s.books, Commit(s, t).books)
  {
    hide SumOf;
    assert TxSound(s, t);
    if s.owner != Some(t) {
      if s.txs[t].job.CustomsJob? {
        ZeroLineKeepsRefunds(s.books.ledger, s.m, s.txs[t].job.now);
      } else {
        assert s.books.ledger + s.txs[t].lines == s.books.ledger;
      }
    }
  }

  lemma CommitKeepsSound(s: System, t: Id)
    requires Sound(s) && t in s.txs && s.txs[t].phase == Ready
    ensures Sound(Commit(s, t))
  {
    hide UnderLock, Unlocked, Progresses, SameMoney;
    CommitProgresses(s, t);
    var s' := Commit(s, t);
    forall u | u in s'.txs ensures TxSound(s', u) {
      assert TxSound(s, u);
      if s.owner == Some(u) {
        UnderLockFrames(s.m, s.books, s'.books, s.txs[u]);
      } else {
        UnlockedProgresses(s.m, s.books, s'.books, s.txs[u]);
      }
    }
  }

  lemma StatementKeepsSound(s: System, t: Id)
    requires Sound(s) && t in s.txs && s.txs[t].phase != Ready
    ensures Sound(Step(true, s, Advance(t)))
  {
    hide UnderLock, Unlocked, CaptureStatement, RefundStatement, OtherStatement, SumOf;
    var tx, owns := s.txs[t], s.owner == Some(t);
    var free := owns || s.owner.None?;
    assert TxSound(s, t);
    if tx.job.CaptureJob? { CaptureStatementSound(s.m, s.books, tx, owns, free); }
    else if tx.job.RefundJob? { RefundStatementSound(s.m, s.books, tx, owns, free); }
    else { OtherStatementSound(s.m, s.books, tx, owns, free); }
    var s' := Step(true, s, Advance(t));
    forall u | u in s'.txs ensures TxSound(s', u) {
      if u != t { assert TxSound(s, u); }
    }
  }

  lemma StepKeepsSound(s: System, a: Action)
    requires Sound(s)
    ensures Sound(Step(true, s, a))
  {
    match a
    case Advance(t) =>
      if t in s.txs {
        if s.txs[t].phase == Ready { CommitKeepsSound(s, t); } else { StatementKeepsSound(s, t); }
      }
    case _ =>
      hide UnderLock;
      var s' := Step(true, s, a);
      forall u | u in s'.txs ensures TxSound(s', u) {
        if u in s.txs { assert TxSound(s, u); }
      }
  }

  lemma StepHistory(s: System, a: Action)
    ensures var s' := Step(true, s, a);
            s'.m == s.m && ((s'.history == s.history && s'.books == s.books)
                            || (a.Advance? && a.t in s.txs && s.txs[a.t].phase == Ready && s' == Commit(s, a.t)))
  {
    hide Statement;
  }

  /** Every interleaving of any number of capture, refund, failure, cancel and customs transactions
      on one escrow, some of them aborted anywhere: what is committed is what the committed ones
      produce one after the other, in the order of their commits, none of them aborting there. */
  lemma {:induction false} EveryInterleavingIsSerial(m: Id, books: Books, actions: seq<Action>)
    ensures var s := Run(true, Init(m, books), actions);
            s.m == m && Sound(s) && Serial(m, books, s.history) == Some(s.books)
    decreases |actions|
  {
    hide Sound, Step, AloneOn, Commit;
    if |actions| == 0 {
      assert Sound(Init(m, books)) by { NoTransactions(m, books); }
    } else {
      var s, a := Run(true, Init(m, books), actions[..|actions| - 1]), actions[|actions| - 1];
      EveryInterleavingIsSerial(m, books, actions[..|actions| - 1]);
      StepKeepsSound(s, a);
      StepHistory(s, a);
      if a.Advance? && a.t in s.txs && s.txs[a.t].phase == Ready {
        CommitIsSerial(s, a.t);
        CommitAppends(s, a.t);
        var history := s.history + [s.txs[a.t].job];
        assert history[..|history| - 1] == s.history;
      }
    }
  }

  lemma CommitAppends(s: System, t: Id)
    requires t in s.txs
    ensures Commit(s, t).history == s.history + [s.txs[t].job]
    ensures Step(true, s, Advance(t)) == (if s.txs[t].phase == Ready then Commit(s, t) else Step(true, s, Advance(t)))
  {
  }

  lemma NoTransactions(m: Id, books: Books)
    ensures Sound(Init(m, books))
  {
  }

  // ----- Without the lock it is false

  lemma RunAppend(locking: bool, s: System, actions: seq<Action>, last: Action)
    ensures Run(locking, s, actions + [last]) == Step(locking, Run(locking, s, actions), last)
  {
    assert (actions + [last])[..|actions|] == actions;
  }

  /** A captured escrow and two refund events that read the same sum of refunds. */
  const CAPTURED := Escrow(1, Held, 100, 100)
  const BOTH_STARTED: seq<Action> := [Start(1, RefundJob(0, 30))] + [Start(2, RefundJob(0, 50))]
  const BOTH_READ: seq<Action> :=
    BOTH_STARTED + [Advance(1)] + [Advance(1)] + [Advance(2)] + [Advance(2)]
  const BOTH_SUMMED: seq<Action> := BOTH_READ + [Advance(1)] + [Advance(2)]
  const FIRST_DONE: seq<Action> := BOTH_SUMMED + [Advance(1)] + [Advance(1)] + [Advance(1)]
  const BOTH_DONE: seq<Action> := FIRST_DONE + [Advance(2)] + [Advance(2)] + [Advance(2)]

  function Unserialised(): System {
    Init(7, Books(CAPTURED, []))
  }

  function Waiting(cumul: int, phase: Phase): Tx {
    Tx(RefundJob(0, cumul), phase, CAPTURED, CAPTURED, [])
  }

  lemma AfterBothRead()
    ensures Run(false, Unserialised(), BOTH_READ)
            == Unserialised().(txs := map[1 := Waiting(30, Locked), 2 := Waiting(50, Locked)])
  {
    var s := Unserialised();
    RunAppend(false, s, [], BOTH_STARTED[0]);
    assert [] + [BOTH_STARTED[0]] == [BOTH_STARTED[0]];
    RunAppend(false, s, [BOTH_STARTED[0]], BOTH_STARTED[1]);
    RunAppend(false, s, BOTH_STARTED, Advance(1));
    RunAppend(false, s, BOTH_STARTED + [Advance(1)], Advance(1));
    RunAppend(false, s, BOTH_STARTED + [Advance(1)] + [Advance(1)], Advance(2));
    RunAppend(false, s, BOTH_STARTED + [Advance(1)] + [Advance(1)] + [Advance(2)], Advance(2));
  }

  lemma AfterBothSummed()
    ensures Run(false, Unserialised(), BOTH_SUMMED)
            == Unserialised().(txs := map[1 := Waiting(30, Summed(30)), 2 := Waiting(50, Summed(50))])
  {
    AfterBothRead();
    RunAppend(false, Unserialised(), BOTH_READ, Advance(1));
    RunAppend(false, Unserialised(), BOTH_READ + [Advance(1)], Advance(2));
  }

  lemma AfterFirstDone()
    ensures Run(false, Unserialised(), FIRST_DONE)
            == System(7, Books(CAPTURED.(status := PartiallyRefunded), [Entry(7, Refund, 30, 0)]), None,
                      map[2 := Waiting(50, Summed(50))], [RefundJob(0, 30)])
  {
    AfterBothSummed();
    RunAppend(false, Unserialised(), BOTH_SUMMED, Advance(1));
    RunAppend(false, Unserialised(), BOTH_SUMMED + [Advance(1)], Advance(1));
    RunAppend(false, Unserialised(), BOTH_SUMMED + [Advance(1)] + [Advance(1)], Advance(1));
  }

  lemma AfterBothDone()
    ensures Run(false, Unserialised(), BOTH_DONE)
            == System(7, Books(CAPTURED.(status := PartiallyRefunded),
                               [Entry(7, Refund, 30, 0), Entry(7, Refund, 50, 0)]), None,
                      map[], [RefundJob(0, 30), RefundJob(0, 50)])
  {
    AfterFirstDone();
    RunAppend(false, Unserialised(), FIRST_DONE, Advance(2));
    RunAppend(false, Unserialised(), FIRST_DONE + [Advance(2)], Advance(2));
    RunAppend(false, Unserialised(), FIRST_DONE + [Advance(2)] + [Advance(2)], Advance(2));
  }

  /** Without the lock, two cumulative refunds of 30 and 50 journal 80, which no serial order does:
      the sum is then ahead of Stripe's cumul. */
  lemma WithoutLockRefundsTwice()
    ensures var s := Run(false, Unserialised(), BOTH_DONE);
            && SumOf(s.books.ledger, 7, Refund) == 80
            && forall order :: order == [RefundJob(0, 30), RefundJob(0, 50)]
                               || order == [RefundJob(0, 50), RefundJob(0, 30)] ==>
                 match Serial(7, Unserialised().books, order)
                 case None => true
                 case Some(books) => SumOf(books.ledger, 7, Refund) <= 50
  {
    AfterBothDone();
    var start := Unserialised().books;
    var small, large := RefundJob(0, 30), RefundJob(0, 50);
    SerialAppend(7, start, [], small);
    SerialAppend(7, start, [small], large);
    SerialAppend(7, start, [], large);
    SerialAppend(7, start, [large], small);
    assert [] + [small] == [small] && [] + [large] == [large];
    assert [small] + [large] == [small, large] && [large] + [small] == [large, small];
    SumAppend([], Entry(7, Refund, 30, 0));
    SumAppend([], Entry(7, Refund, 50, 0));
    SumAppend([Entry(7, Refund, 30, 0)], Entry(7, Refund, 20, 0));
    SumAppend([Entry(7, Refund, 30, 0)], Entry(7, Refund, 50, 0));
    assert [Entry(7, Refund, 30, 0)] + [Entry(7, Refund, 50, 0)] == [Entry(7, Refund, 30, 0), Entry(7, Refund, 50, 0)];
    assert [] + [Entry(7, Refund, 30, 0)] == [Entry(7, Refund, 30, 0)];
    assert [] + [Entry(7, Refund, 50, 0)] == [Entry(7, Refund, 50, 0)];
  }

  lemma SerialAppend(m: Id, books: Books, jobs: seq<Job>, last: Job)
    ensures Serial(m, books, jobs + [last])
            == match Serial(m, books, jobs) case None => None case Some(before) => AloneOn(m, last, before)
  {
    assert (jobs + [last])[..|jobs|] == jobs;
  }
}

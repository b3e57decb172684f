/** Sums over the append-only ledger. */
module Ledger {
  import opened Tables

  /** Σ of the lines of one kind on one escrow. */
  function SumOf(ledger: seq<Entry>, escrow: Id, kind: LedgerType): int {
    if |ledger| == 0 then 0
    else SumOf(ledger[..|ledger| - 1], escrow, kind) + Share(ledger[|ledger| - 1], escrow, kind)
  }

  function Share(line: Entry, escrow: Id, kind: LedgerType): int {
    if line.escrow == escrow && line.kind == kind then line.amountCents else 0
  }

  /** PAYOUT + COMMISSION + REFUND + BUYER_WALLET_CREDIT: what has left the capture. */
  function Outflow(ledger: seq<Entry>, escrow: Id): int {
    SumOf(ledger, escrow, Payout) + SumOf(ledger, escrow, Commission)
    + SumOf(ledger, escrow, Refund) + SumOf(ledger, escrow, BuyerWalletCredit)
  }

  lemma SumAppend(ledger: seq<Entry>, line: Entry)
    ensures forall e: Id, k :: SumOf(ledger + [line], e, k) == SumOf(ledger, e, k) + Share(line, e, k)
  {
    assert (ledger + [line])[..|ledger|] == ledger;
  }

  /** Sums split over concatenation. */
  lemma {:induction false} SumConcat(a: seq<Entry>, b: seq<Entry>, e: Id, k: LedgerType)
    ensures SumOf(a + b, e, k) == SumOf(a, e, k) + SumOf(b, e, k)
    decreases |b|
  {
    if |b| == 0 {
      assert a + b == a;
    } else {
      var b', last := b[..|b| - 1], b[|b| - 1];
      assert a + b == (a + b') + [last];
      SumAppend(a + b', last);
      SumConcat(a, b', e, k);
    }
  }

  /** An escrow without lines has every sum at zero. */
  lemma {:induction false} SumAbsent(ledger: seq<Entry>, e: Id, k: LedgerType)
    requires forall i :: 0 <= i < |ledger| ==> ledger[i].escrow != e
    ensures SumOf(ledger, e, k) == 0
    decreases |ledger|
  {
    if |ledger| > 0 {
      SumAbsent(ledger[..|ledger| - 1], e, k);
    }
  }
}

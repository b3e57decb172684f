/** Amounts held, captured and split, in whole cents. */
module Money {
  import opened Tables

  /** Math.floor(budget * 12 / 10): what a pre-authorised substitution may cost. */
  function SubstitutionCeiling(budgetCents: int): int {
    budgetCents * 12 / 10
  }

  /** Math.floor(budget * 15 / 10): the bound no capture may exceed. */
  function SubstitutionHardCap(budgetCents: int): int {
    budgetCents * 15 / 10
  }

  function HeldBudget(m: Mission): int {
    if m.substitutionAuthorized then SubstitutionCeiling(m.budgetCents) else m.budgetCents
  }

  /** What the buyer's card is authorised for at T0, and what is asked of Stripe at T1. */
  function EscrowTotal(m: Mission): int {
    HeldBudget(m) + m.commissionCents
  }

  /** The amounts the mission routes accept: the schema of mission creation, and the bound on the
      purchase declared at shipping. */
  predicate Priced(m: Mission) {
    && m.budgetCents >= 1
    && m.commissionCents >= 0
    && (m.purchaseAmountCents.Some? ==> 1 <= m.purchaseAmountCents.value <= m.budgetCents)
  }

  datatype Split = Split(payoutCents: int, walletCreditCents: int)

  /** How a release divides what is left of the capture after the commission. */
  function SplitSpendable(m: Mission, spendableCents: int): Split {
    if m.substitutionAuthorized && m.purchaseAmountCents.Some?
       && m.purchaseAmountCents.value < spendableCents
    then Split(m.purchaseAmountCents.value, spendableCents - m.purchaseAmountCents.value)
    else Split(spendableCents, 0)
  }

  /** When the capture is the authorised total, the split gives the traveler the declared purchase
      (or the whole held budget), never more than the held budget, and the buyer the rest; nothing
      is negative, nothing is lost, and neither guard on the way can fire. */
  lemma SplitOfAuthorisedTotal(m: Mission)
    requires Priced(m)
    ensures var s := SplitSpendable(m, EscrowTotal(m) - m.commissionCents);
            && s.payoutCents + m.commissionCents + s.walletCreditCents == EscrowTotal(m)
            && 0 < s.payoutCents <= HeldBudget(m)
            && s.walletCreditCents >= 0
            && s.payoutCents == (if m.substitutionAuthorized && m.purchaseAmountCents.Some?
                                 then m.purchaseAmountCents.value else HeldBudget(m))
    ensures m.budgetCents <= HeldBudget(m) <= SubstitutionHardCap(m.budgetCents)
    ensures EscrowTotal(m) - m.commissionCents > 0
  {
    assert m.budgetCents * 10 <= m.budgetCents * 12 <= m.budgetCents * 15;
  }

  /** The held total is the commission and the budget, or under substitution the whole cents of 120% of
      it; the cap is the whole cents of 150%. */
  lemma HeldTotalIsFloor(m: Mission)
    ensures var held := EscrowTotal(m) - m.commissionCents;
            if m.substitutionAuthorized then 10 * held <= 12 * m.budgetCents < 10 * (held + 1)
              else held == m.budgetCents
    ensures var cap := SubstitutionHardCap(m.budgetCents);
            10 * cap <= 15 * m.budgetCents < 10 * (cap + 1)
  {
  }
}

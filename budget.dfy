/** The 50/30/20 budget suggestion (dashboard.py, lines 116-120). */
module Budget {

  datatype Split = Split(needs: real, wants: real, savings: real)

  /**
   * Half of income for needs, 30% for wants, 20% for savings. The source shows
   * each rounded to a whole amount, which is not modelled.
   */
  function BudgetSplit(income: real): (b: Split)
    ensures b.needs + b.wants + b.savings == income
    ensures 3.0 * b.needs == 5.0 * b.wants && 2.0 * b.wants == 3.0 * b.savings
    ensures income >= 0.0 ==> b.needs >= 0.0 && b.wants >= 0.0 && b.savings >= 0.0
  {
    Split(income * 0.5, income * 0.3, income * 0.2)
  }

  /** Summing to income in the ratio 5 : 3 : 2 determines the split. */
  lemma {:induction false} SplitDeterminedByRatios(income: real, b: Split)
    requires b.needs + b.wants + b.savings == income
    requires 3.0 * b.needs == 5.0 * b.wants && 2.0 * b.wants == 3.0 * b.savings
    ensures b == BudgetSplit(income)
  {
    assert b.savings == income * 0.2;
  }
}

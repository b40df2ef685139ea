/**
 * The financial profile the dashboard form collects and the 17-column record
 * it hands to the savings model (dashboard.py, lines 21-73).
 */
module Profile {

  datatype Occupation = Salaried | SelfEmployed | Student | Professional | Retired

  datatype CityTier = Tier1 | Tier2 | Tier3

  /**
   * The eleven monthly expense inputs. The form gives them no lower bound,
   * so every field may be negative.
   */
  datatype Expenses = Expenses(
    rent: real, loanRepayment: real, insurance: real, groceries: real,
    transport: real, eatingOut: real, entertainment: real, utilities: real,
    healthcare: real, education: real, miscellaneous: real)

  /** The four income-source inputs; also without a lower bound. */
  datatype IncomeSources = IncomeSources(
    salary: real, freelance: real, investments: real, otherIncome: real)

  /** Every income source left at zero. */
  const NoSources := IncomeSources(0.0, 0.0, 0.0, 0.0)

  /**
   * Everything the form collects. Of the money inputs only `income` has a lower
   * bound (zero); age and dependents come from bounded widgets.
   */
  datatype FinancialProfile = FinancialProfile(
    income: real, age: int, dependents: int,
    occupation: Occupation, cityTier: CityTier,
    expenses: Expenses, sources: IncomeSources)

  /** One row of the model's input, field for field in the column order the form builds. */
  datatype FeatureRecord = FeatureRecord(
    income: real, age: int, dependents: int,
    occupation: Occupation, cityTier: CityTier,
    rent: real, loanRepayment: real, insurance: real, groceries: real,
    transport: real, eatingOut: real, entertainment: real, utilities: real,
    healthcare: real, education: real, miscellaneous: real,
    disposableIncome: real)

  /** Every expense field left at zero. */
  const NoExpenses := Expenses(0.0, 0.0, 0.0, 0.0, 0.0, 0.0, 0.0, 0.0, 0.0, 0.0, 0.0)

  /** Python's built-in `sum`: zero, then each element added from the left. */
  function Sum(xs: seq<real>): real
  {
    if xs == [] then 0.0 else Sum(xs[..|xs| - 1]) + xs[|xs| - 1]
  }

  lemma {:induction false} SumNonNegative(xs: seq<real>)
    requires forall i :: 0 <= i < |xs| ==> xs[i] >= 0.0
    ensures Sum(xs) >= 0.0
  {
    if xs != [] {
      SumNonNegative(xs[..|xs| - 1]);
    }
  }

  /** The list the source passes to `sum`, in the order it is written. */
  function ExpenseItems(e: Expenses): seq<real>
  {
    [e.rent, e.loanRepayment, e.insurance, e.groceries, e.transport, e.eatingOut,
     e.entertainment, e.utilities, e.healthcare, e.education, e.miscellaneous]
  }

  predicate NonNegativeExpenses(e: Expenses)
  {
    forall i :: 0 <= i < |ExpenseItems(e)| ==> ExpenseItems(e)[i] >= 0.0
  }

  /** Total tracked spending; the one summation behind every expense total of the dashboard. */
  function TotalExpenses(e: Expenses): real
  {
    Sum(ExpenseItems(e))
  }

  /** The total is exactly the eleven fields added together, none missed and none twice. */
  lemma TotalExpensesIsFieldSum(e: Expenses)
    ensures TotalExpenses(e)
         == e.rent + e.loanRepayment + e.insurance + e.groceries + e.transport
          + e.eatingOut + e.entertainment + e.utilities + e.healthcare
          + e.education + e.miscellaneous
  {
    var xs := ExpenseItems(e);
    assert xs[..0] == [];
    SumExtend(xs, 0); SumExtend(xs, 1); SumExtend(xs, 2); SumExtend(xs, 3);
    SumExtend(xs, 4); SumExtend(xs, 5); SumExtend(xs, 6); SumExtend(xs, 7);
    SumExtend(xs, 8); SumExtend(xs, 9); SumExtend(xs, 10);
    assert xs[..11] == xs;
  }

  lemma SumExtend(xs: seq<real>, k: nat)
    requires k < |xs|
    ensures Sum(xs[..k + 1]) == Sum(xs[..k]) + xs[k]
  {
    assert xs[..k + 1][..k] == xs[..k];
  }

  lemma TotalExpensesNonNegative(e: Expenses)
    requires NonNegativeExpenses(e)
    ensures TotalExpenses(e) >= 0.0
  {
    SumNonNegative(ExpenseItems(e));
  }

  /** Disposable income: income minus all tracked expenses (lines 50-53). */
  function DisposableIncome(income: real, e: Expenses): (d: real)
    ensures d + TotalExpenses(e) == income
  {
    income - TotalExpenses(e)
  }

  /** Total of the four income sources, added left to right as on line 100. */
  function SourcesTotal(s: IncomeSources): real
  {
    s.salary + s.freelance + s.investments + s.otherIncome
  }

  /** The expense inputs a feature record carries. */
  function ExpensesOf(f: FeatureRecord): Expenses
  {
    Expenses(f.rent, f.loanRepayment, f.insurance, f.groceries, f.transport,
             f.eatingOut, f.entertainment, f.utilities, f.healthcare,
             f.education, f.miscellaneous)
  }

  /** A record whose disposable-income column agrees with its own income and expense columns. */
  predicate Consistent(f: FeatureRecord)
  {
    f.disposableIncome == f.income - TotalExpenses(ExpensesOf(f))
  }

  /** The record sent to the model (lines 55-73): the raw inputs plus the derived disposable income. */
  function Features(p: FinancialProfile): (f: FeatureRecord)
    ensures Consistent(f)
    ensures ExpensesOf(f) == p.expenses
    ensures f.income == p.income && f.age == p.age && f.dependents == p.dependents
    ensures f.occupation == p.occupation && f.cityTier == p.cityTier
    ensures f.disposableIncome == DisposableIncome(p.income, p.expenses)
  {
    var e := p.expenses;
    FeatureRecord(
      p.income, p.age, p.dependents, p.occupation, p.cityTier,
      e.rent, e.loanRepayment, e.insurance, e.groceries, e.transport,
      e.eatingOut, e.entertainment, e.utilities, e.healthcare,
      e.education, e.miscellaneous,
      DisposableIncome(p.income, e))
  }

  /**
   * The model sees everything the form collects except the income sources:
   * two profiles give the same record exactly when they differ at most in their sources.
   */
  lemma FeaturesForgetOnlySources(p: FinancialProfile, q: FinancialProfile)
    ensures Features(p) == Features(q) <==> p.(sources := q.sources) == q
  {
    if Features(p) == Features(q) {
      assert ExpensesOf(Features(p)) == ExpensesOf(Features(q));
    }
  }

  /** The disposable-income column written out over the eleven expense columns. */
  lemma DisposableIncomeColumn(p: FinancialProfile)
    ensures Features(p).disposableIncome
         == p.income - (p.expenses.rent + p.expenses.loanRepayment + p.expenses.insurance
          + p.expenses.groceries + p.expenses.transport + p.expenses.eatingOut
          + p.expenses.entertainment + p.expenses.utilities + p.expenses.healthcare
          + p.expenses.education + p.expenses.miscellaneous)
  {
    TotalExpensesIsFieldSum(p.expenses);
  }
}

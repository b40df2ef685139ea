/**
 * Savings rate, spending ratio and the three-part financial health score with
 * its label (dashboard.py, lines 127-155).
 */
module HealthScore {
  import opened Profile

  /** Share of income left after expenses; zero, with no division, when there is no income. */
  function SavingsRate(income: real, e: Expenses): (r: real)
    ensures income > 0.0 ==> r * income == DisposableIncome(income, e)
    ensures income <= 0.0 ==> r == 0.0
  {
    if income > 0.0 then (income - TotalExpenses(e)) / income else 0.0
  }

  /** Share of income spent; one (the worst case), with no division, when there is no income. */
  function SpendingRatio(income: real, e: Expenses): (r: real)
    ensures income > 0.0 ==> r * income == TotalExpenses(e)
    ensures income <= 0.0 ==> r == 1.0
  {
    if income > 0.0 then TotalExpenses(e) / income else 1.0
  }

  /** What is not saved is spent, for every input, including the no-income default. */
  lemma RatesSumToOne(income: real, e: Expenses)
    ensures SavingsRate(income, e) + SpendingRatio(income, e) == 1.0
  {
    if income > 0.0 {
      calc {
        SavingsRate(income, e) + SpendingRatio(income, e);
        (income - TotalExpenses(e)) / income + TotalExpenses(e) / income;
        (income - TotalExpenses(e) + TotalExpenses(e)) / income;
        1.0;
      }
    }
  }

  /** With non-negative expenses the spending ratio is never negative; it has no upper bound. */
  lemma SpendingRatioNonNegative(income: real, e: Expenses)
    requires NonNegativeExpenses(e)
    ensures SpendingRatio(income, e) >= 0.0
  {
    TotalExpensesNonNegative(e);
  }

  /** Python's two-argument `min`: the first argument unless the second is strictly smaller. */
  function Min(a: real, b: real): real
  {
    if b < a then b else a
  }

  /** Share of income that is salary; one when the sources total nothing (line 129). */
  function Dependency(s: IncomeSources): real
  {
    if SourcesTotal(s) > 0.0 then s.salary / SourcesTotal(s) else 1.0
  }

  /** Savings part: 30 points per 20% of savings rate, capped at 30 (line 130). */
  function SavingsPoints(rate: real): (p: real)
    ensures p <= 30.0
    ensures p == 30.0 <==> rate >= 0.2
    ensures rate <= 0.2 ==> p == 150.0 * rate
  {
    Min((rate / 0.2) * 30.0, 30.0)
  }

  /** More savings never earns fewer points. */
  lemma SavingsPointsNonDecreasing(a: real, b: real)
    requires a <= b
    ensures SavingsPoints(a) <= SavingsPoints(b)
  {
  }

  /**
   * Independence part: rewards a LOW salary share (line 130). Zero when the
   * sources total nothing. Its bounds depend on signs the form does not enforce.
   */
  function IndependencePoints(s: IncomeSources): (p: real)
    ensures SourcesTotal(s) <= 0.0 ==> p == 0.0
    ensures SourcesTotal(s) > 0.0 ==> p * SourcesTotal(s) == 30.0 * (SourcesTotal(s) - s.salary)
    ensures s.salary >= 0.0 ==> p <= 30.0
    ensures s.freelance + s.investments + s.otherIncome >= 0.0 ==> p >= 0.0
  {
    (1.0 - Dependency(s)) * 30.0
  }

  /** Spending part: 40, 30, 20 or 10 points by tier of the spending ratio (lines 140-147). */
  function SpendingPoints(ratio: real): (p: real)
    ensures p == 10.0 || p == 20.0 || p == 30.0 || p == 40.0
    ensures p == 40.0 <==> ratio <= 0.5
    ensures p == 30.0 <==> 0.5 < ratio <= 0.7
    ensures p == 20.0 <==> 0.7 < ratio <= 0.9
    ensures p == 10.0 <==> ratio > 0.9
  {
    if ratio <= 0.5 then 40.0
    else if ratio <= 0.7 then 30.0
    else if ratio <= 0.9 then 20.0
    else 10.0
  }

  /** Spending more never earns more points. */
  lemma SpendingPointsNonIncreasing(a: real, b: real)
    requires a <= b
    ensures SpendingPoints(b) <= SpendingPoints(a)
  {
  }

  /** The score before the source rounds it to two decimals: the sum of the three parts. */
  function Score(income: real, e: Expenses, s: IncomeSources): real
  {
    SavingsPoints(SavingsRate(income, e)) + IndependencePoints(s)
      + SpendingPoints(SpendingRatio(income, e))
  }

  /**
   * The accumulation the source performs on `score` (lines 127-147): the capped
   * savings part plus the independence part, then the spending tier added on.
   */
  method ComputeScore(income: real, e: Expenses, s: IncomeSources) returns (score: real)
    ensures score == Score(income, e, s)
    ensures s.salary >= 0.0 ==> score <= 100.0
  {
    var savingsRate := if income > 0.0 then (income - TotalExpenses(e)) / income else 0.0;
    var totalSources := SourcesTotal(s);
    var dependency := if totalSources > 0.0 then s.salary / totalSources else 1.0;
    score := Min((savingsRate / 0.2) * 30.0, 30.0) + (1.0 - dependency) * 30.0;
    var totalExp := TotalExpenses(e);
    var spendingRatio;
    if income > 0.0 {
      spendingRatio := totalExp / income;
    } else {
      spendingRatio := 1.0;
    }
    if spendingRatio <= 0.5 {
      score := score + 40.0;
    } else if spendingRatio <= 0.7 {
      score := score + 30.0;
    } else if spendingRatio <= 0.9 {
      score := score + 20.0;
    } else {
      score := score + 10.0;
    }
    if s.salary >= 0.0 {
      ScoreAtMost100(income, e, s);
    }
  }

  /** With a non-negative salary input the score never exceeds 100. */
  lemma ScoreAtMost100(income: real, e: Expenses, s: IncomeSources)
    requires s.salary >= 0.0
    ensures Score(income, e, s) <= 100.0
  {
  }

  /** With non-negative sources the independence part lies in [0, 30]. */
  lemma IndependencePointsBounded(s: IncomeSources)
    requires s.salary >= 0.0 && s.freelance >= 0.0 && s.investments >= 0.0 && s.otherIncome >= 0.0
    ensures 0.0 <= IndependencePoints(s) <= 30.0
  {
  }

  /**
   * The form accepts negative sources, and a negative salary breaks the upper
   * bound: salary -100 against freelance 200 makes the independence part 60.
   */
  lemma NegativeSalaryBreaksScoreBound()
    ensures Score(50000.0, NoExpenses, IncomeSources(-100.0, 200.0, 0.0, 0.0)) > 100.0
  {
    TotalExpensesIsFieldSum(NoExpenses);
    assert TotalExpenses(NoExpenses) == 0.0;
    assert SavingsRate(50000.0, NoExpenses) == 1.0;
    assert SpendingRatio(50000.0, NoExpenses) == 0.0;
    assert Dependency(IncomeSources(-100.0, 200.0, 0.0, 0.0)) == -1.0;
  }

  /**
   * The score has no lower bound: spending far above income drives the savings
   * part, and with it the score, below any given value.
   */
  lemma ScoreUnboundedBelow(bound: real) returns (e: Expenses)
    ensures Score(1.0, e, NoSources) < bound
  {
    var extra := if bound < 0.0 then -bound else 0.0;
    e := Expenses(2.0 + extra, 0.0, 0.0, 0.0, 0.0, 0.0, 0.0, 0.0, 0.0, 0.0, 0.0);
    TotalExpensesIsFieldSum(e);
    assert TotalExpenses(e) == 2.0 + extra;
    assert SavingsRate(1.0, e) == -1.0 - extra;
    assert SpendingPoints(SpendingRatio(1.0, e)) == 10.0;
  }

  datatype ScoreLabel = Excellent | Decent | NeedsImprovement

  /** The verdict shown beside the score (lines 150-155). */
  function Label(score: real): (l: ScoreLabel)
    ensures l == Excellent <==> score >= 80.0
    ensures l == Decent <==> 60.0 <= score < 80.0
    ensures l == NeedsImprovement <==> score < 60.0
  {
    if score >= 80.0 then Excellent
    else if score >= 60.0 then Decent
    else NeedsImprovement
  }

  function LabelRank(l: ScoreLabel): nat
  {
    match l
    case NeedsImprovement => 0
    case Decent => 1
    case Excellent => 2
  }

  /** A higher score never gets a worse label. */
  lemma LabelMonotone(a: real, b: real)
    requires a <= b
    ensures LabelRank(Label(a)) <= LabelRank(Label(b))
  {
  }
}

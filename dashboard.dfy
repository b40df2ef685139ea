/**
 * What one press of "Analyze My Finances" computes (dashboard.py, lines
 * 49-192), with the display left out. The savings model and Python's
 * two-decimal `round` are passed in as functions.
 */
module Dashboard {
  import opened Wrappers
  import opened Profile
  import opened Recommendations
  import opened IncomePortfolio
  import opened Budget
  import opened HealthScore
  import opened Allocation

  datatype Report = Report(
    predictedSavings: real,
    recommendations: seq<Recommendation>,
    breakdown: Option<Shares>,
    budget: Split,
    score: real,
    verdict: ScoreLabel,
    investment: Option<(Fractions, Amounts)>)

  /**
   * The button handler in source order. `predict` stands for the trained
   * model applied to the one-row feature table; `round2` for `round(x, 2)`,
   * which the source applies to the score before choosing its label.
   */
  method AnalyzeFinances(
    p: FinancialProfile, riskText: string,
    predict: FeatureRecord -> real, round2: real -> real)
    returns (report: Report)
    ensures report.predictedSavings == predict(Features(p))
    ensures report.recommendations == Recommend(p.income, p.expenses)
    ensures |report.recommendations| >= 1
    ensures report.breakdown == Breakdown(p.sources)
    ensures report.budget == BudgetSplit(p.income)
    ensures report.score == round2(Score(p.income, p.expenses, p.sources))
    ensures report.verdict == Label(report.score)
    ensures report.investment.Some? <==> p.income > 0.0
    ensures report.investment.Some? ==> report.investment.value == InvestmentAllocation(p.income, riskText)
  {
    var features := Features(p);
    var predicted := predict(features);
    var recs := BuildRecommendations(p.income, p.expenses);
    RecommendNeverEmpty(p.income, p.expenses);
    var breakdown := Breakdown(p.sources);
    var budget := BudgetSplit(p.income);
    var score := ComputeScore(p.income, p.expenses, p.sources);
    score := round2(score);
    var verdict := Label(score);
    var investment := None;
    if p.income > 0.0 {
      investment := Some(InvestmentAllocation(p.income, riskText));
    }
    report := Report(predicted, recs, breakdown, budget, score, verdict, investment);
  }

  /** Income 50000 with nothing spent: spending is healthy and no rule fires. */
  lemma ScenarioNothingSpentRecommendations()
    ensures Recommend(50000.0, NoExpenses) == [SpendingHealthy]
  {
    TotalExpensesIsFieldSum(NoExpenses);
    FiredRulesUnrolled(50000.0, NoExpenses);
  }

  /**
   * Income 50000, nothing spent, no sources: savings part 30, independence
   * part 0 (with no sources the dependency falls back to 1, which gives the
   * lowest independence part while no source is negative), spending part 40,
   * a score of 70 and the label "Decent".
   */
  lemma ScenarioNothingSpentScore()
    ensures Score(50000.0, NoExpenses, NoSources) == 70.0
    ensures Label(Score(50000.0, NoExpenses, NoSources)) == Decent
  {
    TotalExpensesIsFieldSum(NoExpenses);
    assert TotalExpenses(NoExpenses) == 0.0;
    assert SavingsRate(50000.0, NoExpenses) == 1.0;
    assert SpendingRatio(50000.0, NoExpenses) == 0.0;
  }

  /**
   * Income 50000, no sources, medium risk: no breakdown, a 25000/15000/10000
   * budget and a 25000/20000/5000 investment split.
   */
  lemma ScenarioNothingSpentPlans()
    ensures Breakdown(NoSources) == None
    ensures BudgetSplit(50000.0) == Split(25000.0, 15000.0, 10000.0)
    ensures InvestmentAllocation(50000.0, "Medium").1 == Amounts(25000.0, 20000.0, 5000.0)
  {
    assert Lower("Medium") == "medium";
  }

  /**
   * No income: the spending ratio falls back to 1 and the savings rate to 0,
   * so the spending part is 10 and the savings part 0; no low-savings warning
   * is given. (That no allocation is computed without income is stated by
   * AnalyzeFinances.)
   */
  lemma ScenarioNoIncome(e: Expenses)
    ensures SpendingRatio(0.0, e) == 1.0 && SavingsRate(0.0, e) == 0.0
    ensures SpendingPoints(SpendingRatio(0.0, e)) == 10.0
    ensures SavingsPoints(SavingsRate(0.0, e)) == 0.0
    ensures LowSavings !in Recommend(0.0, e)
  {
    RuleListedIffFires(LowSavings, 0.0, e);
  }
}

# Personal financial guidance dashboard: the derived-metrics core

This project models the arithmetic behind the "Analyze My Finances" button of
the savings-predictor dashboard (`dashboard.py`), and proves properties of it.
The handler takes a monthly income and eleven expense amounts. It also takes
four income sources, age, dependents, occupation, city tier and a risk
appetite. From these it computes:

- the disposable income, and the 17-column feature record sent to the savings model;
- a list of spending recommendations, from five independent threshold rules with a "healthy" fallback;
- the share of each income source in the total, unless the sources total nothing;
- the 50/30/20 budget split;
- the savings rate and spending ratio;
- a health score made of a capped savings part, an independence part and a tiered spending part, and its label;
- an investment allocation chosen by a case-insensitive risk level, shown only when there is income.

All quantities are exact `real`s. The modules follow the parts of the handler:

| file | module | part of the handler |
|---|---|---|
| `wrappers.dfy` | `Wrappers` | `Option`, for "shown" versus "nothing entered" |
| `profile.dfy` | `Profile` | input records, the expense sum, disposable income, the feature record |
| `recommendations.dfy` | `Recommendations` | the recommendation rules |
| `portfolio.dfy` | `IncomePortfolio` | the income-source breakdown |
| `budget.dfy` | `Budget` | the 50/30/20 split |
| `health.dfy` | `HealthScore` | savings rate, spending ratio, score parts, score, label |
| `allocation.dfy` | `Allocation` | `get_investment_allocation` |
| `dashboard.dfy` | `Dashboard` | the whole button handler and worked scenarios |

Two parts of the source change local state step by step, and they are modelled as methods:

- `BuildRecommendations` appends to a list under a chain of `if`s.
- `ComputeScore` accumulates `score` with `+=` in a tiered branch.

Each method is proved equal to a specification function, and the properties are lemmas about those functions:

- `Recommend` is a filter of the rule table.
- `Score` is the sum of the three parts.

The other parts are expressions and conditionals, and they are modelled as functions.

The source computes the sum of the eleven expenses in three places (lines 50-53, 127-128 and 131-132). All three list the same fields in the same order, so the model has one function for them, `Profile.TotalExpenses`. `Profile.TotalExpensesIsFieldSum` proves that it adds each of the eleven fields exactly once.

The model keeps these behaviours of the code as written:

- The low-savings warning fires only when income is positive (line 82). With no income the savings rate is 0, but no warning is given (`Recommendations.LowSavingsIsSavingsRateTest`, `Dashboard.ScenarioNoIncome`).
- The health score is not confined to [0, 100]. It has no lower bound when spending exceeds income (`HealthScore.ScoreUnboundedBelow`). It stays at or below 100 whenever the salary input is non-negative (`HealthScore.ScoreAtMost100`); a negative salary can push it above 100 (`HealthScore.NegativeSalaryBreaksScoreBound`).
- Of the money inputs, only income has a lower bound (line 21). Expenses and income sources may be negative, so every bound that needs non-negative inputs states that as a precondition. `IncomePortfolio.NegativeSourceBreaksPercentRange` shows a percentage outside [0, 100].
- The independence part rewards a LOW salary share: `(1 - salary / total) * 30` (lines 129-130). With no sources, the dependency is 1 and the part is 0. This polarity is kept as written.
- The label is chosen from the score after it is rounded to two decimals (line 148). The model passes that rounding in as a function.

## Model

| member | source | states |
|---|---|---|
| Profile.TotalExpensesIsFieldSum | dashboard.py:50-53 | the expense total is exactly the eleven expense fields added together |
| Profile.TotalExpensesNonNegative | dashboard.py:50-53 | with non-negative expense fields the total is non-negative |
| Profile.DisposableIncome | dashboard.py:50-53 | disposable income plus total expenses gives back the income |
| Profile.Features | dashboard.py:55-73 | the record is self-consistent (its disposable-income column is its income minus its eleven expense columns); the other 16 columns are the raw inputs, unchanged |
| Profile.FeaturesForgetOnlySources | dashboard.py:55-73 | two profiles give the same record exactly when they differ at most in their income sources |
| Profile.DisposableIncomeColumn | dashboard.py:50-73 | the Disposable_Income column is income minus the sum of the eleven expense inputs |
| Recommendations.Fired | dashboard.py:82-91 | a rule is in the result exactly when it is one of the given rules and its condition holds |
| Recommendations.BuildRecommendations | dashboard.py:81-93 | the list built by the sequence of `if`/append steps is the rule-table filter with the healthy fallback |
| Recommendations.RecommendNeverEmpty | dashboard.py:92-93 | the list is never empty; it is the single healthy message exactly when no rule fires, and the healthy message never appears with another |
| Recommendations.RuleListedIffFires | dashboard.py:82-91 | each rule is listed exactly when its own threshold is crossed, independent of the others |
| Recommendations.FiredKeepsOrder | dashboard.py:82-91 | filtering a rule list in checking order keeps the result in checking order |
| Recommendations.RecommendInCheckingOrder | dashboard.py:81-93 | messages appear in the fixed order low savings, groceries, eating out, transport, entertainment, with none repeated |
| Recommendations.RuleThresholds | dashboard.py:84-91 | groceries, eating-out, transport and entertainment messages are listed exactly when those expenses exceed 6000, 2000, 2500 and 1500 |
| Recommendations.LowSavingsIsSavingsRateTest | dashboard.py:82-83 | the low-savings warning fires exactly when income is positive and the savings rate is below 0.15 |
| IncomePortfolio.Breakdown | dashboard.py:100-112 | a breakdown exists exactly when the sources total more than zero; each entry times the total is its source times 100 |
| IncomePortfolio.BreakdownSumsTo100 | dashboard.py:100-107 | before rounding the four percentages add up to 100 |
| IncomePortfolio.BreakdownWithinPercentRange | dashboard.py:100-107 | with non-negative sources every percentage lies in [0, 100] |
| IncomePortfolio.NegativeSourceBreaksPercentRange | dashboard.py:100-107 | with a negative source a percentage can exceed 100 or fall below 0 |
| Budget.BudgetSplit | dashboard.py:116-120 | needs, wants and savings add up to the income, in the ratio 5 : 3 : 2, and are non-negative for non-negative income |
| Budget.SplitDeterminedByRatios | dashboard.py:116-120 | any split that sums to income in the ratio 5 : 3 : 2 is the dashboard's split |
| HealthScore.SavingsRate | dashboard.py:127-128 | for positive income the rate times the income is the disposable income; otherwise it is 0, with no division |
| HealthScore.SpendingRatio | dashboard.py:131-137 | for positive income the ratio times the income is the expense total; otherwise it is 1, with no division |
| HealthScore.RatesSumToOne | dashboard.py:127-137 | for every input, savings rate plus spending ratio is 1 |
| HealthScore.SpendingRatioNonNegative | dashboard.py:131-137 | with non-negative expenses the spending ratio is non-negative |
| HealthScore.SavingsPoints | dashboard.py:130 | the savings part is at most 30; it is exactly 30 iff the savings rate is at least 0.2, and 150 times the rate below that |
| HealthScore.SavingsPointsNonDecreasing | dashboard.py:130 | a higher savings rate never earns fewer savings points |
| HealthScore.IndependencePoints | dashboard.py:129-130 | 0 when the sources total nothing; otherwise proportional to the non-salary share; at most 30 for a non-negative salary and at least 0 for non-negative other sources |
| HealthScore.IndependencePointsBounded | dashboard.py:129-130 | with non-negative sources the independence part lies in [0, 30] |
| HealthScore.SpendingPoints | dashboard.py:140-147 | the spending part is one of 10, 20, 30, 40: 40 iff the ratio is at most 0.5, 30 iff it is in (0.5, 0.7], 20 iff in (0.7, 0.9], 10 iff above 0.9 |
| HealthScore.SpendingPointsNonIncreasing | dashboard.py:140-147 | a higher spending ratio never earns more spending points |
| HealthScore.ComputeScore | dashboard.py:127-147 | the score accumulated by the source's assignments equals the sum of the three parts, and is at most 100 for a non-negative salary |
| HealthScore.ScoreAtMost100 | dashboard.py:129-147 | with a non-negative salary input the score is at most 100 |
| HealthScore.NegativeSalaryBreaksScoreBound | dashboard.py:129-147 | with a negative salary the score can exceed 100 (130 for salary -100 and freelance 200) |
| HealthScore.ScoreUnboundedBelow | dashboard.py:127-147 | for every bound there are expenses that bring the score below it |
| HealthScore.Label | dashboard.py:150-155 | "Excellent" iff score >= 80, "Decent" iff 60 <= score < 80, "Needs improvement" iff score < 60 |
| HealthScore.LabelMonotone | dashboard.py:150-155 | a higher score never gets a worse label |
| Allocation.Lower | dashboard.py:162 | lower-casing keeps the length and lower-cases each character |
| Allocation.FractionsFor | dashboard.py:163-170 | for every level the equity, debt and gold fractions sum to 1 and gold is 0.1; equity is 0.2 for low, 0.7 for high and 0.5 for medium or an unrecognised level, which with the sum fixes debt at 0.7, 0.2 and 0.4 |
| Allocation.InvestmentAllocation | dashboard.py:161-173 | the fractions are those of the parsed level; each amount is its fraction times income, and the amounts sum to income |
| Allocation.ParseRisk | dashboard.py:162-170 | the text is read as low, medium or high exactly when its lower-cased form is "low", "medium" or "high", and as unrecognised exactly otherwise |
| Allocation.ParseRiskIgnoresCase | dashboard.py:161-168 | two texts that differ only in letter case are read as the same level |
| Allocation.ParseRiskAnyCase | dashboard.py:162-168 | "LOW", "Medium" and "hIgH" are recognised as low, medium and high |
| Allocation.UnrecognisedIsMedium | dashboard.py:169-170 | any unrecognised level gives the same allocation as "medium" |
| Allocation.EquityGrowsWithRisk | dashboard.py:163-168 | the equity fraction grows from low to medium to high risk |
| Dashboard.AnalyzeFinances | dashboard.py:49-176 | the handler's results are the model's prediction of the feature record, the recommendations (never empty), the breakdown, the budget, the rounded score and its label, and an allocation exactly when income is positive |
| Dashboard.ScenarioNothingSpentRecommendations | dashboard.py:81-93 | income 50000 with nothing spent gives only the healthy message |
| Dashboard.ScenarioNothingSpentScore | dashboard.py:127-155 | income 50000, nothing spent, no sources: score 70, "Decent" |
| Dashboard.ScenarioNothingSpentPlans | dashboard.py:100-173 | income 50000, no sources, medium risk: no breakdown, budget 25000/15000/10000, investments 25000/20000/5000 |
| Dashboard.ScenarioNoIncome | dashboard.py:82-147 | income 0: spending ratio 1, savings rate 0, spending part 10, savings part 0, no low-savings warning |

## Left out

- The Streamlit page: widgets, layout, `st.*` display calls, the recommendation texts' display, the ₹ and thousands-separator formatting (lines 13-46, 77, 95-96, 109-110, 121-123, 151-155, 178-190). These are presentation only. The widgets matter only for their bounds, which become preconditions where they are needed.
- Downloading and unpickling the model (lines 7-11). This is network and file I/O.
- The model's prediction (line 75). It is an opaque scikit-learn pipeline, so `Dashboard.AnalyzeFinances` takes it as a function parameter over `Profile.FeatureRecord`.
- The training script (`train_model.py`): CSV reading, one-hot encoding, the random forest, the train/test split, the metric report and saving. These are library calls whose behaviour is not shown here. For the same reason the model does not cover the unknown-category policy of the encoder.
- Floating point. All quantities are exact reals. Python's float comparisons and sums may differ in the last bits.
- IncomePortfolio.Breakdown: does not model rounding to two decimals (lines 103-106). Its properties hold for the unrounded percentages.
- Budget.BudgetSplit: does not model rounding to a whole amount (lines 117-119). Its properties hold for the unrounded amounts.
- Allocation.InvestmentAllocation: does not model rounding of the amounts to two decimals (line 172). The amounts sum to income only before rounding.
- HealthScore.ComputeScore: returns the score before the rounding on line 148. `Dashboard.AnalyzeFinances` applies a caller-supplied rounding function before it chooses the label.
- Allocation.Lower: lower-cases only A-Z, not all of Unicode as `str.lower` does. Two other characters lower-case to text that contains an ASCII letter: U+0130 becomes "i" followed by the combining dot U+0307, and the Kelvin sign U+212A becomes "k". The combining dot stays in the text, so it cannot equal "medium" or "high", and "k" occurs in none of the three names. So the recognised levels are the same.
- The age and dependents ranges (lines 22-23). They are only copied into the feature record, so no formula depends on them.
- The risk-appetite selector sits inside the button handler (line 159). Streamlit re-runs the whole script when it changes. On that re-run the button reads as not pressed, so the whole handler (lines 49-192) is skipped. The allocation is therefore only ever shown for the value the selector had on the run the click started. The `riskText` parameter of `Dashboard.AnalyzeFinances` admits any text, more values than a user can actually reach.

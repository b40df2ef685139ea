/**
 * The recommendation list (dashboard.py, lines 81-93): five independent
 * threshold rules checked in a fixed order, every one that fires is listed,
 * and a single "healthy" message stands in when none does.
 */
module Recommendations {
  import opened Profile
  import HealthScore

  datatype Recommendation =
    | LowSavings | ReduceGroceries | EatingOutTooMuch | HighTransport | HighEntertainment
    | SpendingHealthy

  /** The threshold rules in the order the dashboard checks them. */
  const Rules: seq<Recommendation> :=
    [LowSavings, ReduceGroceries, EatingOutTooMuch, HighTransport, HighEntertainment]

  /** Whether a rule's condition holds; the fallback message is not a rule and never fires. */
  predicate Fires(r: Recommendation, income: real, e: Expenses)
  {
    match r
    case LowSavings => income > 0.0 && DisposableIncome(income, e) / income < 0.15
    case ReduceGroceries => e.groceries > 6000.0
    case EatingOutTooMuch => e.eatingOut > 2000.0
    case HighTransport => e.transport > 2500.0
    case HighEntertainment => e.entertainment > 1500.0
    case SpendingHealthy => false
  }

  /** The rules of `rules` that fire, kept in their order. */
  function Fired(rules: seq<Recommendation>, income: real, e: Expenses): (out: seq<Recommendation>)
    ensures forall r :: r in out <==> r in rules && Fires(r, income, e)
    ensures |out| <= |rules|
  {
    if rules == [] then []
    else Part(rules[0], income, e) + Fired(rules[1..], income, e)
  }

  /** What the dashboard lists: the fired rules, or the healthy message alone. */
  function Recommend(income: real, e: Expenses): seq<Recommendation>
  {
    var fired := Fired(Rules, income, e);
    if fired == [] then [SpendingHealthy] else fired
  }

  /**
   * The source's construction: a list appended to by one `if` per rule, then
   * the fallback when the list is still empty.
   */
  method BuildRecommendations(income: real, e: Expenses) returns (recs: seq<Recommendation>)
    ensures recs == Recommend(income, e)
  {
    var disposable := DisposableIncome(income, e);
    recs := [];
    if income > 0.0 && disposable / income < 0.15 {
      recs := recs + [LowSavings];
    }
    assert recs == Part(LowSavings, income, e);
    if e.groceries > 6000.0 {
      recs := recs + [ReduceGroceries];
    }
    assert recs == Part(LowSavings, income, e) + Part(ReduceGroceries, income, e);
    if e.eatingOut > 2000.0 {
      recs := recs + [EatingOutTooMuch];
    }
    assert recs == Part(LowSavings, income, e) + Part(ReduceGroceries, income, e)
                 + Part(EatingOutTooMuch, income, e);
    if e.transport > 2500.0 {
      recs := recs + [HighTransport];
    }
    assert recs == Part(LowSavings, income, e) + Part(ReduceGroceries, income, e)
                 + Part(EatingOutTooMuch, income, e) + Part(HighTransport, income, e);
    if e.entertainment > 1500.0 {
      recs := recs + [HighEntertainment];
    }
    FiredRulesUnrolled(income, e);
    if recs == [] {
      recs := [SpendingHealthy];
    }
  }

  /** The singleton list of `r` if it fires, else the empty list. */
  function Part(r: Recommendation, income: real, e: Expenses): seq<Recommendation>
  {
    if Fires(r, income, e) then [r] else []
  }

  /** The five rule checks of Recommend written out one after another. */
  lemma FiredRulesUnrolled(income: real, e: Expenses)
    ensures Fired(Rules, income, e)
         == Part(LowSavings, income, e) + Part(ReduceGroceries, income, e)
          + Part(EatingOutTooMuch, income, e) + Part(HighTransport, income, e)
          + Part(HighEntertainment, income, e)
  {
    var r1 := [ReduceGroceries, EatingOutTooMuch, HighTransport, HighEntertainment];
    var r2 := [EatingOutTooMuch, HighTransport, HighEntertainment];
    var r3 := [HighTransport, HighEntertainment];
    var r4 := [HighEntertainment];
    assert Rules[1..] == r1 && r1[1..] == r2 && r2[1..] == r3 && r3[1..] == r4 && r4[1..] == [];
    var p0, p1, p2, p3, p4 := Part(LowSavings, income, e), Part(ReduceGroceries, income, e),
      Part(EatingOutTooMuch, income, e), Part(HighTransport, income, e), Part(HighEntertainment, income, e);
    var f4 := Fired(r4, income, e);
    FiredCons(r4, income, e);
    assert f4 == p4;
    var f3 := Fired(r3, income, e);
    FiredCons(r3, income, e);
    assert f3 == p3 + p4;
    var f2 := Fired(r2, income, e);
    FiredCons(r2, income, e);
    assert f2 == p2 + (p3 + p4);
    var f1 := Fired(r1, income, e);
    FiredCons(r1, income, e);
    assert f1 == p1 + (p2 + (p3 + p4));
    FiredCons(Rules, income, e);
    assert Fired(Rules, income, e) == p0 + (p1 + (p2 + (p3 + p4)));
    ConcatRegroup(p0, p1, p2, p3, p4);
  }

  lemma ConcatRegroup<T>(a: seq<T>, b: seq<T>, c: seq<T>, d: seq<T>, f: seq<T>)
    ensures a + (b + (c + (d + f))) == a + b + c + d + f
  {
  }

  lemma FiredCons(rules: seq<Recommendation>, income: real, e: Expenses)
    requires rules != []
    ensures Fired(rules, income, e) == Part(rules[0], income, e) + Fired(rules[1..], income, e)
  {
  }

  /** The list is never empty, and it is the healthy message alone exactly when no rule fires. */
  lemma RecommendNeverEmpty(income: real, e: Expenses)
    ensures |Recommend(income, e)| >= 1
    ensures Recommend(income, e) == [SpendingHealthy]
        <==> forall r :: r in Rules ==> !Fires(r, income, e)
    ensures SpendingHealthy in Recommend(income, e) ==> Recommend(income, e) == [SpendingHealthy]
  {
    var fired := Fired(Rules, income, e);
    if fired != [] {
      assert fired[0] in fired;
    }
  }

  /** Each rule is listed exactly when its own condition holds, whatever the other rules do. */
  lemma RuleListedIffFires(r: Recommendation, income: real, e: Expenses)
    requires r in Rules
    ensures r in Recommend(income, e) <==> Fires(r, income, e)
  {
  }

  /** Position of a message in the dashboard's checking order. */
  function Rank(r: Recommendation): nat
  {
    match r
    case LowSavings => 0
    case ReduceGroceries => 1
    case EatingOutTooMuch => 2
    case HighTransport => 3
    case HighEntertainment => 4
    case SpendingHealthy => 5
  }

  predicate InCheckingOrder(rs: seq<Recommendation>)
  {
    forall i, j :: 0 <= i < j < |rs| ==> Rank(rs[i]) < Rank(rs[j])
  }

  lemma {:induction false} FiredKeepsOrder(rules: seq<Recommendation>, income: real, e: Expenses)
    requires InCheckingOrder(rules)
    ensures InCheckingOrder(Fired(rules, income, e))
  {
    if rules != [] {
      var rest := rules[1..];
      assert InCheckingOrder(rest) by {
        forall i, j | 0 <= i < j < |rest| ensures Rank(rest[i]) < Rank(rest[j]) {
          assert rest[i] == rules[i + 1] && rest[j] == rules[j + 1];
        }
      }
      FiredKeepsOrder(rest, income, e);
      var tail := Fired(rest, income, e);
      forall x | x in tail ensures Rank(rules[0]) < Rank(x) {
        var k :| 0 <= k < |rest| && rest[k] == x;
        assert rules[k + 1] == x;
      }
    }
  }

  /** The messages appear in the fixed order of the checks and none twice. */
  lemma RecommendInCheckingOrder(income: real, e: Expenses)
    ensures InCheckingOrder(Recommend(income, e))
  {
    FiredKeepsOrder(Rules, income, e);
  }

  /** The four spending rules are listed exactly when their fixed thresholds are exceeded. */
  lemma RuleThresholds(income: real, e: Expenses)
    ensures ReduceGroceries in Recommend(income, e) <==> e.groceries > 6000.0
    ensures EatingOutTooMuch in Recommend(income, e) <==> e.eatingOut > 2000.0
    ensures HighTransport in Recommend(income, e) <==> e.transport > 2500.0
    ensures HighEntertainment in Recommend(income, e) <==> e.entertainment > 1500.0
  {
  }

  /**
   * The low-savings rule is the savings-rate test restricted to a positive
   * income: with no income the savings rate is 0 yet no warning is given.
   */
  lemma LowSavingsIsSavingsRateTest(income: real, e: Expenses)
    ensures Fires(LowSavings, income, e) <==> income > 0.0 && HealthScore.SavingsRate(income, e) < 0.15
  {
  }
}

/** The investment-allocation suggestion (dashboard.py, lines 161-176). */
module Allocation {

  datatype RiskLevel = Low | Medium | High | Unrecognised

  /** Fractions of income per asset class. */
  datatype Fractions = Fractions(equity: real, debt: real, gold: real)

  /** Amounts of income per asset class. */
  datatype Amounts = Amounts(equity: real, debt: real, gold: real)

  /** Lower-casing of one character, as `str.lower` does for A-Z. */
  function LowerChar(c: char): char
  {
    if 'A' <= c <= 'Z' then (c as int + 32) as char else c
  }

  function Lower(s: string): (r: string)
    ensures |r| == |s|
    ensures forall i :: 0 <= i < |s| ==> r[i] == LowerChar(s[i])
  {
    if s == [] then [] else [LowerChar(s[0])] + Lower(s[1..])
  }

  /** The comparison chain on the lower-cased risk text. */
  function ParseRisk(text: string): (r: RiskLevel)
    ensures r == Low <==> Lower(text) == "low"
    ensures r == Medium <==> Lower(text) == "medium"
    ensures r == High <==> Lower(text) == "high"
    ensures r == Unrecognised <==> Lower(text) !in {"low", "medium", "high"}
  {
    var t := Lower(text);
    if t == "low" then Low
    else if t == "medium" then Medium
    else if t == "high" then High
    else Unrecognised
  }

  /** The fixed split for each level; an unrecognised level gets the medium split. */
  function FractionsFor(level: RiskLevel): (f: Fractions)
    ensures f.equity + f.debt + f.gold == 1.0
    ensures f.gold == 0.1
    ensures 0.0 <= f.equity && 0.0 <= f.debt
    ensures level == Low ==> f.equity == 0.2
    ensures (level == Medium || level == Unrecognised) ==> f.equity == 0.5
    ensures level == High ==> f.equity == 0.7
  {
    match level
    case Low => Fractions(0.2, 0.7, 0.1)
    case Medium => Fractions(0.5, 0.4, 0.1)
    case High => Fractions(0.7, 0.2, 0.1)
    case Unrecognised => Fractions(0.5, 0.4, 0.1)
  }

  /**
   * The source's `get_investment_allocation`: the fractions and the amount of
   * income each stands for. The source rounds amounts to two decimals, which is
   * not modelled.
   */
  function InvestmentAllocation(income: real, riskText: string): (r: (Fractions, Amounts))
    ensures r.0 == FractionsFor(ParseRisk(riskText))
    ensures r.1.equity == r.0.equity * income && r.1.debt == r.0.debt * income
      && r.1.gold == r.0.gold * income
    ensures r.1.equity + r.1.debt + r.1.gold == income
  {
    var f := FractionsFor(ParseRisk(riskText));
    assert f.equity * income + f.debt * income + f.gold * income
        == (f.equity + f.debt + f.gold) * income;
    (f, Amounts(f.equity * income, f.debt * income, f.gold * income))
  }

  /** Letter case never changes the level a text is read as. */
  lemma ParseRiskIgnoresCase(a: string, b: string)
    requires |a| == |b|
    requires forall i :: 0 <= i < |a| ==> LowerChar(a[i]) == LowerChar(b[i])
    ensures ParseRisk(a) == ParseRisk(b)
  {
    assert Lower(a) == Lower(b);
  }

  /** Three mixed-case spellings are recognised; with ParseRiskIgnoresCase, every capitalisation is. */
  lemma ParseRiskAnyCase()
    ensures ParseRisk("LOW") == Low && ParseRisk("Medium") == Medium && ParseRisk("hIgH") == High
  {
    assert Lower("LOW") == "low";
    assert Lower("Medium") == "medium";
    assert Lower("hIgH") == "high";
  }

  /** Any text that is none of the three names allocates exactly as "medium". */
  lemma UnrecognisedIsMedium(income: real, riskText: string)
    requires ParseRisk(riskText) == Unrecognised
    ensures InvestmentAllocation(income, riskText) == InvestmentAllocation(income, "medium")
  {
    assert Lower("medium") == "medium";
    assert ParseRisk("medium") == Medium;
    var given, medium := InvestmentAllocation(income, riskText), InvestmentAllocation(income, "medium");
    assert given.0 == FractionsFor(Medium) == medium.0;
    assert given.1 == Amounts(given.0.equity * income, given.0.debt * income, given.0.gold * income);
    assert medium.1 == Amounts(medium.0.equity * income, medium.0.debt * income, medium.0.gold * income);
    assert given.1 == medium.1;
    assert given == (given.0, given.1);
    assert given == (medium.0, medium.1);
  }

  /** A higher risk appetite never puts a smaller share in equity. */
  lemma EquityGrowsWithRisk()
    ensures FractionsFor(Low).equity < FractionsFor(Medium).equity < FractionsFor(High).equity
  {
  }
}

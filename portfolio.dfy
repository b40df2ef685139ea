/** The income-portfolio breakdown (dashboard.py, lines 100-112). */
module IncomePortfolio {
  import opened Wrappers
  import opened Profile

  /** Percentage of the sources' total that each source contributes. */
  datatype Shares = Shares(salary: real, freelance: real, investments: real, other: real)

  /**
   * Each source as a percentage of the total, or None (the "no income
   * sources entered" warning) unless the total is positive; nothing is
   * divided in that case. Shown rounded to two decimals, which is not modelled.
   */
  function Breakdown(s: IncomeSources): (r: Option<Shares>)
    ensures r.Some? <==> SourcesTotal(s) > 0.0
    ensures r.Some? ==> r.value.salary * SourcesTotal(s) == s.salary * 100.0
    ensures r.Some? ==> r.value.freelance * SourcesTotal(s) == s.freelance * 100.0
    ensures r.Some? ==> r.value.investments * SourcesTotal(s) == s.investments * 100.0
    ensures r.Some? ==> r.value.other * SourcesTotal(s) == s.otherIncome * 100.0
  {
    var total := SourcesTotal(s);
    if total > 0.0 then
      Some(Shares(
        (s.salary / total) * 100.0,
        (s.freelance / total) * 100.0,
        (s.investments / total) * 100.0,
        (s.otherIncome / total) * 100.0))
    else None
  }

  /** Before rounding, the four percentages add up to 100. */
  lemma BreakdownSumsTo100(s: IncomeSources)
    requires SourcesTotal(s) > 0.0
    ensures var sh := Breakdown(s).value;
      sh.salary + sh.freelance + sh.investments + sh.other == 100.0
  {
    var t := SourcesTotal(s);
    var sh := Breakdown(s).value;
    assert (sh.salary + sh.freelance + sh.investments + sh.other) * t
        == (s.salary + s.freelance + s.investments + s.otherIncome) * 100.0;
  }

  /** With no negative source every percentage lies in [0, 100]. */
  lemma BreakdownWithinPercentRange(s: IncomeSources)
    requires s.salary >= 0.0 && s.freelance >= 0.0 && s.investments >= 0.0 && s.otherIncome >= 0.0
    requires SourcesTotal(s) > 0.0
    ensures var sh := Breakdown(s).value;
      0.0 <= sh.salary <= 100.0 && 0.0 <= sh.freelance <= 100.0
      && 0.0 <= sh.investments <= 100.0 && 0.0 <= sh.other <= 100.0
  {
    var t := SourcesTotal(s);
    var sh := Breakdown(s).value;
    PercentOfWhole(s.salary, t, sh.salary);
    PercentOfWhole(s.freelance, t, sh.freelance);
    PercentOfWhole(s.investments, t, sh.investments);
    PercentOfWhole(s.otherIncome, t, sh.other);
  }

  /** A part between zero and the whole is between 0% and 100% of it. */
  lemma PercentOfWhole(part: real, whole: real, percent: real)
    requires 0.0 <= part <= whole && whole > 0.0
    requires percent * whole == part * 100.0
    ensures 0.0 <= percent <= 100.0
  {
    assert percent == part * 100.0 / whole;
  }

  /**
   * The form accepts negative sources, and then a percentage can leave [0, 100]:
   * a salary of 300 against a freelance loss of 200 shows salary at 300%.
   */
  lemma NegativeSourceBreaksPercentRange()
    ensures Breakdown(IncomeSources(300.0, -200.0, 0.0, 0.0)) == Some(Shares(300.0, -200.0, 0.0, 0.0))
  {
  }
}

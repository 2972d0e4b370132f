/**
 * The contribution optimizer's two-tier employer match (`calcEmployerMatch`): the policy text
 * such as "100% up to 3%; 50% of next 2%" supplies up to four figures, in order the tier-1
 * match rate, the tier-1 cap, the tier-2 match rate and the tier-2 cap, each a percentage.
 */
module MatchPolicy {
  import opened Numeric
  import Decimal

  /** Rates and caps as fractions: 100% is 1.0. */
  datatype Policy = Policy(t1rate: real, t1cap: real, t2rate: real, t2cap: real)

  predicate NonNegative(p: Policy)
  {
    p.t1rate >= 0.0 && p.t1cap >= 0.0 && p.t2rate >= 0.0 && p.t2cap >= 0.0
  }

  /** `nums[j] ?? fallback`: the fallback stands in only for a figure the text does not have. */
  function FigureOr(nums: seq<real>, j: nat, fallback: real): real
  {
    if j < |nums| then nums[j] else fallback
  }

  /**
   * The figures of the policy text, divided by 100, with 100, 3, 50 and 2 standing in for
   * missing ones. Lower-casing the text first cannot change which digits it holds, so it is
   * not modelled. The figures are unsigned, so every rate and cap is non-negative.
   */
  function ParsePolicy(policy: string): (p: Policy)
    ensures NonNegative(p)
  {
    var nums := Decimal.ScanNumbers(policy);
    Policy(FigureOr(nums, 0, 100.0) / 100.0, FigureOr(nums, 1, 3.0) / 100.0,
           FigureOr(nums, 2, 50.0) / 100.0, FigureOr(nums, 3, 2.0) / 100.0)
  }

  /** The standard policy: 100% of the first 3% of salary, then 50% of the next 2%. */
  const DefaultPolicy := Policy(1.0, 0.03, 0.5, 0.02)

  /** A policy text without figures means the standard policy. */
  lemma ParseNoFigures(policy: string)
    requires Decimal.NoDigits(policy)
    ensures ParsePolicy(policy) == DefaultPolicy
  {
    Decimal.ScanSkips(policy, []);
    assert policy + [] == policy;
  }

  /** A text listing four whole figures, separated by text without digits, reads back as those figures. */
  lemma ParseFourFigures(a: nat, b: nat, c: nat, d: nat, sep: string)
    requires sep != [] && Decimal.NoDigits(sep) && sep[0] != '.'
    ensures ParsePolicy(Decimal.Render([a, b, c, d], sep))
         == Policy(a as real / 100.0, b as real / 100.0, c as real / 100.0, d as real / 100.0)
  {
    Decimal.ScanRender([a, b, c, d], sep);
  }

  lemma Value100()
    ensures Decimal.DigitsValue("100") == 100
  {
    assert "100"[..2] == "10" && "10"[..1] == "1" && "1"[..0] == "";
  }

  lemma Value50()
    ensures Decimal.DigitsValue("50") == 50
  {
    assert "50"[..1] == "5" && "5"[..0] == "";
  }

  lemma Value2()
    ensures Decimal.DigitsValue("2") == 2
  {
    assert "2"[..0] == "";
  }

  lemma SecondTierParts(s: string, rest: string)
    requires s == "50% of next 2%" && rest == "2%"
    ensures s == "50" + ("% of next " + rest) && rest == "2" + "%"
  {
  }

  lemma ScanSecondTierText(s: string, rest: string)
    requires s == "50" + ("% of next " + rest) && rest == "2" + "%"
    ensures Decimal.ScanNumbers(s) == [50.0, 2.0]
  {
    Decimal.ScanFigureThen("50", "% of next ", rest);
    Decimal.ScanFigureLast("2", "%");
    Value2();
    Value50();
  }

  lemma Value3()
    ensures Decimal.DigitsValue("3") == 3
  {
    assert "3"[..0] == "";
  }

  lemma BothTiersParts(s: string, rest: string)
    requires s == "3%; 50% of next 2%" && rest == "50% of next 2%"
    ensures s == "3" + ("%; " + rest)
  {
  }

  lemma ScanBothTiersText(s: string, rest: string)
    requires s == "3" + ("%; " + rest) && Decimal.ScanNumbers(rest) == [50.0, 2.0]
    ensures Decimal.ScanNumbers(s) == [3.0, 50.0, 2.0]
  {
    Decimal.ScanFigureThen("3", "%; ", rest);
    Value3();
  }

  lemma SuggestedTextParts(s: string, rest: string)
    requires s == "100% up to 3%; 50% of next 2%" && rest == "3%; 50% of next 2%"
    ensures s == "100" + ("% up to " + rest)
  {
  }

  lemma ScanSuggestedText(s: string, rest: string)
    requires s == "100" + ("% up to " + rest) && Decimal.ScanNumbers(rest) == [3.0, 50.0, 2.0]
    ensures Decimal.ScanNumbers(s) == [100.0, 3.0, 50.0, 2.0]
  {
    Decimal.ScanFigureThen("100", "% up to ", rest);
    Value100();
  }

  /** The policy text the form suggests reads as the standard policy. */
  lemma ParseSuggestedPolicy(policy: string)
    requires policy == "100% up to 3%; 50% of next 2%"
    ensures ParsePolicy(policy) == DefaultPolicy
  {
    var both, second, last := "3%; 50% of next 2%", "50% of next 2%", "2%";
    SuggestedTextParts(policy, both);
    BothTiersParts(both, second);
    SecondTierParts(second, last);
    ScanSecondTierText(second, last);
    ScanBothTiersText(both, second);
    ScanSuggestedText(policy, both);
  }

  /** Only the figures a text lacks fall back: "50% up to 6%" keeps its own first tier. */
  lemma ParseOwnFirstTier(policy: string)
    requires policy == "50% up to 6%"
    ensures ParsePolicy(policy) == Policy(0.5, 0.06, 0.5, 0.02)
  {
    OwnFirstTierParts(policy, "6%");
    ScanOwnFirstTier(policy, "6%");
  }

  lemma OwnFirstTierParts(s: string, rest: string)
    requires s == "50% up to 6%" && rest == "6%"
    ensures s == "50" + ("% up to " + rest) && rest == "6" + "%"
  {
  }

  lemma ScanOwnFirstTier(s: string, rest: string)
    requires s == "50" + ("% up to " + rest) && rest == "6" + "%"
    ensures Decimal.ScanNumbers(s) == [50.0, 6.0]
  {
    Decimal.ScanFigureThen("50", "% up to ", rest);
    Decimal.ScanFigureLast("6", "%");
    assert Decimal.DigitsValue("6") == 6 by { assert "6"[..0] == ""; }
    Value50();
  }

  /** The employee's contribution as a fraction of salary, at most 1; salaries below 1 divide by 1. */
  function ContributionShare(salary: real, contribution: real): real
  {
    Min(contribution / Max(salary, 1.0), 1.0)
  }

  /** The tier-1 rate on the share of salary up to the tier-1 cap. */
  function Tier1(share: real, salary: real, p: Policy): real
  {
    Min(share, p.t1cap) * salary * p.t1rate
  }

  /** The tier-2 rate on the share of salary between the tier-1 cap and the two caps together. */
  function Tier2(share: real, salary: real, p: Policy): real
  {
    Max(Min(share - p.t1cap, p.t2cap), 0.0) * salary * p.t2rate
  }

  /** The two caps' share of salary: the most any contribution can earn. */
  function CapsShare(salary: real, p: Policy): real
  {
    salary * (p.t1cap + p.t2cap)
  }

  /** The two tiers together, never more than the two caps' share of salary. */
  function MatchFor(salary: real, contribution: real, p: Policy): (m: real)
    ensures m <= CapsShare(salary, p)
  {
    var share := ContributionShare(salary, contribution);
    Min(Tier1(share, salary, p) + Tier2(share, salary, p), CapsShare(salary, p))
  }

  /** `calcEmployerMatch(salary, contribution, policy)`: never more than the caps' share of salary. */
  function EmployerMatch(salary: real, contribution: real, policy: string): (m: real)
    ensures m <= CapsShare(salary, ParsePolicy(policy))
    ensures salary >= 0.0 && contribution >= 0.0 ==> m >= 0.0
    ensures salary >= 0.0 && contribution == 0.0 ==> m == 0.0
  {
    var p := ParsePolicy(policy);
    MatchFacts(salary, contribution, p);
    MatchFor(salary, contribution, p)
  }

  lemma MatchFacts(salary: real, contribution: real, p: Policy)
    requires NonNegative(p)
    ensures salary >= 0.0 && contribution >= 0.0 ==> MatchFor(salary, contribution, p) >= 0.0
    ensures salary >= 0.0 && contribution == 0.0 ==> MatchFor(salary, contribution, p) == 0.0
  {
    MatchNonNegative(salary, contribution, p);
    MatchForZero(salary, p);
  }

  lemma MatchNonNegative(salary: real, contribution: real, p: Policy)
    requires NonNegative(p)
    ensures salary >= 0.0 && contribution >= 0.0 ==> MatchFor(salary, contribution, p) >= 0.0
  {
    if salary >= 0.0 && contribution >= 0.0 {
      var share := ContributionShare(salary, contribution);
      DivMonotone(0.0, contribution, Max(salary, 1.0));
      assert share >= 0.0;
      TiersNonNegative(share, salary, p);
      MulNonNegative(salary, p.t1cap + p.t2cap);
    }
  }

  lemma TiersNonNegative(share: real, salary: real, p: Policy)
    requires NonNegative(p) && share >= 0.0 && salary >= 0.0
    ensures Tier1(share, salary, p) >= 0.0 && Tier2(share, salary, p) >= 0.0
  {
    var m1 := Min(share, p.t1cap);
    var b := Max(Min(share - p.t1cap, p.t2cap), 0.0);
    MulNonNegative(m1, salary);
    MulNonNegative(m1 * salary, p.t1rate);
    MulNonNegative(b, salary);
    MulNonNegative(b * salary, p.t2rate);
  }

  /** Contributing nothing earns no match. */
  lemma MatchForZero(salary: real, p: Policy)
    requires NonNegative(p)
    ensures salary >= 0.0 ==> MatchFor(salary, 0.0, p) == 0.0
  {
    if salary >= 0.0 {
      assert 0.0 / Max(salary, 1.0) == 0.0;
      assert ContributionShare(salary, 0.0) == 0.0;
      assert salary * (p.t1cap + p.t2cap) >= 0.0;
    }
  }

  /** The first tier grows with the contribution share. */
  lemma Tier1Monotone(s1: real, s2: real, salary: real, p: Policy)
    requires NonNegative(p) && salary >= 0.0 && s1 <= s2
    ensures Tier1(s1, salary, p) <= Tier1(s2, salary, p)
  {
    var k := salary * p.t1rate;
    assert Min(s1, p.t1cap) * salary * p.t1rate == Min(s1, p.t1cap) * k;
    assert Min(s2, p.t1cap) * salary * p.t1rate == Min(s2, p.t1cap) * k;
    MulLeft(Min(s1, p.t1cap), Min(s2, p.t1cap), k);
  }

  /** The second tier grows with the contribution share. */
  lemma Tier2Monotone(s1: real, s2: real, salary: real, p: Policy)
    requires NonNegative(p) && salary >= 0.0 && s1 <= s2
    ensures Tier2(s1, salary, p) <= Tier2(s2, salary, p)
  {
    var k := salary * p.t2rate;
    var b1 := Max(Min(s1 - p.t1cap, p.t2cap), 0.0);
    var b2 := Max(Min(s2 - p.t1cap, p.t2cap), 0.0);
    assert b1 * salary * p.t2rate == b1 * k;
    assert b2 * salary * p.t2rate == b2 * k;
    MulLeft(b1, b2, k);
  }

  lemma ShareMonotone(salary: real, c1: real, c2: real)
    requires c1 <= c2
    ensures ContributionShare(salary, c1) <= ContributionShare(salary, c2)
  {
    DivMonotone(c1, c2, Max(salary, 1.0));
  }

  /** Contributing more never earns a smaller match. */
  lemma MatchMonotone(salary: real, c1: real, c2: real, p: Policy)
    requires NonNegative(p) && salary >= 0.0 && c1 <= c2
    ensures MatchFor(salary, c1, p) <= MatchFor(salary, c2, p)
  {
    ShareMonotone(salary, c1, c2);
    var s1 := ContributionShare(salary, c1);
    var s2 := ContributionShare(salary, c2);
    Tier1Monotone(s1, s2, salary, p);
    Tier2Monotone(s1, s2, salary, p);
    CappedSumMonotone(Tier1(s1, salary, p), Tier1(s2, salary, p), Tier2(s1, salary, p), Tier2(s2, salary, p),
                      CapsShare(salary, p));
  }

  lemma CappedSumMonotone(a1: real, a2: real, b1: real, b2: real, cap: real)
    requires a1 <= a2 && b1 <= b2
    ensures Min(a1 + b1, cap) <= Min(a2 + b2, cap)
  {
  }

  /**
   * Contributing the whole salary or more earns the same match, for a salary of 0 or of at
   * least 1 (below 1 the share divides by 1 rather than by the salary).
   */
  lemma MatchSaturates(salary: real, contribution: real, p: Policy)
    requires salary == 0.0 || salary >= 1.0
    requires contribution >= salary
    ensures MatchFor(salary, contribution, p) == MatchFor(salary, salary, p)
  {
    if salary >= 1.0 {
      DivAtLeastOne(contribution, salary);
      assert salary / salary == 1.0;
    }
  }

  lemma FullSalaryParts(s: string, rest: string)
    requires s == "100% up to 100%" && rest == "100%"
    ensures s == "100" + ("% up to " + rest) && rest == "100" + "%"
  {
  }

  lemma ScanFullSalaryText(s: string, rest: string)
    requires s == "100" + ("% up to " + rest) && rest == "100" + "%"
    ensures Decimal.ScanNumbers(s) == [100.0, 100.0]
  {
    Decimal.ScanFigureThen("100", "% up to ", rest);
    Decimal.ScanFigureLast("100", "%");
    Value100();
  }

  /**
   * Below a salary of 1 the share divides by 1, so contributing more than the salary still
   * raises the match: under "100% up to 100%" a salary of 0.5 earns 0.25 on a contribution
   * of 0.5 and 0.4 on one of 0.8.
   */
  lemma MatchKeepsRisingBelowOneDollar(policy: string)
    requires policy == "100% up to 100%"
    ensures EmployerMatch(0.5, 0.5, policy) == 0.25
    ensures EmployerMatch(0.5, 0.8, policy) == 0.4
  {
    FullSalaryParts(policy, "100%");
    ScanFullSalaryText(policy, "100%");
    assert ParsePolicy(policy) == Policy(1.0, 1.0, 0.5, 0.02);
    HalfDollarMatches(ParsePolicy(policy));
  }

  /** The two matches of a salary of 0.5 under a 100%-up-to-100% first tier. */
  lemma HalfDollarMatches(p: Policy)
    requires p == Policy(1.0, 1.0, 0.5, 0.02)
    ensures MatchFor(0.5, 0.5, p) == 0.25 && MatchFor(0.5, 0.8, p) == 0.4
  {
    assert ContributionShare(0.5, 0.5) == 0.5 && ContributionShare(0.5, 0.8) == 0.8;
  }

  /** On a 100,000 salary a 5% contribution earns 3% plus half of 2% under the standard policy. */
  lemma MatchExample()
    ensures EmployerMatch(100000.0, 5000.0, "") == 4000.0
  {
    ParseNoFigures("");
  }
}

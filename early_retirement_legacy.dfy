/**
 * The older, yearly early-retirement estimator: savings grow year by year (this year's savings
 * added, then a year's growth) until they reach the FI target, for at most 100 years.
 */
module EarlyRetirementLegacy {
  import opened Wrappers
  import opened Numeric

  /** The most years the estimator simulates. */
  const MaxYears: nat := 100

  /** The form after parsing; the growth rate and the FI multiplier are `None` when they did not parse. */
  datatype Form = Form(age: int, currentSavings: real, income: real, expenses: real,
                       growthRatePct: Option<real>, fiMultiplier: Option<real>)

  /** What the estimator shows: the FI target, the years it takes, the age then, and each year's savings. */
  datatype Estimate = Estimate(fiTarget: real, years: nat, ageAtFi: int, history: seq<real>)

  /** One year: this year's savings are added, then the whole grows at `g`. */
  function AfterYear(x: real, annual: real, g: real): real
  {
    (x + annual) * (1.0 + g)
  }

  /** The savings after `k` years. */
  function Savings(start: real, annual: real, g: real, k: nat): real
  {
    if k == 0 then start else AfterYear(Savings(start, annual, g, k - 1), annual, g)
  }

  /**
   * The `while` loop: keep adding a year until the savings reach the target or 100 years have
   * passed. The result is the first year at which the savings reach the target, or 100; the
   * history holds the savings at the end of each simulated year.
   */
  method YearsToFi(start: real, annual: real, g: real, target: real)
      returns (years: nat, savings: real, history: seq<real>)
    ensures years <= MaxYears && savings == Savings(start, annual, g, years)
    ensures years == MaxYears || savings >= target
    ensures forall k :: 0 <= k < years ==> Savings(start, annual, g, k) < target
    ensures start >= target ==> years == 0
    ensures |history| == years && forall i :: 0 <= i < years ==> history[i] == Savings(start, annual, g, i + 1)
  {
    savings := start;
    years := 0;
    history := [];
    while savings < target && years < MaxYears
      invariant years <= MaxYears && savings == Savings(start, annual, g, years)
      invariant forall k :: 0 <= k < years ==> Savings(start, annual, g, k) < target
      invariant |history| == years && forall i :: 0 <= i < years ==> history[i] == Savings(start, annual, g, i + 1)
      decreases MaxYears - years
    {
      savings := savings + annual;
      savings := savings * (1.0 + g);
      history := history + [savings];
      years := years + 1;
    }
  }

  /** The yearly growth rate: the percentage, 7 when it did not parse or is zero, over 100. */
  function GrowthRate(f: Form): (g: real)
    ensures f.growthRatePct.None? || f.growthRatePct.value == 0.0 ==> g == 0.07
  {
    OrDefault(f.growthRatePct, 7.0) / 100.0
  }

  /** The savings after `k` years of the plan the form describes: yearly savings are income less expenses. */
  function SavingsOf(f: Form, k: nat): real
  {
    Savings(f.currentSavings, f.income - f.expenses, GrowthRate(f), k)
  }

  /**
   * The submit handler: the growth rate defaults to 7% and the multiplier to 25, the yearly
   * savings are income less expenses, the target is expenses times the multiplier, and the age
   * at FI is the age plus the years taken.
   */
  method Submit(f: Form) returns (e: Estimate)
    ensures e.fiTarget == f.expenses * OrDefault(f.fiMultiplier, 25.0)
    ensures e.ageAtFi == f.age + e.years && e.years <= MaxYears && |e.history| == e.years
    ensures e.years == MaxYears || SavingsOf(f, e.years) >= e.fiTarget
    ensures forall k :: 0 <= k < e.years ==> SavingsOf(f, k) < e.fiTarget
    ensures f.currentSavings >= e.fiTarget ==> e.years == 0
  {
    var growthRate := OrDefault(f.growthRatePct, 7.0) / 100.0;
    var fiMultiplier := OrDefault(f.fiMultiplier, 25.0);
    var annualSavings := f.income - f.expenses;
    var fiTarget := f.expenses * fiMultiplier;
    var years, savings, history := YearsToFi(f.currentSavings, annualSavings, growthRate, fiTarget);
    e := Estimate(fiTarget, years, f.age + years, history);
  }

  /** Without growth the savings after `k` years are the start plus `k` years of savings. */
  lemma {:induction false} NoGrowthSavings(start: real, annual: real, k: nat)
    ensures Savings(start, annual, 0.0, k) == start + k as real * annual
  {
    if k > 0 {
      NoGrowthSavings(start, annual, k - 1);
      assert AfterYear(Savings(start, annual, 0.0, k - 1), annual, 0.0) == Savings(start, annual, 0.0, k - 1) + annual;
    }
  }

  /** With non-negative savings, yearly savings and growth, the savings never fall from year to year. */
  lemma SavingsRise(start: real, annual: real, g: real, k: nat)
    requires annual >= 0.0 && g >= 0.0 && Savings(start, annual, g, k) >= 0.0
    ensures Savings(start, annual, g, k + 1) >= Savings(start, annual, g, k)
  {
    var x := Savings(start, annual, g, k);
    MulLeft(1.0, 1.0 + g, x + annual);
    assert AfterYear(x, annual, g) == (x + annual) * (1.0 + g);
  }
}

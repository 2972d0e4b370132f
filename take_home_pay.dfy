/**
 * The single-filer take-home-pay calculator: pre-tax contributions come off the income, a 2024
 * single-filer federal tax is charged on what is left through four bands (0%, 10%, 12%, 22%),
 * and take-home pay is what remains after the tax, health premiums and contributions, shown per
 * pay period. The older `calculate()` copies run the same chain without the per-period view.
 */
module TakeHomePay {
  import opened Wrappers
  import opened Numeric

  /** The top of the untaxed band and of the 10% and 12% bands. */
  const ZeroTop: real := 11600.0
  const TenTop: real := 47150.0
  const TwelveTop: real := 100525.0

  /** The employee elective-deferral limit the "max" button writes. */
  const K401Max: real := 23000.0

  /** `perPeriod`: an annual amount per month, per two weeks, per week, or unchanged for anything else. */
  function PerPeriod(amountAnnual: real, freq: string): (p: real)
    ensures freq == "monthly" ==> p * 12.0 == amountAnnual
    ensures freq == "biweekly" ==> p * 26.0 == amountAnnual
    ensures freq == "weekly" ==> p * 52.0 == amountAnnual
    ensures freq != "monthly" && freq != "biweekly" && freq != "weekly" ==> p == amountAnnual
  {
    if freq == "monthly" then amountAnnual / 12.0
    else if freq == "biweekly" then amountAnnual / 26.0
    else if freq == "weekly" then amountAnnual / 52.0
    else amountAnnual
  }

  /** The federal tax chain on the taxable income. */
  function FederalTax(taxable: real): (tax: real)
    ensures tax >= 0.0
    ensures taxable <= ZeroTop ==> tax == 0.0
    ensures taxable == TenTop ==> tax == 3555.0
    ensures taxable == TwelveTop ==> tax == 9960.0
  {
    if taxable <= ZeroTop then 0.0
    else if taxable <= TenTop then (taxable - ZeroTop) * 0.1
    else if taxable <= TwelveTop then (TenTop - ZeroTop) * 0.1 + (taxable - TenTop) * 0.12
    else (TenTop - ZeroTop) * 0.1 + (TwelveTop - TenTop) * 0.12 + (taxable - TwelveTop) * 0.22
  }

  /** The part of `t` that lies in the band from `lo` to `hi`. */
  function InBand(t: real, lo: real, hi: real): (w: real)
    requires lo <= hi
    ensures 0.0 <= w <= hi - lo
  {
    Max(0.0, Min(t, hi) - lo)
  }

  /**
   * The chain is the banded tax: 10% of the income inside the 10% band, 12% inside the 12% band
   * and 22% of everything above; so no two neighbouring branches disagree at a breakpoint.
   */
  lemma FederalTaxByBands(t: real)
    ensures FederalTax(t) == 0.1 * InBand(t, ZeroTop, TenTop) + 0.12 * InBand(t, TenTop, TwelveTop)
                             + 0.22 * Max(0.0, t - TwelveTop)
  {
    if t <= ZeroTop {
    } else if t <= TenTop {
      assert InBand(t, ZeroTop, TenTop) == t - ZeroTop;
    } else if t <= TwelveTop {
      assert InBand(t, TenTop, TwelveTop) == t - TenTop;
    } else {
      assert InBand(t, ZeroTop, TenTop) == TenTop - ZeroTop;
    }
  }

  /** More taxable income never lowers the tax, and each extra dollar costs at most 22 cents. */
  lemma FederalTaxMonotone(a: real, b: real)
    requires a <= b
    ensures FederalTax(a) <= FederalTax(b) <= FederalTax(a) + 0.22 * (b - a)
  {
    FederalTaxByBands(a);
    FederalTaxByBands(b);
  }

  /** The rate on the next dollar above `t`. */
  function MarginalRate(t: real): (rate: real)
    ensures 0.0 <= rate <= 0.22
  {
    if t < ZeroTop then 0.0 else if t < TenTop then 0.1 else if t < TwelveTop then 0.12 else 0.22
  }

  /** Inside one band the tax grows at exactly that band's marginal rate. */
  lemma FederalTaxSlope(a: real, b: real)
    requires a <= b
    requires (b <= ZeroTop) || (ZeroTop <= a && b <= TenTop) || (TenTop <= a && b <= TwelveTop) || TwelveTop <= a
    ensures FederalTax(b) - FederalTax(a) == MarginalRate(a) * (b - a)
  {
    FederalTaxByBands(a);
    FederalTaxByBands(b);
  }

  /** What the tax chain produces from the five dollar amounts. */
  datatype Breakdown = Breakdown(totalContributions: real, taxableIncome: real, federalTax: real, takeHome: real)

  /**
   * The shared chain of `calculateResults` and the older `calculate()`: contributions are the
   * 401(k), IRA and HSA amounts, taxable income is income less contributions (it may be
   * negative), and take-home is what the tax, health premiums and contributions leave.
   */
  function Calculate(income: real, k401: real, ira: real, hsa: real, health: real): (b: Breakdown)
    ensures b.totalContributions == k401 + ira + hsa
    ensures b.taxableIncome + b.totalContributions == income
    ensures b.federalTax == FederalTax(b.taxableIncome)
    ensures b.takeHome + b.federalTax + health + b.totalContributions == income
  {
    var totalContributions := k401 + ira + hsa;
    var taxableIncome := income - totalContributions;
    var federalTax := FederalTax(taxableIncome);
    Breakdown(totalContributions, taxableIncome, federalTax, income - federalTax - health - totalContributions)
  }

  /**
   * Contributing `extra` more pre-tax lowers take-home pay, but by no more than `extra`, and by at
   * least 78% of it (the tax saved is at most 22%).
   */
  lemma ContributionCost(income: real, k401: real, ira: real, hsa: real, health: real, extra: real)
    requires extra >= 0.0
    ensures Calculate(income, k401 + extra, ira, hsa, health).takeHome <= Calculate(income, k401, ira, hsa, health).takeHome - 0.78 * extra
    ensures Calculate(income, k401 + extra, ira, hsa, health).takeHome >= Calculate(income, k401, ira, hsa, health).takeHome - extra
  {
    var before, after := Calculate(income, k401, ira, hsa, health), Calculate(income, k401 + extra, ira, hsa, health);
    FederalTaxMonotone(after.taxableIncome, before.taxableIncome);
  }

  /** The chart's parts: a negative value shows as 0, the rest as they are. */
  function ChartParts(vs: seq<real>): (ps: seq<real>)
    ensures |ps| == |vs|
    ensures forall i :: 0 <= i < |vs| ==> ps[i] >= 0.0 && (vs[i] >= 0.0 ==> ps[i] == vs[i])
    ensures forall i :: 0 <= i < |vs| ==> vs[i] < 0.0 ==> ps[i] == 0.0
  {
    if vs == [] then [] else [if vs[0] < 0.0 then 0.0 else vs[0]] + ChartParts(vs[1..])
  }

  /** The form fields after `toNum`; `None` is a field that did not parse (read as 0). */
  datatype Form = Form(income: Option<real>, k401: Option<real>, ira: Option<real>, hsa: Option<real>, health: Option<real>)

  /** What `calculateResults` shows: the breakdown, the take-home per period and the chart's four parts. */
  datatype Results = Results(b: Breakdown, takeHomePer: real, parts: seq<real>)

  /** `calculateResults`. */
  function CalculateResults(f: Form, freq: string): (r: Results)
    ensures r.b == Calculate(OrZero(f.income), OrZero(f.k401), OrZero(f.ira), OrZero(f.hsa), OrZero(f.health))
    ensures r.takeHomePer == PerPeriod(r.b.takeHome, freq)
    ensures r.parts == ChartParts(ChartValues(r.b, OrZero(f.health)))
  {
    var b := Calculate(OrZero(f.income), OrZero(f.k401), OrZero(f.ira), OrZero(f.hsa), OrZero(f.health));
    Results(b, PerPeriod(b.takeHome, freq), ChartParts(ChartValues(b, OrZero(f.health))))
  }

  /** The four values the chart shows, in its order: take-home, federal tax, health, contributions. */
  function ChartValues(b: Breakdown, health: real): seq<real>
  {
    [b.takeHome, b.federalTax, health, b.totalContributions]
  }

  /** When nothing is negative the four chart parts add up to the income: the chart shows where all of it goes. */
  lemma PartsAddUp(income: real, k401: real, ira: real, hsa: real, health: real)
    requires Calculate(income, k401, ira, hsa, health).takeHome >= 0.0 && health >= 0.0
    requires Calculate(income, k401, ira, hsa, health).totalContributions >= 0.0
    ensures |ChartParts(ChartValues(Calculate(income, k401, ira, hsa, health), health))| == 4
    ensures var ps := ChartParts(ChartValues(Calculate(income, k401, ira, hsa, health), health));
            ps[0] + ps[1] + ps[2] + ps[3] == income
  {
    var b := Calculate(income, k401, ira, hsa, health);
    var vs := ChartValues(b, health);
    var ps := ChartParts(vs);
    assert ps[0] == vs[0] && ps[1] == vs[1] && ps[2] == vs[2] && ps[3] == vs[3];
  }

  /** What `set401kMax` writes: the 401(k) amount, and the percent field when it was rewritten. */
  datatype MaxFields = MaxFields(k401: real, percent: Option<real>)

  /**
   * `set401kMax`: the 401(k) field becomes the limit; in percent mode with a positive income
   * the percent field becomes the limit's share of income, rounded to one decimal.
   */
  function Set401kMax(income: Option<real>, percentMode: bool, percent: Option<real>): (m: MaxFields)
    ensures m.k401 == K401Max
    ensures !(percentMode && OrZero(income) > 0.0) ==> m.percent == percent
    ensures percentMode && OrZero(income) > 0.0 ==> m.percent.Some? && m.percent.value >= 0.0
  {
    var inc := OrZero(income);
    if percentMode && inc > 0.0 then MaxFields(K401Max, Some(Round(K401Max / inc * 100.0 * 10.0) as real / 10.0))
    else MaxFields(K401Max, percent)
  }

  /**
   * The rewritten percent reproduces the limit: that percent of the income is within a
   * twentieth of a percent of the income (the one-decimal rounding) of the limit.
   */
  lemma Set401kMaxPercent(income: Option<real>, percent: Option<real>)
    requires OrZero(income) > 0.0
    ensures -OrZero(income) / 2000.0 <= Set401kMax(income, true, percent).percent.value * OrZero(income) / 100.0 - K401Max
            <= OrZero(income) / 2000.0
  {
    var inc := OrZero(income);
    var x := K401Max / inc * 100.0 * 10.0;
    var p := Set401kMax(income, true, percent).percent.value;
    assert p == Round(x) as real / 10.0;
    var e := p - x / 10.0;
    assert -0.05 <= e <= 0.05;
    assert x / 10.0 * inc / 100.0 == K401Max by {
      assert K401Max / inc * inc == K401Max;
    }
    RoundingScaled(e, inc);
    assert p * inc / 100.0 - K401Max == e * inc / 100.0;
  }

  /** A rounding error of at most 0.05 percentage points, scaled by the income. */
  lemma RoundingScaled(e: real, inc: real)
    requires -0.05 <= e <= 0.05 && inc > 0.0
    ensures -inc / 2000.0 <= e * inc / 100.0 <= inc / 2000.0
  {
    MulRight(-0.05, e, inc / 100.0);
    MulRight(e, 0.05, inc / 100.0);
  }
}

/**
 * The 401(k) percent/dollar toggle of the take-home-pay form. The dollar field stays the value
 * the tax chain reads; in percent mode it is recomputed from the percent field, in dollar mode
 * the percent field is recomputed from it. Each field holds what its text parses to, `None`
 * when it does not parse (read as 0).
 */
module K401Toggle {
  import opened Wrappers
  import opened Numeric
  import TakeHomePay

  /** `syncFromPercent`'s dollars: the income times the percent clamped to 0..100, rounded to whole dollars. */
  function DollarsFor(income: Option<real>, percent: Option<real>): (d: int)
    ensures var exact := OrZero(income) * Clamp(OrZero(percent), 0.0, 100.0) / 100.0;
            exact - 0.5 < d as real <= exact + 0.5
  {
    Round(OrZero(income) * Clamp(OrZero(percent), 0.0, 100.0) / 100.0)
  }

  /** With an income that is not negative the dollars are not negative either. */
  lemma DollarsNonNegative(income: Option<real>, percent: Option<real>)
    requires OrZero(income) >= 0.0
    ensures DollarsFor(income, percent) >= 0
  {
    MulNonNegative(OrZero(income), Clamp(OrZero(percent), 0.0, 100.0));
  }

  /**
   * `syncFromDollar`'s percent: the dollars (never below 0) as a share of a positive income,
   * rounded to one decimal; 0 when the income is not positive.
   */
  function PercentFor(income: Option<real>, dollars: Option<real>): (p: real)
    ensures OrZero(income) <= 0.0 ==> p == 0.0
    ensures OrZero(income) > 0.0 ==>
              var share := Max(0.0, OrZero(dollars)) / OrZero(income) * 100.0;
              share - 0.05 < p <= share + 0.05
  {
    var inc := OrZero(income);
    var pct := if inc > 0.0 then Max(0.0, OrZero(dollars)) / inc * 100.0 else 0.0;
    Round(pct * 10.0) as real / 10.0
  }

  /** The form's 401(k) fields and which mode radio is checked. */
  class K401Form {
    var income: Option<real>
    var dollars: Option<real>
    var percent: Option<real>
    var percentMode: bool

    constructor(income: Option<real>, dollars: Option<real>, percent: Option<real>, percentMode: bool)
      ensures this.income == income && this.dollars == dollars && this.percent == percent
      ensures this.percentMode == percentMode
    {
      this.income := income;
      this.dollars := dollars;
      this.percent := percent;
      this.percentMode := percentMode;
    }

    /** `syncFromPercent`: rewrite the dollar field from the income and the percent. */
    method SyncFromPercent()
      modifies this
      ensures dollars == Some(DollarsFor(income, percent) as real)
      ensures income == old(income) && percent == old(percent) && percentMode == old(percentMode)
    {
      var inc := OrZero(income);
      var pct := Clamp(OrZero(percent), 0.0, 100.0);
      var annual := Round((inc * pct) / 100.0);
      assert annual == DollarsFor(income, percent);
      dollars := Some(annual as real);
    }

    /** `syncFromDollar`: rewrite the percent field from the income and the dollars. */
    method SyncFromDollar()
      modifies this
      ensures percent == Some(PercentFor(income, dollars))
      ensures income == old(income) && dollars == old(dollars) && percentMode == old(percentMode)
    {
      var inc := OrZero(income);
      var annual := Max(0.0, OrZero(dollars));
      var pct := if inc > 0.0 then (annual / inc) * 100.0 else 0.0;
      percent := Some(Round(pct * 10.0) as real / 10.0);
    }

    /** `switchMode`: "percent" recomputes the dollars, any other mode the percent. */
    method SwitchMode(mode: string)
      modifies this
      ensures income == old(income) && percentMode == old(percentMode)
      ensures mode == "percent" ==> dollars == Some(DollarsFor(income, percent) as real) && percent == old(percent)
      ensures mode != "percent" ==> percent == Some(PercentFor(income, dollars)) && dollars == old(dollars)
    {
      if mode == "percent" {
        SyncFromPercent();
      } else {
        SyncFromDollar();
      }
    }

    /** The income field's input listener: the new income, then the sync of the checked mode. */
    method IncomeInput(value: Option<real>)
      modifies this
      ensures income == value && percentMode == old(percentMode)
      ensures percentMode ==> dollars == Some(DollarsFor(value, old(percent)) as real) && percent == old(percent)
      ensures !percentMode ==> percent == Some(PercentFor(value, old(dollars))) && dollars == old(dollars)
    {
      income := value;
      if percentMode {
        SyncFromPercent();
      } else {
        SyncFromDollar();
      }
    }

    /**
     * Loading `?income=`, `?k401pct=` and `?k401=`: the income is taken when present; then the
     * percent parameter wins over the dollar one and selects percent mode, the dollar one
     * selects dollar mode, and with neither percent mode's sync runs on the fields as they are.
     */
    method LoadParams(params: map<string, Option<real>>)
      modifies this
      ensures income == if "income" in params then params["income"] else old(income)
      ensures "k401pct" in params ==>
                percentMode && percent == params["k401pct"] && dollars == Some(DollarsFor(income, percent) as real)
      ensures "k401pct" !in params && "k401" in params ==>
                !percentMode && dollars == params["k401"] && percent == Some(PercentFor(income, dollars))
      ensures "k401pct" !in params && "k401" !in params ==>
                percentMode == old(percentMode) && percent == old(percent)
                && dollars == Some(DollarsFor(income, percent) as real)
    {
      if "income" in params {
        income := params["income"];
      }
      if "k401pct" in params {
        percentMode := true;
        SwitchMode("percent");
        percent := params["k401pct"];
        SyncFromPercent();
      } else if "k401" in params {
        percentMode := false;
        SwitchMode("dollar");
        dollars := params["k401"];
        SyncFromDollar();
      } else {
        SwitchMode("percent");
      }
    }
  }

  /**
   * Dollars to percent and back: for a positive income and dollars between 0 and the income,
   * the dollars recomputed from the rewritten percent are within 50 cents plus a twentieth of a
   * percent of the income (the two roundings) of the dollars started from.
   */
  lemma DollarsRoundTrip(income: real, d: real)
    requires income > 0.0 && 0.0 <= d <= income
    ensures var back := DollarsFor(Some(income), Some(PercentFor(Some(income), Some(d)))) as real;
            d - 0.5 - income / 2000.0 < back <= d + 0.5 + income / 2000.0
  {
    var share := d / income * 100.0;
    ShareInRange(d, income);
    var c := Clamp(PercentFor(Some(income), Some(d)), 0.0, 100.0);
    ClampNear(PercentFor(Some(income), Some(d)), share);
    ScaledError(c, share, d, income);
  }

  /** Dollars between 0 and the income are a share between 0 and 100 percent of it. */
  lemma ShareInRange(d: real, income: real)
    requires income > 0.0 && 0.0 <= d <= income
    ensures 0.0 <= d / income * 100.0 <= 100.0
  {
    DivMonotone(d, income, income);
    DivMonotone(0.0, d, income);
  }

  /** Clamping to 0..100 keeps a value within 0.05 of a share that lies in 0..100. */
  lemma ClampNear(p: real, share: real)
    requires 0.0 <= share <= 100.0 && share - 0.05 < p <= share + 0.05
    ensures -0.05 <= Clamp(p, 0.0, 100.0) - share <= 0.05
  {
  }

  /** A percent within 0.05 points of the exact share gives dollars within a twentieth of a percent of the income. */
  lemma ScaledError(c: real, share: real, d: real, income: real)
    requires income > 0.0 && share == d / income * 100.0 && -0.05 <= c - share <= 0.05
    ensures -income / 2000.0 <= income * c / 100.0 - d <= income / 2000.0
  {
    var k := income / 100.0;
    assert income * c / 100.0 - d == (c - share) * k by {
      assert d / income * income == d;
      assert income * share / 100.0 == d;
    }
    MulRight(-0.05, c - share, k);
    MulRight(c - share, 0.05, k);
  }

  /**
   * The "max" button and the toggle agree: in percent mode with a positive income the percent
   * `set401kMax` writes is the one `syncFromDollar` would write for the limit.
   */
  lemma MaxPercentAgrees(income: Option<real>, percent: Option<real>)
    requires OrZero(income) > 0.0
    ensures TakeHomePay.Set401kMax(income, true, percent).percent == Some(PercentFor(income, Some(TakeHomePay.K401Max)))
  {
  }
}

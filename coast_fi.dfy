/**
 * The CoastFI calculator: how much a portfolio must hold today so that growth alone, with no
 * more contributions, reaches the amount a safe withdrawal rate needs at retirement. Ages are
 * whole years, so the growth factor is an integer power; a withdrawal rate that is not positive
 * makes the required amounts infinite, modelled as `None`.
 */
module CoastFi {
  import opened Wrappers
  import opened Numeric

  /** The form fields after `Number(..)`; `None` is a field that did not parse (read as 0). */
  datatype Inputs = Inputs(currentAge: Option<int>, retireAge: Option<int>, currentPortfolio: Option<real>,
                           retireSpend: Option<real>, passiveIncome: Option<real>,
                           realReturnPct: Option<real>, swrPct: Option<real>)

  /** What `computeCoast` returns; `None` stands for Infinity. */
  datatype Coast = Coast(nYears: nat, r: real, swr: real, needFromPortfolio: real,
                         requiredAtRetirement: Option<real>, requiredToday: Option<real>,
                         progressPct: real, portfolioAtRetirement: real)

  /** An age as read: a field that did not parse counts as 0. */
  function AgeOf(a: Option<int>): int
  {
    if a.Some? then a.value else 0
  }

  /** `yearsUntil`: the years from the current age to the target age, never negative. */
  function YearsUntil(cur: Option<int>, target: Option<int>): (n: nat)
    ensures AgeOf(cur) <= AgeOf(target) ==> AgeOf(cur) + n == AgeOf(target)
    ensures AgeOf(target) < AgeOf(cur) ==> n == 0
  {
    IntMax(0, AgeOf(target) - AgeOf(cur))
  }

  /** `computeCoast`. */
  function ComputeCoast(i: Inputs): (c: Coast)
    ensures c.nYears == YearsUntil(i.currentAge, i.retireAge)
    ensures c.r * 100.0 == OrZero(i.realReturnPct) && c.swr * 100.0 == OrZero(i.swrPct)
    ensures c.needFromPortfolio >= 0.0 && c.needFromPortfolio >= OrZero(i.retireSpend) - OrZero(i.passiveIncome)
    ensures c.needFromPortfolio == 0.0 || c.needFromPortfolio == OrZero(i.retireSpend) - OrZero(i.passiveIncome)
    ensures c.requiredAtRetirement.Some? <==> c.swr > 0.0
    ensures c.requiredToday.Some? <==> c.swr > 0.0
    ensures Pow(1.0 + c.r, c.nYears) <= 0.0 ==> c.requiredToday == c.requiredAtRetirement
    ensures 0.0 <= c.progressPct <= 999.0
    ensures c.requiredToday.None? ==> c.progressPct == 0.0
    ensures c.requiredToday.Some? && c.requiredToday.value <= 0.0 ==> c.progressPct == 100.0
  {
    var nYears := YearsUntil(i.currentAge, i.retireAge);
    var r := OrZero(i.realReturnPct) / 100.0;
    var swr := OrZero(i.swrPct) / 100.0;
    var need := Max(0.0, OrZero(i.retireSpend) - OrZero(i.passiveIncome));
    var requiredAtRetirement := if swr > 0.0 then Some(need / swr) else None;
    var denom := Pow(1.0 + r, nYears);
    var requiredToday :=
      if denom > 0.0 && requiredAtRetirement.Some? then Some(requiredAtRetirement.value / denom)
      else requiredAtRetirement;
    var current := OrZero(i.currentPortfolio);
    var progressPct :=
      if requiredToday.None? then 0.0
      else if requiredToday.value <= 0.0 then 100.0
      else Clamp(current / requiredToday.value * 100.0, 0.0, 999.0);
    Coast(nYears, r, swr, need, requiredAtRetirement, requiredToday, progressPct,
          current * Pow(1.0 + r, nYears))
  }

  /**
   * The required amounts: the amount at retirement is what the withdrawal rate turns into the
   * yearly need, and the CoastFI number is what grows into it by retirement (when the growth
   * factor is positive).
   */
  lemma RequiredAmounts(i: Inputs)
    requires ComputeCoast(i).swr > 0.0
    ensures ComputeCoast(i).requiredAtRetirement.value * ComputeCoast(i).swr == ComputeCoast(i).needFromPortfolio
    ensures Pow(1.0 + ComputeCoast(i).r, ComputeCoast(i).nYears) > 0.0 ==>
              ComputeCoast(i).requiredToday.value * Pow(1.0 + ComputeCoast(i).r, ComputeCoast(i).nYears)
              == ComputeCoast(i).requiredAtRetirement.value
  {
    var c := ComputeCoast(i);
    var p := Pow(1.0 + c.r, c.nYears);
    DivTimes(c.needFromPortfolio, c.swr);
    if p > 0.0 {
      DivTimes(c.requiredAtRetirement.value, p);
    }
  }

  /** The status line: the current portfolio is at or beyond the CoastFI number (never when it is infinite). */
  predicate AtCoast(i: Inputs, c: Coast)
  {
    c.requiredToday.Some? && OrZero(i.currentPortfolio) >= c.requiredToday.value
  }

  /**
   * What the CoastFI number means: with a withdrawal rate above 0 and growth above -100%, the
   * portfolio is at CoastFI exactly when, left to grow until retirement, it reaches the amount
   * required then.
   */
  lemma CoastMeansEnough(i: Inputs)
    requires ComputeCoast(i).swr > 0.0 && 1.0 + ComputeCoast(i).r > 0.0
    ensures AtCoast(i, ComputeCoast(i))
            <==> ComputeCoast(i).portfolioAtRetirement >= ComputeCoast(i).requiredAtRetirement.value
  {
    var c := ComputeCoast(i);
    var current, p := OrZero(i.currentPortfolio), Pow(1.0 + c.r, c.nYears);
    PowPositive(1.0 + c.r, c.nYears);
    RequiredAmounts(i);
    var today, atRetirement := c.requiredToday.value, c.requiredAtRetirement.value;
    assert today * p == atRetirement;
    assert c.portfolioAtRetirement == current * p;
    if current >= today {
      MulRight(today, current, p);
    } else {
      MulStrictRight(current, today, p);
    }
  }

  /** Progress and status agree: when the CoastFI number is positive, progress reaches 100% exactly at CoastFI. */
  lemma ProgressMeansCoast(i: Inputs)
    requires ComputeCoast(i).requiredToday.Some? && ComputeCoast(i).requiredToday.value > 0.0
    ensures ComputeCoast(i).progressPct >= 100.0 <==> AtCoast(i, ComputeCoast(i))
  {
    var c := ComputeCoast(i);
    var current, today := OrZero(i.currentPortfolio), c.requiredToday.value;
    var x := current / today * 100.0;
    assert c.progressPct == Clamp(x, 0.0, 999.0);
    if current >= today {
      DivAtLeastOne(current, today);
    } else {
      DivMonotone(current, today, today);
      assert current / today < 1.0 by {
        MulStrictRight(current, today, 1.0 / today);
      }
    }
  }

  /** With a portfolio and growth that are not negative, the portfolio at retirement is at least today's. */
  lemma PortfolioGrows(i: Inputs)
    requires OrZero(i.currentPortfolio) >= 0.0 && ComputeCoast(i).r >= 0.0
    ensures ComputeCoast(i).portfolioAtRetirement >= OrZero(i.currentPortfolio)
  {
    var c := ComputeCoast(i);
    GrowthNotBelow(OrZero(i.currentPortfolio), 1.0 + c.r, c.nYears);
  }

  /** With growth that is not negative the CoastFI number is at most the amount required at retirement. */
  lemma CoastNumberAtMost(i: Inputs)
    requires ComputeCoast(i).swr > 0.0 && ComputeCoast(i).r >= 0.0
    ensures ComputeCoast(i).requiredToday.value <= ComputeCoast(i).requiredAtRetirement.value
  {
    var c := ComputeCoast(i);
    var p := Pow(1.0 + c.r, c.nYears);
    PowAtLeastOne(1.0 + c.r, c.nYears);
    RequiredAmounts(i);
    var today, atRetirement := c.requiredToday.value, c.requiredAtRetirement.value;
    assert today * p == atRetirement;
    assert today >= 0.0 by {
      assert atRetirement >= 0.0 by {
        assert atRetirement * c.swr == c.needFromPortfolio;
        if atRetirement < 0.0 {
          MulStrictRight(atRetirement, 0.0, c.swr);
        }
      }
      if today < 0.0 {
        MulStrictRight(today, 0.0, p);
      }
    }
    MulLeft(1.0, p, today);
  }
}

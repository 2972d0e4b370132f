/**
 * The contribution optimizer's forward projection (`growToRetirement`): this year's contributions
 * grown to retirement in the Traditional, Roth and brokerage buckets and valued after tax.
 */
module Growth {
  import opened Numeric
  import opened OptimizerData
  import opened Tax

  datatype Components = Components(kTradAfterTaxFV: real, kRothFV: real, brokAfterTaxFV: real)

  datatype Projection = Projection(tax: YearTax, totalAfterTaxFV: real, components: Components)

  /** The growth factor of the 401(k) buckets over the years to retirement. */
  function PlanGrowth(i: Inputs): real
  {
    Pow(1.0 + i.rNom, i.yearsToRet)
  }

  /**
   * Traditional money (the pre-tax deferral plus the match) grows and is taxed at the retirement
   * ordinary rate; Roth money grows untaxed; brokerage money grows at the return less a 15% tax
   * on dividends, and only its gain is taxed at the retirement capital-gains rate.
   */
  function GrowToRetirement(i: Inputs, preTax: real, roth: real, brokerage: real, employerMatch: real, salary: real)
    : (g: Projection)
    ensures g.tax == CurrentYearTax(i, preTax, roth, brokerage, salary)
    ensures g.totalAfterTaxFV == g.components.kTradAfterTaxFV + g.components.kRothFV + g.components.brokAfterTaxFV
    ensures g.components.kTradAfterTaxFV == (preTax + employerMatch) * PlanGrowth(i) * (1.0 - i.retOrdRate)
    ensures g.components.kRothFV == roth * PlanGrowth(i)
    ensures i.retCGRate <= 1.0 ==> g.components.brokAfterTaxFV >= brokerage
  {
    var tax := CurrentYearTax(i, preTax, roth, brokerage, salary);
    var kTradNow := preTax + employerMatch;
    var kTradFV := kTradNow * Pow(1.0 + i.rNom, i.yearsToRet);
    var kTradAfterTaxFV := kTradFV * (1.0 - i.retOrdRate);
    var kRothFV := roth * Pow(1.0 + i.rNom, i.yearsToRet);
    var brokEff := i.rNom - i.divYield * 0.15;
    var brokFV := brokerage * Pow(1.0 + brokEff, i.yearsToRet);
    var gains := Max(brokFV - brokerage, 0.0);
    var brokAfterTaxFV := brokerage + gains * (1.0 - i.retCGRate);
    assert i.retCGRate <= 1.0 ==> gains * (1.0 - i.retCGRate) >= 0.0 by {
      if i.retCGRate <= 1.0 {
        MulNonNegative(gains, 1.0 - i.retCGRate);
      }
    }
    Projection(tax, kTradAfterTaxFV + kRothFV + brokAfterTaxFV,
               Components(kTradAfterTaxFV, kRothFV, brokAfterTaxFV))
  }

  /** Contributing nothing projects nothing. */
  lemma NothingInvested(i: Inputs, salary: real)
    ensures GrowToRetirement(i, 0.0, 0.0, 0.0, 0.0, salary).totalAfterTaxFV == 0.0
  {
  }

  /**
   * Moving an amount from the Traditional bucket to the Roth bucket, all else equal, raises the
   * projected total by that amount grown and taxed at the retirement ordinary rate.
   */
  lemma RothOverTraditional(i: Inputs, x: real, brokerage: real, employerMatch: real, salary: real)
    ensures GrowToRetirement(i, 0.0, x, brokerage, employerMatch, salary).totalAfterTaxFV
         - GrowToRetirement(i, x, 0.0, brokerage, employerMatch, salary).totalAfterTaxFV
         == x * PlanGrowth(i) * i.retOrdRate
  {
    var g := PlanGrowth(i);
    assert (0.0 + employerMatch) * g * (1.0 - i.retOrdRate) + 0.0 * g
         == employerMatch * g * (1.0 - i.retOrdRate);
    assert (x + employerMatch) * g * (1.0 - i.retOrdRate) == x * g * (1.0 - i.retOrdRate) + employerMatch * g * (1.0 - i.retOrdRate);
  }
}

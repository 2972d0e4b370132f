/**
 * The contribution optimizer's current-year tax: ordinary income through the filing status's
 * brackets (`applyOrdTax`), qualified dividends and long-term gains stacked on top of it in the
 * 0%, 15% and 20% bands (`applyCapGainsTax`), and their combination (`currentYearTax`).
 */
module Tax {
  import opened Wrappers
  import opened Numeric
  import opened OptimizerData

  /** The part of `remaining` the first bracket takes: its width, capped by what is left, never negative. */
  function BracketShare(remaining: real, b: Bracket): (w: real)
    ensures w >= 0.0 && w <= Max(remaining, 0.0) && w <= Max(b.top - b.bottom, 0.0)
  {
    Max(Min(remaining, b.top - b.bottom), 0.0)
  }

  /**
   * The income each bracket takes in turn: every bracket takes what it can hold of what is left,
   * and the walk stops at the first bracket that takes nothing.
   */
  function TaxedWidths(remaining: real, bs: seq<Bracket>): (ws: seq<real>)
    ensures |ws| <= |bs|
    ensures forall j :: 0 <= j < |ws| ==> 0.0 < ws[j] <= bs[j].top - bs[j].bottom
    ensures remaining >= 0.0 ==> Sum(ws) <= remaining
    ensures remaining <= 0.0 ==> ws == []
    decreases |bs|
  {
    if bs == [] then []
    else
      var w := BracketShare(remaining, bs[0]);
      if w <= 0.0 then []
      else [w] + TaxedWidths(remaining - w, bs[1..])
  }

  /** Each width taxed at its bracket's rate. */
  function Dot(ws: seq<real>, bs: seq<Bracket>): real
    requires |ws| <= |bs|
  {
    if ws == [] then 0.0 else ws[0] * bs[0].rate + Dot(ws[1..], bs[1..])
  }

  /**
   * The ordinary tax on what is left of the income: the first bracket's rate on the part it
   * takes, then the later brackets on the rest, stopping at the first bracket that takes nothing.
   */
  function BracketTax(remaining: real, bs: seq<Bracket>): real
    decreases |bs|
  {
    if bs == [] then 0.0
    else
      var w := BracketShare(remaining, bs[0]);
      if w <= 0.0 then 0.0 else w * bs[0].rate + BracketTax(remaining - w, bs[1..])
  }

  /** The ordinary tax is each bracket's rate on the income that bracket holds. */
  lemma {:induction false} BracketTaxIsRateTimesWidth(remaining: real, bs: seq<Bracket>)
    ensures BracketTax(remaining, bs) == Dot(TaxedWidths(remaining, bs), bs)
    decreases |bs|
  {
    if bs != [] {
      var w := BracketShare(remaining, bs[0]);
      var ws := TaxedWidths(remaining, bs);
      if w > 0.0 {
        var rate := bs[0].rate;
        var rest := TaxedWidths(remaining - w, bs[1..]);
        assert ws == [w] + rest;
        DotUnfold(ws, bs, w, rate, rest);
        BracketTaxUnfold(remaining, bs, w, rate);
        BracketTaxIsRateTimesWidth(remaining - w, bs[1..]);
      } else {
        assert ws == [];
      }
    }
  }

  lemma DotUnfold(ws: seq<real>, bs: seq<Bracket>, w: real, rate: real, rest: seq<real>)
    requires ws == [w] + rest && |ws| <= |bs| && rate == bs[0].rate
    ensures Dot(ws, bs) == w * rate + Dot(rest, bs[1..])
  {
    assert ws[0] == w && ws[1..] == rest;
  }

  /** `applyOrdTax`'s value: no tax without a table whose ordinary brackets are a list. */
  function OrdTax(taxable: real, table: Option<BracketTable>): real
  {
    if table.None? || table.value.ordinary.None? then 0.0
    else BracketTax(taxable, table.value.ordinary.value)
  }

  /** `applyOrdTax`: walks the brackets, taxing the part of the income each one holds. */
  method ApplyOrdTax(taxable: real, table: Option<BracketTable>) returns (tax: real)
    ensures tax == OrdTax(taxable, table)
  {
    if table.None? || table.value.ordinary.None? {
      return 0.0;
    }
    var bs := table.value.ordinary.value;
    tax := 0.0;
    var remaining := taxable;
    var i := 0;
    while i < |bs|
      invariant 0 <= i <= |bs|
      invariant tax + BracketTax(remaining, bs[i..]) == BracketTax(taxable, bs)
    {
      var b := bs[i];
      var width := Max(Min(remaining, b.top - b.bottom), 0.0);
      var paid := width * b.rate;
      Walk(tax, remaining, bs, i, width, paid, BracketTax(taxable, bs));
      if width <= 0.0 {
        break;
      }
      tax := tax + paid;
      remaining := remaining - width;
      i := i + 1;
    }
    assert bs[i..] == [] ==> BracketTax(remaining, bs[i..]) == 0.0;
  }

  predicate RatesNonNegative(bs: seq<Bracket>)
  {
    forall j :: 0 <= j < |bs| ==> bs[j].rate >= 0.0
  }

  /** With non-negative rates the ordinary tax is never negative. */
  lemma {:induction false} BracketTaxNonNegative(remaining: real, bs: seq<Bracket>)
    requires RatesNonNegative(bs)
    ensures BracketTax(remaining, bs) >= 0.0
    decreases |bs|
  {
    if bs != [] {
      var w := BracketShare(remaining, bs[0]);
      assert RatesNonNegative(bs[1..]);
      BracketTaxNonNegative(remaining - w, bs[1..]);
      MulNonNegative(w, bs[0].rate);
    }
  }

  /** One step of the walk: the first bracket's share at its rate, then the rest. */
  lemma BracketTaxUnfold(remaining: real, bs: seq<Bracket>, w: real, rate: real)
    requires bs != [] && w == BracketShare(remaining, bs[0]) && w > 0.0 && rate == bs[0].rate
    ensures BracketTax(remaining, bs) == w * rate + BracketTax(remaining - w, bs[1..])
  {
  }

  /** The walk at bracket `i`: it stops when the bracket takes nothing, else taxes its share and moves on. */
  lemma WalkStep(remaining: real, bs: seq<Bracket>, i: int, width: real, rate: real)
    requires 0 <= i < |bs| && width == Max(Min(remaining, bs[i].top - bs[i].bottom), 0.0) && rate == bs[i].rate
    ensures width <= 0.0 ==> BracketTax(remaining, bs[i..]) == 0.0
    ensures width > 0.0 ==> BracketTax(remaining, bs[i..]) == width * rate + BracketTax(remaining - width, bs[i + 1..])
  {
    assert bs[i..][0] == bs[i] && bs[i..][1..] == bs[i + 1..];
    if width > 0.0 {
      BracketTaxUnfold(remaining, bs[i..], width, rate);
    }
  }

  /** The loop's step: it stops with the whole tax paid, or pays the bracket's share and keeps the sum. */
  lemma Walk(tax: real, remaining: real, bs: seq<Bracket>, i: int, width: real, paid: real, total: real)
    requires 0 <= i < |bs| && width == Max(Min(remaining, bs[i].top - bs[i].bottom), 0.0) && paid == width * bs[i].rate
    requires tax + BracketTax(remaining, bs[i..]) == total
    ensures width <= 0.0 ==> tax == total
    ensures width > 0.0 ==> (tax + paid) + BracketTax(remaining - width, bs[i + 1..]) == total
  {
    WalkStep(remaining, bs, i, width, bs[i].rate);
    if width > 0.0 {
      WalkKeeps(tax, paid, BracketTax(remaining, bs[i..]), BracketTax(remaining - width, bs[i + 1..]), total);
    }
  }

  lemma WalkKeeps(tax: real, paid: real, here: real, next: real, total: real)
    requires tax + here == total && here == paid + next
    ensures (tax + paid) + next == total
  {
  }

  /** Nothing left to tax means no tax. */
  lemma BracketTaxNothingLeft(remaining: real, bs: seq<Bracket>)
    requires remaining <= 0.0
    ensures BracketTax(remaining, bs) == 0.0
  {
  }

  lemma ShareMonotone(t1: real, t2: real, b: Bracket)
    requires t1 <= t2
    ensures BracketShare(t1, b) <= BracketShare(t2, b)
    ensures t1 > b.top - b.bottom ==> BracketShare(t1, b) == BracketShare(t2, b)
    ensures t1 <= b.top - b.bottom && BracketShare(t1, b) > 0.0 ==> t1 - BracketShare(t1, b) == 0.0
  {
  }

  /** When the first bracket takes something, monotonicity reduces to the later brackets. */
  lemma BracketTaxMonotoneStep(t1: real, t2: real, bs: seq<Bracket>)
    requires RatesNonNegative(bs) && t1 <= t2 && bs != []
    requires BracketShare(t1, bs[0]) > 0.0
    requires BracketTax(t1 - BracketShare(t1, bs[0]), bs[1..]) <= BracketTax(t2 - BracketShare(t2, bs[0]), bs[1..])
    ensures BracketTax(t1, bs) <= BracketTax(t2, bs)
  {
    var w1 := BracketShare(t1, bs[0]);
    var w2 := BracketShare(t2, bs[0]);
    var rate := bs[0].rate;
    assert rate >= 0.0;
    ShareMonotone(t1, t2, bs[0]);
    var x1, x2 := BracketTax(t1 - w1, bs[1..]), BracketTax(t2 - w2, bs[1..]);
    BracketTaxUnfold(t1, bs, w1, rate);
    BracketTaxUnfold(t2, bs, w2, rate);
    TaxedPartsMonotone(w1, w2, rate, x1, x2);
  }

  lemma TaxedPartsMonotone(w1: real, w2: real, rate: real, x1: real, x2: real)
    requires w1 <= w2 && rate >= 0.0 && x1 <= x2
    ensures w1 * rate + x1 <= w2 * rate + x2
  {
    MulRight(w1, w2, rate);
    var p1, p2 := w1 * rate, w2 * rate;
    assert p1 <= p2;
  }

  /** With non-negative rates more taxable income never means less ordinary tax. */
  lemma {:induction false} BracketTaxMonotone(t1: real, t2: real, bs: seq<Bracket>)
    requires RatesNonNegative(bs) && t1 <= t2
    ensures BracketTax(t1, bs) <= BracketTax(t2, bs)
    decreases |bs|
  {
    if bs != [] {
      var rest := bs[1..];
      var w1 := BracketShare(t1, bs[0]);
      var w2 := BracketShare(t2, bs[0]);
      assert RatesNonNegative(rest);
      if w1 <= 0.0 {
        BracketTaxNonNegative(t2, bs);
      } else {
        ShareMonotone(t1, t2, bs[0]);
        if t1 <= bs[0].top - bs[0].bottom {
          BracketTaxNothingLeft(t1 - w1, rest);
          BracketTaxNonNegative(t2 - w2, rest);
        } else {
          BracketTaxMonotone(t1 - w1, t2 - w2, rest);
        }
        BracketTaxMonotoneStep(t1, t2, bs);
      }
    }
  }

  /** How gains stacked on top of ordinary income divide among the 0%, 15% and 20% bands. */
  datatype GainsSplit = GainsSplit(atZero: real, atFifteen: real, atTwenty: real)

  /**
   * The 0% band holds what fits below its top, the 15% band what fits below its top after
   * the ordinary income and the 0% part, and the rest falls in the 20% band.
   */
  function SplitGains(taxableOrd: real, gains: real, cg: CapGainsBands): (s: GainsSplit)
    requires gains >= 0.0
    ensures s.atZero >= 0.0 && s.atFifteen >= 0.0 && s.atTwenty >= 0.0
    ensures s.atZero + s.atFifteen + s.atTwenty == gains
    ensures s.atZero == Min(gains, Max(cg.zeroTop - taxableOrd, 0.0))
    ensures s.atFifteen <= Max(cg.fifteenTop - (taxableOrd + s.atZero), 0.0)
    ensures s.atTwenty > 0.0 ==> s.atFifteen == Max(cg.fifteenTop - (taxableOrd + s.atZero), 0.0)
  {
    var atZero := Min(gains, Max(cg.zeroTop - taxableOrd, 0.0));
    var atFifteen := Min(gains - atZero, Max(cg.fifteenTop - (taxableOrd + atZero), 0.0));
    GainsSplit(atZero, atFifteen, gains - atZero - atFifteen)
  }

  /** `applyCapGainsTax`: no tax on non-positive gains or without capital-gains bands. */
  function CapGainsTax(taxableOrd: real, gains: real, table: Option<BracketTable>): (tax: real)
    ensures gains <= 0.0 || table.None? || table.value.capgains.None? ==> tax == 0.0
  {
    if gains <= 0.0 || table.None? || table.value.capgains.None? then 0.0
    else
      var cg := table.value.capgains.value;
      var room0 := Max(cg.zeroTop - taxableOrd, 0.0);
      var at0 := Min(gains, room0);
      var remaining := gains - at0;
      if remaining <= 0.0 then 0.0
      else
        var room15 := Max(cg.fifteenTop - (taxableOrd + at0), 0.0);
        var at15 := Min(remaining, room15);
        var tax := at15 * 0.15;
        var rest := remaining - at15;
        if rest > 0.0 then tax + rest * 0.20 else tax
  }

  /**
   * The capital-gains tax is 15% of the part in the 15% band plus 20% of the part above it,
   * so it lies between nothing and 20% of the gains.
   */
  lemma CapGainsTaxBanded(taxableOrd: real, gains: real, cg: CapGainsBands)
    requires gains > 0.0
    ensures CapGainsTax(taxableOrd, gains, Some(BracketTable(None, Some(cg))))
         == 0.15 * SplitGains(taxableOrd, gains, cg).atFifteen + 0.20 * SplitGains(taxableOrd, gains, cg).atTwenty
    ensures 0.0 <= CapGainsTax(taxableOrd, gains, Some(BracketTable(None, Some(cg)))) <= 0.20 * gains
  {
  }

  /** Only the capital-gains bands of a table matter to the capital-gains tax. */
  lemma CapGainsTaxUsesBandsOnly(taxableOrd: real, gains: real, table: BracketTable)
    ensures CapGainsTax(taxableOrd, gains, Some(table))
         == CapGainsTax(taxableOrd, gains, Some(BracketTable(None, table.capgains)))
  {
  }

  datatype YearTax = YearTax(agi: real, ordTax: real, ltcgTax: real, totalTax: real)

  /** Ordinary income after the pre-tax deferral and the standard deduction, never negative. */
  function TaxableOrdinary(i: Inputs, preTax: real, salary: real): (t: real)
    ensures t >= 0.0
  {
    Max(Max(salary - preTax, 0.0) + i.otherOrd - StdDeductionFor(i), 0.0)
  }

  /**
   * `currentYearTax`: Roth and brokerage contributions come out of taxed pay, so only the
   * pre-tax deferral lowers this year's tax.
   */
  function CurrentYearTax(i: Inputs, preTax: real, roth: real, brokerage: real, salary: real): (t: YearTax)
    ensures t.totalTax == t.ordTax + t.ltcgTax
    ensures t.agi == Max(salary - preTax, 0.0) + i.otherOrd + i.qdiv + i.ltcg
    ensures t.ordTax == OrdTax(TaxableOrdinary(i, preTax, salary), TableFor(i))
    ensures t.ltcgTax == CapGainsTax(TaxableOrdinary(i, preTax, salary), i.qdiv + i.ltcg, TableFor(i))
  {
    var agiOrd := Max(salary - preTax, 0.0) + i.otherOrd;
    var agi := agiOrd + i.qdiv + i.ltcg;
    var taxableOrd := Max(agiOrd - StdDeductionFor(i), 0.0);
    var ordTax := OrdTax(taxableOrd, TableFor(i));
    var ltcgTax := CapGainsTax(taxableOrd, i.qdiv + i.ltcg, TableFor(i));
    YearTax(agi, ordTax, ltcgTax, ordTax + ltcgTax)
  }
}

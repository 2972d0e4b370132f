/**
 * The multi-income take-home pay calculator: federal tax from floor-based marginal brackets
 * after a standard deduction, per-person FICA with a Social Security wage cap, a flat state
 * rate chosen from a `code:rate` selector, and the household totals floored at 0.
 */
module HouseholdPay {
  import opened Wrappers
  import opened Numeric
  import Decimal
  import Csv

  /** One marginal bracket: income above `floor` (up to the next bracket's floor) at `rate`. */
  datatype Floor = Floor(floor: real, rate: real)

  const SingleBrackets: seq<Floor> :=
    [Floor(0.0, 0.10), Floor(11600.0, 0.12), Floor(47150.0, 0.22), Floor(100525.0, 0.24),
     Floor(191950.0, 0.32), Floor(243725.0, 0.35), Floor(609350.0, 0.37)]

  const JointBrackets: seq<Floor> :=
    [Floor(0.0, 0.10), Floor(23200.0, 0.12), Floor(94300.0, 0.22), Floor(201050.0, 0.24),
     Floor(383900.0, 0.32), Floor(487450.0, 0.35), Floor(731200.0, 0.37)]

  const HeadBrackets: seq<Floor> :=
    [Floor(0.0, 0.10), Floor(16550.0, 0.12), Floor(63100.0, 0.22), Floor(100500.0, 0.24),
     Floor(191950.0, 0.32), Floor(243700.0, 0.35), Floor(609350.0, 0.37)]

  const SsCap := 168600.0
  const SsRate := 0.062
  const MediRate := 0.0145

  /** The bracket table of a filing status; other texts have none. */
  function Brackets(filing: string): Option<seq<Floor>>
  {
    if filing == "single" then Some(SingleBrackets)
    else if filing == "mfj" then Some(JointBrackets)
    else if filing == "hoh" then Some(HeadBrackets)
    else None
  }

  /** The standard deduction of a filing status; other texts get the single deduction. */
  function StdDeduction(filing: string): real
  {
    if filing == "mfj" then 29200.0 else if filing == "hoh" then 21900.0 else 14600.0
  }

  /** Floors never fall from one bracket to the next. */
  predicate Ascending(b: seq<Floor>)
  {
    forall j :: 0 <= j < |b| - 1 ==> b[j].floor <= b[j + 1].floor
  }

  predicate RatesNonNegative(b: seq<Floor>)
  {
    forall j :: 0 <= j < |b| ==> b[j].rate >= 0.0
  }

  /** Where bracket `i` stops taxing: the next floor, or nowhere for the last bracket. */
  function Upper(taxable: real, b: seq<Floor>, i: nat): real
    requires i < |b|
  {
    if i < |b| - 1 then Min(taxable, b[i + 1].floor) else taxable
  }

  /**
   * The tax of brackets `i` onwards: each bracket whose floor `taxable` exceeds taxes the
   * income between its floor and its top; the first bracket it does not exceed ends the walk.
   */
  function FloorTax(taxable: real, b: seq<Floor>, i: nat): real
    requires i <= |b|
    decreases |b| - i
  {
    if i == |b| || taxable <= b[i].floor then 0.0
    else (Upper(taxable, b, i) - b[i].floor) * b[i].rate + FloorTax(taxable, b, i + 1)
  }

  /** The value `taxFromBrackets` returns: 0 for an unknown status, never negative. */
  function FederalTax(taxable: real, filing: string): (t: real)
    ensures t >= 0.0
    ensures Brackets(filing).None? ==> t == 0.0
    ensures taxable <= 0.0 ==> t == 0.0
  {
    match Brackets(filing)
    case None => 0.0
    case Some(b) => Max(0.0, FloorTax(taxable, b, 0))
  }

  /** `taxFromBrackets(taxable, filing)`: the bracket walk with its early exit. */
  method TaxFromBrackets(taxable: real, filing: string) returns (tax: real)
    ensures tax == FederalTax(taxable, filing)
  {
    var table := Brackets(filing);
    if table.None? {
      return 0.0;
    }
    var b := table.value;
    tax := 0.0;
    var i := 0;
    while i < |b|
      invariant 0 <= i <= |b|
      invariant tax + FloorTax(taxable, b, i) == FloorTax(taxable, b, 0)
    {
      if taxable > b[i].floor {
        tax := tax + (Upper(taxable, b, i) - b[i].floor) * b[i].rate;
      } else {
        break;
      }
      i := i + 1;
    }
    tax := Max(0.0, tax);
  }

  /** The three tables have rising floors and non-negative rates. */
  lemma TablesWellFormed(filing: string)
    requires Brackets(filing).Some?
    ensures Ascending(Brackets(filing).value) && RatesNonNegative(Brackets(filing).value)
  {
  }

  /** With rising floors and non-negative rates every bracket adds a non-negative amount. */
  lemma {:induction false} FloorTaxNonNegative(taxable: real, b: seq<Floor>, i: nat)
    requires i <= |b| && Ascending(b) && RatesNonNegative(b)
    ensures FloorTax(taxable, b, i) >= 0.0
    decreases |b| - i
  {
    if i < |b| && taxable > b[i].floor {
      FloorTaxNonNegative(taxable, b, i + 1);
      MulNonNegative(Upper(taxable, b, i) - b[i].floor, b[i].rate);
    }
  }

  lemma WidthsMonotone(t1: real, t2: real, b: seq<Floor>, i: nat)
    requires i < |b| && t1 <= t2
    ensures Upper(t1, b, i) <= Upper(t2, b, i)
  {
  }

  lemma PartsMonotone(w1: real, w2: real, rate: real, x1: real, x2: real)
    requires w1 <= w2 && rate >= 0.0 && x1 <= x2
    ensures w1 * rate + x1 <= w2 * rate + x2
  {
    MulRight(w1, w2, rate);
    var p1, p2 := w1 * rate, w2 * rate;
    assert p1 <= p2;
  }

  /** More taxable income never means less tax. */
  lemma {:induction false} FloorTaxMonotone(t1: real, t2: real, b: seq<Floor>, i: nat)
    requires t1 <= t2 && i <= |b| && Ascending(b) && RatesNonNegative(b)
    ensures FloorTax(t1, b, i) <= FloorTax(t2, b, i)
    decreases |b| - i
  {
    if i < |b| {
      if t1 <= b[i].floor {
        FloorTaxNonNegative(t2, b, i);
      } else {
        FloorTaxMonotone(t1, t2, b, i + 1);
        WidthsMonotone(t1, t2, b, i);
        PartsMonotone(Upper(t1, b, i) - b[i].floor, Upper(t2, b, i) - b[i].floor, b[i].rate,
                      FloorTax(t1, b, i + 1), FloorTax(t2, b, i + 1));
      }
    }
  }

  /** The federal tax never falls as taxable income rises, and the floor at 0 never binds. */
  lemma FederalTaxMonotone(t1: real, t2: real, filing: string)
    requires t1 <= t2
    ensures FederalTax(t1, filing) <= FederalTax(t2, filing)
    ensures Brackets(filing).Some? ==> FederalTax(t1, filing) == FloorTax(t1, Brackets(filing).value, 0)
  {
    if Brackets(filing).Some? {
      var b := Brackets(filing).value;
      TablesWellFormed(filing);
      FloorTaxMonotone(t1, t2, b, 0);
      FloorTaxNonNegative(t1, b, 0);
    }
  }

  /** A single filer with 47,150 taxable pays 10% of 11,600 and 12% of the next 35,550. */
  lemma SingleExample()
    ensures FederalTax(47150.0, "single") == 5426.0
  {
    var b := SingleBrackets;
    assert FloorTax(47150.0, b, 2) == 0.0;
    assert FloorTax(47150.0, b, 1) == 4266.0;
    assert FloorTax(47150.0, b, 0) == 5426.0;
  }

  /** One income stream of the household, as entered: gross pay, a 401(k) percentage, an annual HSA amount. */
  datatype Stream = Stream(gross: real, k401Pct: real, hsa: real)

  /** A stream's payroll figures: its 401(k) dollars, pre-tax total and FICA. */
  datatype Payroll = Payroll(gross: real, k401: real, hsa: real, pretax: real, fica: real)

  /** FICA wages leave out the HSA but not the 401(k), and are never negative. */
  function FicaWages(s: Stream): (w: real)
    ensures w >= 0.0 && w >= s.gross - s.hsa
  {
    Max(0.0, s.gross - s.hsa)
  }

  /**
   * The payroll figures of one stream: Social Security on FICA wages up to the cap and
   * Medicare on all of them; the 401(k) share and the HSA are pre-tax.
   */
  function PayrollOf(s: Stream): (p: Payroll)
    ensures p.gross == s.gross && p.hsa == s.hsa
    ensures p.k401 == s.gross * (s.k401Pct / 100.0)
    ensures p.pretax == p.k401 + s.hsa
    ensures 0.0 <= p.fica <= SsCap * SsRate + FicaWages(s) * MediRate
    ensures FicaWages(s) <= SsCap ==> p.fica == FicaWages(s) * (SsRate + MediRate)
  {
    var k401 := s.gross * (s.k401Pct / 100.0);
    var pretax := k401 + s.hsa;
    var wages := FicaWages(s);
    var ss := Min(wages, SsCap) * SsRate;
    var medi := wages * MediRate;
    Payroll(s.gross, k401, s.hsa, pretax, Max(0.0, ss + medi))
  }

  /** Above the Social Security cap only Medicare grows: 1.45% of each further dollar. */
  lemma FicaAboveCap(s1: Stream, s2: Stream)
    requires SsCap <= FicaWages(s1) && SsCap <= FicaWages(s2)
    ensures PayrollOf(s2).fica - PayrollOf(s1).fica == (FicaWages(s2) - FicaWages(s1)) * MediRate
  {
  }

  /** The 401(k) percentage moves the pre-tax total but never FICA. */
  lemma FicaIgnores401k(gross: real, pct1: real, pct2: real, hsa: real)
    ensures PayrollOf(Stream(gross, pct1, hsa)).fica == PayrollOf(Stream(gross, pct2, hsa)).fica
    ensures PayrollOf(Stream(gross, pct2, hsa)).pretax - PayrollOf(Stream(gross, pct1, hsa)).pretax
         == gross * (pct2 / 100.0) - gross * (pct1 / 100.0)
  {
  }

  /** `streams.map(...)`: each stream's payroll figures, in order. */
  function Payrolls(ss: seq<Stream>): (ps: seq<Payroll>)
    ensures |ps| == |ss|
    ensures forall j :: 0 <= j < |ss| ==> ps[j] == PayrollOf(ss[j])
  {
    seq(|ss|, j requires 0 <= j < |ss| => PayrollOf(ss[j]))
  }

  /** `reduce((a, s) => a + f(s), 0)`. */
  function SumOf(ps: seq<Payroll>, f: Payroll -> real): real
  {
    if ps == [] then 0.0 else SumOf(ps[..|ps| - 1], f) + f(ps[|ps| - 1])
  }

  function GrossOf(p: Payroll): real { p.gross }

  function PretaxOf(p: Payroll): real { p.pretax }

  function FicaOf(p: Payroll): real { p.fica }

  /** The household's inputs: filing status, annual health premiums, streams and the state rate. */
  datatype Inputs = Inputs(filing: string, health: real, streams: seq<Stream>, stateRate: real)

  datatype Household = Household(
    streams: seq<Payroll>, grossHH: real, pretaxHH: real, health: real,
    std: real, fedTaxable: real, fedTax: real,
    stateRate: real, stateTaxBase: real, stateTax: real,
    ficaHH: real, takeHome: real)

  /** A flat rate on a base, never below 0. */
  function FlatTax(base: real, rate: real): (t: real)
    ensures t >= 0.0
    ensures base >= 0.0 && rate >= 0.0 ==> t == base * rate
    ensures base >= 0.0 && rate <= 0.0 ==> t == 0.0
  {
    Max(0.0, base * rate)
  }

  /**
   * `compute(inputs)`: the household sums, federal tax on income after pre-tax deductions,
   * health premiums and the standard deduction, a flat state tax on income before the
   * deduction, and take-home pay floored at 0.
   */
  function Compute(inputs: Inputs): (h: Household)
    ensures h.streams == Payrolls(inputs.streams)
    ensures h.grossHH == SumOf(h.streams, GrossOf) && h.pretaxHH == SumOf(h.streams, PretaxOf)
    ensures h.ficaHH == SumOf(h.streams, FicaOf)
    ensures h.std == StdDeduction(inputs.filing) && h.std >= 14600.0
    ensures 0.0 <= h.fedTaxable <= h.stateTaxBase
    ensures h.stateTaxBase >= h.grossHH - h.pretaxHH - h.health
    ensures h.fedTax == FederalTax(h.fedTaxable, inputs.filing)
    ensures h.stateTax >= 0.0 && h.takeHome >= 0.0
    ensures h.takeHome > 0.0 ==>
      h.takeHome + h.fedTax + h.stateTax + h.ficaHH == h.grossHH - h.pretaxHH - h.health
    ensures h.health == inputs.health && h.stateRate == inputs.stateRate
    // Income after pre-tax deductions and premiums is the state base, or 0 when it is negative.
    ensures var net := h.grossHH - h.pretaxHH - h.health;
      h.stateTaxBase == (if net > 0.0 then net else 0.0)
    // The standard deduction comes off that base, down to 0 and no further.
    ensures h.fedTaxable == (if h.stateTaxBase > h.std then h.stateTaxBase - h.std else 0.0)
    // The flat state rate applies to the base (see FlatTax: the product, or 0 for a rate of 0 or below).
    ensures h.stateTax == FlatTax(h.stateTaxBase, h.stateRate)
    // Take-home is what remains after every tax, or 0 when the taxes exceed it.
    ensures var left := h.grossHH - h.pretaxHH - h.health - h.fedTax - h.stateTax - h.ficaHH;
      h.takeHome == (if left > 0.0 then left else 0.0)
  {
    var streams := Payrolls(inputs.streams);
    var grossHH := SumOf(streams, GrossOf);
    var pretaxHH := SumOf(streams, PretaxOf);
    var ficaHH := SumOf(streams, FicaOf);
    var health := inputs.health;
    var agiLike := Max(0.0, grossHH - pretaxHH - health);
    var std := StdDeduction(inputs.filing);
    var fedTaxable := Max(0.0, agiLike - std);
    var fedTax := FederalTax(fedTaxable, inputs.filing);
    var stateRate := inputs.stateRate;
    var stateTaxBase := Max(0.0, grossHH - pretaxHH - health);
    var stateTax := FlatTax(stateTaxBase, stateRate);
    var takeHome := Max(0.0, grossHH - pretaxHH - health - fedTax - stateTax - ficaHH);
    Household(streams, grossHH, pretaxHH, health, std, fedTaxable, fedTax,
              stateRate, stateTaxBase, stateTax, ficaHH, takeHome)
  }

  /** A further income stream adds its gross, pre-tax total and FICA to the household sums. */
  lemma AddStream(inputs: Inputs, s: Stream)
    ensures var more := Compute(inputs.(streams := inputs.streams + [s]));
            var h := Compute(inputs);
            more.grossHH == h.grossHH + s.gross
            && more.pretaxHH == h.pretaxHH + PayrollOf(s).pretax
            && more.ficaHH == h.ficaHH + PayrollOf(s).fica
  {
    var ps := Payrolls(inputs.streams + [s]);
    assert ps[..|ps| - 1] == Payrolls(inputs.streams);
  }

  /** A household without streams has nothing to take home. */
  lemma NoStreams(filing: string, health: real, stateRate: real)
    requires health >= 0.0
    ensures Compute(Inputs(filing, health, [], stateRate)).takeHome == 0.0
  {
    assert Payrolls([]) == [];
  }

  /** The selected state: its code, its rate and the text shown for it. */
  datatype StateChoice = StateChoice(code: string, rate: real, display: string)

  /**
   * `parseStateSelect(val)`: no selection means no state tax; otherwise the text before the
   * first colon is the code and the text after it the rate, where a missing or non-numeric
   * rate reads as 0 (blank text reads as 0 under `Number` as well).
   */
  function ParseStateSelect(val: string): (c: StateChoice)
    ensures val == [] ==> c == StateChoice("NONE", 0.0, "No state tax")
    ensures val != [] ==> c.code == Csv.Split(val, ':')[0]
    ensures c.display == (if c.code == "NONE" then "No state tax" else c.code)
    ensures ':' !in c.code
  {
    if val == [] then StateChoice("NONE", 0.0, "No state tax")
    else
      var parts := Csv.Split(val, ':');
      var code := parts[0];
      var rateText := if |parts| > 1 then parts[1] else [];
      var rate := OrZero(Decimal.ParseNumber(rateText));
      StateChoice(code, rate, if code == "NONE" then "No state tax" else code)
  }

  /** A `code:rate` selection reads back its code and the rate its text denotes. */
  lemma ParseCodeAndRate(code: string, rateText: string)
    requires ':' !in code && ':' !in rateText
    ensures ParseStateSelect(code + [':'] + rateText)
         == StateChoice(code, OrZero(Decimal.ParseNumber(rateText)),
                        if code == "NONE" then "No state tax" else code)
  {
    Csv.SplitJoin([code, rateText], ':');
    assert Csv.Join([code, rateText], ':') == code + [':'] + rateText;
  }

  /** A selection without a colon names only a code, and its rate is 0. */
  lemma ParseCodeOnly(code: string)
    requires code != [] && ':' !in code
    ensures ParseStateSelect(code) == StateChoice(code, 0.0, if code == "NONE" then "No state tax" else code)
  {
    Csv.SplitJoin([code], ':');
  }

  lemma CaliforniaParts(val: string)
    requires val == "CA:0.06"
    ensures val == "CA" + [':'] + "0.06"
  {
  }

  lemma SixHundredths(t: string)
    requires t == "0.06"
    ensures Decimal.ParseNumber(t) == Some(0.06)
  {
    var z, f := Decimal.NatText(0), "06";
    Decimal.ParseDecimalText(0, f);
    assert z == "0";
    assert t == z + ['.'] + f;
    assert f[1..] == "6" && "6"[1..] == "";
    assert Decimal.FractionValue("6") == 0.6;
    assert Decimal.FractionValue(f) == 0.06;
  }

  /** "CA:0.06" selects California at 6%. */
  lemma ParseCalifornia(val: string)
    requires val == "CA:0.06"
    ensures ParseStateSelect(val) == StateChoice("CA", 0.06, "CA")
  {
    CaliforniaParts(val);
    ParseCodeAndRate("CA", "0.06");
    SixHundredths("0.06");
  }

  /** A rate text that is not a number, such as "CA:abc", reads as no state tax rate. */
  lemma ParseNonNumericRate(code: string, rateText: string)
    requires ':' !in code && ':' !in rateText && Decimal.ParseNumber(rateText).None?
    ensures ParseStateSelect(code + [':'] + rateText).rate == 0.0
  {
    ParseCodeAndRate(code, rateText);
  }
}

/**
 * The contribution optimizer's inputs: the values the form supplies (already divided by 100
 * where the form takes a percentage) and the tax data loaded with the page.
 */
module OptimizerData {
  import opened Wrappers

  /** One ordinary-income bracket: income between `bottom` and `top` is taxed at `rate`. */
  datatype Bracket = Bracket(bottom: real, top: real, rate: real)

  /** The tops of the 0% and 15% bands for qualified dividends and long-term gains. */
  datatype CapGainsBands = CapGainsBands(zeroTop: real, fifteenTop: real)

  /** One filing status's tables; either part may be missing from the data. */
  datatype BracketTable = BracketTable(ordinary: Option<seq<Bracket>>, capgains: Option<CapGainsBands>)

  datatype Inputs = Inputs(
    filing: string,
    wages: real,
    otherOrd: real,
    qdiv: real,
    ltcg: real,
    matchPolicy: string,
    savings: real,
    rNom: real,
    divYield: real,
    yearsToRet: nat,
    retOrdRate: real,
    retCGRate: real,
    kLimit: real,
    stdDeduction: map<string, real>,
    brackets: map<string, BracketTable>)

  /** `i.stdDeduction[i.filing] || 0`: a missing or zero deduction is 0. */
  function StdDeductionFor(i: Inputs): real
  {
    if i.filing in i.stdDeduction then i.stdDeduction[i.filing] else 0.0
  }

  /** `i.brackets[i.filing]`, absent when the data has no table for the filing status. */
  function TableFor(i: Inputs): Option<BracketTable>
  {
    if i.filing in i.brackets then Some(i.brackets[i.filing]) else None
  }
}

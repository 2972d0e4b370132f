/**
 * The fixed-field net-worth form: seven asset fields and five liability fields are summed, net
 * worth is their difference, and the FI net worth counts only the assets whose FI box is ticked.
 */
module NetWorthForm {
  import opened Wrappers
  import opened Numeric

  /** The seven asset fields, each as `getValue` reads it (a field that did not parse is `None`, read as 0). */
  datatype Assets = Assets(cash: Option<real>, savings: Option<real>, brokerage: Option<real>, retirement: Option<real>,
                           hsa: Option<real>, home: Option<real>, otherAssets: Option<real>)

  /** The five liability fields. */
  datatype Liabilities = Liabilities(mortgage: Option<real>, carLoans: Option<real>, studentLoans: Option<real>,
                                     creditCards: Option<real>, otherDebts: Option<real>)

  /** Which assets have their FI box ticked. */
  datatype FiBoxes = FiBoxes(cash: bool, savings: bool, brokerage: bool, retirement: bool,
                             hsa: bool, home: bool, otherAssets: bool)

  /** The asset values in the order the form lists them. */
  function AssetValues(a: Assets): (vs: seq<real>)
    ensures |vs| == 7
  {
    [OrZero(a.cash), OrZero(a.savings), OrZero(a.brokerage), OrZero(a.retirement),
     OrZero(a.hsa), OrZero(a.home), OrZero(a.otherAssets)]
  }

  /** The liability values in the order the form lists them. */
  function LiabilityValues(l: Liabilities): (vs: seq<real>)
    ensures |vs| == 5
  {
    [OrZero(l.mortgage), OrZero(l.carLoans), OrZero(l.studentLoans), OrZero(l.creditCards), OrZero(l.otherDebts)]
  }

  /** The FI boxes in the same order as the assets. */
  function BoxList(b: FiBoxes): (bs: seq<bool>)
    ensures |bs| == 7
  {
    [b.cash, b.savings, b.brokerage, b.retirement, b.hsa, b.home, b.otherAssets]
  }

  /** `if (isChecked(..)) fiAssets += v`: what one asset adds to the FI assets. */
  function Tick(box: bool, v: real): real
  {
    if box then v else 0.0
  }

  /** The sum of the values whose box is ticked. */
  function SumTicked(vs: seq<real>, bs: seq<bool>): real
    requires |vs| == |bs|
  {
    if vs == [] then 0.0 else Tick(bs[0], vs[0]) + SumTicked(vs[1..], bs[1..])
  }

  /** One step of the ticked sum from position `k`. */
  lemma SumTickedFrom(vs: seq<real>, bs: seq<bool>, k: nat)
    requires |vs| == |bs| && k < |vs|
    ensures SumTicked(vs[k..], bs[k..]) == Tick(bs[k], vs[k]) + SumTicked(vs[k + 1..], bs[k + 1..])
  {
    assert vs[k..][1..] == vs[k + 1..] && bs[k..][1..] == bs[k + 1..];
  }

  /** One step of the sum from position `k`. */
  lemma SumFrom(vs: seq<real>, k: nat)
    requires k < |vs|
    ensures Sum(vs[k..]) == vs[k] + Sum(vs[k + 1..])
  {
    assert vs[k..][1..] == vs[k + 1..];
  }

  /** The ticked sum of seven values, written out. */
  lemma TickedSeven(vs: seq<real>, bs: seq<bool>)
    requires |vs| == 7 && |bs| == 7
    ensures SumTicked(vs, bs) == Tick(bs[0], vs[0]) + Tick(bs[1], vs[1]) + Tick(bs[2], vs[2]) + Tick(bs[3], vs[3])
                                 + Tick(bs[4], vs[4]) + Tick(bs[5], vs[5]) + Tick(bs[6], vs[6])
  {
    assert vs[0..] == vs && bs[0..] == bs;
    SumTickedFrom(vs, bs, 0);
    SumTickedFrom(vs, bs, 1);
    SumTickedFrom(vs, bs, 2);
    SumTickedFrom(vs, bs, 3);
    SumTickedFrom(vs, bs, 4);
    SumTickedFrom(vs, bs, 5);
    SumTickedFrom(vs, bs, 6);
  }

  /** The sum of seven values, written out. */
  lemma SumSeven(vs: seq<real>)
    requires |vs| == 7
    ensures Sum(vs) == vs[0] + vs[1] + vs[2] + vs[3] + vs[4] + vs[5] + vs[6]
  {
    assert vs[0..] == vs;
    SumFrom(vs, 0);
    SumFrom(vs, 1);
    SumFrom(vs, 2);
    SumFrom(vs, 3);
    SumFrom(vs, 4);
    SumFrom(vs, 5);
    SumFrom(vs, 6);
  }

  /** What the form shows. */
  datatype Totals = Totals(totalAssets: real, totalLiabilities: real, netWorth: real, fiAssets: real, fiNetWorth: real)

  /**
   * The submit handler: both totals are sums of their fields, net worth is their difference, the
   * FI assets add each ticked asset in turn, and the FI net worth subtracts all liabilities from them.
   */
  function Compute(a: Assets, l: Liabilities, b: FiBoxes): (t: Totals)
    ensures t.netWorth + t.totalLiabilities == t.totalAssets
    ensures t.fiNetWorth + t.totalLiabilities == t.fiAssets
    ensures t.netWorth - t.fiNetWorth == t.totalAssets - t.fiAssets
  {
    var totalAssets := Sum(AssetValues(a));
    var totalLiabilities := Sum(LiabilityValues(l));
    var fiAssets := Tick(b.cash, OrZero(a.cash)) + Tick(b.savings, OrZero(a.savings))
                    + Tick(b.brokerage, OrZero(a.brokerage)) + Tick(b.retirement, OrZero(a.retirement))
                    + Tick(b.hsa, OrZero(a.hsa)) + Tick(b.home, OrZero(a.home))
                    + Tick(b.otherAssets, OrZero(a.otherAssets));
    Totals(totalAssets, totalLiabilities, totalAssets - totalLiabilities, fiAssets, fiAssets - totalLiabilities)
  }

  /** The sum of five values, written out. */
  lemma SumFive(vs: seq<real>)
    requires |vs| == 5
    ensures Sum(vs) == vs[0] + vs[1] + vs[2] + vs[3] + vs[4]
  {
    assert vs[0..] == vs;
    SumFrom(vs, 0);
    SumFrom(vs, 1);
    SumFrom(vs, 2);
    SumFrom(vs, 3);
    SumFrom(vs, 4);
  }

  /**
   * The totals are the sums of the fields (all seven assets, all five liabilities), and the chain
   * of conditional additions is the sum of exactly the ticked assets.
   */
  lemma ComputeSums(a: Assets, l: Liabilities, b: FiBoxes)
    ensures Compute(a, l, b).totalAssets == OrZero(a.cash) + OrZero(a.savings) + OrZero(a.brokerage)
              + OrZero(a.retirement) + OrZero(a.hsa) + OrZero(a.home) + OrZero(a.otherAssets)
    ensures Compute(a, l, b).totalLiabilities == OrZero(l.mortgage) + OrZero(l.carLoans)
              + OrZero(l.studentLoans) + OrZero(l.creditCards) + OrZero(l.otherDebts)
    ensures Compute(a, l, b).fiAssets == SumTicked(AssetValues(a), BoxList(b))
  {
    SumSeven(AssetValues(a));
    SumFive(LiabilityValues(l));
    TickedSeven(AssetValues(a), BoxList(b));
  }

  /** With amounts that are not negative, the ticked ones add up to at most all of them. */
  lemma {:induction false} TickedAtMost(vs: seq<real>, bs: seq<bool>)
    requires |vs| == |bs| && forall i :: 0 <= i < |vs| ==> vs[i] >= 0.0
    ensures SumTicked(vs, bs) <= Sum(vs)
  {
    if vs != [] {
      TickedAtMost(vs[1..], bs[1..]);
    }
  }

  /** With every box ticked, the ticked amounts are all of them. */
  lemma {:induction false} AllTicked(vs: seq<real>, bs: seq<bool>)
    requires |vs| == |bs| && forall i :: 0 <= i < |bs| ==> bs[i]
    ensures SumTicked(vs, bs) == Sum(vs)
  {
    if vs != [] {
      AllTicked(vs[1..], bs[1..]);
    }
  }

  /** Every asset field that is not negative. */
  predicate AssetsNonNegative(a: Assets)
  {
    forall i :: 0 <= i < 7 ==> AssetValues(a)[i] >= 0.0
  }

  /** With no negative asset the FI assets are at most the total assets, and the FI net worth at most the net worth. */
  lemma FiNotAbove(a: Assets, l: Liabilities, b: FiBoxes)
    requires AssetsNonNegative(a)
    ensures Compute(a, l, b).fiAssets <= Compute(a, l, b).totalAssets
    ensures Compute(a, l, b).fiNetWorth <= Compute(a, l, b).netWorth
  {
    ComputeSums(a, l, b);
    TickedAtMost(AssetValues(a), BoxList(b));
  }

  /** With every FI box ticked the FI figures equal the totals. */
  lemma AllFi(a: Assets, l: Liabilities)
    ensures var b := FiBoxes(true, true, true, true, true, true, true);
            Compute(a, l, b).fiAssets == Compute(a, l, b).totalAssets
            && Compute(a, l, b).fiNetWorth == Compute(a, l, b).netWorth
  {
    var b := FiBoxes(true, true, true, true, true, true, true);
    ComputeSums(a, l, b);
    AllTicked(AssetValues(a), BoxList(b));
  }
}

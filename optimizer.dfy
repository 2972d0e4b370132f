/**
 * The contribution optimizer's search (`optimize`): every employee deferral from 0 up to the
 * smaller of the savings budget and the deferral limit, in steps of `empStep`, crossed with
 * every Roth share and brokerage share in 5% steps; each cell is projected to retirement, the
 * cells are sorted by projected after-tax value, best first, and three fixed strategies are
 * projected for comparison.
 */
module Optimizer {
  import opened Wrappers
  import opened Numeric
  import opened Seqs
  import opened OptimizerData
  import opened Tax
  import opened MatchPolicy
  import opened Growth

  datatype Candidate = Candidate(
    empTotal: real,
    empTrad: real,
    empRoth: real,
    brok: real,
    employerMatch: real,
    afterTaxFV: real,
    taxNow: real)

  /** A grid cell: the `k`-th deferral step, the Roth percentage and the brokerage percentage. */
  datatype Point = Point(k: nat, pRoth: int, pBrok: int)

  datatype Outcome = Outcome(
    best: Option<Candidate>,
    allBrokerage: Projection,
    allTrad: Projection,
    allRoth: Projection,
    results: seq<Candidate>)

  /** The deferral step: 5% of the budget, rounded to whole dollars, and never below 500. */
  function EmpStep(i: Inputs): (step: int)
    ensures step >= 500
  {
    IntMax(500, Round(i.savings * 0.05))
  }

  /** The largest deferral the sweep may reach: the budget or the deferral limit, whichever is smaller. */
  function SweepLimit(i: Inputs): real
  {
    Min(i.savings, i.kLimit)
  }

  /** The deferral of the `k`-th step: `emp` starts at 0 and grows by `empStep` per step. */
  function EmpAt(i: Inputs, k: nat): real
  {
    if k == 0 then 0.0 else EmpAt(i, k - 1) + EmpStep(i) as real
  }

  lemma {:induction false} EmpAtIsMultiple(i: Inputs, k: nat)
    ensures EmpAt(i, k) == k as real * EmpStep(i) as real
    ensures EmpAt(i, k) >= 0.0
  {
    if k > 0 {
      EmpAtIsMultiple(i, k - 1);
    }
  }

  /** How many deferral steps the sweep takes. */
  function EmpCount(i: Inputs): nat
  {
    if SweepLimit(i) < 0.0 then 0
    else
      DivMonotone(0.0, SweepLimit(i), EmpStep(i) as real);
      (SweepLimit(i) / EmpStep(i) as real).Floor + 1
  }

  /** The `k`-th deferral is within the sweep's bound exactly when `k` is below the step count. */
  lemma EmpCountSpec(i: Inputs, k: nat)
    ensures EmpAt(i, k) <= SweepLimit(i) <==> k < EmpCount(i)
  {
    var l := SweepLimit(i);
    var s := EmpStep(i) as real;
    EmpAtIsMultiple(i, k);
    if l >= 0.0 {
      var q := l / s;
      assert q * s == l;
      if k as real <= q {
        MulRight(k as real, q, s);
      } else {
        MulStrictRight(q, k as real, s);
      }
    } else {
      MulNonNegative(k as real, s);
    }
  }

  /** The first `n` brokerage percentages (0, 5, 10, ...) for the Roth percentage `5 * r`. */
  function BrokPoints(k: nat, r: nat, n: int): seq<Point>
    decreases n
  {
    if n <= 0 then [] else BrokPoints(k, r, n - 1) + [Point(k, 5 * r, 5 * (n - 1))]
  }

  /** The first `m` Roth percentages, each with every brokerage percentage up to the rest of 100. */
  function RothPoints(k: nat, m: nat): seq<Point>
  {
    if m == 0 then [] else RothPoints(k, m - 1) + BrokPoints(k, m - 1, 22 - m)
  }

  /** The first `n` deferral steps, each with the whole Roth/brokerage grid. */
  function EmpPoints(n: nat): seq<Point>
  {
    if n == 0 then [] else EmpPoints(n - 1) + RothPoints(n - 1, 21)
  }

  /** The cells the sweep visits, in visiting order. */
  function SweepPoints(i: Inputs): seq<Point>
  {
    EmpPoints(EmpCount(i))
  }

  datatype Allocation = Allocation(empTrad: real, empRoth: real, brok: real)

  /**
   * One split: `pTrad = 100 - pRoth - pBrok` percent of the deferral goes to Traditional,
   * `pRoth` percent to Roth, and `pBrok` percent of what the deferral leaves of the budget
   * goes to the brokerage.
   */
  function Allocate(emp: real, remainder: real, pRoth: int, pBrok: int): Allocation
  {
    var pTrad := 100 - pRoth - pBrok;
    Allocation(emp * (pTrad as real / 100.0), emp * (pRoth as real / 100.0), remainder * (pBrok as real / 100.0))
  }

  /** One cell: a split of the deferral `emp`, projected to retirement. */
  function Cell(i: Inputs, emp: real, employerMatch: real, pRoth: int, pBrok: int): Candidate
  {
    var remainder := Max(i.savings - emp, 0.0);
    var a := Allocate(emp, remainder, pRoth, pBrok);
    var sim := GrowToRetirement(i, a.empTrad, a.empRoth, a.brok, employerMatch, i.wages);
    Candidate(emp, a.empTrad, a.empRoth, a.brok, employerMatch, sim.totalAfterTaxFV, sim.tax.totalTax)
  }

  function CellAt(i: Inputs, p: Point): Candidate
  {
    var emp := EmpAt(i, p.k);
    Cell(i, emp, EmployerMatch(i.wages, emp, i.matchPolicy), p.pRoth, p.pBrok)
  }

  /** The cells of `pts`, in the same order. */
  function Cells(i: Inputs, pts: seq<Point>): seq<Candidate>
  {
    seq(|pts|, j requires 0 <= j < |pts| => CellAt(i, pts[j]))
  }

  /** Every cell of the sweep, in visiting order. */
  function Grid(i: Inputs): seq<Candidate>
  {
    Cells(i, SweepPoints(i))
  }

  /** The sort key that puts the highest projected value first. */
  function ByValueDescending(c: Candidate): real
  {
    -c.afterTaxFV
  }

  /** Everything into the brokerage. */
  function AllBrokerage(i: Inputs): Projection
  {
    GrowToRetirement(i, 0.0, 0.0, i.savings, 0.0, i.wages)
  }

  /** The largest deferral allowed, all Traditional, the rest of the budget into the brokerage. */
  function AllTraditional(i: Inputs): Projection
  {
    var emp := Min(i.savings, i.kLimit);
    var employerMatch := EmployerMatch(i.wages, emp, i.matchPolicy);
    GrowToRetirement(i, emp, 0.0, Max(i.savings - emp, 0.0), employerMatch, i.wages)
  }

  /** The largest deferral allowed, all Roth, the rest of the budget into the brokerage. */
  function AllRoth(i: Inputs): Projection
  {
    var emp := Min(i.savings, i.kLimit);
    var employerMatch := EmployerMatch(i.wages, emp, i.matchPolicy);
    GrowToRetirement(i, 0.0, emp, Max(i.savings - emp, 0.0), employerMatch, i.wages)
  }

  lemma BrokStep(k: nat, r: nat, b: nat, before: seq<Point>)
    ensures before + BrokPoints(k, r, b + 1) == before + BrokPoints(k, r, b) + [Point(k, 5 * r, 5 * b)]
  {
  }

  lemma CellsSnoc(i: Inputs, pts: seq<Point>, p: Point)
    ensures Cells(i, pts + [p]) == Cells(i, pts) + [CellAt(i, p)]
  {
  }

  /**
   * The body of `optimize`'s outer loop for the deferral of step `k`: the employer match on that
   * deferral, then every Roth percentage and, for each, every brokerage percentage up to the
   * rest of 100, appended in visiting order.
   */
  method SweepSplits(i: Inputs, emp: real, ghost k: nat, before: seq<Candidate>, ghost done: seq<Point>)
    returns (results: seq<Candidate>)
    requires emp == EmpAt(i, k)
    requires before == Cells(i, done)
    ensures results == Cells(i, done + RothPoints(k, 21))
  {
    var employerMatch := EmployerMatch(i.wages, emp, i.matchPolicy);
    var stepPct := 5;
    results := before;
    var pRoth := 0;
    ghost var r: nat := 0;
    ghost var pts := done;
    while pRoth <= 100
      invariant r <= 21 && pRoth == 5 * r
      invariant pts == done + RothPoints(k, r)
      invariant results == Cells(i, pts)
      decreases 21 - r
    {
      var pBrok := 0;
      ghost var b: nat := 0;
      while pBrok <= 100 - pRoth
        invariant b <= 21 - r && pBrok == 5 * b
        invariant pts == done + RothPoints(k, r) + BrokPoints(k, r, b)
        invariant results == Cells(i, pts)
        decreases 21 - r - b
      {
        var c := Cell(i, emp, employerMatch, pRoth, pBrok);
        CellsSnoc(i, pts, Point(k, pRoth, pBrok));
        BrokStep(k, r, b, done + RothPoints(k, r));
        results := results + [c];
        pts := pts + [Point(k, pRoth, pBrok)];
        pBrok := pBrok + stepPct;
        b := b + 1;
      }
      assert b == 21 - r;
      assert RothPoints(k, r + 1) == RothPoints(k, r) + BrokPoints(k, r, 21 - r);
      pRoth := pRoth + stepPct;
      r := r + 1;
    }
  }

  /** The sweep of `optimize`: one candidate per grid cell, in visiting order. */
  method Sweep(i: Inputs) returns (results: seq<Candidate>)
    ensures results == Grid(i)
  {
    var maxEmployee := i.kLimit;
    results := [];
    var budget := i.savings;
    var empStep := IntMax(500, Round(budget * 0.05));
    var emp := 0.0;
    ghost var k: nat := 0;
    while emp <= Min(budget, maxEmployee)
      invariant k <= EmpCount(i) && emp == EmpAt(i, k)
      invariant results == Cells(i, EmpPoints(k))
      decreases EmpCount(i) - k
    {
      EmpCountSpec(i, k);
      results := SweepSplits(i, emp, k, results, EmpPoints(k));
      assert EmpPoints(k + 1) == EmpPoints(k) + RothPoints(k, 21);
      emp := emp + empStep as real;
      k := k + 1;
    }
    EmpCountSpec(i, k);
  }

  /**
   * `optimize`: the sweep's candidates ranked by projected after-tax value, best first; the
   * best one (absent when the sweep visits nothing); and the three fixed strategies.
   */
  method Optimize(i: Inputs) returns (out: Outcome)
    ensures multiset(out.results) == multiset(Grid(i))
    ensures SortedBy(out.results, ByValueDescending)
    ensures out.best == (if out.results == [] then None else Some(out.results[0]))
    ensures out.best.Some? <==> SweepLimit(i) >= 0.0
    ensures out.best.Some? ==> out.best.value in Grid(i)
    ensures out.best.Some? ==> forall c :: c in Grid(i) ==> c.afterTaxFV <= out.best.value.afterTaxFV
    ensures out.best.Some? && i.wages >= 0.0 ==> out.best.value.afterTaxFV >= out.allBrokerage.totalAfterTaxFV
    ensures |out.results| == 231 * EmpCount(i)
    ensures out.allBrokerage == AllBrokerage(i)
    ensures out.allTrad == AllTraditional(i)
    ensures out.allRoth == AllRoth(i)
  {
    var results := Sweep(i);
    GridSize(i);
    results := SortBy(results, ByValueDescending);
    var best := if |results| == 0 then None else Some(results[0]);
    if best.Some? {
      SortByHeadIsLeast(Grid(i), ByValueDescending);
      if i.wages >= 0.0 {
        BestBeatsAllBrokerage(i, best.value);
      }
    }
    var allBrokerage := GrowToRetirement(i, 0.0, 0.0, i.savings, 0.0, i.wages);
    var allTrad := AllTraditional(i);
    var allRoth := AllRoth(i);
    out := Outcome(best, allBrokerage, allTrad, allRoth, results);
  }

  lemma {:induction false} BrokPointsSize(k: nat, r: nat, n: nat)
    ensures |BrokPoints(k, r, n)| == n
  {
    if n > 0 {
      BrokPointsSize(k, r, n - 1);
    }
  }

  lemma Square(t: int)
    ensures (t - 1) * (t - 1) == t * t - 2 * t + 1
  {
  }

  lemma {:induction false} RothPointsSize(k: nat, t: nat)
    requires t <= 21
    ensures 2 * |RothPoints(k, t)| == 43 * t - t * t
  {
    if t > 0 {
      RothPointsSize(k, t - 1);
      BrokPointsSize(k, t - 1, 22 - t);
      assert |RothPoints(k, t)| == |RothPoints(k, t - 1)| + (22 - t);
      Square(t);
    }
  }

  /** Each deferral step visits 231 Roth/brokerage splits. */
  lemma {:induction false} EmpPointsSize(n: nat)
    ensures |EmpPoints(n)| == 231 * n
  {
    if n > 0 {
      EmpPointsSize(n - 1);
      RothPointsSize(n - 1, 21);
    }
  }

  /** The sweep visits 231 cells per deferral step, and none at all when the budget or the limit is negative. */
  lemma GridSize(i: Inputs)
    ensures |Grid(i)| == 231 * EmpCount(i)
    ensures |Grid(i)| > 0 <==> SweepLimit(i) >= 0.0
  {
    EmpPointsSize(EmpCount(i));
  }

  /** A Roth/brokerage split the sweep visits: both in 5% steps, together at most 100%. */
  predicate ValidSplit(p: Point)
  {
    0 <= p.pRoth && 0 <= p.pBrok && p.pRoth + p.pBrok <= 100 && p.pRoth % 5 == 0 && p.pBrok % 5 == 0
  }

  lemma {:induction false} BrokPointsMembers(k: nat, r: nat, n: nat, p: Point)
    ensures p in BrokPoints(k, r, n)
        <==> p.k == k && p.pRoth == 5 * r && 0 <= p.pBrok < 5 * n && p.pBrok % 5 == 0
  {
    if n > 0 {
      BrokPointsMembers(k, r, n - 1, p);
    }
  }

  lemma {:induction false} RothPointsMembers(k: nat, m: nat, p: Point)
    requires m <= 21
    ensures p in RothPoints(k, m) <==> p.k == k && p.pRoth < 5 * m && ValidSplit(p)
  {
    if m > 0 {
      RothPointsMembers(k, m - 1, p);
      BrokPointsMembers(k, m - 1, 22 - m, p);
    }
  }

  lemma FullRothSound(k: nat)
    ensures forall p :: p in RothPoints(k, 21) ==> p.k == k && ValidSplit(p)
  {
    forall p | p in RothPoints(k, 21)
      ensures p.k == k && ValidSplit(p)
    {
      RothPointsMembers(k, 21, p);
    }
  }

  lemma FullRothBackward(k: nat, p: Point)
    requires p.k == k && ValidSplit(p)
    ensures p in RothPoints(k, 21)
  {
    RothPointsMembers(k, 21, p);
  }

  lemma {:induction false} EmpPointsSound(n: nat)
    ensures forall p :: p in EmpPoints(n) ==> p.k < n && ValidSplit(p)
  {
    if n > 0 {
      EmpPointsSound(n - 1);
      FullRothSound(n - 1);
      forall p | p in EmpPoints(n)
        ensures p.k < n && ValidSplit(p)
      {
        InConcatSplit(EmpPoints(n - 1), RothPoints(n - 1, 21), p);
      }
    }
  }

  lemma {:induction false} EmpPointsComplete(n: nat, p: Point)
    requires p.k < n && ValidSplit(p)
    ensures p in EmpPoints(n)
  {
    var head, last := EmpPoints(n - 1), RothPoints(n - 1, 21);
    if p.k < n - 1 {
      EmpPointsComplete(n - 1, p);
    } else {
      FullRothBackward(n - 1, p);
    }
    InConcat(head, last, p);
  }

  lemma InConcatSplit<T>(a: seq<T>, b: seq<T>, x: T)
    requires x in a + b
    ensures x in a || x in b
  {
  }

  lemma InConcat<T>(a: seq<T>, b: seq<T>, x: T)
    requires x in a || x in b
    ensures x in a + b
  {
  }

  /**
   * The sweep visits exactly the cells whose deferral step stays within the smaller of the
   * budget and the limit and whose Roth and brokerage shares are 5% steps adding up to at most 100%.
   */
  lemma SweepVisits(i: Inputs, p: Point)
    ensures p in SweepPoints(i) <==> EmpAt(i, p.k) <= SweepLimit(i) && ValidSplit(p)
  {
    EmpPointsSound(EmpCount(i));
    EmpCountSpec(i, p.k);
    if EmpAt(i, p.k) <= SweepLimit(i) && ValidSplit(p) {
      EmpPointsComplete(EmpCount(i), p);
    }
  }

  lemma CellInGrid(i: Inputs, p: Point)
    requires EmpAt(i, p.k) <= SweepLimit(i) && ValidSplit(p)
    ensures CellAt(i, p) in Grid(i)
  {
    SweepVisits(i, p);
    var j :| 0 <= j < |SweepPoints(i)| && SweepPoints(i)[j] == p;
    assert Grid(i)[j] == CellAt(i, p);
  }

  /** A cell's deferral, match and split, as the sweep computes them for its step. */
  lemma CellParts(i: Inputs, p: Point)
    ensures var c := CellAt(i, p);
      && c.empTotal == EmpAt(i, p.k) >= 0.0
      && c.employerMatch == EmployerMatch(i.wages, c.empTotal, i.matchPolicy)
      && Allocation(c.empTrad, c.empRoth, c.brok)
         == Allocate(c.empTotal, Max(i.savings - c.empTotal, 0.0), p.pRoth, p.pBrok)
  {
    EmpAtIsMultiple(i, p.k);
  }

  /**
   * The split never hands out more than it has: Traditional and Roth together get
   * `100 - pBrok` percent of the deferral, so a split with a brokerage share defers less than
   * the step's deferral, and the brokerage gets at most what the deferral leaves of the budget.
   */
  lemma SplitBounds(emp: real, remainder: real, pRoth: int, pBrok: int)
    requires 0 <= pRoth && 0 <= pBrok && pRoth + pBrok <= 100
    requires emp >= 0.0 && remainder >= 0.0
    ensures Allocate(emp, remainder, pRoth, pBrok).empTrad + Allocate(emp, remainder, pRoth, pBrok).empRoth
            == emp * ((100 - pBrok) as real / 100.0)
    ensures 0.0 <= Allocate(emp, remainder, pRoth, pBrok).empTrad
    ensures 0.0 <= Allocate(emp, remainder, pRoth, pBrok).empRoth
    ensures Allocate(emp, remainder, pRoth, pBrok).empTrad + Allocate(emp, remainder, pRoth, pBrok).empRoth <= emp
    ensures pBrok > 0 && emp > 0.0 ==>
              Allocate(emp, remainder, pRoth, pBrok).empTrad + Allocate(emp, remainder, pRoth, pBrok).empRoth < emp
    ensures 0.0 <= Allocate(emp, remainder, pRoth, pBrok).brok <= remainder
  {
    var tradShare := (100 - pRoth - pBrok) as real / 100.0;
    var rothShare := pRoth as real / 100.0;
    var brokShare := pBrok as real / 100.0;
    var kept := (100 - pBrok) as real / 100.0;
    assert tradShare + rothShare == kept;
    Distribute(emp, tradShare, rothShare);
    ShareWithin(emp, tradShare);
    ShareWithin(emp, rothShare);
    ShareWithin(emp, kept);
    if pBrok > 0 && emp > 0.0 {
      ShareBelow(emp, kept);
    }
    ShareWithin(remainder, brokShare);
  }

  /** Every ranked candidate keeps its deferral within the sweep's bound and its shares within what it has. */
  lemma GridCell(i: Inputs, c: Candidate)
    requires c in Grid(i)
    ensures 0.0 <= c.empTotal <= SweepLimit(i)
    ensures c.employerMatch == EmployerMatch(i.wages, c.empTotal, i.matchPolicy)
    ensures 0.0 <= c.empTrad && 0.0 <= c.empRoth && c.empTrad + c.empRoth <= c.empTotal
    ensures 0.0 <= c.brok <= Max(i.savings - c.empTotal, 0.0)
  {
    var pts := SweepPoints(i);
    var j :| 0 <= j < |pts| && Grid(i)[j] == c;
    var p := pts[j];
    SweepVisits(i, p);
    CellParts(i, p);
    SplitBounds(c.empTotal, Max(i.savings - c.empTotal, 0.0), p.pRoth, p.pBrok);
  }

  /**
   * Putting the whole budget into the brokerage is one of the cells (no deferral, 100% brokerage),
   * so the best candidate is never worse than the all-brokerage comparison.
   */
  lemma BestBeatsAllBrokerage(i: Inputs, best: Candidate)
    requires i.wages >= 0.0
    requires forall c :: c in Grid(i) ==> c.afterTaxFV <= best.afterTaxFV
    requires SweepLimit(i) >= 0.0
    ensures best.afterTaxFV >= AllBrokerage(i).totalAfterTaxFV
  {
    var p := Point(0, 0, 100);
    CellInGrid(i, p);
    assert EmpAt(i, 0) == 0.0;
    assert CellAt(i, p).afterTaxFV == AllBrokerage(i).totalAfterTaxFV;
  }

  /**
   * With a 10250 budget and a limit above it the step is 513, so no deferral step equals the
   * budget: the all-Traditional and all-Roth comparisons defer an amount the sweep never tries,
   * and the best candidate need not beat them.
   */
  lemma FullDeferralOffGrid(i: Inputs, k: nat)
    requires i.savings == 10250.0 && i.kLimit >= 10250.0
    ensures EmpStep(i) == 513
    ensures EmpAt(i, k) != SweepLimit(i)
  {
    assert Round(i.savings * 0.05) == 513;
    EmpAtIsMultiple(i, k);
  }
}

/**
 * The early-retirement estimator: a month-by-month balance simulation with a contribution
 * bump, the first months at which the balance reaches the FI target and half of it, the first
 * month from which growth alone would reach the target by the horizon (coast FI), and the
 * year-end rows of the table. The monthly growth rate is an input: the fractional power that
 * turns yearly percentages into it is not part of this model.
 */
module EarlyRetirement {
  import opened Wrappers
  import opened Numeric

  /** What `simulate` is given; `r` is the monthly growth rate (nominal or real, as chosen). */
  datatype Setup = Setup(startBal: real, contribMonthly: real, contribBump: real, bumpYear: real,
                         r: real, spend: real, wrPct: real, maxYears: real)

  /** The form as read: each field parsed, `None` when it did not parse. */
  datatype Form = Form(currentBalance: Option<real>, contributionMonthly: Option<real>,
                       contributionBump: Option<real>, bumpYear: Option<real>, r: real,
                       annualSpend: Option<real>, withdrawalRate: Option<real>, maxYears: Option<real>)

  /** `+field || default` for each field: the withdrawal rate defaults to 4% and the horizon to 50 years. */
  function SetupOf(f: Form): (s: Setup)
    ensures s.wrPct != 0.0
    ensures f.withdrawalRate.None? || f.withdrawalRate.value == 0.0 ==> s.wrPct == 4.0
    ensures f.maxYears.None? || f.maxYears.value == 0.0 ==> s.maxYears == 50.0
    ensures f.withdrawalRate.Some? && f.withdrawalRate.value != 0.0 ==> s.wrPct == f.withdrawalRate.value
  {
    Setup(OrDefault(f.currentBalance, 0.0), OrDefault(f.contributionMonthly, 0.0),
          OrDefault(f.contributionBump, 0.0), OrDefault(f.bumpYear, 0.0), f.r,
          OrDefault(f.annualSpend, 0.0), OrDefault(f.withdrawalRate, 4.0), OrDefault(f.maxYears, 50.0))
  }

  /** The horizon in months: the whole months of `maxYears`, at least one year and at most 70. */
  function Months(maxYears: real): (m: int)
    ensures 12 <= m <= 840
    ensures 12 <= (maxYears * 12.0).Floor <= 840 ==> m == (maxYears * 12.0).Floor
    ensures (maxYears * 12.0).Floor < 12 ==> m == 12
    ensures (maxYears * 12.0).Floor > 840 ==> m == 840
  {
    IntMax(12, IntMin(70 * 12, (maxYears * 12.0).Floor))
  }

  /** The first month that gets the contribution bump. */
  function BumpMonth(bumpYear: real): (b: nat)
    ensures b >= (bumpYear * 12.0).Floor
  {
    IntMax(0, (bumpYear * 12.0).Floor)
  }

  /** The contribution of month `m`: the monthly amount, plus the bump from the bump month on. */
  function Add(s: Setup, m: int): real
  {
    s.contribMonthly + (if m >= BumpMonth(s.bumpYear) then s.contribBump else 0.0)
  }

  /** A balance grown for one month at rate `r`. */
  function Grow(x: real, r: real): real
  {
    x * (1.0 + r)
  }

  /** The balance after `m` months: last month's balance grown one month, plus this month's contribution. */
  function Balance(s: Setup, m: nat): real
  {
    if m == 0 then s.startBal else Grow(Balance(s, m - 1), s.r) + Add(s, m)
  }

  /** The contributions made in the first `m` months. */
  function Contributed(s: Setup, m: nat): real
  {
    if m == 0 then 0.0 else Contributed(s, m - 1) + Add(s, m)
  }

  /** The FI target: a year's spending at the withdrawal rate. */
  function FiTarget(s: Setup): real
    requires s.wrPct != 0.0
  {
    s.spend / (s.wrPct / 100.0)
  }

  /** The first index from `i` on whose value reaches `target`, if any. */
  function FirstFrom(xs: seq<real>, target: real, i: nat): (k: Option<nat>)
    ensures k.Some? ==> i <= k.value < |xs| && xs[k.value] >= target
                        && forall j :: i <= j < k.value ==> xs[j] < target
    ensures k.None? ==> forall j :: i <= j < |xs| ==> xs[j] < target
    decreases |xs| - i
  {
    if i >= |xs| then None
    else if xs[i] >= target then Some(i)
    else FirstFrom(xs, target, i + 1)
  }

  /** A balance left to grow at monthly rate `r` for `n` months. */
  function Future(x: real, r: real, n: nat): real
  {
    x * Pow(1.0 + r, n)
  }

  /** What each month's balance would grow to by the horizon month `months`. */
  function CoastValues(xs: seq<real>, r: real, months: nat): (c: seq<real>)
    requires |xs| <= months + 1
    ensures |c| == |xs|
    ensures forall j :: 0 <= j < |xs| ==> c[j] == Future(xs[j], r, months - j)
  {
    seq(|xs|, j requires 0 <= j < |xs| => Future(xs[j], r, months - j))
  }

  /** The months and milestones `simulate` returns besides its two arrays. */
  datatype Milestones = Milestones(months: int, fi: real, fiMonth: Option<nat>,
                                   halfFiMonth: Option<nat>, coastMonth: Option<nat>)

  /**
   * `simulate`: fill the balance and contribution arrays month by month over the horizon, then
   * find the first month at the FI target, the first at half of it, and the coast month.
   */
  method Simulate(s: Setup) returns (bal: array<real>, totalContrib: array<real>, out: Milestones)
    requires s.wrPct != 0.0
    ensures out.months == Months(s.maxYears)
    ensures bal.Length == out.months + 1 && totalContrib.Length == out.months + 1
    ensures forall m :: 0 <= m < bal.Length ==> bal[m] == Balance(s, m)
    ensures forall m :: 0 <= m < totalContrib.Length ==> totalContrib[m] == Contributed(s, m)
    ensures out.fi == FiTarget(s)
    ensures out.fiMonth == FirstFrom(bal[..], out.fi, 0)
    ensures out.halfFiMonth == FirstFrom(bal[..], out.fi / 2.0, 0)
    ensures out.coastMonth == FirstFrom(CoastValues(bal[..], s.r, out.months), out.fi, 0)
  {
    var months := Months(s.maxYears);
    bal, totalContrib := FillMonths(s, months);
    var fi := s.spend / (s.wrPct / 100.0);
    var halfFi := fi / 2.0;
    var fiMonth := Cross(bal, fi);
    var halfFiMonth := Cross(bal, halfFi);
    var coastMonth := CoastMonth(bal, months, s.r, fi);
    out := Milestones(months, fi, fiMonth, halfFiMonth, coastMonth);
  }

  /**
   * The month loop of `simulate`: month 0 holds the starting balance and no contributions; each
   * later month grows last month's balance by `r` and adds that month's contribution.
   */
  method FillMonths(s: Setup, months: nat) returns (bal: array<real>, totalContrib: array<real>)
    ensures fresh(bal) && fresh(totalContrib)
    ensures bal.Length == months + 1 && totalContrib.Length == months + 1
    ensures BalancesSoFar(s, bal[..]) && ContributedSoFar(s, totalContrib[..])
  {
    bal := new real[months + 1](_ => 0.0);
    totalContrib := new real[months + 1](_ => 0.0);
    bal[0] := s.startBal;
    var bumpMonth := IntMax(0, (s.bumpYear * 12.0).Floor);
    var m := 1;
    while m <= months
      invariant 1 <= m <= months + 1 && bal != totalContrib
      invariant BalancesSoFar(s, bal[..m]) && ContributedSoFar(s, totalContrib[..m])
    {
      var add := s.contribMonthly + (if m >= bumpMonth then s.contribBump else 0.0);
      var prev, prevContrib := bal[m - 1], totalContrib[m - 1];
      MonthStep(s, m, prev, prevContrib, add);
      ghost var balBefore, contribBefore := bal[..m], totalContrib[..m];
      totalContrib[m] := prevContrib + add;
      bal[m] := prev * (1.0 + s.r) + add;
      assert bal[..m + 1] == balBefore + [bal[m]];
      assert totalContrib[..m + 1] == contribBefore + [totalContrib[m]];
      NextMonth(s, balBefore, bal[m], contribBefore, totalContrib[m]);
      m := m + 1;
    }
    assert bal[..m] == bal[..] && totalContrib[..m] == totalContrib[..];
  }

  /** Every entry of `xs` is the balance of its month. */
  ghost predicate BalancesSoFar(s: Setup, xs: seq<real>)
  {
    forall k :: 0 <= k < |xs| ==> xs[k] == Balance(s, k)
  }

  /** Every entry of `xs` is the running contribution total of its month. */
  ghost predicate ContributedSoFar(s: Setup, xs: seq<real>)
  {
    forall k :: 0 <= k < |xs| ==> xs[k] == Contributed(s, k)
  }

  /** Appending the next month's values keeps both tables right. */
  lemma NextMonth(s: Setup, xs: seq<real>, x: real, cs: seq<real>, c: real)
    requires BalancesSoFar(s, xs) && x == Balance(s, |xs|)
    requires ContributedSoFar(s, cs) && c == Contributed(s, |cs|)
    ensures BalancesSoFar(s, xs + [x]) && ContributedSoFar(s, cs + [c])
  {
  }

  /** One month of the fill loop: the balance and the running contribution total both advance by the month's contribution. */
  lemma MonthStep(s: Setup, m: nat, prev: real, prevContrib: real, add: real)
    requires m >= 1 && prev == Balance(s, m - 1) && prevContrib == Contributed(s, m - 1)
    requires add == s.contribMonthly + (if m >= IntMax(0, (s.bumpYear * 12.0).Floor) then s.contribBump else 0.0)
    ensures prev * (1.0 + s.r) + add == Balance(s, m)
    ensures prevContrib + add == Contributed(s, m)
  {
    assert add == Add(s, m);
  }

  /** `cross(target)`: the first month whose balance reaches the target, or none. */
  method Cross(bal: array<real>, target: real) returns (month: Option<nat>)
    ensures month == FirstFrom(bal[..], target, 0)
  {
    var m := 0;
    while m < bal.Length
      invariant 0 <= m <= bal.Length
      invariant FirstFrom(bal[..], target, m) == FirstFrom(bal[..], target, 0)
    {
      if bal[m] >= target {
        return Some(m);
      }
      m := m + 1;
    }
    return None;
  }

  /**
   * The coast search: the first month whose balance, grown at `r` for the months left to the
   * horizon, reaches the target.
   */
  method CoastMonth(bal: array<real>, months: nat, r: real, fi: real) returns (coast: Option<nat>)
    requires bal.Length == months + 1
    ensures coast == FirstFrom(CoastValues(bal[..], r, months), fi, 0)
  {
    ghost var values := CoastValues(bal[..], r, months);
    coast := None;
    var m := 0;
    while m <= months
      invariant 0 <= m <= months + 1
      invariant FirstFrom(values, fi, m) == FirstFrom(values, fi, 0)
    {
      var remain := months - m;
      var future := Future(bal[m], r, remain);
      assert future == values[m];
      if future >= fi {
        coast := Some(m);
        break;
      }
      m := m + 1;
    }
  }

  /**
   * A lower bar is met no later: when every value that reaches `a` in `xs` also reaches `b` in
   * `ys`, and `xs` reaches `a`, then `ys` reaches `b` at the same index or earlier.
   */
  lemma ReachedNoLater(xs: seq<real>, a: real, ys: seq<real>, b: real)
    requires |xs| == |ys|
    requires forall j :: 0 <= j < |xs| && xs[j] >= a ==> ys[j] >= b
    requires FirstFrom(xs, a, 0).Some?
    ensures FirstFrom(ys, b, 0).Some? && FirstFrom(ys, b, 0).value <= FirstFrom(xs, a, 0).value
  {
    var k := FirstFrom(xs, a, 0).value;
    assert ys[k] >= b;
  }

  /** Half FI comes no later than FI: once the balance reaches a non-negative target it has reached half of it. */
  lemma HalfFiFirst(bal: seq<real>, fi: real)
    requires fi >= 0.0 && FirstFrom(bal, fi, 0).Some?
    ensures FirstFrom(bal, fi / 2.0, 0).Some? && FirstFrom(bal, fi / 2.0, 0).value <= FirstFrom(bal, fi, 0).value
  {
    ReachedNoLater(bal, fi, bal, fi / 2.0);
  }

  /**
   * Coast FI comes no later than FI when growth is not negative: a balance at the target stays
   * at or above it for the rest of the horizon.
   */
  lemma CoastFirst(bal: seq<real>, months: nat, r: real, fi: real)
    requires |bal| <= months + 1
    requires r >= 0.0 && fi >= 0.0 && FirstFrom(bal, fi, 0).Some?
    ensures FirstFrom(CoastValues(bal, r, months), fi, 0).Some?
    ensures FirstFrom(CoastValues(bal, r, months), fi, 0).value <= FirstFrom(bal, fi, 0).value
  {
    var c := CoastValues(bal, r, months);
    forall j | 0 <= j < |bal| && bal[j] >= fi
      ensures c[j] >= fi
    {
      GrowthNotBelow(bal[j], 1.0 + r, months - j);
    }
    ReachedNoLater(bal, fi, c, fi);
  }

  /** Without growth the balance is the starting balance plus everything contributed. */
  lemma {:induction false} NoGrowthBalance(s: Setup, m: nat)
    requires s.r == 0.0
    ensures Balance(s, m) == s.startBal + Contributed(s, m)
  {
    if m > 0 {
      NoGrowthBalance(s, m - 1);
    }
  }

  /** With non-negative growth and contributions the balance never falls from one month to the next. */
  lemma BalanceRises(s: Setup, m: nat)
    requires s.r >= 0.0 && s.contribMonthly >= 0.0 && s.contribBump >= 0.0
    requires Balance(s, m) >= 0.0
    ensures Balance(s, m + 1) >= Balance(s, m)
  {
    MulLeft(1.0, 1.0 + s.r, Balance(s, m));
  }

  /** The number of rows of the year table: the horizon's years, a part year counting as one. */
  function TableYears(months: int): (n: int)
    requires months >= 0
    ensures (n - 1) * 12 < months <= n * 12 || (months == 0 && n == 0)
  {
    (months + 11) / 12
  }

  /** The month a table row shows: the end of year `y`, or the horizon for the last part year. */
  function YearIndex(y: int, months: int): int
  {
    IntMin(y * 12, months)
  }

  /**
   * Every row of the year table reads inside the arrays: a full year reads its twelfth month,
   * strictly before the horizon, and the last row reads the horizon itself.
   */
  lemma YearIndexInRange(y: int, months: int)
    requires months >= 0 && 1 <= y <= TableYears(months)
    ensures 0 < YearIndex(y, months) <= months
    ensures y < TableYears(months) ==> YearIndex(y, months) == y * 12 < months
    ensures y == TableYears(months) ==> YearIndex(y, months) == months
  {
  }

  /** `run()`'s table: for each year of the horizon, the balance and contributions at that row's month. */
  method YearRows(bal: array<real>, totalContrib: array<real>, months: int)
      returns (balances: seq<real>, contributions: seq<real>)
    requires months >= 0 && bal.Length == months + 1 && totalContrib.Length == months + 1
    ensures |balances| == TableYears(months) && |contributions| == TableYears(months)
    ensures forall y :: 1 <= y <= TableYears(months) ==>
              balances[y - 1] == bal[YearIndex(y, months)] && contributions[y - 1] == totalContrib[YearIndex(y, months)]
  {
    balances, contributions := [], [];
    var y := 1;
    while y <= (months + 11) / 12
      invariant 1 <= y <= TableYears(months) + 1
      invariant |balances| == y - 1 && |contributions| == y - 1
      invariant forall k :: 1 <= k < y ==>
                  balances[k - 1] == bal[YearIndex(k, months)] && contributions[k - 1] == totalContrib[YearIndex(k, months)]
    {
      var idx := IntMin(y * 12, months);
      balances := balances + [bal[idx]];
      contributions := contributions + [totalContrib[idx]];
      y := y + 1;
    }
  }
  /** The same plan with `extra` more contributed every month (the "+$200/month" comparison). */
  function WithExtra(s: Setup, extra: real): (t: Setup)
    ensures t.contribMonthly == s.contribMonthly + extra
    ensures t.(contribMonthly := s.contribMonthly) == s
  {
    s.(contribMonthly := s.contribMonthly + extra)
  }

  /** Contributing more each month never leaves a lower balance, as long as growth is above -100%. */
  lemma {:induction false} ExtraNotBelow(s: Setup, extra: real, m: nat)
    requires extra >= 0.0 && 1.0 + s.r >= 0.0
    ensures Balance(WithExtra(s, extra), m) >= Balance(s, m)
  {
    if m > 0 {
      var t := WithExtra(s, extra);
      ExtraNotBelow(s, extra, m - 1);
      GrowNotBelow(Balance(s, m - 1), Balance(t, m - 1), s.r);
      assert Add(t, m) == Add(s, m) + extra;
    }
  }

  /** Growth at a rate above -100% keeps the order of two balances. */
  lemma GrowNotBelow(a: real, b: real, r: real)
    requires a <= b && 1.0 + r >= 0.0
    ensures Grow(a, r) <= Grow(b, r)
  {
    MulRight(a, b, 1.0 + r);
  }

  /**
   * The comparison run reaches any target no later than the base run: when the base balances
   * reach `target`, the balances with `extra` more a month reach it at the same month or earlier.
   */
  lemma ExtraReachesNoLater(s: Setup, extra: real, base: seq<real>, comp: seq<real>, target: real)
    requires extra >= 0.0 && 1.0 + s.r >= 0.0
    requires |base| == |comp| && BalancesSoFar(s, base) && BalancesSoFar(WithExtra(s, extra), comp)
    requires FirstFrom(base, target, 0).Some?
    ensures FirstFrom(comp, target, 0).Some? && FirstFrom(comp, target, 0).value <= FirstFrom(base, target, 0).value
  {
    forall j | 0 <= j < |base| && base[j] >= target
      ensures comp[j] >= target
    {
      ExtraNotBelow(s, extra, j);
    }
    ReachedNoLater(base, target, comp, target);
  }

  /**
   * The insight line: shown only when both runs reach FI and the comparison run does so
   * strictly earlier, giving the years gained.
   */
  function Insight(baseFiMonth: Option<nat>, compFiMonth: Option<nat>): (years: Option<real>)
    ensures years.Some? <==> baseFiMonth.Some? && compFiMonth.Some? && compFiMonth.value < baseFiMonth.value
    ensures years.Some? ==> years.value > 0.0
                            && years.value * 12.0 == (baseFiMonth.value - compFiMonth.value) as real
  {
    if baseFiMonth.Some? && compFiMonth.Some? && baseFiMonth.value - compFiMonth.value > 0
    then Some((baseFiMonth.value - compFiMonth.value) as real / 12.0)
    else None
  }

  /** With non-negative extra contributions the insight line, when both runs reach FI, is never negative news. */
  lemma InsightWhenBothReach(s: Setup, extra: real, base: seq<real>, comp: seq<real>, target: real)
    requires extra >= 0.0 && 1.0 + s.r >= 0.0
    requires |base| == |comp| && BalancesSoFar(s, base) && BalancesSoFar(WithExtra(s, extra), comp)
    requires FirstFrom(base, target, 0).Some?
    ensures Insight(FirstFrom(base, target, 0), FirstFrom(comp, target, 0)).None?
            <==> FirstFrom(comp, target, 0) == FirstFrom(base, target, 0)
  {
    ExtraReachesNoLater(s, extra, base, comp, target);
  }

  /**
   * The age note as written: the age field is read as `+value || null`, which is a non-zero
   * number or null and never NaN, so the NaN guard always passes and a missing age (null)
   * counts as zero: the note then shows the years to FI as if they were an age.
   */
  function AgeNoteAsWritten(currentAge: Option<real>, fiMonth: Option<nat>): (note: Option<real>)
    ensures note.Some? <==> fiMonth.Some?
  {
    if fiMonth.None? then None
    else Some((if currentAge.Some? then currentAge.value else 0.0) + fiMonth.value as real / 12.0)
  }

  /** The discrepancy: with no age given and FI at month 120, the note reads "Age at FI ≈ 10.0". */
  lemma AgeNoteWithoutAge()
    ensures AgeNoteAsWritten(None, Some(120)) == Some(10.0)
  {
  }

  /** The age note as intended: only when an age is given, that age plus the years to FI. */
  function AgeNote(currentAge: Option<real>, fiMonth: Option<nat>): (note: Option<real>)
    ensures note.Some? <==> currentAge.Some? && fiMonth.Some?
    ensures note.Some? ==> (note.value - currentAge.value) * 12.0 == fiMonth.value as real
  {
    if currentAge.Some? && fiMonth.Some? then Some(currentAge.value + fiMonth.value as real / 12.0) else None
  }

  /** Where an age is given, the intended note and the one written agree. */
  lemma AgeNoteAgrees(currentAge: Option<real>, fiMonth: Option<nat>)
    requires currentAge.Some?
    ensures AgeNote(currentAge, fiMonth) == AgeNoteAsWritten(currentAge, fiMonth)
  {
  }
}

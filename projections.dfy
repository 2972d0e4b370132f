/**
 * The FI projections calculator: a list of life events (one-time costs and recurring changes
 * in spending over a window of ages), a year-by-year balance simulation from the current age
 * to the plan's end, the first age at which the portfolio covers retirement spending, and the
 * CSV export of the year rows.
 */
module Projections {
  import opened Wrappers
  import opened Numeric
  import opened Seqs
  import Text
  import Csv

  /** A life event: from `age` on, `recurring` more spending a year for `years` years, and `onetime` at `age`. */
  datatype Event = Event(id: string, caption: string, age: int, onetime: real, recurring: real, years: int)

  /** The values a preset offers; an empty caption and zero figures count as not given. */
  datatype Preset = Preset(caption: string, age: int, onetime: real, recurring: real, years: int)

  /**
   * The event `addEvent` creates: each preset value that is given is kept, and the rest
   * default to the caption "Custom", two years past the current age and zero amounts.
   */
  function NewEvent(preset: Option<Preset>, id: string, curAge: int): (e: Event)
    ensures e.id == id && e.caption != []
    ensures preset.None? ==> e == Event(id, "Custom", curAge + 2, 0.0, 0.0, 0)
    ensures preset.Some? ==>
      e.caption == (if preset.value.caption != [] then preset.value.caption else "Custom")
    ensures preset.Some? && preset.value.age != 0 ==> e.age == preset.value.age
    ensures preset.Some? && preset.value.age == 0 ==> e.age == curAge + 2
    ensures preset.Some? ==> e.onetime == preset.value.onetime && e.recurring == preset.value.recurring
    ensures preset.Some? ==> e.years == preset.value.years
  {
    match preset
    case None => Event(id, "Custom", curAge + 2, 0.0, 0.0, 0)
    case Some(p) =>
      Event(id, if p.caption != [] then p.caption else "Custom",
            if p.age != 0 then p.age else curAge + 2, p.onetime, p.recurring, p.years)
  }

  /** A child: 12,000 more spending a year for 18 years, from two years past the current age. */
  function ChildPreset(curAge: int): Preset
  {
    Preset("Child", curAge + 2, 0.0, 12000.0, 18)
  }

  /** A car bought for 30,000 in cash three years past the current age. */
  function CarPreset(curAge: int): Preset
  {
    Preset("Car", curAge + 3, 30000.0, 0.0, 0)
  }

  /** A home: 80,000 down and 18,000 more housing cost a year for 30 years, from next year. */
  function HomePreset(curAge: int): Preset
  {
    Preset("Home (mortgage \U{2013} rent)", curAge + 1, 80000.0, 18000.0, 30)
  }

  /** The recurring change an event makes at `age`: its amount inside its window, else nothing. */
  function EventDelta(e: Event, age: int): real
  {
    if e.years > 0 && e.age <= age < e.age + e.years then e.recurring else 0.0
  }

  /** The one-time cost an event makes at `age`: its amount at exactly its own age. */
  function EventHit(e: Event, age: int): real
  {
    if e.age == age then e.onetime else 0.0
  }

  /** The one-time costs of all events at `age`. */
  function OneTimeHit(events: seq<Event>, age: int): real
  {
    if events == [] then 0.0
    else OneTimeHit(events[..|events| - 1], age) + EventHit(events[|events| - 1], age)
  }

  /** The recurring changes of all events at `age`. */
  function RecurringDelta(events: seq<Event>, age: int): real
  {
    if events == [] then 0.0
    else RecurringDelta(events[..|events| - 1], age) + EventDelta(events[|events| - 1], age)
  }

  /** A child preset adds 12,000 a year exactly from two years past the current age for 18 years. */
  lemma ChildWindow(curAge: int, id: string, age: int)
    ensures EventDelta(NewEvent(Some(ChildPreset(curAge)), id, curAge), age)
         == (if curAge + 2 <= age < curAge + 20 then 12000.0 else 0.0)
    ensures EventHit(NewEvent(Some(ChildPreset(curAge)), id, curAge), age) == 0.0
  {
  }

  /** A car preset costs 30,000 once, three years past the current age, and nothing a year. */
  lemma CarOnce(curAge: int, id: string, age: int)
    requires curAge + 3 != 0
    ensures EventHit(NewEvent(Some(CarPreset(curAge)), id, curAge), age)
         == (if age == curAge + 3 then 30000.0 else 0.0)
    ensures EventDelta(NewEvent(Some(CarPreset(curAge)), id, curAge), age) == 0.0
  {
  }

  function KeepsOthers(id: string): Event -> bool
  {
    (e: Event) => e.id != id
  }

  function HasId(id: string): Event -> bool
  {
    (e: Event) => e.id == id
  }

  lemma {:induction false} DeltaAppend(a: seq<Event>, b: seq<Event>, age: int)
    ensures RecurringDelta(a + b, age) == RecurringDelta(a, age) + RecurringDelta(b, age)
    ensures OneTimeHit(a + b, age) == OneTimeHit(a, age) + OneTimeHit(b, age)
    decreases |b|
  {
    if b == [] {
      assert a + b == a;
    } else {
      var c := b[..|b| - 1];
      assert (a + b)[..|a + b| - 1] == a + c;
      assert (a + b)[|a + b| - 1] == b[|b| - 1];
      DeltaAppend(a, c, age);
    }
  }

  lemma SingleTotals(x: Event, age: int)
    ensures RecurringDelta([x], age) == EventDelta(x, age) && OneTimeHit([x], age) == EventHit(x, age)
    ensures RecurringDelta([], age) == 0.0 && OneTimeHit([], age) == 0.0
  {
    assert [x][..0] == [];
  }

  /** Splitting a list by a condition and its negation splits each year's recurring total. */
  lemma {:induction false} DeltaSplits(events: seq<Event>, keep: Event -> bool, drop: Event -> bool, age: int)
    requires forall e :: drop(e) == !keep(e)
    ensures RecurringDelta(events, age)
         == RecurringDelta(Filter(events, keep), age) + RecurringDelta(Filter(events, drop), age)
    decreases |events|
  {
    if events != [] {
      var x, rest := events[0], events[1..];
      assert events == [x] + rest;
      DeltaSplits(rest, keep, drop, age);
      var k := if keep(x) then [x] else [];
      var d := if drop(x) then [x] else [];
      assert Filter(events, keep) == k + Filter(rest, keep);
      assert Filter(events, drop) == d + Filter(rest, drop);
      DeltaAppend([x], rest, age);
      DeltaAppend(k, Filter(rest, keep), age);
      DeltaAppend(d, Filter(rest, drop), age);
      SingleTotals(x, age);
    }
  }

  /** Splitting a list by a condition and its negation splits each year's one-time total. */
  lemma {:induction false} HitSplits(events: seq<Event>, keep: Event -> bool, drop: Event -> bool, age: int)
    requires forall e :: drop(e) == !keep(e)
    ensures OneTimeHit(events, age)
         == OneTimeHit(Filter(events, keep), age) + OneTimeHit(Filter(events, drop), age)
    decreases |events|
  {
    if events != [] {
      var x, rest := events[0], events[1..];
      assert events == [x] + rest;
      HitSplits(rest, keep, drop, age);
      var k := if keep(x) then [x] else [];
      var d := if drop(x) then [x] else [];
      assert Filter(events, keep) == k + Filter(rest, keep);
      assert Filter(events, drop) == d + Filter(rest, drop);
      DeltaAppend([x], rest, age);
      DeltaAppend(k, Filter(rest, keep), age);
      DeltaAppend(d, Filter(rest, drop), age);
      SingleTotals(x, age);
    }
  }

  /**
   * Removing the events with an id takes away exactly their amounts: each year's totals over
   * the whole list are those over the kept events plus those over the removed ones.
   */
  lemma RemoveSplitsTotals(events: seq<Event>, id: string, age: int)
    ensures RecurringDelta(events, age)
         == RecurringDelta(Filter(events, KeepsOthers(id)), age) + RecurringDelta(Filter(events, HasId(id)), age)
    ensures OneTimeHit(events, age)
         == OneTimeHit(Filter(events, KeepsOthers(id)), age) + OneTimeHit(Filter(events, HasId(id)), age)
  {
    DeltaSplits(events, KeepsOthers(id), HasId(id), age);
    HitSplits(events, KeepsOthers(id), HasId(id), age);
  }

  /** The plan: ages, balance, yearly contribution, retirement spending, passive income and rates in percent. */
  datatype Plan = Plan(cur: int, retireAge: int, endAge: int, balance: real, contrib: real,
                       spendRet: real, passive: real, rPrePct: real, rPostPct: real, swrPct: real)

  /** One year of the projection: the age, the balance at its end, the net flow and a note. */
  datatype Row = Row(age: int, bal: real, net: real, note: Note)

  datatype Result = Result(rows: seq<Row>, fiAge: Option<int>)

  /**
   * The notes a row can carry: none, contributions wiped out by event costs, a one-time
   * event, or both.
   */
  datatype Note = Plain | HighCosts | OneTime | HighCostsAndOneTime

  const HighCostsText := "High event costs; contributions fully offset"
  const OneTimeText := "One-time event"

  /** The text of a note; the second note is appended to the first after a middle dot. */
  function NoteText(n: Note): string
  {
    match n
    case Plain => ""
    case HighCosts => HighCostsText
    case OneTime => OneTimeText
    case HighCostsAndOneTime => HighCostsText + " \U{B7} " + OneTimeText
  }

  lemma HighCostsOneLine(t: string)
    requires t == HighCostsText
    ensures '\n' !in t
  {
  }

  lemma OneTimeOneLine(t: string)
    requires t == OneTimeText
    ensures '\n' !in t
  {
  }

  /** No note runs over a line. */
  lemma NoteOneLine(n: Note)
    ensures '\n' !in NoteText(n)
  {
    HighCostsOneLine(HighCostsText);
    OneTimeOneLine(OneTimeText);
    var dot := " \U{B7} ";
    assert '\n' !in dot;
  }

  /** The money in and out in one year, and the row's note. */
  datatype Flow = Flow(inflow: real, outflow: real, note: Note)

  /**
   * Before retirement the contribution, less any positive recurring change, flows in; in
   * retirement spending plus the recurring change, less passive income, flows out; a positive
   * one-time cost flows out in either phase.
   */
  function YearFlow(p: Plan, age: int, hit: real, delta: real): (f: Flow)
    ensures f.inflow >= 0.0 && f.outflow >= 0.0
    ensures age >= p.retireAge ==> f.inflow == 0.0
    ensures age < p.retireAge && p.contrib >= 0.0 ==> f.inflow <= p.contrib
    ensures age < p.retireAge ==> f.outflow == Max(0.0, hit)
    ensures age >= p.retireAge ==> f.outflow == Max(0.0, p.spendRet + delta - p.passive) + Max(0.0, hit)
  {
    var retired := age >= p.retireAge;
    var netContrib := Max(0.0, p.contrib - Max(0.0, delta));
    var inflow := if retired then 0.0 else netContrib;
    var outflow := if retired then Max(0.0, p.spendRet + delta - p.passive) else 0.0;
    var note := if !retired && delta > 0.0 && netContrib == 0.0 then HighCosts else Plain;
    if hit > 0.0 then
      Flow(inflow, outflow + hit, if note == HighCosts then HighCostsAndOneTime else OneTime)
    else
      Flow(inflow, outflow, note)
  }

  /** The growth rate of a year: the post-retirement rate from the retirement age on. */
  function Rate(p: Plan, age: int): real
  {
    if age >= p.retireAge then p.rPostPct / 100.0 else p.rPrePct / 100.0
  }

  /** `x` grown for one year at the rate of `age`. */
  function Grown(x: real, p: Plan, age: int): real
  {
    x * (1.0 + Rate(p, age))
  }

  /** The balance that covers retirement spending less passive income at the withdrawal rate. */
  function Required(p: Plan): real
  {
    Max(0.0, p.spendRet - p.passive) / Max(0.0001, p.swrPct / 100.0)
  }

  /** The simulation's state after some years: the balance, the rows so far, the FI age if reached. */
  datatype State = State(bal: real, rows: seq<Row>, fiAge: Option<int>)

  /**
   * One year at `age`: total the events' costs, work out the flows, grow the balance, record
   * the row, and take the age as the FI age when none is set yet and the balance reaches the
   * required balance.
   */
  function Step(p: Plan, events: seq<Event>, req: real, s: State, age: int): (t: State)
    ensures |t.rows| == |s.rows| + 1 && t.rows[..|s.rows|] == s.rows
    ensures t.rows[|s.rows|].age == age && t.rows[|s.rows|].bal == t.bal
    ensures t.bal == Grown(s.bal + t.rows[|s.rows|].net, p, age)
    ensures s.fiAge.Some? ==> t.fiAge == s.fiAge
    ensures s.fiAge.None? ==> (t.fiAge == Some(age) <==> t.bal >= req)
    ensures s.fiAge.None? && t.fiAge != Some(age) ==> t.fiAge.None?
  {
    var f := YearFlow(p, age, OneTimeHit(events, age), RecurringDelta(events, age));
    var bal := Grown(s.bal + (f.inflow - f.outflow), p, age);
    State(bal, s.rows + [Row(age, bal, f.inflow - f.outflow, f.note)],
          if s.fiAge.None? && bal >= req then Some(age) else s.fiAge)
  }

  /** The state after the first `n` years, from the current age on. */
  function Simulate(p: Plan, events: seq<Event>, req: real, n: nat): (s: State)
    ensures |s.rows| == n
    ensures forall j :: 0 <= j < n ==> s.rows[j].age == p.cur + j
    ensures n > 0 ==> s.bal == s.rows[n - 1].bal
    ensures n == 0 ==> s.bal == p.balance
  {
    if n == 0 then State(p.balance, [], None)
    else
      var s := Simulate(p, events, req, n - 1);
      var t := Step(p, events, req, s, p.cur + n - 1);
      assert forall j :: 0 <= j < n - 1 ==> t.rows[j] == t.rows[..n - 1][j];
      t
  }

  /** The number of years from the current age to the plan's end, both included. */
  function YearCount(p: Plan): nat
  {
    if p.endAge < p.cur then 0 else p.endAge - p.cur + 1
  }

  /** What `run()` returns: one row per age from the current age to the plan's end. */
  function Projection(p: Plan, events: seq<Event>): (r: Result)
    ensures |r.rows| == YearCount(p)
    ensures forall j :: 0 <= j < |r.rows| ==> r.rows[j].age == p.cur + j
    ensures p.endAge < p.cur ==> r.rows == []
  {
    var s := Simulate(p, events, Required(p), YearCount(p));
    Result(s.rows, s.fiAge)
  }

  /** Later years only add rows: the first `n` rows never change. */
  lemma {:induction false} RowsExtend(p: Plan, events: seq<Event>, req: real, n: nat, m: nat)
    requires n <= m
    ensures Simulate(p, events, req, m).rows[..n] == Simulate(p, events, req, n).rows
    ensures Simulate(p, events, req, n).fiAge.Some? ==> Simulate(p, events, req, m).fiAge == Simulate(p, events, req, n).fiAge
    decreases m - n
  {
    if n < m {
      RowsExtend(p, events, req, n, m - 1);
      var before := Simulate(p, events, req, m - 1).rows;
      assert Simulate(p, events, req, m).rows[..m - 1] == before;
      assert Simulate(p, events, req, m).rows[..n] == before[..n];
    } else {
      assert Simulate(p, events, req, m).rows[..n] == Simulate(p, events, req, m).rows;
    }
  }

  /**
   * Each row's balance is the previous balance (the starting balance for the first row) plus
   * the row's net flow, grown at the year's rate.
   */
  lemma BalanceRecurrence(p: Plan, events: seq<Event>, req: real, n: nat, j: nat)
    requires j < n
    ensures var rows := Simulate(p, events, req, n).rows;
            rows[j].bal == Grown((if j == 0 then p.balance else rows[j - 1].bal) + rows[j].net, p, p.cur + j)
  {
    var before := Simulate(p, events, req, j);
    var after := Simulate(p, events, req, j + 1);
    LastRowBalance(p, events, req, j);
    RowsExtend(p, events, req, j + 1, n);
    var rows := Simulate(p, events, req, n).rows;
    assert rows[j] == after.rows[j] by {
      assert rows[..j + 1][j] == rows[j];
    }
    if j > 0 {
      RowsExtend(p, events, req, j, n);
      assert rows[j - 1] == before.rows[j - 1] by {
        assert rows[..j][j - 1] == rows[j - 1];
      }
    }
    var prev := if j == 0 then p.balance else rows[j - 1].bal;
    assert prev == before.bal;
  }

  lemma LastRowBalance(p: Plan, events: seq<Event>, req: real, j: nat)
    ensures Simulate(p, events, req, j + 1).rows[j].bal
         == Grown(Simulate(p, events, req, j).bal + Simulate(p, events, req, j + 1).rows[j].net, p, p.cur + j)
  {
    var s := Simulate(p, events, req, j);
    SimulateUnfold(p, events, req, j);
    StepBalance(p, events, req, s, p.cur + j);
  }

  lemma SimulateUnfold(p: Plan, events: seq<Event>, req: real, j: nat)
    ensures Simulate(p, events, req, j + 1) == Step(p, events, req, Simulate(p, events, req, j), p.cur + j)
  {
  }

  lemma StepBalance(p: Plan, events: seq<Event>, req: real, s: State, age: int)
    ensures Step(p, events, req, s, age).rows[|s.rows|].bal == Grown(s.bal + Step(p, events, req, s, age).rows[|s.rows|].net, p, age)
  {
  }

  /** The earlier rows of a longer simulation are those of the shorter one. */
  lemma RowsKept(p: Plan, events: seq<Event>, req: real, n: nat)
    requires n > 0
    ensures forall j :: 0 <= j < n - 1 ==> Simulate(p, events, req, n).rows[j] == Simulate(p, events, req, n - 1).rows[j]
  {
    var prev := Simulate(p, events, req, n - 1);
    var s := Simulate(p, events, req, n);
    assert s.rows[..n - 1] == prev.rows;
    forall j | 0 <= j < n - 1
      ensures s.rows[j] == prev.rows[j]
    {
      assert s.rows[j] == s.rows[..n - 1][j];
    }
  }

  /** Without an FI age, no row's balance reaches the required balance. */
  lemma {:induction false} NoFiAge(p: Plan, events: seq<Event>, req: real, n: nat)
    ensures var s := Simulate(p, events, req, n);
            s.fiAge.None? ==> forall j :: 0 <= j < n ==> s.rows[j].bal < req
  {
    if n > 0 {
      NoFiAge(p, events, req, n - 1);
      RowsKept(p, events, req, n);
    }
  }

  /** The FI age of `s`, if any, is the first row reaching `req`, counting ages from `start`. */
  ghost predicate FirstReach(s: State, start: int, req: real)
  {
    s.fiAge.Some? ==>
      start <= s.fiAge.value < start + |s.rows|
      && s.rows[s.fiAge.value - start].bal >= req
      && forall j :: 0 <= j < s.fiAge.value - start ==> s.rows[j].bal < req
  }

  /**
   * The FI age is the first age whose end-of-year balance reaches the required balance: it
   * lies within the simulated years, its row reaches that balance and no earlier row does.
   */
  lemma {:induction false} FirstFiAge(p: Plan, events: seq<Event>, req: real, n: nat)
    ensures FirstReach(Simulate(p, events, req, n), p.cur, req)
  {
    if n > 0 {
      FirstFiAge(p, events, req, n - 1);
      NoFiAge(p, events, req, n - 1);
      RowsKept(p, events, req, n);
      FiStep(p, events, req, n);
      FirstStaysFirst(Simulate(p, events, req, n - 1), Simulate(p, events, req, n), p.cur, req);
    }
  }

  /** A year that keeps the earlier rows and sets the FI age only on first reaching `req` keeps it the first. */
  lemma FirstStaysFirst(prev: State, s: State, start: int, req: real)
    requires |prev.rows| + 1 == |s.rows|
    requires forall j :: 0 <= j < |prev.rows| ==> s.rows[j] == prev.rows[j]
    requires FirstReach(prev, start, req)
    requires prev.fiAge.None? ==> forall j :: 0 <= j < |prev.rows| ==> prev.rows[j].bal < req
    requires prev.fiAge.Some? ==> s.fiAge == prev.fiAge
    requires prev.fiAge.None? ==> (s.fiAge.Some? <==> s.rows[|prev.rows|].bal >= req)
    requires prev.fiAge.None? && s.fiAge.Some? ==> s.fiAge.value == start + |prev.rows|
    ensures FirstReach(s, start, req)
  {
  }

  /** One more year keeps an FI age once set, and sets it to that year when its balance first reaches the required one. */
  lemma FiStep(p: Plan, events: seq<Event>, req: real, n: nat)
    requires n > 0
    ensures var prev, s := Simulate(p, events, req, n - 1), Simulate(p, events, req, n);
            (prev.fiAge.Some? ==> s.fiAge == prev.fiAge)
            && (prev.fiAge.None? ==> (s.fiAge.Some? <==> s.rows[n - 1].bal >= req))
            && (prev.fiAge.None? && s.fiAge.Some? ==> s.fiAge.value == p.cur + n - 1)
  {
    SimulateUnfold(p, events, req, n - 1);
  }

  /** The text of a CSV cell: commas in notes become semicolons. */
  function CsvRow(r: Row, ageText: int -> string, numberText: real -> string): seq<string>
  {
    [ageText(r.age), numberText(r.bal), numberText(r.net), Text.ReplaceChar(NoteText(r.note), ',', ';')]
  }

  const Header: seq<string> := ["Age", "Balance_real_$", "Net_Flow_$", "Notes"]

  /** The cells of each row, in order. */
  function RowCells(rows: seq<Row>, ageText: int -> string, numberText: real -> string): (t: seq<seq<string>>)
    ensures |t| == |rows|
    ensures forall j :: 0 <= j < |rows| ==> t[j] == CsvRow(rows[j], ageText, numberText)
  {
    if rows == [] then [] else [CsvRow(rows[0], ageText, numberText)] + RowCells(rows[1..], ageText, numberText)
  }

  /** The export's table: the header, then one line of cells per row. */
  function Table(header: seq<string>, rows: seq<Row>, ageText: int -> string, numberText: real -> string): (t: seq<seq<string>>)
    ensures |t| == |rows| + 1 && t[0] == header
    ensures t[1..] == RowCells(rows, ageText, numberText)
  {
    [header] + RowCells(rows, ageText, numberText)
  }

  /** `toCSV(rows)`: the header line, then one line per row, joined by line breaks. */
  function ToCsv(rows: seq<Row>, ageText: int -> string, numberText: real -> string): string
  {
    Csv.Join(Csv.Lines(Table(Header, rows, ageText, numberText), ','), '\n')
  }

  /** Replacing commas leaves none, and adds no line break. */
  lemma CellClean(text: string)
    requires '\n' !in text
    ensures ',' !in Text.ReplaceChar(text, ',', ';') && '\n' !in Text.ReplaceChar(text, ',', ';')
  {
    var cell := Text.ReplaceChar(text, ',', ';');
    assert forall i :: 0 <= i < |cell| ==> cell[i] != ',' && cell[i] != '\n';
  }

  /** No header cell holds a comma or a line break. */
  lemma HeaderClean(h: seq<string>)
    requires h == Header
    ensures forall k :: 0 <= k < |h| ==> ',' !in h[k] && '\n' !in h[k]
  {
    assert ',' !in h[0] && '\n' !in h[0];
    assert ',' !in h[1] && '\n' !in h[1];
    assert ',' !in h[2] && '\n' !in h[2];
    assert ',' !in h[3] && '\n' !in h[3];
  }

  /** When ages and numbers print without commas or line breaks, no cell of the table holds one. */
  lemma TableClean(rows: seq<Row>, ageText: int -> string, numberText: real -> string)
    requires forall j :: 0 <= j < |rows| ==> ',' !in ageText(rows[j].age) && '\n' !in ageText(rows[j].age)
    requires forall j :: 0 <= j < |rows| ==> ',' !in numberText(rows[j].bal) && '\n' !in numberText(rows[j].bal)
    requires forall j :: 0 <= j < |rows| ==> ',' !in numberText(rows[j].net) && '\n' !in numberText(rows[j].net)
    ensures var t := Table(Header, rows, ageText, numberText);
            forall r, k :: 0 <= r < |t| && 0 <= k < |t[r]| ==> ',' !in t[r][k] && '\n' !in t[r][k]
  {
    var t := Table(Header, rows, ageText, numberText);
    forall r, k | 0 <= r < |t| && 0 <= k < |t[r]|
      ensures ',' !in t[r][k] && '\n' !in t[r][k]
    {
      if r == 0 {
        HeaderClean(t[0]);
      } else {
        NoteOneLine(rows[r - 1].note);
        CellClean(NoteText(rows[r - 1].note));
      }
    }
  }

  /** The header joins into the export's first line. */
  lemma HeaderLine(h: seq<string>)
    requires h == Header
    ensures Csv.Join(h, ',') == "Age,Balance_real_$,Net_Flow_$,Notes"
  {
    var last := Csv.Join(h[3..], ',');
    assert h[3..] == ["Notes"];
    assert Csv.Join(h[2..], ',') == "Net_Flow_$" + [','] + last by {
      assert h[2..][1..] == h[3..];
    }
    assert Csv.Join(h[1..], ',') == "Balance_real_$" + [','] + Csv.Join(h[2..], ',') by {
      assert h[1..][1..] == h[2..];
    }
  }

  /**
   * The CSV reads back: when ages and numbers print without commas or line breaks and notes
   * hold no line break, it splits into the header and one line per row, and each row's line
   * splits into its age, balance, net flow and note, with the note's commas as semicolons.
   */
  lemma CsvReadsBack(rows: seq<Row>, ageText: int -> string, numberText: real -> string)
    requires forall j :: 0 <= j < |rows| ==> ',' !in ageText(rows[j].age) && '\n' !in ageText(rows[j].age)
    requires forall j :: 0 <= j < |rows| ==> ',' !in numberText(rows[j].bal) && '\n' !in numberText(rows[j].bal)
    requires forall j :: 0 <= j < |rows| ==> ',' !in numberText(rows[j].net) && '\n' !in numberText(rows[j].net)
    ensures |Csv.Split(ToCsv(rows, ageText, numberText), '\n')| == |rows| + 1
    ensures Csv.Split(ToCsv(rows, ageText, numberText), '\n')[0] == "Age,Balance_real_$,Net_Flow_$,Notes"
    ensures forall j :: 0 <= j < |rows| ==>
              Csv.Split(Csv.Split(ToCsv(rows, ageText, numberText), '\n')[j + 1], ',')
              == [ageText(rows[j].age), numberText(rows[j].bal), numberText(rows[j].net),
                  Text.ReplaceChar(NoteText(rows[j].note), ',', ';')]
  {
    var table := Table(Header, rows, ageText, numberText);
    TableClean(rows, ageText, numberText);
    Csv.TableReadsBack(table, ',', '\n');
    HeaderLine(Header);
  }

  /** The totals over one more event of the list add that event's amounts. */
  lemma TotalsStep(events: seq<Event>, k: nat, age: int)
    requires k < |events|
    ensures OneTimeHit(events[..k + 1], age) == OneTimeHit(events[..k], age) + EventHit(events[k], age)
    ensures RecurringDelta(events[..k + 1], age) == RecurringDelta(events[..k], age) + EventDelta(events[k], age)
  {
    assert events[..k + 1][..k] == events[..k];
  }

  /** One year of the simulation, spelled out: the year's flow grows the balance, adds a row and may set the FI age. */
  lemma StepIs(p: Plan, events: seq<Event>, req: real, s: State, age: int, f: Flow, grown: real)
    requires f == YearFlow(p, age, OneTimeHit(events, age), RecurringDelta(events, age))
    requires grown == Grown(s.bal + (f.inflow - f.outflow), p, age)
    ensures Step(p, events, req, s, age)
         == State(grown, s.rows + [Row(age, grown, f.inflow - f.outflow, f.note)],
                  if s.fiAge.None? && grown >= req then Some(age) else s.fiAge)
  {
  }

  /** The year after the first `n`: the simulation's next state is the year's step from the last one. */
  lemma YearStep(p: Plan, events: seq<Event>, req: real, n: nat, s: State, age: int, f: Flow, grown: real)
    requires Simulate(p, events, req, n) == s && age == p.cur + n
    requires f == YearFlow(p, age, OneTimeHit(events, age), RecurringDelta(events, age))
    requires grown == Grown(s.bal + (f.inflow - f.outflow), p, age)
    ensures Simulate(p, events, req, n + 1)
         == State(grown, s.rows + [Row(age, grown, f.inflow - f.outflow, f.note)],
                  if s.fiAge.None? && grown >= req then Some(age) else s.fiAge)
  {
    SimulateUnfold(p, events, req, n);
    StepIs(p, events, req, s, age, f, grown);
  }

  /** The loop's growth of the balance is the simulation's. */
  lemma GrowthOfYear(bal: real, inflow: real, outflow: real, p: Plan, age: int, r: real)
    requires r == Rate(p, age)
    ensures (bal + inflow - outflow) * (1.0 + r) == Grown(bal + (inflow - outflow), p, age)
  {
    Regroup(bal, inflow, outflow, 1.0 + r);
  }

  lemma Regroup(x: real, inflow: real, outflow: real, factor: real)
    ensures (x + inflow - outflow) * factor == (x + (inflow - outflow)) * factor
  {
  }

  /**
   * The flows of the year at `age`, given the events' one-time costs `hit` and recurring
   * changes `delta`: the contribution less the changes flows in before retirement, spending
   * flows out after it, and the one-time costs flow out in either phase.
   */
  method YearFlows(p: Plan, age: int, hit: real, delta: real) returns (inflow: real, outflow: real, note: Note)
    ensures Flow(inflow, outflow, note) == YearFlow(p, age, hit, delta)
  {
    var retired := age >= p.retireAge;
    inflow, outflow, note := 0.0, 0.0, Plain;
    if !retired {
      var netContrib := Max(0.0, p.contrib - Max(0.0, delta));
      inflow := inflow + netContrib;
      if delta > 0.0 && netContrib == 0.0 {
        note := HighCosts;
      }
    } else {
      var need := Max(0.0, (p.spendRet + delta) - p.passive);
      outflow := outflow + need;
    }
    if hit > 0.0 {
      outflow := outflow + hit;
      note := if note == HighCosts then HighCostsAndOneTime else OneTime;
    }
  }

  /** The page's list of life events. */
  class EventList {
    var events: seq<Event>

    /** Page start: the child and car presets, with the ids drawn for them. */
    constructor (curAge: int, childId: string, carId: string)
      ensures events == [NewEvent(Some(ChildPreset(curAge)), childId, curAge),
                         NewEvent(Some(CarPreset(curAge)), carId, curAge)]
    {
      events := [NewEvent(Some(ChildPreset(curAge)), childId, curAge),
                 NewEvent(Some(CarPreset(curAge)), carId, curAge)];
    }

    /** `addEvent(preset)`: one new event at the end of the list. */
    method Add(preset: Option<Preset>, id: string, curAge: int)
      modifies this
      ensures events == old(events) + [NewEvent(preset, id, curAge)]
    {
      events := events + [NewEvent(preset, id, curAge)];
    }

    /** The remove button: every event with the id leaves, the others keep their order. */
    method Remove(id: string)
      modifies this
      ensures events == Filter(old(events), KeepsOthers(id))
      ensures forall e :: e in events ==> e.id != id
    {
      events := Filter(events, KeepsOthers(id));
    }

    /**
     * The events' impacts at `age`: the one-time costs of the events at exactly that age, and
     * the recurring changes of the events whose window holds it.
     */
    method Impacts(age: int) returns (hit: real, delta: real)
      ensures hit == OneTimeHit(events, age) && delta == RecurringDelta(events, age)
    {
      hit, delta := 0.0, 0.0;
      var k := 0;
      while k < |events|
        invariant 0 <= k <= |events|
        invariant hit == OneTimeHit(events[..k], age) && delta == RecurringDelta(events[..k], age)
      {
        var ev := events[k];
        TotalsStep(events, k, age);
        if ev.age == age {
          hit := hit + ev.onetime;
        }
        if ev.years > 0 && age >= ev.age && age < ev.age + ev.years {
          delta := delta + ev.recurring;
        }
        k := k + 1;
      }
      assert events[..k] == events;
    }

    /**
     * `run()`: year by year from the current age to the plan's end, total the events' costs
     * for that age, work out the flows, grow the balance and record the row; the first age
     * whose balance reaches the required balance is the FI age.
     */
    method Run(p: Plan) returns (res: Result)
      ensures res == Projection(p, events)
    {
      var bal := p.balance;
      var rows: seq<Row> := [];
      var fiAge: Option<int> := None;
      var age := p.cur;
      ghost var n := 0;
      ghost var need := Required(p);
      while age <= p.endAge
        invariant age == p.cur + n && n <= YearCount(p)
        invariant Simulate(p, events, need, n) == State(bal, rows, fiAge)
        decreases p.endAge - age
      {
        var hit, delta := Impacts(age);
        var retired := age >= p.retireAge;
        var inflow, outflow, note := YearFlows(p, age, hit, delta);
        var r := if retired then p.rPostPct / 100.0 else p.rPrePct / 100.0;
        var grown := (bal + inflow - outflow) * (1.0 + r);
        GrowthOfYear(bal, inflow, outflow, p, age, r);
        YearStep(p, events, need, n, State(bal, rows, fiAge), age, Flow(inflow, outflow, note), grown);
        bal := grown;
        rows := rows + [Row(age, bal, inflow - outflow, note)];
        var req := Max(0.0, p.spendRet - p.passive) / Max(0.0001, p.swrPct / 100.0);
        assert req == need;
        if fiAge.None? && bal >= req {
          fiAge := Some(age);
        }
        assert Simulate(p, events, need, n + 1) == State(bal, rows, fiAge);
        age := age + 1;
        n := n + 1;
      }
      res := Result(rows, fiAge);
    }
  }
}

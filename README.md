# Personal-finance calculators, modelled in Dafny

This project models the computing core of a set of browser calculators for financial
independence ("FI") planning. Every calculator reads a form, does closed-form money
arithmetic or simple list updates, and draws a table or chart. The model keeps the
arithmetic and the list updates and drops the page around them. Amounts are exact `real`s
and integer powers are `Numeric.Pow(base, n: nat)`. A form field that did not parse is an
`Option<real>` whose `None` stands for `NaN`.

The calculators and their modules:

- **Contribution optimizer** (`src/calculators/contribution-optimizer/app.js`).
  - `MatchPolicy`: the two-tier employer match. It is driven by the figures read out of the
    policy text by a hand-written digit-run scanner (`Decimal.ScanNumbers`).
  - `Tax`: the progressive ordinary-income tax and the 0/15/20% capital-gains bands stacked
    on top of ordinary income. `OptimizerData` holds the bracket, deduction and limit
    tables, which the page fetches.
  - `Growth`: the one-shot projection of the Traditional, Roth and brokerage buckets.
  - `Optimizer`: the deferral × Roth × brokerage grid sweep, ranked by after-tax value.
- **Net-worth tracker** (`src/calculators/net-worth-tracker/net-worth-tracker.inline.js`).
  `NetWorthTracker` has a `Tracker` class whose `items` and `history` fields are sequences
  the handlers reassign. It covers the version-1 to version-2 migration, normalisation and
  seeding at page start, totals, quick-add, delete and edit by id, the month-keyed snapshot
  with its sort, HTML escaping and the CSV export.
- **Household take-home pay** (`src/calculators/take-home-pay/thp-multi.js`).
  `HouseholdPay` covers the floor-based bracket walk, per-person FICA with the Social
  Security wage cap, the household sums and floors, and the `code:rate` state selector.
- **FI projections with life events** (`src/calculators/projections/projections.js`).
  `Projections` has an `EventList` class (add, remove, run) over the year-by-year balance
  recurrence with event windows, the first FI age and the CSV export.
- **Early-retirement estimator**, in two versions.
  - `EarlyRetirement` (`src/calculators/early-retirement-estimator/early-retirement-estimator.js`)
    fills the month arrays and runs the first-crossing and coast searches, the year table
    and the "+$200/month" comparison.
  - `EarlyRetirementLegacy` (`dist/calculators/early-retirement-estimator.js`) is the older
    bounded years-to-FI loop.
- **Smaller formulas.**
  - `CoastFi` (`src/calculators/coast-fi/coastfi.js`): the CoastFI number and progress.
  - `TakeHomePay`: the single-filer tax chain and take-home pay of
    `src/calculators/take-home-pay-script.js` and its two older copies,
    `dist/calculators/take-home-pay-script.js` and `src/script.backup.20250814-162336.js`.
    The three copies compute the same chain, which is modelled once.
  - `K401Toggle` (`src/calculators/take-home-pay-toggle.js`): a `K401Form` class that keeps
    the 401(k) percent and dollar fields in sync.
  - `NetWorthForm`: the fixed-field net-worth sums of both copies of
    `net-worth-tracker-script.js`, `src/calculators/` and `dist/calculators/`, which agree.
- **Shared helpers.**
  - `Numeric`: `Math.max`, `Math.min`, `Math.round`, `clamp`, the "non-numeric reads as 0"
    coercions and the sum.
  - `Decimal`: the digit-run scanner and the subset of `Number(text)` the core uses.
  - `Text`: `trim` and one-character `replace`.
  - `Csv`: `join` and `split`.
  - `Seqs`: `filter` and a stable sort by a real key.
  - `Wrappers`: `Option`.

Where the code works by changing state step by step (the tracker's handlers, the projection
loop, the month arrays, the bracket walks, the optimizer sweep, the toggle's fields), the
model is a method with loop invariants. Each such method is proved against a function that
specifies it, and the properties are then proved about that function.

Two properties of the code are easy to miss:

- The best candidate of the optimizer is not always at least as good as the all-Traditional
  and all-Roth comparisons shown beside it. Those comparisons defer
  `min(savings, limit)`, and the sweep only tries multiples of its deferral step.
  `Optimizer.FullDeferralOffGrid` shows a budget where that deferral is off the grid. Only
  the all-brokerage comparison is always beaten (`Optimizer.BestBeatsAllBrokerage`).
- Contributing the whole salary or more earns the same match only for a salary of 0 or of
  at least 1. The contribution share divides by `max(salary, 1)`
  (`MatchPolicy.MatchSaturates`, `MatchPolicy.MatchKeepsRisingBelowOneDollar`).

## Model

| member | source | states |
|---|---|---|
| MatchPolicy.ParsePolicy | src/calculators/contribution-optimizer/app.js:69-74 | The policy figures, each divided by 100, are never negative (the scanner reads unsigned figures only). |
| MatchPolicy.ParseNoFigures | src/calculators/contribution-optimizer/app.js:69-74 | A policy text without any digit means the standard policy: 100% up to 3%, then 50% of the next 2%. |
| MatchPolicy.ParseFourFigures | src/calculators/contribution-optimizer/app.js:69-74 | Four whole figures separated by text without digits are read back as those four figures, in order. |
| MatchPolicy.ParseSuggestedPolicy | src/calculators/contribution-optimizer/app.js:67-74 | The text "100% up to 3%; 50% of next 2%" reads as the standard policy. |
| MatchPolicy.ParseOwnFirstTier | src/calculators/contribution-optimizer/app.js:71-74 | Only missing figures fall back: "50% up to 6%" keeps 50% and 6% and takes 50% and 2% for the second tier. |
| MatchPolicy.EmployerMatch | src/calculators/contribution-optimizer/app.js:66-84 | The match never exceeds the two caps' share of salary, is never negative for a non-negative salary and contribution, and is 0 for a contribution of 0. |
| MatchPolicy.MatchFor | src/calculators/contribution-optimizer/app.js:76-83 | The two tiers together, capped at the two caps' share of salary. |
| MatchPolicy.MatchNonNegative | src/calculators/contribution-optimizer/app.js:76-83 | With non-negative policy figures, salary and contribution, the match is not negative. |
| MatchPolicy.MatchForZero | src/calculators/contribution-optimizer/app.js:76-83 | Contributing nothing earns no match. |
| MatchPolicy.Tier1Monotone | src/calculators/contribution-optimizer/app.js:77 | The first tier never falls as the contribution share rises. |
| MatchPolicy.Tier2Monotone | src/calculators/contribution-optimizer/app.js:78-79 | The second tier never falls as the contribution share rises. |
| MatchPolicy.MatchMonotone | src/calculators/contribution-optimizer/app.js:76-83 | Contributing more never earns a smaller match. |
| MatchPolicy.MatchSaturates | src/calculators/contribution-optimizer/app.js:76 | For a salary of 0 or of at least 1, any contribution at or above the salary earns the same match as contributing exactly the salary. |
| MatchPolicy.MatchKeepsRisingBelowOneDollar | src/calculators/contribution-optimizer/app.js:76 | Below a salary of 1 the share divides by 1: with a salary of 0.5, contributing 0.8 earns more than contributing 0.5. |
| MatchPolicy.MatchExample | src/calculators/contribution-optimizer/app.js:66-84 | On a 100,000 salary a 5% contribution under the standard policy earns 4,000. |
| Tax.BracketShare | src/calculators/contribution-optimizer/app.js:104 | A bracket takes at most what is left and at most its width, and never a negative amount. |
| Tax.TaxedWidths | src/calculators/contribution-optimizer/app.js:103-108 | Each taxed width is positive and at most its bracket's width; together they never exceed the taxable income; nothing is taxed when nothing is taxable. |
| Tax.BracketTaxIsRateTimesWidth | src/calculators/contribution-optimizer/app.js:103-108 | The ordinary tax is the sum of each bracket's rate times the width it holds. |
| Tax.ApplyOrdTax | src/calculators/contribution-optimizer/app.js:100-110 | The loop, with its early exit, returns the ordinary tax; 0 without a table or without an ordinary bracket list. |
| Tax.BracketTaxNonNegative | src/calculators/contribution-optimizer/app.js:100-110 | With non-negative rates the ordinary tax is never negative. |
| Tax.BracketTaxNothingLeft | src/calculators/contribution-optimizer/app.js:104-105 | With nothing taxable the walk stops at once and the tax is 0. |
| Tax.BracketTaxMonotone | src/calculators/contribution-optimizer/app.js:100-110 | With non-negative rates more taxable income never means less ordinary tax. |
| Tax.SplitGains | src/calculators/contribution-optimizer/app.js:118-132 | The gains split into non-negative 0%, 15% and 20% parts that add up to the gains; the 0% part is what fits below its top; the 20% part is non-empty only once the 15% band is full. |
| Tax.CapGainsTax | src/calculators/contribution-optimizer/app.js:113-135 | No capital-gains tax on non-positive gains, without a table or without capital-gains bands. |
| Tax.CapGainsTaxBanded | src/calculators/contribution-optimizer/app.js:113-135 | The tax is 15% of the 15% part plus 20% of the rest, and lies between 0 and 20% of the gains. |
| Tax.CapGainsTaxUsesBandsOnly | src/calculators/contribution-optimizer/app.js:113-115 | Only the capital-gains bands of a table matter to the capital-gains tax. |
| Tax.TaxableOrdinary | src/calculators/contribution-optimizer/app.js:89-92 | Taxable ordinary income, after the pre-tax deferral and the standard deduction, is never negative. |
| Tax.CurrentYearTax | src/calculators/contribution-optimizer/app.js:87-98 | Total tax is ordinary plus capital-gains tax; the AGI takes only the pre-tax deferral off salary; the Roth and brokerage amounts do not enter. |
| Growth.GrowToRetirement | src/calculators/contribution-optimizer/app.js:138-171 | The total is the sum of the three buckets; the match goes into the Traditional bucket, taxed at the retirement ordinary rate; Roth grows untaxed; the brokerage value is at least what was put in when the capital-gains rate is at most 100%. |
| Growth.NothingInvested | src/calculators/contribution-optimizer/app.js:138-171 | Contributing nothing projects nothing. |
| Growth.RothOverTraditional | src/calculators/contribution-optimizer/app.js:150-155 | Moving an amount from Traditional to Roth raises the projected total by that amount, grown and taxed at the retirement ordinary rate. |
| Optimizer.EmpStep | src/calculators/contribution-optimizer/app.js:183 | The deferral step is at least 500, so the sweep ends. |
| Optimizer.EmpCountSpec | src/calculators/contribution-optimizer/app.js:184 | The `k`-th deferral is within `min(budget, limit)` exactly when `k` is below the number of deferral steps. |
| Optimizer.SweepSplits | src/calculators/contribution-optimizer/app.js:185-205 | One deferral step's inner loops append that step's cells, in visiting order. |
| Optimizer.Sweep | src/calculators/contribution-optimizer/app.js:184-206 | The triple loop produces exactly the grid's cells, in visiting order. |
| Optimizer.Optimize | src/calculators/contribution-optimizer/app.js:174-225 | The results are a permutation of the grid sorted by descending after-tax value, 231 per deferral step. The best is the first result and beats every cell. There is a best exactly when `min(budget, limit) >= 0`. For a non-negative salary it beats all-brokerage. The three comparisons are as the code builds them. |
| Optimizer.GridSize | src/calculators/contribution-optimizer/app.js:184-189 | Every deferral step visits 231 Roth/brokerage splits, and there are no cells when `min(budget, limit)` is negative. |
| Optimizer.EmpPointsSize | src/calculators/contribution-optimizer/app.js:188-189 | Each deferral step visits 231 splits. |
| Optimizer.SweepVisits | src/calculators/contribution-optimizer/app.js:184-189 | A point is visited exactly when its deferral step is within `min(budget, limit)` and its Roth and brokerage shares are multiples of 5 adding up to at most 100. |
| Optimizer.CellParts | src/calculators/contribution-optimizer/app.js:185-203 | A cell records its step's deferral and match (which depends only on the deferral) and its split. |
| Optimizer.SplitBounds | src/calculators/contribution-optimizer/app.js:190-194 | Traditional plus Roth is `(100 - pBrok)%` of the deferral, so the brokerage share also shrinks the deferral; the brokerage gets `pBrok%` of `max(budget - emp, 0)`. |
| Optimizer.GridCell | src/calculators/contribution-optimizer/app.js:184-203 | Every candidate defers between 0 and `min(budget, limit)` and hands out no more than it has. |
| Optimizer.BestBeatsAllBrokerage | src/calculators/contribution-optimizer/app.js:212 | All-brokerage is a cell of the grid (no deferral, 100% brokerage, no match), so the best is never worse. |
| Optimizer.FullDeferralOffGrid | src/calculators/contribution-optimizer/app.js:183-221 | With a 10,250 budget the step is 513, and no step's deferral equals the budget that all-Traditional and all-Roth defer. |
| Seqs.SortBy | src/calculators/contribution-optimizer/app.js:208 | The sort keeps every element exactly once (a permutation) and orders the keys. |
| Seqs.SortByHeadIsLeast | src/calculators/contribution-optimizer/app.js:208-209 | The first element of a sorted list carries the least key, so `results[0]` is the best. |
| Seqs.InsertKeyClass | src/calculators/contribution-optimizer/app.js:208 | Inserting one element keeps the elements of any one key in their order, and places it after those sharing its key. |
| Seqs.SortByStable | src/calculators/contribution-optimizer/app.js:208 | The sort is stable: the elements sharing any one key come out in their input order. |
| Seqs.SortByHeadIsEarliest | src/calculators/contribution-optimizer/app.js:208-209 | Among the candidates tied for the best value, `results[0]` is the one the sweep visited first. |
| Seqs.SortByStrict | src/calculators/net-worth-tracker/net-worth-tracker.inline.js:310 | When no two elements share a key, the sorted keys strictly increase. |
| Decimal.ScanRender | src/calculators/contribution-optimizer/app.js:69 | Scanning whole numbers written with separators that hold no digit gives those numbers back. |
| Decimal.ScanSkips | src/calculators/contribution-optimizer/app.js:69 | Text without digits contributes no figure. |
| Decimal.ScanWhole | src/calculators/contribution-optimizer/app.js:69 | A digit run not followed by a point and a digit is one whole figure. |
| Decimal.ParseNatText | src/calculators/take-home-pay/thp-multi.js:224 | A whole number's numeral reads back as that number. |
| Decimal.ParseDecimalText | src/calculators/take-home-pay/thp-multi.js:224 | A whole number, a point and fraction digits read back as their value. |
| NetWorthTracker.Upgrade | src/calculators/net-worth-tracker/net-worth-tracker.inline.js:31-39 | A version-1 item keeps each stored non-empty id, type and name and its stored amount; a missing or empty one becomes a fresh id, "asset", "Item" or 0. The category is "Other" and the item counts toward FI. |
| NetWorthTracker.Normalize | src/calculators/net-worth-tracker/net-worth-tracker.inline.js:56-65 | A loaded item keeps each stored non-empty id, type, name and category and its stored amount; a missing or empty one becomes a fresh id, "asset", "Item", "Other" or 0. An item stored under "Home Equity" or "Car" never counts toward FI, whatever id it gets; otherwise a stored boolean is kept and a missing one means yes. |
| NetWorthTracker.Migrate | src/calculators/net-worth-tracker/net-worth-tracker.inline.js:29-40 | The migration loop yields one upgraded item per stored item, in the stored order. |
| NetWorthTracker.NormalizeAll | src/calculators/net-worth-tracker/net-worth-tracker.inline.js:53-67 | The normalisation loop yields one normalised item per loaded item, in order. |
| NetWorthTracker.Seed | src/calculators/net-worth-tracker/net-worth-tracker.inline.js:70-76 | An empty list is seeded with the four fixed items. |
| NetWorthTracker.StartingItems | src/calculators/net-worth-tracker/net-worth-tracker.inline.js:22-78 | A non-empty stored list keeps its item count through loading. |
| NetWorthTracker.StartingItemsNormal | src/calculators/net-worth-tracker/net-worth-tracker.inline.js:22-78 | Whatever storage held, every starting item has no blank field and homes and cars do not count toward FI. |
| NetWorthTracker.UpgradeIsNormalized | src/calculators/net-worth-tracker/net-worth-tracker.inline.js:29-67 | Normalising a migrated item changes nothing. |
| NetWorthTracker.NormalizeIdempotent | src/calculators/net-worth-tracker/net-worth-tracker.inline.js:53-67 | A normalised item survives a reload unchanged. |
| NetWorthTracker.MigrationKeepsItems | src/calculators/net-worth-tracker/net-worth-tracker.inline.js:25-67 | A non-empty version-1 list becomes exactly its upgraded items, in order. |
| NetWorthTracker.TotalsOf | src/calculators/net-worth-tracker/net-worth-tracker.inline.js:113-126 | Net worth is assets less liabilities. |
| NetWorthTracker.TotalsPartition | src/calculators/net-worth-tracker/net-worth-tracker.inline.js:118-123 | Every item counts as an asset or else as a liability: the two totals add up to all amounts. |
| NetWorthTracker.FiWithinAssets | src/calculators/net-worth-tracker/net-worth-tracker.inline.js:118-120 | With non-negative amounts the FI-eligible total is between 0 and the asset total. |
| NetWorthTracker.AppendNet | src/calculators/net-worth-tracker/net-worth-tracker.inline.js:113-126 | Appending an item moves net worth up by an asset's amount or down by a liability's. |
| NetWorthTracker.SeedTotals | src/calculators/net-worth-tracker/net-worth-tracker.inline.js:70-76 | The seed totals are 98,000 of assets, 500 of liabilities, 97,500 net and 18,000 FI-eligible. |
| NetWorthTracker.EscapeHtml | src/calculators/net-worth-tracker/net-worth-tracker.inline.js:137-139 | Each of `& < > " '` becomes its entity; every other character is kept. |
| NetWorthTracker.EscapeRoundTrip | src/calculators/net-worth-tracker/net-worth-tracker.inline.js:137-139 | Reading the entities back gives the original text. |
| NetWorthTracker.EscapePlainText | src/calculators/net-worth-tracker/net-worth-tracker.inline.js:137-139 | Text without special characters is written unchanged. |
| NetWorthTracker.UnescapeSpecial | src/calculators/net-worth-tracker/net-worth-tracker.inline.js:138 | An escaped special character reads back as itself, whatever follows. |
| NetWorthTracker.FormEntry | src/calculators/net-worth-tracker/net-worth-tracker.inline.js:223-293 | The entry's category defaults to "Other"; a blank trimmed name becomes "Asset" or "Liability"; the amount defaults to 0; the entry counts toward FI exactly when it is an asset and the choice is "yes". |
| NetWorthTracker.HomeEquityCountsUntilReload | src/calculators/net-worth-tracker/net-worth-tracker.inline.js:221-231 | A "Home Equity" asset added with FI "yes" counts toward FI until the next load normalises it off. |
| NetWorthTracker.Without | src/calculators/net-worth-tracker/net-worth-tracker.inline.js:275 | The kept items are exactly the items with another id, in order. |
| NetWorthTracker.ReplaceById | src/calculators/net-worth-tracker/net-worth-tracker.inline.js:295 | The list keeps its length; items with the id become the entry and every other item stays in place. |
| NetWorthTracker.DeleteUnknown | src/calculators/net-worth-tracker/net-worth-tracker.inline.js:271-272 | Deleting an id no item has changes nothing. |
| NetWorthTracker.DeleteRemovesId | src/calculators/net-worth-tracker/net-worth-tracker.inline.js:275 | After a delete no item has the id and every other item is still there. |
| NetWorthTracker.ReplaceUnknown | src/calculators/net-worth-tracker/net-worth-tracker.inline.js:295 | Replacing by an id no item has changes nothing. |
| NetWorthTracker.ReplaceIdempotent | src/calculators/net-worth-tracker/net-worth-tracker.inline.js:294-296 | Submitting the same edit twice is the same as submitting it once. |
| NetWorthTracker.IndexOfMonth | src/calculators/net-worth-tracker/net-worth-tracker.inline.js:306-307 | The index found is the first entry with the month, or -1 when none has it. |
| NetWorthTracker.Upsert | src/calculators/net-worth-tracker/net-worth-tracker.inline.js:308-309 | The history grows by at most one entry and holds the new entry. |
| NetWorthTracker.UpsertDistinct | src/calculators/net-worth-tracker/net-worth-tracker.inline.js:306-309 | A history with one entry per month keeps one entry per month. |
| NetWorthTracker.SnapshotHistory | src/calculators/net-worth-tracker/net-worth-tracker.inline.js:305-310 | After a snapshot the history is strictly ordered by month, holds the new entry, and keeps every other month's entry. |
| NetWorthTracker.CsvRows | src/calculators/net-worth-tracker/net-worth-tracker.inline.js:315-318 | The header row, then one date/value row per history entry. |
| NetWorthTracker.ExportReadsBack | src/calculators/net-worth-tracker/net-worth-tracker.inline.js:315-320 | When no cell holds a comma or line break, the CSV splits back into the header line and one line per entry, and each line into its cells. |
| NetWorthTracker.BuildRows | src/calculators/net-worth-tracker/net-worth-tracker.inline.js:315-318 | The first export loop builds the export's rows. |
| NetWorthTracker.JoinRows | src/calculators/net-worth-tracker/net-worth-tracker.inline.js:319-320 | The second loop's text is the rows' lines joined with line breaks, none after the last. |
| NetWorthTracker.Tracker.constructor | src/calculators/net-worth-tracker/net-worth-tracker.inline.js:22-78 | Page start: the starting items and the stored history. |
| NetWorthTracker.Tracker.ComputeTotals | src/calculators/net-worth-tracker/net-worth-tracker.inline.js:113-126 | The loop returns the list's totals, with net worth equal to assets less liabilities. |
| NetWorthTracker.Tracker.AddQuick | src/calculators/net-worth-tracker/net-worth-tracker.inline.js:221-231 | Exactly one entry is appended after every existing item; the history is unchanged. |
| NetWorthTracker.Tracker.Delete | src/calculators/net-worth-tracker/net-worth-tracker.inline.js:268-277 | The items become those with another id, in order; the history is unchanged. |
| NetWorthTracker.Tracker.Edit | src/calculators/net-worth-tracker/net-worth-tracker.inline.js:282-296 | Every item with the trimmed id is replaced by the entry and every other item is kept in place; the history is unchanged. |
| NetWorthTracker.Tracker.TakeSnapshot | src/calculators/net-worth-tracker/net-worth-tracker.inline.js:302-311 | The items are unchanged; the history is the upsert of the month's net worth, sorted by month. |
| NetWorthTracker.Tracker.ExportCsv | src/calculators/net-worth-tracker/net-worth-tracker.inline.js:314-320 | The export text is the rows' lines joined by line breaks. |
| Text.Trim | src/calculators/net-worth-tracker/net-worth-tracker.inline.js:227-285 | The result is the middle of the text with the leading and trailing white space dropped, and neither starts nor ends with white space. |
| Text.TrimIdempotent | src/calculators/net-worth-tracker/net-worth-tracker.inline.js:285 | Trimming twice is trimming once. |
| Text.TrimUntouched | src/calculators/net-worth-tracker/net-worth-tracker.inline.js:285 | Text without leading or trailing white space is left as it is. |
| Text.TrimAllSpace | src/calculators/net-worth-tracker/net-worth-tracker.inline.js:227 | A name of white space only trims to the empty string, so the default name applies. |
| Csv.Split | src/calculators/take-home-pay/thp-multi.js:223 | Splitting gives at least one piece and no piece holds the separator. |
| Csv.SplitJoin | src/calculators/projections/projections.js:202 | Splitting a joined list gives the list back when no part holds the separator. |
| Csv.TableReadsBack | src/calculators/projections/projections.js:202 | A table whose cells hold neither separator reads back, line by line and cell by cell. |
| Seqs.Filter | src/calculators/projections/projections.js:64 | The kept elements are exactly the accepted ones, in their original order and no more than the input. |
| Seqs.FilterAppend | src/calculators/projections/projections.js:64 | Filtering works piecewise, so the kept elements stay in their order. |
| Seqs.FilterKeepsAll | src/calculators/net-worth-tracker/net-worth-tracker.inline.js:275 | A filter that rejects nothing returns its input. |
| HouseholdPay.FederalTax | src/calculators/take-home-pay/thp-multi.js:76-85 | The tax is never negative and is 0 for an unknown filing status. |
| HouseholdPay.TaxFromBrackets | src/calculators/take-home-pay/thp-multi.js:76-85 | The bracket walk with its early exit returns that tax. |
| HouseholdPay.TablesWellFormed | src/calculators/take-home-pay/thp-multi.js:20-30 | The three tables have rising floors and non-negative rates. |
| HouseholdPay.FloorTaxNonNegative | src/calculators/take-home-pay/thp-multi.js:79-83 | With rising floors and non-negative rates every bracket adds a non-negative amount. |
| HouseholdPay.FloorTaxMonotone | src/calculators/take-home-pay/thp-multi.js:79-83 | More taxable income never means less tax. |
| HouseholdPay.FederalTaxMonotone | src/calculators/take-home-pay/thp-multi.js:76-85 | The tax never falls as taxable income rises, and the floor at 0 never binds. |
| HouseholdPay.SingleExample | src/calculators/take-home-pay/thp-multi.js:22-83 | A single filer with 47,150 taxable pays 1,160 + 4,266 = 5,426. |
| HouseholdPay.FicaWages | src/calculators/take-home-pay/thp-multi.js:96 | FICA wages are never negative and are at least gross less the HSA. |
| HouseholdPay.PayrollOf | src/calculators/take-home-pay/thp-multi.js:90-100 | The 401(k) share is the percentage of gross; pre-tax is that plus the HSA; FICA is between 0 and the capped Social Security plus Medicare, and exactly 7.65% of FICA wages up to the cap. |
| HouseholdPay.FicaAboveCap | src/calculators/take-home-pay/thp-multi.js:97-99 | Above the Social Security cap only Medicare grows, 1.45% per dollar. |
| HouseholdPay.FicaIgnores401k | src/calculators/take-home-pay/thp-multi.js:91-96 | The 401(k) percentage moves the pre-tax total but never FICA. |
| HouseholdPay.Payrolls | src/calculators/take-home-pay/thp-multi.js:90-101 | One payroll per stream, in order. |
| HouseholdPay.FlatTax | src/calculators/take-home-pay/thp-multi.js:117-119 | The state tax is never negative: the flat rate times the base for a non-negative rate, and 0 for a rate of 0 or below. |
| HouseholdPay.Compute | src/calculators/take-home-pay/thp-multi.js:88-130 | The household sums are sums over the streams; the deduction falls back to the single one; the state base is income after pre-tax deductions and premiums, floored at 0; federal taxable income is that base less the standard deduction, floored at 0; the state tax is `FlatTax` of the base and the rate; take-home is what is left after every tax, floored at 0. |
| HouseholdPay.AddStream | src/calculators/take-home-pay/thp-multi.js:103-105 | A further stream adds its gross, pre-tax total and FICA to the household sums. |
| HouseholdPay.NoStreams | src/calculators/take-home-pay/thp-multi.js:103-122 | A household without streams takes nothing home. |
| HouseholdPay.ParseStateSelect | src/calculators/take-home-pay/thp-multi.js:220-228 | No selection means no state tax; otherwise the code is the text before the first colon and the label is the code, or "No state tax" for NONE. |
| HouseholdPay.ParseCodeAndRate | src/calculators/take-home-pay/thp-multi.js:223-224 | A `code:rate` selection reads back its code and the rate its text denotes. |
| HouseholdPay.ParseCodeOnly | src/calculators/take-home-pay/thp-multi.js:223-224 | A selection without a colon names only a code, with rate 0. |
| HouseholdPay.ParseCalifornia | src/calculators/take-home-pay/thp-multi.js:220-228 | "CA:0.06" selects California at 6%. |
| HouseholdPay.ParseNonNumericRate | src/calculators/take-home-pay/thp-multi.js:224 | A rate text that is not a number reads as rate 0. |
| Projections.NewEvent | src/calculators/projections/projections.js:19-26 | Given preset values are kept; the rest default to "Custom", two years past the current age and zero amounts. |
| Projections.ChildWindow | src/calculators/projections/projections.js:68-76 | A child adds 12,000 a year exactly from two years past the current age for 18 years. |
| Projections.CarOnce | src/calculators/projections/projections.js:77-85 | A car costs 30,000 once, three years past the current age, and nothing a year. |
| Projections.DeltaSplits | src/calculators/projections/projections.js:119-124 | Splitting the event list by a condition splits each year's recurring total. |
| Projections.HitSplits | src/calculators/projections/projections.js:119-124 | Splitting the event list by a condition splits each year's one-time total. |
| Projections.RemoveSplitsTotals | src/calculators/projections/projections.js:64-124 | Removing the events with an id takes away exactly their amounts from every year's totals. |
| Projections.NoteOneLine | src/calculators/projections/projections.js:127-142 | No note holds a line break. |
| Projections.YearFlow | src/calculators/projections/projections.js:127-142 | Before retirement the inflow lies between 0 and the contribution; in retirement the outflow covers spending plus changes less passive income, never negative; a positive one-time cost is added to the outflow. |
| Projections.YearFlows | src/calculators/projections/projections.js:127-142 | The flows block computes the year's flow and note. |
| Projections.Simulate | src/calculators/projections/projections.js:113-153 | After `n` years there are `n` rows, one per age from the current age. |
| Projections.Projection | src/calculators/projections/projections.js:110-155 | One row per age from the current age to the plan's end, in increasing order, and none when the end is before the current age. |
| Projections.RowsExtend | src/calculators/projections/projections.js:148 | Later years only add rows. |
| Projections.BalanceRecurrence | src/calculators/projections/projections.js:145-148 | Each row's balance is the previous balance plus the row's net flow, grown at that year's rate (the post-retirement rate from the retirement age on). |
| Projections.NoFiAge | src/calculators/projections/projections.js:151-152 | Without an FI age no row reaches the required balance. |
| Projections.FirstFiAge | src/calculators/projections/projections.js:151-152 | The FI age is the first age whose balance reaches the required balance, and it is never overwritten. |
| Projections.FiStep | src/calculators/projections/projections.js:152 | One more year keeps an FI age once set, and sets it on first reaching the required balance. |
| Projections.CellClean | src/calculators/projections/projections.js:201 | Replacing commas in a note leaves none and adds no line break. |
| Projections.HeaderLine | src/calculators/projections/projections.js:200-202 | The header joins into "Age,Balance_real_$,Net_Flow_$,Notes". |
| Projections.CsvReadsBack | src/calculators/projections/projections.js:199-203 | The CSV splits back into the header and one line per row, and each line into age, balance, net flow and note. |
| Projections.EventList.constructor | src/calculators/projections/projections.js:219-222 | Page start: the child and car presets. |
| Projections.EventList.Add | src/calculators/projections/projections.js:13-27 | One new event at the end of the list. |
| Projections.EventList.Remove | src/calculators/projections/projections.js:64 | Every event with the id leaves and the others keep their order. |
| Projections.EventList.Impacts | src/calculators/projections/projections.js:117-124 | The loop returns the year's one-time and recurring totals. |
| Projections.EventList.Run | src/calculators/projections/projections.js:97-156 | The loop returns the projection of the plan and the events. |
| EarlyRetirement.SetupOf | src/calculators/early-retirement-estimator/early-retirement-estimator.js:84-93 | The withdrawal rate defaults to 4% and the horizon to 50 years when a field is empty or 0, so the rate is never 0. |
| EarlyRetirement.Months | src/calculators/early-retirement-estimator/early-retirement-estimator.js:8 | The horizon is the whole months of `maxYears`, clamped to 12 through 840. |
| EarlyRetirement.BumpMonth | src/calculators/early-retirement-estimator/early-retirement-estimator.js:18 | The bump starts no earlier than the bump year's month and never before month 0. |
| EarlyRetirement.FirstFrom | src/calculators/early-retirement-estimator/early-retirement-estimator.js:27 | The index found reaches the target and every earlier one does not; none when no value reaches it. |
| EarlyRetirement.CoastValues | src/calculators/early-retirement-estimator/early-retirement-estimator.js:33-34 | Each month's balance grown at `r` for the months left to the horizon. |
| EarlyRetirement.Simulate | src/calculators/early-retirement-estimator/early-retirement-estimator.js:7-39 | Both arrays have `months + 1` entries holding each month's balance and running contribution; the FI target is spending over the withdrawal rate; the FI, half-FI and coast months are the first crossings. |
| EarlyRetirement.FillMonths | src/calculators/early-retirement-estimator/early-retirement-estimator.js:13-24 | Month 0 holds the starting balance and nothing contributed; each later month grows last month's balance and adds that month's contribution. |
| EarlyRetirement.Cross | src/calculators/early-retirement-estimator/early-retirement-estimator.js:27 | The first month whose balance reaches the target, or none. |
| EarlyRetirement.CoastMonth | src/calculators/early-retirement-estimator/early-retirement-estimator.js:31-36 | The first month whose balance, grown to the horizon, reaches the target, or none. |
| EarlyRetirement.HalfFiFirst | src/calculators/early-retirement-estimator/early-retirement-estimator.js:26-28 | With a non-negative target, half FI is reached, and no later than FI. |
| EarlyRetirement.CoastFirst | src/calculators/early-retirement-estimator/early-retirement-estimator.js:31-36 | With non-negative growth, the coast month comes no later than the FI month. |
| EarlyRetirement.ReachedNoLater | src/calculators/early-retirement-estimator/early-retirement-estimator.js:27 | A bar met wherever another is met is reached at the same index or earlier. |
| EarlyRetirement.NoGrowthBalance | src/calculators/early-retirement-estimator/early-retirement-estimator.js:20-24 | Without growth the balance is the starting balance plus everything contributed. |
| EarlyRetirement.BalanceRises | src/calculators/early-retirement-estimator/early-retirement-estimator.js:20-24 | With non-negative growth and contributions the balance never falls month to month. |
| EarlyRetirement.TableYears | src/calculators/early-retirement-estimator/early-retirement-estimator.js:115 | The year table has one row per year of the horizon, a part year counting as one. |
| EarlyRetirement.YearIndexInRange | src/calculators/early-retirement-estimator/early-retirement-estimator.js:115-116 | Every row reads inside the arrays: the twelfth month of a full year, or the horizon for the last row. |
| EarlyRetirement.YearRows | src/calculators/early-retirement-estimator/early-retirement-estimator.js:114-123 | One balance and one contribution total per table row, read at that row's month. |
| EarlyRetirement.ExtraNotBelow | src/calculators/early-retirement-estimator/early-retirement-estimator.js:96-98 | With growth above -100%, contributing more each month never gives a lower balance. |
| EarlyRetirement.ExtraReachesNoLater | src/calculators/early-retirement-estimator/early-retirement-estimator.js:96-129 | The "+$200/month" run reaches any target no later than the base run. |
| EarlyRetirement.Insight | src/calculators/early-retirement-estimator/early-retirement-estimator.js:128-135 | The insight shows exactly when both runs reach FI and the comparison does so strictly earlier, giving the positive years gained. |
| EarlyRetirement.InsightWhenBothReach | src/calculators/early-retirement-estimator/early-retirement-estimator.js:128-135 | When the base run reaches FI, the insight is hidden exactly when the comparison reaches it in the same month. |
| EarlyRetirement.AgeNoteAsWritten | src/calculators/early-retirement-estimator/early-retirement-estimator.js:94-107 | The note as written shows whenever FI is reached, with or without an age. |
| EarlyRetirement.AgeNoteWithoutAge | src/calculators/early-retirement-estimator/early-retirement-estimator.js:94-107 | With no age and FI at month 120, the note reads an age of 10.0. |
| EarlyRetirement.AgeNote | src/calculators/early-retirement-estimator/early-retirement-estimator.js:94-107 | The note shows exactly when an age is given and FI is reached, and is that age plus the years to FI. |
| EarlyRetirement.AgeNoteAgrees | src/calculators/early-retirement-estimator/early-retirement-estimator.js:107 | Where an age is given the intended and the written note agree. |
| EarlyRetirementLegacy.GrowthRate | dist/calculators/early-retirement-estimator.js:9 | The growth rate is the percentage over 100, and 7% when the field is empty or 0. |
| EarlyRetirementLegacy.YearsToFi | dist/calculators/early-retirement-estimator.js:15-24 | At most 100 years; the loop stops at the first year the savings reach the target, or at 100; no years when the savings start at the target; the history holds each year's savings. |
| EarlyRetirementLegacy.Submit | dist/calculators/early-retirement-estimator.js:5-26 | The target is expenses times the multiplier (25 by default); the age at FI is the age plus the years; the years are the first year reaching the target, or 100. |
| EarlyRetirementLegacy.NoGrowthSavings | dist/calculators/early-retirement-estimator.js:19-24 | Without growth the savings after `k` years are the start plus `k` years of savings. |
| EarlyRetirementLegacy.SavingsRise | dist/calculators/early-retirement-estimator.js:19-24 | With non-negative savings, yearly savings and growth, the savings never fall. |
| CoastFi.YearsUntil | src/calculators/coast-fi/coastfi.js:10 | Never negative; the target age less the current age, with a missing age read as 0. |
| CoastFi.ComputeCoast | src/calculators/coast-fi/coastfi.js:23-45 | The need is never negative; the required amounts exist exactly when the withdrawal rate is positive; without positive growth the CoastFI number is the amount at retirement; progress is 100 for a non-positive CoastFI number and otherwise lies in 0 to 999. |
| CoastFi.RequiredAmounts | src/calculators/coast-fi/coastfi.js:34-37 | The amount at retirement times the withdrawal rate is the need; the CoastFI number grown to retirement is that amount. |
| CoastFi.CoastMeansEnough | src/calculators/coast-fi/coastfi.js:34-59 | With a positive withdrawal rate and growth above -100%, the portfolio is at CoastFI exactly when, grown to retirement, it covers the amount required then. |
| CoastFi.ProgressMeansCoast | src/calculators/coast-fi/coastfi.js:40-59 | With a positive CoastFI number, progress reaches 100% exactly at CoastFI. |
| CoastFi.PortfolioGrows | src/calculators/coast-fi/coastfi.js:42 | With a non-negative portfolio and growth, the portfolio at retirement is at least today's. |
| CoastFi.CoastNumberAtMost | src/calculators/coast-fi/coastfi.js:36-37 | With non-negative growth the CoastFI number is at most the amount required at retirement. |
| Numeric.Clamp | src/calculators/coast-fi/coastfi.js:9 | The result lies in the range; a value inside it is kept and one outside goes to the nearer end. The toggle's `clamp` (`src/calculators/take-home-pay-toggle.js` line 18) is the same. |
| TakeHomePay.PerPeriod | src/calculators/take-home-pay-script.js:17-24 | A twelfth, a twenty-sixth or a fifty-second of the annual amount, or the amount itself for any other frequency. |
| TakeHomePay.FederalTax | src/calculators/take-home-pay-script.js:48-58 | Never negative; 0 up to 11,600, 3,555 at 47,150 and 9,960 at 100,525. The same chain is in `dist/calculators/take-home-pay-script.js` lines 15-25 and `src/script.backup.20250814-162336.js` lines 11-21. |
| TakeHomePay.FederalTaxByBands | src/calculators/take-home-pay-script.js:49-58 | The chain is 10%, 12% and 22% of the income in each band, so neighbouring branches agree at the breakpoints. |
| TakeHomePay.FederalTaxMonotone | src/calculators/take-home-pay-script.js:49-58 | More taxable income never lowers the tax, and each extra dollar costs at most 22 cents. |
| TakeHomePay.FederalTaxSlope | src/calculators/take-home-pay-script.js:52-58 | Inside a band the tax grows at exactly that band's rate. |
| TakeHomePay.Calculate | src/calculators/take-home-pay-script.js:45-60 | Contributions are the 401(k), IRA and HSA amounts; taxable income is income less them and may be negative; take-home is income less the tax, health premiums and contributions. The same chain is `calculate()` in `dist/calculators/take-home-pay-script.js` lines 12-27 and `src/script.backup.20250814-162336.js` lines 8-23. |
| TakeHomePay.ContributionCost | src/calculators/take-home-pay-script.js:45-60 | Contributing more lowers take-home pay by at least 78% and at most 100% of the extra amount. |
| TakeHomePay.ChartParts | src/calculators/take-home-pay-script.js:97-100 | A negative part shows as 0; the others are kept. |
| TakeHomePay.PartsAddUp | src/calculators/take-home-pay-script.js:60-100 | When nothing is negative the four chart parts add up to the income. |
| TakeHomePay.Set401kMax | src/calculators/take-home-pay-script.js:155-165 | The 401(k) field becomes 23,000; the percent field changes only in percent mode with a positive income. |
| TakeHomePay.Set401kMaxPercent | src/calculators/take-home-pay-script.js:164 | That percent of the income is within a twentieth of a percent of the income of 23,000. |
| K401Toggle.DollarsFor | src/calculators/take-home-pay-toggle.js:20-24 | Dollars are the income times the percent clamped to 0..100, rounded to the nearest dollar. |
| K401Toggle.DollarsNonNegative | src/calculators/take-home-pay-toggle.js:20-24 | With a non-negative income the dollars are not negative. |
| K401Toggle.PercentFor | src/calculators/take-home-pay-toggle.js:28-32 | The percent is 0 for a non-positive income, otherwise the non-negative dollars' share of income rounded to one decimal. |
| K401Toggle.DollarsRoundTrip | src/calculators/take-home-pay-toggle.js:20-32 | For dollars between 0 and a positive income, dollars recomputed from the written percent are within 50 cents plus a twentieth of a percent of the income. |
| K401Toggle.ShareInRange | src/calculators/take-home-pay-toggle.js:31 | Dollars between 0 and the income are a share between 0 and 100 percent. |
| K401Toggle.MaxPercentAgrees | src/calculators/take-home-pay-toggle.js:28-32 | The percent the "max" button writes is the one the toggle computes for 23,000. |
| K401Toggle.K401Form.constructor | src/calculators/take-home-pay-toggle.js:3-12 | The form starts with its fields as given. |
| K401Toggle.K401Form.SyncFromPercent | src/calculators/take-home-pay-toggle.js:20-26 | Only the dollar field changes, to the dollars for the income and the percent. |
| K401Toggle.K401Form.SyncFromDollar | src/calculators/take-home-pay-toggle.js:28-34 | Only the percent field changes, to the percent for the income and the dollars. |
| K401Toggle.K401Form.SwitchMode | src/calculators/take-home-pay-toggle.js:36-46 | "percent" recomputes the dollars from the percent; any other mode recomputes the percent from the dollars. |
| K401Toggle.K401Form.IncomeInput | src/calculators/take-home-pay-toggle.js:53 | A new income, then the sync of the checked mode. |
| K401Toggle.K401Form.LoadParams | src/calculators/take-home-pay-toggle.js:67-80 | The income parameter is taken when present; the percent parameter wins over the dollar one and selects percent mode; with neither, percent mode recomputes the dollars. |
| Numeric.OrZero | src/calculators/take-home-pay-script.js:26 | A value that did not parse reads as 0; any other value is kept. It is also `toNumber` in the toggle (lines 14-17) and `getValue` in both net-worth form scripts (line 5 of the `src/calculators/` copy, line 7 of the `dist/calculators/` copy). |
| Numeric.OrDefault | src/calculators/early-retirement-estimator/early-retirement-estimator.js:92-93 | A value that did not parse, or 0, reads as the default; any other value is kept. The legacy estimator's defaults (`dist/calculators/early-retirement-estimator.js` lines 9-10) read the same way. |
| Numeric.Round | src/calculators/take-home-pay-toggle.js:23 | The integer within half a unit of the value, halves rounding up. |
| NetWorthForm.AssetValues | src/calculators/net-worth-tracker-script.js:9-17 | The seven asset values, in the form's order. |
| NetWorthForm.LiabilityValues | src/calculators/net-worth-tracker-script.js:18-24 | The five liability values, in the form's order. |
| NetWorthForm.Compute | src/calculators/net-worth-tracker-script.js:26-40 | Net worth plus liabilities is the asset total; FI net worth plus liabilities is the FI asset total; net worth less FI net worth is the assets not counted toward FI. The `dist/calculators/` copy computes the same at lines 30-43. |
| NetWorthForm.ComputeSums | src/calculators/net-worth-tracker-script.js:27-39 | The totals are the sums of all seven assets and all five liabilities, and the FI assets are the sum of exactly the ticked assets (lines 30-41 in the `dist/calculators/` copy). |
| NetWorthForm.TickedAtMost | src/calculators/net-worth-tracker-script.js:32-39 | With non-negative amounts the ticked ones add up to at most all of them. |
| NetWorthForm.AllTicked | src/calculators/net-worth-tracker-script.js:32-39 | With every box ticked the ticked amounts are all of them. |
| NetWorthForm.FiNotAbove | src/calculators/net-worth-tracker-script.js:27-40 | With no negative asset the FI assets are at most the total assets and the FI net worth at most the net worth, in both copies. |
| NetWorthForm.AllFi | src/calculators/net-worth-tracker-script.js:27-40 | With every box ticked the FI figures equal the totals. |

## Left out

- Rendering: the DOM and its element lookups, `innerHTML` templates, Chart.js charts, `toLocaleString`/`toFixed` formatting, and event wiring. This includes the page-load guards, the tab buttons, modal open and close, and the optimizer's result table and CSV button (`app.js` lines 228-294).
- Persistence: `localStorage` reads and writes and JSON parsing. Stored lists enter the tracker as parameters: the version-2 list, the version-1 list and the history. Saving is not modelled.
- The newsletter and unlock gates in front of the exports and full results.
- Fetching the bracket, deduction and limit tables, and the async start-up of the optimizer. The tables are read-only parameters, and a failed load is not modelled.
- Random ids and clocks. The tracker's and the projections' ids are supplied by the caller (`uid: nat -> string`, an `id` argument). Month keys are whole numbers ordered like the dates. The dates and numbers printed in a CSV are functions supplied by the caller. The debounce timers are not modelled.
- Floating point: IEEE rounding and overflow. Amounts are exact reals and `NaN` is an `Option` that is `None`.
- TakeHomePay.ChartParts: does not model the non-finite values the chart maps to 0, because the model has no infinities or `NaN`.
- Parsing is limited. `parseFloat` and `Number` on arbitrary text are not modelled; a form field enters as its parsed value. The only text parsed in the model is the state selector's rate, by `Decimal.ParseNumber`, which reads decimal literals (no exponents, no hexadecimal, no `Infinity`).
- The policy text is not lower-cased first. Lower-casing cannot change which digits a text holds.
- The early-retirement estimator takes the monthly rate `r` as an input. The fractional power in `mRate` and the real/nominal choice (lines 5, 9-11) are not modelled.
- The estimator's dates and its chart labels are not modelled. The insight text is modelled by the years it shows.
- The legacy estimator reads `parseInt`/`parseFloat` without defaults, so an empty age, savings, income or expense field gives `NaN` there. The model takes those fields as numbers, and only the two defaulted fields (growth rate and multiplier) as `Option`.
- Growth.GrowToRetirement: takes the years to retirement (`OptimizerData.Inputs.yearsToRet`) as a whole number, because `Math.pow` with a fractional exponent is not modelled; the page reads the field with `toNum` (app.js line 54), so a fractional or negative number of years is accepted there and not by the model.
- The projections take ages as whole years (`Event.age`, the current, retirement and plan-end ages). The page reads them with `Number()`, so a fractional age is accepted there; with one, an event's one-time cost (`ev.age === age`, projections.js line 120) applies only when the fractional parts match, and that case is not modelled.
- CoastFi.ComputeCoast: takes ages as whole years, because `Math.pow` with a fractional exponent is not modelled; "Infinity" when the withdrawal rate is not positive is `None`.
- K401Toggle.K401Form.LoadParams: does not model the `catch` branch (line 81-83), since no step of the model can fail; URL parameters enter as their parsed values.
- The toggle's recalculation trigger (lines 56-64) and the take-home page's debounced recalculation are left out: they only re-run `calculateResults`, which is modelled.
- The projections event rows' field-edit listeners (lines 59-63) are left out: they change one field of an event in place.
- The CSV downloads (`Blob`, object URLs and the link click) are left out.
- NetWorthTracker.StartingItemsNormal: assumes the id generator never gives an empty id; so do NetWorthTracker.UpgradeIsNormalized, NetWorthTracker.NormalizeIdempotent and NetWorthTracker.MigrationKeepsItems. `Math.random().toString(36).slice(2,9)` is empty only when the random number is exactly 0.
- The mix pie chart's per-category grouping (lines 158-182) and the render loops are not modelled.
- The archived toggle copy (`src/archive/take-home-pay-toggle.js`) and `src/legal-footer.js` are not part of this model.

## Findings

| source | as written | input that shows it | evidently intended | confidence | as-written member | corrected member |
|---|---|---|---|---|---|---|
| src/calculators/early-retirement-estimator/early-retirement-estimator.js:94-107 | The age is read as `+value \|\| null`, which is never `NaN`, so the `Number.isNaN` guard always passes. With no age, `null` counts as 0 in the sum. | Age field empty, FI reached at month 120: the note reads "Age at FI ≈ 10.0". | Show the age note only when an age was entered. | high (not executed) | EarlyRetirement.AgeNoteAsWritten, EarlyRetirement.AgeNoteWithoutAge | EarlyRetirement.AgeNote |

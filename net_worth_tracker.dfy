/**
 * The net-worth tracker page: a list of asset and liability items and a month-keyed history of
 * net-worth snapshots, both held in memory and rebuilt or updated by the page's handlers
 * (`net-worth-tracker.inline.js`).
 */
module NetWorthTracker {
  import opened Wrappers
  import opened Seqs
  import Text
  import Csv

  /**
   * An item as it comes out of storage: any field may be missing. A missing or empty string
   * and a missing or non-numeric amount are `None`-like (`TextOr`, `GetOr`); `countsFi` is
   * `None` when the stored value is not a boolean.
   */
  datatype RawItem = RawItem(id: Option<string>, kind: Option<string>, name: Option<string>,
                             amount: Option<real>, category: Option<string>, countsFi: Option<bool>)

  /** An item of the list; `kind` is the item's `type` ("asset", anything else is a liability). */
  datatype Item = Item(id: string, kind: string, name: string, amount: real, category: string, countsFi: bool)

  /** One history entry: the month it belongs to, as an ordered key, and the net worth then. */
  datatype Snapshot = Snapshot(month: int, netWorth: real)

  datatype Totals = Totals(assets: real, liabs: real, net: real, fiElig: real)

  /** The fields of the quick-add row or of the edit dialog. */
  datatype ItemForm = ItemForm(kind: string, category: string, name: string, amount: Option<real>, countsFi: string)

  /** `s || d` for a string field: the default replaces a missing or empty string. */
  function TextOr(s: Option<string>, d: string): string
  {
    if s.Some? && s.value != "" then s.value else d
  }

  /** How `stored || d` reads a text field: a stored non-empty value is kept, a missing or empty one becomes `d`. */
  predicate KeptOrDefault(stored: Option<string>, d: string, v: string)
  {
    (stored.Some? && stored.value != "" ==> v == stored.value)
    && (stored.None? || stored.value == "" ==> v == d)
  }

  predicate IsAsset(it: Item)
  {
    it.kind == "asset"
  }

  /** The shape every item has once loading is done: no blank field, and homes and cars never count toward FI. */
  predicate Normal(it: Item)
  {
    it.id != "" && it.kind != "" && it.name != "" && it.category != ""
    && (it.category == "Home Equity" || it.category == "Car" ==> !it.countsFi)
  }

  /** An item written back to storage and read again. */
  function Raw(it: Item): RawItem
  {
    RawItem(Some(it.id), Some(it.kind), Some(it.name), Some(it.amount), Some(it.category), Some(it.countsFi))
  }

  function Raws(s: seq<Item>): (r: seq<RawItem>)
    ensures |r| == |s|
  {
    seq(|s|, j requires 0 <= j < |s| => Raw(s[j]))
  }

  // ---------------------------------------------------------------------------------------------
  // Loading: migration of the version-1 list, normalisation, seeding

  /**
   * Version-1 to version-2 upgrade of one stored item: missing fields get their defaults, the
   * category becomes "Other" and the item counts toward FI.
   */
  function Upgrade(raw: RawItem, freshId: string): (it: Item)
    ensures KeptOrDefault(raw.id, freshId, it.id) && KeptOrDefault(raw.kind, "asset", it.kind)
    ensures KeptOrDefault(raw.name, "Item", it.name)
    ensures raw.amount.Some? ==> it.amount == raw.amount.value
    ensures raw.amount.None? ==> it.amount == 0.0
    ensures it.category == "Other" && it.countsFi
    ensures freshId != "" ==> Normal(it)
  {
    Item(TextOr(raw.id, freshId), TextOr(raw.kind, "asset"), TextOr(raw.name, "Item"),
         raw.amount.GetOr(0.0), "Other", true)
  }

  /**
   * Normalisation of one stored item on load: defaults as in `Upgrade`, the stored category or
   * "Other", and `countsFi` forced off for "Home Equity" and "Car", kept when it is a boolean,
   * and on otherwise.
   */
  function Normalize(raw: RawItem, freshId: string): (it: Item)
    ensures KeptOrDefault(raw.id, freshId, it.id) && KeptOrDefault(raw.kind, "asset", it.kind)
    ensures KeptOrDefault(raw.name, "Item", it.name) && KeptOrDefault(raw.category, "Other", it.category)
    ensures raw.amount.Some? ==> it.amount == raw.amount.value
    ensures raw.amount.None? ==> it.amount == 0.0
    ensures raw.category == Some("Home Equity") || raw.category == Some("Car") ==> !it.countsFi
    ensures it.category != "Home Equity" && it.category != "Car" ==> it.countsFi == raw.countsFi.GetOr(true)
    ensures freshId != "" ==> Normal(it)
  {
    var category := TextOr(raw.category, "Other");
    Item(TextOr(raw.id, freshId), TextOr(raw.kind, "asset"), TextOr(raw.name, "Item"),
         raw.amount.GetOr(0.0), category,
         if raw.category == Some("Home Equity") || raw.category == Some("Car") then false
         else raw.countsFi.GetOr(true))
  }

  function Upgraded(raws: seq<RawItem>, uid: nat -> string): (r: seq<Item>)
    ensures |r| == |raws|
  {
    seq(|raws|, j requires 0 <= j < |raws| => Upgrade(raws[j], uid(j)))
  }

  function Normalized(raws: seq<RawItem>, uid: nat -> string): (r: seq<Item>)
    ensures |r| == |raws|
  {
    seq(|raws|, j requires 0 <= j < |raws| => Normalize(raws[j], uid(j)))
  }

  /** The migration loop: one upgraded item per stored item, in the stored order. */
  method Migrate(v1: seq<RawItem>, uid: nat -> string) returns (upgraded: seq<Item>)
    ensures upgraded == Upgraded(v1, uid)
  {
    upgraded := [];
    var j := 0;
    while j < |v1|
      invariant 0 <= j <= |v1|
      invariant |upgraded| == j
      invariant forall k :: 0 <= k < j ==> upgraded[k] == Upgrade(v1[k], uid(k))
    {
      upgraded := upgraded + [Upgrade(v1[j], uid(j))];
      j := j + 1;
    }
  }

  /** The normalisation loop: one normalised item per loaded item, in the loaded order. */
  method NormalizeAll(raws: seq<RawItem>, uid: nat -> string) returns (normalized: seq<Item>)
    ensures normalized == Normalized(raws, uid)
  {
    normalized := [];
    var j := 0;
    while j < |raws|
      invariant 0 <= j <= |raws|
      invariant |normalized| == j
      invariant forall k :: 0 <= k < j ==> normalized[k] == Normalize(raws[k], uid(k))
    {
      normalized := normalized + [Normalize(raws[j], uid(j))];
      j := j + 1;
    }
  }

  /** The four items an empty list is seeded with. */
  function Seed(uid: nat -> string): (r: seq<Item>)
    ensures |r| == 4
  {
    [ Item(uid(0), "asset", "Checking", 3000.0, "Checking", true),
      Item(uid(1), "asset", "Brokerage", 15000.0, "Brokerage", true),
      Item(uid(2), "asset", "Home Equity", 80000.0, "Home Equity", false),
      Item(uid(3), "liability", "Credit Card", 500.0, "Other", false) ]
  }

  /**
   * The stored list as loading finds it: the version-2 list when there is one, else the
   * upgraded version-1 list, else nothing.
   */
  function Stored(v2: Option<seq<RawItem>>, v1: Option<seq<RawItem>>, uid: nat -> string): seq<RawItem>
  {
    if v2.Some? then v2.value
    else if v1.Some? then Raws(Upgraded(v1.value, uid))
    else []
  }

  /** The item list the page starts with: the stored list normalised, or the seed when it is empty. */
  function StartingItems(v2: Option<seq<RawItem>>, v1: Option<seq<RawItem>>, uid: nat -> string): (r: seq<Item>)
    ensures |r| > 0
    ensures |Stored(v2, v1, uid)| > 0 ==> |r| == |Stored(v2, v1, uid)|
  {
    var stored := Stored(v2, v1, uid);
    if |stored| > 0 then Normalized(stored, uid) else Seed(uid)
  }

  /** Every item the page starts with is in normal shape, whatever storage held. */
  lemma StartingItemsNormal(v2: Option<seq<RawItem>>, v1: Option<seq<RawItem>>, uid: nat -> string)
    requires forall n: nat :: uid(n) != ""
    ensures forall j :: 0 <= j < |StartingItems(v2, v1, uid)| ==> Normal(StartingItems(v2, v1, uid)[j])
  {
    var stored := Stored(v2, v1, uid);
    var r := StartingItems(v2, v1, uid);
    if |stored| > 0 {
      forall j | 0 <= j < |r|
        ensures Normal(r[j])
      {
        assert r[j] == Normalize(stored[j], uid(j));
      }
    } else {
      assert r == Seed(uid);
    }
  }

  /** An upgraded item is already normal: normalising it again changes nothing. */
  lemma UpgradeIsNormalized(raw: RawItem, freshId: string, laterId: string)
    requires freshId != ""
    ensures Normalize(Raw(Upgrade(raw, freshId)), laterId) == Upgrade(raw, freshId)
  {
  }

  /** Normalisation is idempotent: a normalised item survives a reload unchanged. */
  lemma NormalizeIdempotent(raw: RawItem, freshId: string, laterId: string)
    requires freshId != ""
    ensures Normalize(Raw(Normalize(raw, freshId)), laterId) == Normalize(raw, freshId)
  {
  }

  /**
   * Migrating a non-empty version-1 list keeps the item count and order: the page starts with
   * exactly the upgraded items.
   */
  lemma MigrationKeepsItems(v1: seq<RawItem>, uid: nat -> string)
    requires forall n: nat :: uid(n) != ""
    requires v1 != []
    ensures StartingItems(None, Some(v1), uid) == Upgraded(v1, uid)
  {
    var up := Upgraded(v1, uid);
    var r := StartingItems(None, Some(v1), uid);
    assert Stored(None, Some(v1), uid) == Raws(up);
    forall j | 0 <= j < |v1|
      ensures r[j] == up[j]
    {
      UpgradeIsNormalized(v1[j], uid(j), uid(j));
    }
  }

  // ---------------------------------------------------------------------------------------------
  // Totals

  /** Adds one item to running totals: assets and FI-eligible assets, or liabilities. */
  function AddItem(t: Totals, it: Item): Totals
  {
    if IsAsset(it) then
      var a := t.assets + it.amount;
      Totals(a, t.liabs, a - t.liabs, if it.countsFi then t.fiElig + it.amount else t.fiElig)
    else
      var l := t.liabs + it.amount;
      Totals(t.assets, l, t.assets - l, t.fiElig)
  }

  /** The totals of a list, accumulated in list order. */
  function TotalsOf(s: seq<Item>): (t: Totals)
    ensures t.net == t.assets - t.liabs
  {
    if s == [] then Totals(0.0, 0.0, 0.0, 0.0) else AddItem(TotalsOf(s[..|s| - 1]), s[|s| - 1])
  }

  /** The sum of every amount in the list, whatever its kind. */
  function AmountSum(s: seq<Item>): real
  {
    if s == [] then 0.0 else s[0].amount + AmountSum(s[1..])
  }

  lemma {:induction false} AmountSumSnoc(s: seq<Item>, it: Item)
    ensures AmountSum(s + [it]) == AmountSum(s) + it.amount
  {
    if s == [] {
      assert [] + [it] == [it];
    } else {
      assert (s + [it])[1..] == s[1..] + [it];
      AmountSumSnoc(s[1..], it);
    }
  }

  /** Every item is either an asset or a liability: assets and liabilities together are all amounts. */
  lemma {:induction false} TotalsPartition(s: seq<Item>)
    ensures TotalsOf(s).assets + TotalsOf(s).liabs == AmountSum(s)
  {
    if s != [] {
      var init := s[..|s| - 1];
      TotalsPartition(init);
      AmountSumSnoc(init, s[|s| - 1]);
      assert init + [s[|s| - 1]] == s;
    }
  }

  /** With non-negative amounts the FI-eligible total is between zero and the asset total. */
  lemma {:induction false} FiWithinAssets(s: seq<Item>)
    requires forall j :: 0 <= j < |s| ==> s[j].amount >= 0.0
    ensures 0.0 <= TotalsOf(s).fiElig <= TotalsOf(s).assets
  {
    if s != [] {
      FiWithinAssets(s[..|s| - 1]);
    }
  }

  /** Appending an item moves the net worth by its amount: up for an asset, down otherwise. */
  lemma AppendNet(s: seq<Item>, it: Item)
    ensures TotalsOf(s + [it]).net == TotalsOf(s).net + (if IsAsset(it) then it.amount else -it.amount)
  {
    assert (s + [it])[..|s|] == s;
  }

  /** The seed list: 98,000 of assets, 500 of liabilities, 18,000 FI-eligible. */
  lemma SeedTotals(uid: nat -> string)
    ensures TotalsOf(Seed(uid)) == Totals(98000.0, 500.0, 97500.0, 18000.0)
  {
    var s := Seed(uid);
    assert s[..1][..0] == [] && s[..2][..1] == s[..1] && s[..3][..2] == s[..2] && s[..4] == s && s[..4][..3] == s[..3];
    assert TotalsOf(s[..1]) == Totals(3000.0, 0.0, 3000.0, 3000.0);
    assert TotalsOf(s[..2]) == Totals(18000.0, 0.0, 18000.0, 18000.0);
    assert TotalsOf(s[..3]) == Totals(98000.0, 0.0, 98000.0, 18000.0);
  }

  // ---------------------------------------------------------------------------------------------
  // HTML escaping

  /** The entity an item's text character is written as inside the lists' HTML. */
  function EscapeChar(c: char): string
  {
    if c == '&' then "&amp;"
    else if c == '<' then "&lt;"
    else if c == '>' then "&gt;"
    else if c == '"' then "&quot;"
    else if c == '\'' then "&#39;"
    else [c]
  }

  predicate Special(c: char)
  {
    c == '&' || c == '<' || c == '>' || c == '"' || c == '\''
  }

  /** `escapeHtml`: each of the five HTML-special characters replaced by its entity. */
  function EscapeHtml(s: string): (r: string)
    ensures |r| >= |s|
    ensures forall j :: 0 <= j < |r| ==> r[j] != '<' && r[j] != '>' && r[j] != '"' && r[j] != '\''
  {
    if s == [] then [] else EscapeChar(s[0]) + EscapeHtml(s[1..])
  }

  /** Reads the five entities back; every other character stands for itself. */
  function UnescapeHtml(t: string): string
  {
    if t == [] then []
    else if |t| >= 5 && t[..5] == "&amp;" then ['&'] + UnescapeHtml(t[5..])
    else if |t| >= 4 && t[..4] == "&lt;" then ['<'] + UnescapeHtml(t[4..])
    else if |t| >= 4 && t[..4] == "&gt;" then ['>'] + UnescapeHtml(t[4..])
    else if |t| >= 6 && t[..6] == "&quot;" then ['"'] + UnescapeHtml(t[6..])
    else if |t| >= 5 && t[..5] == "&#39;" then ['\''] + UnescapeHtml(t[5..])
    else [t[0]] + UnescapeHtml(t[1..])
  }

  /** Reading back an escaped character gives the character, whatever follows it. */
  lemma UnescapeSpecial(c: char, rest: string)
    requires Special(c)
    ensures UnescapeHtml(EscapeChar(c) + rest) == [c] + UnescapeHtml(rest)
  {
    var t := EscapeChar(c) + rest;
    if c == '&' {
      assert t[..5] == "&amp;" && t[5..] == rest;
    } else {
      assert !(|t| >= 5 && t[..5] == "&amp;") by {
        if |t| >= 5 { assert t[..5][1] == t[1] != 'a'; }
      }
      if c == '<' {
        assert t[..4] == "&lt;" && t[4..] == rest;
      } else {
        assert !(|t| >= 4 && t[..4] == "&lt;") by {
          if |t| >= 4 { assert t[..4][1] == t[1] != 'l'; }
        }
        if c == '>' {
          assert t[..4] == "&gt;" && t[4..] == rest;
        } else {
          assert !(|t| >= 4 && t[..4] == "&gt;") by {
            if |t| >= 4 { assert t[..4][1] == t[1] != 'g'; }
          }
          if c == '"' {
            assert t[..6] == "&quot;" && t[6..] == rest;
          } else {
            assert !(|t| >= 6 && t[..6] == "&quot;") by {
              if |t| >= 6 { assert t[..6][1] == t[1] != 'q'; }
            }
            assert t[..5] == "&#39;" && t[5..] == rest;
          }
        }
      }
    }
  }

  /** A character that is not special reads back as itself. */
  lemma UnescapePlain(c: char, rest: string)
    requires !Special(c)
    ensures UnescapeHtml([c] + rest) == [c] + UnescapeHtml(rest)
  {
    var t := [c] + rest;
    assert t[0] == c && t[1..] == rest;
  }

  /** Escaping loses nothing: reading the entities back gives the original text. */
  lemma {:induction false} EscapeRoundTrip(s: string)
    ensures UnescapeHtml(EscapeHtml(s)) == s
  {
    if s != [] {
      var c := s[0];
      EscapeRoundTrip(s[1..]);
      if Special(c) {
        UnescapeSpecial(c, EscapeHtml(s[1..]));
      } else {
        UnescapePlain(c, EscapeHtml(s[1..]));
      }
      assert [c] + s[1..] == s;
    }
  }

  /** Text without special characters is written unchanged. */
  lemma {:induction false} EscapePlainText(s: string)
    requires forall j :: 0 <= j < |s| ==> !Special(s[j])
    ensures EscapeHtml(s) == s
  {
    if s != [] {
      EscapePlainText(s[1..]);
      assert [s[0]] + s[1..] == s;
    }
  }

  // ---------------------------------------------------------------------------------------------
  // Item forms, deletion, replacement

  /**
   * The item a form describes: the category or "Other"; the trimmed name, or "Asset" /
   * "Liability" when it is blank; the amount or 0; FI only for an asset whose choice is "yes".
   */
  function FormEntry(id: string, f: ItemForm): (e: Item)
    ensures e.id == id && e.kind == f.kind && e.category != "" && e.name != ""
    ensures e.category == (if f.category == "" then "Other" else f.category)
    ensures e.amount == f.amount.GetOr(0.0)
    ensures e.countsFi <==> IsAsset(e) && f.countsFi == "yes"
    ensures Text.Trim(f.name) == "" ==> e.name == (if f.kind == "asset" then "Asset" else "Liability")
    ensures Text.Trim(f.name) != "" ==> e.name == Text.Trim(f.name)
  {
    var trimmed := Text.Trim(f.name);
    Item(id, f.kind, if trimmed == "" then (if f.kind == "asset" then "Asset" else "Liability") else trimmed,
         f.amount.GetOr(0.0), if f.category == "" then "Other" else f.category,
         f.kind == "asset" && f.countsFi == "yes")
  }

  /**
   * The quick-add row does not apply the load-time rule for homes and cars: an asset added under
   * "Home Equity" with FI "yes" counts toward FI until the next load normalises it.
   */
  lemma HomeEquityCountsUntilReload(id: string, f: ItemForm)
    requires id != "" && f.kind == "asset" && f.category == "Home Equity" && f.countsFi == "yes"
    ensures FormEntry(id, f).countsFi
    ensures !Normalize(Raw(FormEntry(id, f)), id).countsFi
  {
  }

  /** The filter the delete handler applies: every item whose id differs from `id`. */
  function KeepsOthers(id: string): Item -> bool
  {
    (it: Item) => it.id != id
  }

  /** The edit handler's list: each item with the entry's id replaced by the entry. */
  function ReplaceById(s: seq<Item>, e: Item): (r: seq<Item>)
    ensures |r| == |s|
    ensures forall j :: 0 <= j < |s| ==> r[j].id == s[j].id
    ensures forall j :: 0 <= j < |s| && s[j].id == e.id ==> r[j] == e
    ensures forall j :: 0 <= j < |s| && s[j].id != e.id ==> r[j] == s[j]
  {
    seq(|s|, j requires 0 <= j < |s| => if s[j].id == e.id then e else s[j])
  }

  /** The delete handler's list: the items whose id differs from `id`, in their order. */
  function Without(s: seq<Item>, id: string): (r: seq<Item>)
    ensures forall x :: x in r ==> x in s && x.id != id
    ensures forall x :: x in s && x.id != id ==> x in r
  {
    Filter(s, KeepsOthers(id))
  }

  /** Deleting an id no item has changes nothing. */
  lemma DeleteUnknown(s: seq<Item>, id: string)
    requires forall j :: 0 <= j < |s| ==> s[j].id != id
    ensures Filter(s, KeepsOthers(id)) == s
  {
    FilterKeepsAll(s, KeepsOthers(id));
  }

  /** After a delete no item has the id, and every other item is still there. */
  lemma DeleteRemovesId(s: seq<Item>, id: string)
    ensures forall x :: x in Filter(s, KeepsOthers(id)) ==> x.id != id
    ensures forall x :: x in s && x.id != id ==> x in Filter(s, KeepsOthers(id))
  {
  }

  /** Replacing by an id no item has changes nothing. */
  lemma ReplaceUnknown(s: seq<Item>, e: Item)
    requires forall j :: 0 <= j < |s| ==> s[j].id != e.id
    ensures ReplaceById(s, e) == s
  {
  }

  /** Submitting the same edit twice is the same as submitting it once. */
  lemma ReplaceIdempotent(s: seq<Item>, e: Item)
    ensures ReplaceById(ReplaceById(s, e), e) == ReplaceById(s, e)
  {
  }

  // ---------------------------------------------------------------------------------------------
  // History

  /** The order the history is sorted in: by month, earliest first. */
  function MonthKey(h: Snapshot): real
  {
    h.month as real
  }

  predicate DistinctMonths(h: seq<Snapshot>)
  {
    forall i, j :: 0 <= i < j < |h| ==> h[i].month != h[j].month
  }

  /** The first position holding month `m`, or -1. */
  function IndexOfMonth(h: seq<Snapshot>, m: int): (r: int)
    ensures -1 <= r < |h|
    ensures r >= 0 ==> h[r].month == m && forall j :: 0 <= j < r ==> h[j].month != m
    ensures r == -1 ==> forall j :: 0 <= j < |h| ==> h[j].month != m
  {
    if h == [] then -1
    else if h[0].month == m then 0
    else
      var r := IndexOfMonth(h[1..], m);
      if r < 0 then -1 else r + 1
  }

  /** The snapshot handler's update before sorting: replace the month's first entry, else append. */
  function Upsert(h: seq<Snapshot>, e: Snapshot): (r: seq<Snapshot>)
    ensures |h| <= |r| <= |h| + 1
    ensures e in r
    ensures forall x :: x in r ==> x in h || x == e
    ensures forall j :: 0 <= j < |h| && h[j].month != e.month ==> h[j] in r
  {
    var idx := IndexOfMonth(h, e.month);
    if idx >= 0 then
      assert h[idx := e][idx] == e;
      assert forall j :: 0 <= j < |h| && j != idx ==> h[idx := e][j] == h[j];
      h[idx := e]
    else h + [e]
  }

  /** A history with one entry per month keeps one entry per month after a snapshot. */
  lemma UpsertDistinct(h: seq<Snapshot>, e: Snapshot)
    requires DistinctMonths(h)
    ensures DistinctMonths(Upsert(h, e))
  {
  }

  /**
   * After a snapshot taken on a history with one entry per month, the history is strictly
   * ordered by month, holds the new entry, and still holds every other month's entry.
   */
  lemma SnapshotHistory(h: seq<Snapshot>, e: Snapshot)
    requires DistinctMonths(h)
    ensures StrictlySortedBy(SortBy(Upsert(h, e), MonthKey), MonthKey)
    ensures e in SortBy(Upsert(h, e), MonthKey)
    ensures forall x :: x in h && x.month != e.month ==> x in SortBy(Upsert(h, e), MonthKey)
  {
    var u := Upsert(h, e);
    UpsertDistinct(h, e);
    SortByStrict(u, MonthKey);
    SortByMembers(u, MonthKey);
  }

  // ---------------------------------------------------------------------------------------------
  // CSV export

  /** The export's rows: the header, then the date text and the number text of each entry. */
  function CsvRows(h: seq<Snapshot>, dateText: int -> string, numberText: real -> string): (rows: seq<seq<string>>)
    ensures |rows| == |h| + 1
  {
    [["Date", "Net Worth"]]
    + seq(|h|, j requires 0 <= j < |h| => [dateText(h[j].month), numberText(h[j].netWorth)])
  }

  /**
   * The export reads back line by line and field by field: when no date or number text holds a
   * comma or a line break, splitting the file on line breaks gives the header and one line per
   * entry, and splitting an entry's line on commas gives its date and number.
   */
  lemma ExportReadsBack(h: seq<Snapshot>, dateText: int -> string, numberText: real -> string, header: string)
    requires header == "Date,Net Worth"
    requires forall j :: 0 <= j < |h| ==> '\n' !in dateText(h[j].month) && ',' !in dateText(h[j].month)
    requires forall j :: 0 <= j < |h| ==> '\n' !in numberText(h[j].netWorth) && ',' !in numberText(h[j].netWorth)
    ensures Csv.Split(Csv.Join(Csv.Lines(CsvRows(h, dateText, numberText), ','), '\n'), '\n')
         == Csv.Lines(CsvRows(h, dateText, numberText), ',')
    ensures Csv.Lines(CsvRows(h, dateText, numberText), ',')[0] == header
    ensures forall j :: 0 <= j < |h| ==>
              Csv.Split(Csv.Lines(CsvRows(h, dateText, numberText), ',')[j + 1], ',')
              == [dateText(h[j].month), numberText(h[j].netWorth)]
  {
    var rows := CsvRows(h, dateText, numberText);
    assert ["Date", "Net Worth"][1..] == ["Net Worth"];
    assert Csv.Join(rows[0], ',') == header;
    forall r, j | 0 <= r < |rows| && 0 <= j < |rows[r]|
      ensures ',' !in rows[r][j] && '\n' !in rows[r][j]
    {
      if r > 0 {
        assert rows[(r - 1) + 1] == [dateText(h[r - 1].month), numberText(h[r - 1].netWorth)];
      }
    }
    Csv.TableReadsBack(rows, ',', '\n');
    forall j | 0 <= j < |h|
      ensures rows[j + 1] == [dateText(h[j].month), numberText(h[j].netWorth)]
    {
    }
  }

  /** The export's first loop: the header row, then one row per entry in history order. */
  method BuildRows(h: seq<Snapshot>, dateText: int -> string, numberText: real -> string) returns (rows: seq<seq<string>>)
    ensures rows == CsvRows(h, dateText, numberText)
  {
    rows := [["Date", "Net Worth"]];
    var i := 0;
    while i < |h|
      invariant 0 <= i <= |h|
      invariant |rows| == i + 1 && rows[0] == ["Date", "Net Worth"]
      invariant forall j :: 0 <= j < i ==> rows[j + 1] == [dateText(h[j].month), numberText(h[j].netWorth)]
    {
      rows := rows + [[dateText(h[i].month), numberText(h[i].netWorth)]];
      i := i + 1;
    }
  }

  /**
   * The export's second loop: each row joined with commas, followed by a line break unless it is
   * the last row; the result is the lines joined with line breaks.
   */
  method JoinRows(rows: seq<seq<string>>) returns (csv: string)
    ensures csv == Csv.Join(Csv.Lines(rows, ','), '\n')
  {
    ghost var lines := Csv.Lines(rows, ',');
    csv := "";
    var r := 0;
    while r < |rows|
      invariant 0 <= r <= |rows|
      invariant r == 0 ==> csv == ""
      invariant r > 0 ==> csv == Csv.Join(lines[..r], '\n') + (if r < |rows| then "\n" else "")
    {
      var line := Csv.Join(rows[r], ',');
      assert line == lines[r];
      if r > 0 {
        Csv.JoinSnoc(lines[..r], line, '\n');
        assert lines[..r + 1] == lines[..r] + [line];
      } else {
        assert lines[..1] == [line];
      }
      csv := csv + line + (if r < |rows| - 1 then "\n" else "");
      r := r + 1;
    }
    assert lines[..r] == lines;
  }

  // ---------------------------------------------------------------------------------------------
  // The page's state

  class Tracker {
    var items: seq<Item>
    var history: seq<Snapshot>

    /**
     * Page start: load (migrating a version-1 list when there is no version-2 one), normalise a
     * non-empty list, seed an empty one, and take the stored history as it is.
     */
    constructor (v2: Option<seq<RawItem>>, v1: Option<seq<RawItem>>, storedHistory: seq<Snapshot>, uid: nat -> string)
      ensures items == StartingItems(v2, v1, uid)
      ensures history == storedHistory
    {
      var stored: seq<RawItem>;
      if v2.Some? {
        stored := v2.value;
      } else if v1.Some? {
        var upgraded := Migrate(v1.value, uid);
        stored := Raws(upgraded);
      } else {
        stored := [];
      }
      var loaded: seq<Item> := [];
      if |stored| > 0 {
        loaded := NormalizeAll(stored, uid);
      }
      if |loaded| == 0 {
        loaded := Seed(uid);
      }
      items := loaded;
      history := storedHistory;
    }

    /** `computeTotals`: one pass over the items accumulating assets, liabilities and FI assets. */
    method ComputeTotals() returns (t: Totals)
      ensures t == TotalsOf(items)
      ensures t.net == t.assets - t.liabs
    {
      var a, l, f := 0.0, 0.0, 0.0;
      var j := 0;
      while j < |items|
        invariant 0 <= j <= |items|
        invariant TotalsOf(items[..j]) == Totals(a, l, a - l, f)
      {
        var it := items[j];
        assert items[..j + 1][..j] == items[..j];
        if it.kind == "asset" {
          a := a + it.amount;
          if it.countsFi {
            f := f + it.amount;
          }
        } else {
          l := l + it.amount;
        }
        j := j + 1;
      }
      assert items[..j] == items;
      t := Totals(a, l, a - l, f);
    }

    /** `addQuick`: the form's entry, under a uid id, appended after every existing item. */
    method AddQuick(form: ItemForm, freshId: string)
      modifies this
      ensures items == old(items) + [FormEntry(freshId, form)]
      ensures history == old(history)
    {
      var entry := FormEntry(freshId, form);
      items := items + [entry];
    }

    /**
     * The delete button: nothing happens when no item has the id; otherwise the list is rebuilt
     * from every item with a different id, in order.
     */
    method Delete(id: string)
      modifies this
      ensures items == Without(old(items), id)
      ensures history == old(history)
    {
      var found := false;
      var i := 0;
      while i < |items|
        invariant 0 <= i <= |items|
        invariant !found
        invariant forall j :: 0 <= j < i ==> items[j].id != id
      {
        if items[i].id == id {
          found := true;
          break;
        }
        i := i + 1;
      }
      if !found {
        DeleteUnknown(items, id);
        return;
      }
      var next: seq<Item> := [];
      var j := 0;
      while j < |items|
        invariant 0 <= j <= |items|
        invariant unchanged(this)
        invariant next == Filter(items[..j], KeepsOthers(id))
      {
        FilterSnoc(items, j, KeepsOthers(id));
        if items[j].id != id {
          next := next + [items[j]];
        }
        j := j + 1;
      }
      assert items[..j] == items;
      items := next;
    }

    /**
     * The edit dialog's submit: the trimmed id and the form's entry; every item with that id is
     * replaced by the entry and every other item is kept in place.
     */
    method Edit(idText: string, form: ItemForm)
      modifies this
      ensures items == ReplaceById(old(items), FormEntry(Text.Trim(idText), form))
      ensures history == old(history)
    {
      var id := Text.Trim(idText);
      var entry := FormEntry(id, form);
      var updated: seq<Item> := [];
      var i := 0;
      while i < |items|
        invariant 0 <= i <= |items|
        invariant |updated| == i
        invariant forall j :: 0 <= j < i ==> updated[j] == if items[j].id == id then entry else items[j]
      {
        updated := updated + [if items[i].id == id then entry else items[i]];
        i := i + 1;
      }
      items := updated;
    }

    /**
     * The snapshot button: the current net worth under the month's key replaces that month's
     * first entry or is appended, and the history is then sorted by month.
     */
    method TakeSnapshot(month: int)
      modifies this
      ensures items == old(items)
      ensures history == SortBy(Upsert(old(history), Snapshot(month, TotalsOf(old(items)).net)), MonthKey)
    {
      var t := ComputeTotals();
      var idx := -1;
      var i := 0;
      while i < |history|
        invariant 0 <= i <= |history|
        invariant forall j :: 0 <= j < i ==> history[j].month != month
      {
        if history[i].month == month {
          idx := i;
          break;
        }
        i := i + 1;
      }
      assert idx == IndexOfMonth(history, month);
      var entry := Snapshot(month, t.net);
      if idx >= 0 {
        history := history[idx := entry];
      } else {
        history := history + [entry];
      }
      history := SortBy(history, MonthKey);
    }

    /**
     * `doExportCsv`: the header row and one row per history entry, each row joined with commas
     * and the rows joined with line breaks, with none after the last.
     */
    method ExportCsv(dateText: int -> string, numberText: real -> string) returns (csv: string)
      ensures csv == Csv.Join(Csv.Lines(CsvRows(history, dateText, numberText), ','), '\n')
    {
      var rows := BuildRows(history, dateText, numberText);
      csv := JoinRows(rows);
    }
  }
}

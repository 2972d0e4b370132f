/**
 * Reading decimal numbers out of text: the global match of `(\d+(\.\d+)?)` that pulls the
 * figures out of an employer-match policy, and the subset of `Number(str)` that reads a
 * plain decimal literal.
 */
module Decimal {
  import opened Wrappers
  import Text

  predicate IsDigit(c: char) { '0' <= c <= '9' }

  predicate AllDigits(s: string) { forall j :: 0 <= j < |s| ==> IsDigit(s[j]) }

  predicate NoDigits(s: string) { forall j :: 0 <= j < |s| ==> !IsDigit(s[j]) }

  function DigitValue(c: char): (d: nat)
    requires IsDigit(c)
    ensures d <= 9
  {
    c as int - '0' as int
  }

  function DigitChar(d: nat): (c: char)
    requires d <= 9
    ensures IsDigit(c) && DigitValue(c) == d
  {
    ('0' as int + d) as char
  }

  /** The length of the run of digits `s` starts with. */
  function DigitRun(s: string): (k: nat)
    ensures k <= |s|
    ensures AllDigits(s[..k])
    ensures k == |s| || !IsDigit(s[k])
  {
    if s == [] || !IsDigit(s[0]) then 0
    else
      var k := 1 + DigitRun(s[1..]);
      assert s[..k] == [s[0]] + s[1..][..k - 1];
      k
  }

  /** The whole number a run of digits denotes, most significant digit first. */
  function DigitsValue(s: string): nat
    requires AllDigits(s)
  {
    if s == [] then 0 else 10 * DigitsValue(s[..|s| - 1]) + DigitValue(s[|s| - 1])
  }

  /** The value of the digits `s` written after a decimal point. */
  function FractionValue(s: string): (f: real)
    requires AllDigits(s)
    ensures 0.0 <= f < 1.0
  {
    if s == [] then 0.0 else (DigitValue(s[0]) as real + FractionValue(s[1..])) / 10.0
  }

  /**
   * `(s.match(/(\d+(\.\d+)?)/g) || []).map(Number)`: scanning left to right, each maximal run of
   * digits is a match, extended by a point and a further run of digits when they follow;
   * scanning resumes after the match. Every figure found is non-negative, and there are at
   * most as many as there are characters.
   */
  function ScanNumbers(s: string): (ns: seq<real>)
    ensures |ns| <= |s|
    ensures forall j :: 0 <= j < |ns| ==> ns[j] >= 0.0
    decreases |s|
  {
    if s == [] then []
    else if !IsDigit(s[0]) then ScanNumbers(s[1..])
    else
      var k := DigitRun(s);
      var whole := DigitsValue(s[..k]) as real;
      if k + 1 < |s| && s[k] == '.' && IsDigit(s[k + 1]) then
        var f := DigitRun(s[k + 1..]);
        [whole + FractionValue(s[k + 1..][..f])] + ScanNumbers(s[k + 1 + f..])
      else
        [whole] + ScanNumbers(s[k..])
  }

  /** The decimal numeral of `n`, without leading zeros. */
  function NatText(n: nat): (t: string)
    ensures t != [] && AllDigits(t)
    ensures DigitsValue(t) == n
  {
    if n < 10 then [DigitChar(n)]
    else
      var t := NatText(n / 10) + [DigitChar(n % 10)];
      assert t[..|t| - 1] == NatText(n / 10);
      t
  }

  lemma {:induction false} DigitRunOf(d: string, rest: string)
    requires AllDigits(d)
    requires rest == [] || !IsDigit(rest[0])
    ensures DigitRun(d + rest) == |d|
  {
    if d != [] {
      assert (d + rest)[1..] == d[1..] + rest;
      DigitRunOf(d[1..], rest);
    } else {
      assert d + rest == rest;
    }
  }

  /** Text without digits contributes no figures. */
  lemma {:induction false} ScanSkips(t: string, s: string)
    requires NoDigits(t)
    ensures ScanNumbers(t + s) == ScanNumbers(s)
  {
    if t == [] {
      assert t + s == s;
    } else {
      assert (t + s)[1..] == t[1..] + s;
      ScanSkips(t[1..], s);
    }
  }

  /** A run of digits not followed by a point and a digit is read as one whole number. */
  lemma ScanWhole(d: string, rest: string)
    requires d != [] && AllDigits(d)
    requires rest == [] || !IsDigit(rest[0])
    requires rest == [] || rest[0] != '.' || |rest| == 1 || !IsDigit(rest[1])
    ensures ScanNumbers(d + rest) == [DigitsValue(d) as real] + ScanNumbers(rest)
  {
    var s := d + rest;
    DigitRunOf(d, rest);
    assert s[..|d|] == d;
    assert s[|d|..] == rest;
  }

  /** A figure followed by a separator without digits that does not start with a point. */
  lemma ScanFigureThen(d: string, sep: string, rest: string)
    requires d != [] && AllDigits(d)
    requires sep != [] && NoDigits(sep) && sep[0] != '.'
    ensures ScanNumbers(d + (sep + rest)) == [DigitsValue(d) as real] + ScanNumbers(rest)
  {
    ScanWhole(d, sep + rest);
    ScanSkips(sep, rest);
  }

  /** A last figure followed only by text without digits. */
  lemma ScanFigureLast(d: string, sep: string)
    requires d != [] && AllDigits(d)
    requires NoDigits(sep) && (sep == [] || sep[0] != '.')
    ensures ScanNumbers(d + sep) == [DigitsValue(d) as real]
  {
    ScanWhole(d, sep);
    ScanSkips(sep, []);
    assert sep + [] == sep;
  }

  /** `ns.join(sep)` for whole numbers, with `sep` holding no digit and not starting with a point. */
  function Render(ns: seq<nat>, sep: string): string
  {
    if |ns| == 0 then []
    else if |ns| == 1 then NatText(ns[0])
    else NatText(ns[0]) + sep + Render(ns[1..], sep)
  }

  /** Whole numbers as reals, in order. */
  function AsReals(ns: seq<nat>): (r: seq<real>)
    ensures |r| == |ns|
    ensures forall j :: 0 <= j < |ns| ==> r[j] == ns[j] as real
  {
    if ns == [] then [] else [ns[0] as real] + AsReals(ns[1..])
  }

  /** Scanning the rendering of whole numbers gives those numbers back. */
  lemma {:induction false} ScanRender(ns: seq<nat>, sep: string)
    requires sep != [] && NoDigits(sep) && sep[0] != '.'
    ensures ScanNumbers(Render(ns, sep)) == AsReals(ns)
  {
    if |ns| == 1 {
      ScanWhole(NatText(ns[0]), []);
      assert NatText(ns[0]) + [] == NatText(ns[0]);
    } else if |ns| > 1 {
      var tail := Render(ns[1..], sep);
      ScanRender(ns[1..], sep);
      ScanWhole(NatText(ns[0]), sep + tail);
      assert NatText(ns[0]) + sep + tail == NatText(ns[0]) + (sep + tail);
      ScanSkips(sep, tail);
    }
  }

  /** The value of an unsigned decimal literal: digits, a point, digits, at least one digit in all. */
  function ParseUnsigned(b: string): (v: Option<real>)
    ensures v.Some? ==> v.value >= 0.0
  {
    var k := DigitRun(b);
    if k == |b| then
      (if k > 0 then Some(DigitsValue(b) as real) else None)
    else if b[k] == '.' then
      var f := DigitRun(b[k + 1..]);
      if k + 1 + f == |b| && (k > 0 || f > 0) then
        Some(DigitsValue(b[..k]) as real + FractionValue(b[k + 1..]))
      else None
    else None
  }

  /**
   * `Number(str)` for decimal literals: surrounding white space is ignored, blank text is 0,
   * an optional sign precedes the digits, and anything else does not parse (`NaN`).
   */
  function ParseNumber(s: string): (v: Option<real>)
    ensures Text.Trim(s) == [] ==> v == Some(0.0)
  {
    var t := Text.Trim(s);
    if t == [] then Some(0.0)
    else if t[0] == '-' then
      match ParseUnsigned(t[1..])
      case Some(x) => Some(-x)
      case None => None
    else if t[0] == '+' then ParseUnsigned(t[1..])
    else ParseUnsigned(t)
  }

  /** `Number` reads back the numeral of a whole number. */
  lemma ParseNatText(n: nat)
    ensures ParseNumber(NatText(n)) == Some(n as real)
  {
    var w := NatText(n);
    Text.TrimUntouched(w);
    DigitRunOf(w, []);
    assert w + [] == w;
  }

  lemma ParseUnsignedParts(t: string, k: nat, f: nat)
    requires k == DigitRun(t) && k < |t| && t[k] == '.'
    requires f == DigitRun(t[k + 1..]) && k + 1 + f == |t| && k > 0
    ensures ParseUnsigned(t) == Some(DigitsValue(t[..k]) as real + FractionValue(t[k + 1..]))
  {
  }

  lemma ParseUnsignedDecimal(w: string, frac: string)
    requires w != [] && AllDigits(w) && AllDigits(frac)
    ensures ParseUnsigned(w + ['.'] + frac) == Some(DigitsValue(w) as real + FractionValue(frac))
  {
    var t := w + ['.'] + frac;
    assert t == w + (['.'] + frac);
    DigitRunOf(w, ['.'] + frac);
    var k := DigitRun(t);
    assert k == |w| && k < |t| && t[k] == '.';
    assert t[k + 1..] == frac;
    DigitRunOf(frac, []);
    assert frac + [] == frac;
    assert t[..k] == w;
    ParseUnsignedParts(t, k, |frac|);
  }

  lemma ParseUnsignedOnly(t: string)
    requires t != [] && IsDigit(t[0]) && Text.Trim(t) == t
    ensures ParseNumber(t) == ParseUnsigned(t)
  {
  }

  lemma ParseDigitsPointDigits(w: string, frac: string)
    requires w != [] && AllDigits(w) && AllDigits(frac)
    ensures ParseNumber(w + ['.'] + frac) == Some(DigitsValue(w) as real + FractionValue(frac))
  {
    var t := w + ['.'] + frac;
    assert !Text.IsSpace(t[|t| - 1]) by {
      if frac == [] { assert t[|t| - 1] == '.'; } else { assert t[|t| - 1] == frac[|frac| - 1]; }
    }
    assert t[0] == w[0] && IsDigit(t[0]);
    Text.TrimUntouched(t);
    ParseUnsignedOnly(t);
    ParseUnsignedDecimal(w, frac);
  }

  /** `Number` reads back a whole number followed by a point and fraction digits. */
  lemma ParseDecimalText(n: nat, frac: string)
    requires AllDigits(frac)
    ensures ParseNumber(NatText(n) + ['.'] + frac) == Some(n as real + FractionValue(frac))
  {
    ParseDigitsPointDigits(NatText(n), frac);
  }
}

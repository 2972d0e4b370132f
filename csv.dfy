/** `Array.prototype.join` and `String.prototype.split` for a one-character separator. */
module Csv {

  /** `parts.join(sep)`: the parts with one separator between neighbours. */
  function Join(parts: seq<string>, sep: char): (r: string)
    ensures |parts| == 1 ==> r == parts[0]
  {
    if |parts| == 0 then []
    else if |parts| == 1 then parts[0]
    else parts[0] + [sep] + Join(parts[1..], sep)
  }

  /** `s.split(sep)`: the pieces between separators; the empty string splits into one empty piece. */
  function Split(s: string, sep: char): (parts: seq<string>)
    ensures |parts| >= 1
    ensures forall j :: 0 <= j < |parts| ==> sep !in parts[j]
  {
    if s == [] then [[]]
    else
      var rest := Split(s[1..], sep);
      if s[0] == sep then [[]] + rest else [[s[0]] + rest[0]] + rest[1..]
  }

  /** Appending one more part adds one separator and that part. */
  lemma {:induction false} JoinSnoc(parts: seq<string>, last: string, sep: char)
    requires |parts| >= 1
    ensures Join(parts + [last], sep) == Join(parts, sep) + [sep] + last
  {
    if |parts| == 1 {
      assert parts + [last] == [parts[0], last];
    } else {
      assert (parts + [last])[1..] == parts[1..] + [last];
      JoinSnoc(parts[1..], last, sep);
    }
  }

  /** Splitting a text that begins with a separator-free piece keeps that piece at the front. */
  lemma {:induction false} SplitPrefix(p: string, tail: string, sep: char)
    requires sep !in p
    ensures Split(p + tail, sep) == [p + Split(tail, sep)[0]] + Split(tail, sep)[1..]
  {
    if p != [] {
      assert (p + tail)[1..] == p[1..] + tail;
      SplitPrefix(p[1..], tail, sep);
      var st := Split(tail, sep);
      var rest := Split(p[1..] + tail, sep);
      assert (p + tail)[0] == p[0] != sep;
      assert Split(p + tail, sep) == [[p[0]] + rest[0]] + rest[1..];
      assert rest[0] == p[1..] + st[0] && rest[1..] == st[1..];
      assert [p[0]] + (p[1..] + st[0]) == p + st[0];
    } else {
      var st := Split(tail, sep);
      assert p + tail == tail;
      assert p + st[0] == st[0];
      assert [st[0]] + st[1..] == st;
    }
  }

  /** Splitting a joined list gives the list back when no part contains the separator. */
  lemma {:induction false} SplitJoin(parts: seq<string>, sep: char)
    requires |parts| >= 1
    requires forall j :: 0 <= j < |parts| ==> sep !in parts[j]
    ensures Split(Join(parts, sep), sep) == parts
  {
    if |parts| == 1 {
      SplitPrefix(parts[0], [], sep);
      assert parts[0] + [] == parts[0];
    } else {
      var tail := Join(parts[1..], sep);
      SplitJoin(parts[1..], sep);
      assert parts[0] + [sep] + tail == parts[0] + ([sep] + tail);
      SplitPrefix(parts[0], [sep] + tail, sep);
      assert ([sep] + tail)[1..] == tail;
      assert Split([sep] + tail, sep) == [[]] + parts[1..];
      assert parts[0] + [] == parts[0];
      assert parts == [parts[0]] + parts[1..];
    }
  }

  /** Each row of a table joined with `sep`. */
  function Lines(rows: seq<seq<string>>, sep: char): (lines: seq<string>)
    ensures |lines| == |rows|
    ensures forall r :: 0 <= r < |rows| ==> lines[r] == Join(rows[r], sep)
  {
    seq(|rows|, r requires 0 <= r < |rows| => Join(rows[r], sep))
  }

  /** Parts free of a character, joined with a different separator, stay free of it. */
  lemma {:induction false} JoinAvoids(parts: seq<string>, sep: char, c: char)
    requires c != sep
    requires forall j :: 0 <= j < |parts| ==> c !in parts[j]
    ensures c !in Join(parts, sep)
  {
    if |parts| > 1 {
      JoinAvoids(parts[1..], sep, c);
    }
  }

  /**
   * A table whose cells hold neither separator reads back: splitting the text on the line
   * separator gives the lines, and splitting each line on the cell separator gives its row.
   */
  lemma TableReadsBack(rows: seq<seq<string>>, cellSep: char, lineSep: char)
    requires cellSep != lineSep && |rows| >= 1
    requires forall r :: 0 <= r < |rows| ==> |rows[r]| >= 1
    requires forall r, j :: 0 <= r < |rows| && 0 <= j < |rows[r]| ==> cellSep !in rows[r][j] && lineSep !in rows[r][j]
    ensures Split(Join(Lines(rows, cellSep), lineSep), lineSep) == Lines(rows, cellSep)
    ensures forall r :: 0 <= r < |rows| ==> Split(Lines(rows, cellSep)[r], cellSep) == rows[r]
  {
    var lines := Lines(rows, cellSep);
    forall r | 0 <= r < |rows|
      ensures lineSep !in lines[r] && Split(lines[r], cellSep) == rows[r]
    {
      JoinAvoids(rows[r], cellSep, lineSep);
      SplitJoin(rows[r], cellSep);
    }
    SplitJoin(lines, lineSep);
  }
}

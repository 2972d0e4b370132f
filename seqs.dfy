/**
 * Sequence operations the calculators use on their lists: `Array.prototype.filter`
 * and the stable `Array.prototype.sort` with a numeric comparator.
 */
module Seqs {

  /** `s.filter(keep)`: the elements `keep` accepts, in their original order. */
  function Filter<T>(s: seq<T>, keep: T -> bool): (r: seq<T>)
    ensures |r| <= |s|
    ensures forall x :: x in r ==> x in s && keep(x)
    ensures forall x :: x in s && keep(x) ==> x in r
  {
    if s == [] then []
    else (if keep(s[0]) then [s[0]] else []) + Filter(s[1..], keep)
  }

  /** Filtering works piecewise, so the kept elements stay in their original order. */
  lemma {:induction false} FilterAppend<T>(a: seq<T>, b: seq<T>, keep: T -> bool)
    ensures Filter(a + b, keep) == Filter(a, keep) + Filter(b, keep)
  {
    if a == [] {
      assert a + b == b;
    } else {
      assert (a + b)[1..] == a[1..] + b;
      FilterAppend(a[1..], b, keep);
    }
  }

  /** Filtering one more element of a prefix appends it exactly when it is kept. */
  lemma FilterSnoc<T>(s: seq<T>, j: nat, keep: T -> bool)
    requires j < |s|
    ensures Filter(s[..j + 1], keep) == Filter(s[..j], keep) + (if keep(s[j]) then [s[j]] else [])
  {
    assert s[..j + 1] == s[..j] + [s[j]];
    FilterAppend(s[..j], [s[j]], keep);
    assert [s[j]][1..] == [];
  }

  /** A filter that rejects nothing returns its input. */
  lemma {:induction false} FilterKeepsAll<T>(s: seq<T>, keep: T -> bool)
    requires forall x :: x in s ==> keep(x)
    ensures Filter(s, keep) == s
  {
    if s != [] {
      FilterKeepsAll(s[1..], keep);
    }
  }

  /** The keys of `s` never decrease. */
  ghost predicate SortedBy<T>(s: seq<T>, key: T -> real)
  {
    forall i, j :: 0 <= i < j < |s| ==> key(s[i]) <= key(s[j])
  }

  /** The keys of `s` strictly increase, so no key occurs twice. */
  ghost predicate StrictlySortedBy<T>(s: seq<T>, key: T -> real)
  {
    forall i, j :: 0 <= i < j < |s| ==> key(s[i]) < key(s[j])
  }

  /** Puts `x` in front of the first element whose key is not below its own. */
  function Insert<T(==)>(x: T, s: seq<T>, key: T -> real): (r: seq<T>)
    ensures |r| == |s| + 1
    ensures multiset(r) == multiset(s) + multiset{x}
  {
    if s == [] || key(x) <= key(s[0]) then [x] + s
    else
      assert s == [s[0]] + s[1..];
      [s[0]] + Insert(x, s[1..], key)
  }

  /** Every element of `Insert(x, s, key)` is `x` or an element of `s`. */
  lemma InsertFrom<T>(x: T, s: seq<T>, key: T -> real)
    ensures forall y :: y in Insert(x, s, key) ==> y == x || y in s
  {
    var r := Insert(x, s, key);
    forall y | y in r
      ensures y == x || y in s
    {
      assert y in multiset(r);
    }
  }

  /** An element whose key is at most every key of a sorted list can go in front of it. */
  lemma ConsSorted<T>(a: T, s: seq<T>, key: T -> real)
    requires SortedBy(s, key)
    requires forall j :: 0 <= j < |s| ==> key(a) <= key(s[j])
    ensures SortedBy([a] + s, key)
  {
    var r := [a] + s;
    forall i, j | 0 <= i < j < |r|
      ensures key(r[i]) <= key(r[j])
    {
      assert r[j] == s[j - 1];
      if i > 0 {
        assert r[i] == s[i - 1];
      }
    }
  }

  /** An element whose key is below every key of a strictly sorted list can go in front of it. */
  lemma ConsStrict<T>(a: T, s: seq<T>, key: T -> real)
    requires StrictlySortedBy(s, key)
    requires forall j :: 0 <= j < |s| ==> key(a) < key(s[j])
    ensures StrictlySortedBy([a] + s, key)
  {
    var r := [a] + s;
    forall i, j | 0 <= i < j < |r|
      ensures key(r[i]) < key(r[j])
    {
      assert r[j] == s[j - 1];
      if i > 0 {
        assert r[i] == s[i - 1];
      }
    }
  }

  /** The head of a list whose key is below `x`'s stays below everything after inserting `x` into the tail. */
  lemma HeadBelowInsert<T>(x: T, s: seq<T>, key: T -> real)
    requires s != [] && key(x) > key(s[0])
    requires forall j :: 0 <= j < |s| ==> key(s[0]) <= key(s[j])
    ensures forall j :: 0 <= j < |Insert(x, s[1..], key)| ==> key(s[0]) <= key(Insert(x, s[1..], key)[j])
  {
    var rest := Insert(x, s[1..], key);
    InsertFrom(x, s[1..], key);
    forall j | 0 <= j < |rest|
      ensures key(s[0]) <= key(rest[j])
    {
      var y := rest[j];
      assert y in rest;
      if y != x {
        var k :| 0 <= k < |s[1..]| && s[1..][k] == y;
        assert s[k + 1] == y;
      }
    }
  }

  lemma {:induction false} InsertSorted<T>(x: T, s: seq<T>, key: T -> real)
    requires SortedBy(s, key)
    ensures SortedBy(Insert(x, s, key), key)
  {
    if s != [] && key(x) > key(s[0]) {
      assert SortedBy(s[1..], key) by {
        forall i, j | 0 <= i < j < |s[1..]|
          ensures key(s[1..][i]) <= key(s[1..][j])
        {
          assert s[1..][i] == s[i + 1] && s[1..][j] == s[j + 1];
        }
      }
      InsertSorted(x, s[1..], key);
      assert forall j :: 0 <= j < |s| ==> key(s[0]) <= key(s[j]);
      HeadBelowInsert(x, s, key);
      ConsSorted(s[0], Insert(x, s[1..], key), key);
    } else if s != [] {
      ConsSorted(x, s, key);
    }
  }

  /**
   * `s.slice().sort((a, b) => key(a) - key(b))`: an insertion sort, stable because each
   * element is inserted ahead of the later elements whose key equals its own.
   */
  function SortBy<T(==)>(s: seq<T>, key: T -> real): (r: seq<T>)
    ensures |r| == |s|
    ensures multiset(r) == multiset(s)
    ensures SortedBy(r, key)
  {
    if s == [] then []
    else
      var rest := SortBy(s[1..], key);
      InsertSorted(s[0], rest, key);
      assert s == [s[0]] + s[1..];
      Insert(s[0], rest, key)
  }

  /** Accepts the elements whose key is `k`. */
  function KeyIs<T>(key: T -> real, k: real): T -> bool
  {
    (y: T) => key(y) == k
  }

  /**
   * Inserting `x` leaves the elements of any one key in their order, and puts `x` after them
   * when its key is theirs: the elements it passes all have a smaller key.
   */
  lemma {:induction false} InsertKeyClass<T>(x: T, s: seq<T>, key: T -> real, k: real)
    ensures Filter(Insert(x, s, key), KeyIs(key, k))
         == (if key(x) == k then [x] else []) + Filter(s, KeyIs(key, k))
  {
    if s == [] || key(x) <= key(s[0]) {
      assert ([x] + s)[1..] == s;
    } else {
      InsertKeyClass(x, s[1..], key, k);
      assert ([s[0]] + Insert(x, s[1..], key))[1..] == Insert(x, s[1..], key);
    }
  }

  /** Stability: the elements sharing any one key come out in the order they went in. */
  lemma {:induction false} SortByStable<T>(s: seq<T>, key: T -> real, k: real)
    ensures Filter(SortBy(s, key), KeyIs(key, k)) == Filter(s, KeyIs(key, k))
  {
    if s != [] {
      SortByStable(s[1..], key, k);
      InsertKeyClass(s[0], SortBy(s[1..], key), key, k);
    }
  }

  /** Among the elements of least key, the sort puts the earliest one in the input first. */
  lemma SortByHeadIsEarliest<T>(s: seq<T>, key: T -> real)
    requires s != []
    ensures var r := SortBy(s, key);
      var same := Filter(s, KeyIs(key, key(r[0])));
      same != [] && r[0] == same[0]
  {
    var r := SortBy(s, key);
    var keep := KeyIs(key, key(r[0]));
    SortByStable(s, key, key(r[0]));
    assert Filter(r, keep) == [r[0]] + Filter(r[1..], keep);
  }

  lemma SortByMembers<T>(s: seq<T>, key: T -> real)
    ensures forall x :: x in SortBy(s, key) <==> x in s
  {
    var r := SortBy(s, key);
    forall x
      ensures x in r <==> x in s
    {
      assert x in r <==> x in multiset(r);
      assert x in s <==> x in multiset(s);
    }
  }

  lemma {:induction false} InsertStrict<T>(x: T, s: seq<T>, key: T -> real)
    requires StrictlySortedBy(s, key)
    requires forall j :: 0 <= j < |s| ==> key(s[j]) != key(x)
    ensures StrictlySortedBy(Insert(x, s, key), key)
  {
    if s != [] && key(x) > key(s[0]) {
      assert StrictlySortedBy(s[1..], key) by {
        forall i, j | 0 <= i < j < |s[1..]|
          ensures key(s[1..][i]) < key(s[1..][j])
        {
          assert s[1..][i] == s[i + 1] && s[1..][j] == s[j + 1];
        }
      }
      assert forall j :: 0 <= j < |s[1..]| ==> key(s[1..][j]) != key(x) by {
        forall j | 0 <= j < |s[1..]|
          ensures key(s[1..][j]) != key(x)
        {
          assert s[1..][j] == s[j + 1];
        }
      }
      InsertStrict(x, s[1..], key);
      var rest := Insert(x, s[1..], key);
      InsertFrom(x, s[1..], key);
      forall j | 0 <= j < |rest|
        ensures key(s[0]) < key(rest[j])
      {
        var y := rest[j];
        assert y in rest;
        if y != x {
          var k :| 0 <= k < |s[1..]| && s[1..][k] == y;
          assert s[k + 1] == y;
        }
      }
      ConsStrict(s[0], rest, key);
    } else if s != [] {
      assert forall j :: 0 <= j < |s| ==> key(x) < key(s[j]) by {
        forall j | 0 <= j < |s|
          ensures key(x) < key(s[j])
        {
          if j > 0 {
            assert key(s[0]) < key(s[j]);
          }
        }
      }
      ConsStrict(x, s, key);
    }
  }

  /** When no two elements share a key, the sorted list has strictly increasing keys. */
  lemma {:induction false} SortByStrict<T>(s: seq<T>, key: T -> real)
    requires forall i, j :: 0 <= i < j < |s| ==> key(s[i]) != key(s[j])
    ensures StrictlySortedBy(SortBy(s, key), key)
  {
    if s != [] {
      var t := s[1..];
      assert forall i, j :: 0 <= i < j < |t| ==> key(t[i]) != key(t[j]) by {
        forall i, j | 0 <= i < j < |t|
          ensures key(t[i]) != key(t[j])
        {
          assert t[i] == s[i + 1] && t[j] == s[j + 1];
        }
      }
      SortByStrict(t, key);
      var st := SortBy(t, key);
      forall k | 0 <= k < |st|
        ensures key(st[k]) != key(s[0])
      {
        var y := st[k];
        assert y in multiset(st);
        assert y in multiset(t);
        var j :| 0 <= j < |t| && t[j] == y;
        assert s[j + 1] == y;
      }
      InsertStrict(s[0], SortBy(t, key), key);
    }
  }

  /** The head of a sorted list carries the smallest key of the whole list. */
  lemma SortByHeadIsLeast<T>(s: seq<T>, key: T -> real)
    requires s != []
    ensures SortBy(s, key)[0] in s
    ensures forall x :: x in s ==> key(SortBy(s, key)[0]) <= key(x)
  {
    var r := SortBy(s, key);
    SortByMembers(s, key);
    assert r[0] in r;
    forall x | x in s
      ensures key(r[0]) <= key(x)
    {
      assert x in r;
      var j :| 0 <= j < |r| && r[j] == x;
      if j > 0 {
        assert key(r[0]) <= key(r[j]);
      }
    }
  }
}

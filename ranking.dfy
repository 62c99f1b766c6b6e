/**
 * `sort_values(by=measure, ascending=...)` and `.head(n)` over a summary table, for any row type
 * and any integer measure. pandas sorts with an unstable quicksort by default, so the order of rows
 * with equal measures is not fixed; everything below is stated up to that freedom: the result is a
 * permutation that is sorted by the measure.
 */
module Ranking {

  function Min(a: int, b: int): int
  {
    if a < b then a else b
  }

  /** `a` may stand before `b` when rows are sorted by `key` in the given direction. */
  predicate InOrder<T>(key: T -> int, ascending: bool, a: T, b: T)
  {
    if ascending then key(a) <= key(b) else key(a) >= key(b)
  }

  predicate Sorted<T>(s: seq<T>, key: T -> int, ascending: bool)
  {
    forall i, j :: 0 <= i < j < |s| ==> InOrder(key, ascending, s[i], s[j])
  }

  /** The sum of a measure over the rows of a table. */
  function SumBy<T>(s: seq<T>, f: T -> int): int
  {
    if s == [] then 0 else f(s[0]) + SumBy(s[1..], f)
  }

  /** Puts `x` into a sorted sequence, in front of the first row it may precede. */
  function Insert<T(==)>(x: T, s: seq<T>, key: T -> int, ascending: bool): (r: seq<T>)
    requires Sorted(s, key, ascending)
    ensures multiset(r) == multiset(s) + multiset{x}
    ensures Sorted(r, key, ascending)
  {
    if s == [] || InOrder(key, ascending, x, s[0]) then
      [x] + s
    else
      assert s == [s[0]] + s[1..];
      var rest := Insert(x, s[1..], key, ascending);
      HeadPrecedesInsert(x, s, rest, key, ascending);
      PrecedesAll(s[0], rest, key, ascending);
      [s[0]] + rest
  }

  lemma HeadPrecedesInsert<T>(x: T, s: seq<T>, rest: seq<T>, key: T -> int, ascending: bool)
    requires Sorted(s, key, ascending) && s != [] && !InOrder(key, ascending, x, s[0])
    requires multiset(rest) == multiset(s[1..]) + multiset{x}
    ensures forall k :: 0 <= k < |rest| ==> InOrder(key, ascending, s[0], rest[k])
  {
    forall k | 0 <= k < |rest|
      ensures InOrder(key, ascending, s[0], rest[k])
    {
      assert rest[k] in multiset(rest);
      if rest[k] != x {
        assert rest[k] in multiset(s[1..]);
        var m :| 0 <= m < |s[1..]| && s[1..][m] == rest[k];
        assert s[m + 1] == rest[k];
      }
    }
  }

  /** A row that may precede every row of a sorted table may be put in front of it. */
  lemma PrecedesAll<T>(y: T, s: seq<T>, key: T -> int, ascending: bool)
    requires Sorted(s, key, ascending)
    requires forall k :: 0 <= k < |s| ==> InOrder(key, ascending, y, s[k])
    ensures Sorted([y] + s, key, ascending)
  {
    var r := [y] + s;
    forall i, j | 0 <= i < j < |r|
      ensures InOrder(key, ascending, r[i], r[j])
    {
      assert r[j] == s[j - 1];
      if i > 0 {
        assert r[i] == s[i - 1];
      }
    }
  }

  /** `sort_values(by=key, ascending=ascending)`: a permutation of the rows, sorted by the measure. */
  function SortBy<T(==)>(s: seq<T>, key: T -> int, ascending: bool): (r: seq<T>)
    ensures multiset(r) == multiset(s)
    ensures |r| == |s|
    ensures Sorted(r, key, ascending)
  {
    if s == [] then []
    else
      assert s == [s[0]] + s[1..];
      Insert(s[0], SortBy(s[1..], key, ascending), key, ascending)
  }

  /** What a selection of the `n` first rows by a measure promises, whatever the order of ties. */
  predicate IsSelection<T(==)>(s: seq<T>, r: seq<T>, key: T -> int, ascending: bool, n: nat)
  {
    && |r| == Min(n, |s|)
    && multiset(r) <= multiset(s)
    && Sorted(r, key, ascending)
    && forall x, y :: x in r && y in multiset(s) - multiset(r) ==> InOrder(key, ascending, x, y)
  }

  /** `sort_values(by=key, ascending=ascending).head(n)`. */
  function Select<T(==)>(s: seq<T>, key: T -> int, ascending: bool, n: nat): (r: seq<T>)
    ensures IsSelection(s, r, key, ascending, n)
  {
    var sorted := SortBy(s, key, ascending);
    HeadIsSelection(s, sorted, key, ascending, Min(n, |s|));
    sorted[..Min(n, |s|)]
  }

  lemma HeadIsSelection<T>(s: seq<T>, sorted: seq<T>, key: T -> int, ascending: bool, k: nat)
    requires multiset(sorted) == multiset(s) && |sorted| == |s|
    requires Sorted(sorted, key, ascending)
    requires k <= |s|
    ensures IsSelection(s, sorted[..k], key, ascending, k)
  {
    var head, tail := sorted[..k], sorted[k..];
    assert sorted == head + tail;
    assert multiset(s) == multiset(head) + multiset(tail);
    assert multiset(s) - multiset(head) == multiset(tail);
    forall x, y | x in head && y in multiset(s) - multiset(head)
      ensures InOrder(key, ascending, x, y)
    {
      var i :| 0 <= i < k && head[i] == x;
      assert y in tail;
      var j :| 0 <= j < |tail| && tail[j] == y;
      assert sorted[i] == x && sorted[k + j] == y;
    }
  }

  /** Inserting a row into a sorted table adds exactly its measure to any sum over the table. */
  lemma {:induction false} SumByInsert<T>(x: T, s: seq<T>, key: T -> int, ascending: bool, f: T -> int)
    requires Sorted(s, key, ascending)
    ensures SumBy(Insert(x, s, key, ascending), f) == f(x) + SumBy(s, f)
  {
    if s == [] || InOrder(key, ascending, x, s[0]) {
      assert ([x] + s)[1..] == s;
    } else {
      var r := [s[0]] + Insert(x, s[1..], key, ascending);
      assert r[1..] == Insert(x, s[1..], key, ascending);
      SumByInsert(x, s[1..], key, ascending, f);
    }
  }

  /** Sorting never changes the sum of a measure over a table. */
  lemma {:induction false} SumBySortBy<T>(s: seq<T>, key: T -> int, ascending: bool, f: T -> int)
    ensures SumBy(SortBy(s, key, ascending), f) == SumBy(s, f)
  {
    if s != [] {
      SumBySortBy(s[1..], key, ascending, f);
      SumByInsert(s[0], SortBy(s[1..], key, ascending), key, ascending, f);
    }
  }

}

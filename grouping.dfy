/**
 * The label-based `groupby(key).agg(...)` of pandas as an explicit map-building pass: the group
 * keys in the order they were opened, and one accumulator per key.
 */
module Grouping {
  import opened Ranking

  datatype Groups<A> = Groups(keys: seq<string>, accs: map<string, A>)

  /** No value occurs twice. */
  predicate Distinct<T(==)>(s: seq<T>)
  {
    forall i, j :: 0 <= i < j < |s| ==> s[i] != s[j]
  }

  lemma {:induction false} DistinctCount<T>(s: seq<T>, v: T)
    requires Distinct(s)
    ensures multiset(s)[v] <= 1
  {
    if s != [] {
      assert s == [s[0]] + s[1..];
      assert s[0] !in s[1..];
      DistinctCount(s[1..], v);
    }
  }

  /** A permutation of a sequence without repeated values has none either. */
  lemma DistinctPermutation<T>(s: seq<T>, t: seq<T>)
    requires multiset(s) == multiset(t)
    requires Distinct(s)
    ensures Distinct(t)
  {
    forall i, j | 0 <= i < j < |t|
      ensures t[i] != t[j]
    {
      if t[i] == t[j] {
        assert t == t[..j] + t[j..];
        assert t[i] in t[..j] && t[j] in t[j..];
        assert multiset(t)[t[i]] == multiset(t[..j])[t[i]] + multiset(t[j..])[t[i]];
        DistinctCount(s, t[i]);
      }
    }
  }

  /** A sequence without repeated values has as many elements as the set of its values. */
  lemma {:induction false} DistinctCardinality<T>(s: seq<T>)
    requires Distinct(s)
    ensures |set x | x in s| == |s|
  {
    if s != [] {
      DistinctCardinality(s[1..]);
      assert (set x | x in s) == {s[0]} + (set x | x in s[1..]);
      assert s[0] !in (set x | x in s[1..]);
    }
  }

  /** Every key is listed once, and exactly the listed keys have an accumulator. */
  ghost predicate WellFormed<A>(g: Groups<A>)
  {
    Distinct(g.keys) && forall k :: k in g.accs <==> k in g.keys
  }

  function Empty<A>(): (g: Groups<A>)
    ensures WellFormed(g) && g.accs == map[]
  {
    Groups([], map[])
  }

  /** Stores `v` as the accumulator of `k`, opening a new group when `k` has none yet. */
  function Put<A>(g: Groups<A>, k: string, v: A): (h: Groups<A>)
    requires WellFormed(g)
    ensures WellFormed(h)
    ensures h.accs == g.accs[k := v]
  {
    if k in g.accs then Groups(g.keys, g.accs[k := v]) else Groups([k] + g.keys, g.accs[k := v])
  }

  /** One summary row per listed key, built from the key and its accumulator, in key order. */
  function Collect<A, R>(keys: seq<string>, accs: map<string, A>, row: (string, A) -> R): (r: seq<R>)
    requires forall k :: k in keys ==> k in accs
    ensures |r| == |keys|
    ensures forall i :: 0 <= i < |keys| ==> r[i] == row(keys[i], accs[keys[i]])
  {
    if keys == [] then [] else [row(keys[0], accs[keys[0]])] + Collect(keys[1..], accs, row)
  }

  /** The summary table of a grouping. */
  function Rows<A, R>(g: Groups<A>, row: (string, A) -> R): seq<R>
    requires WellFormed(g)
  {
    Collect(g.keys, g.accs, row)
  }

  lemma {:induction false} CollectOtherKey<A, R>(keys: seq<string>, accs: map<string, A>, k: string, v: A, row: (string, A) -> R)
    requires forall j :: j in keys ==> j in accs
    requires k !in keys
    ensures Collect(keys, accs[k := v], row) == Collect(keys, accs, row)
  {
    if keys != [] {
      CollectOtherKey(keys[1..], accs, k, v, row);
    }
  }

  lemma {:induction false} CollectUpdate<A, R>(keys: seq<string>, accs: map<string, A>, k: string, v: A,
                                                row: (string, A) -> R, f: R -> int)
    requires forall j :: j in keys ==> j in accs
    requires Distinct(keys) && k in keys
    ensures SumBy(Collect(keys, accs[k := v], row), f)
         == SumBy(Collect(keys, accs, row), f) - f(row(k, accs[k])) + f(row(k, v))
  {
    var before, after := Collect(keys, accs, row), Collect(keys, accs[k := v], row);
    assert before[1..] == Collect(keys[1..], accs, row);
    assert after[1..] == Collect(keys[1..], accs[k := v], row);
    if keys[0] == k {
      assert k !in keys[1..];
      CollectOtherKey(keys[1..], accs, k, v, row);
    } else {
      CollectUpdate(keys[1..], accs, k, v, row, f);
    }
  }

  /** Storing `v` at `k` replaces that group's share of a sum over the summary table by `v`'s share. */
  lemma PutSum<A, R>(g: Groups<A>, k: string, v: A, row: (string, A) -> R, f: R -> int)
    requires WellFormed(g)
    ensures SumBy(Rows(Put(g, k, v), row), f)
         == SumBy(Rows(g, row), f) + f(row(k, v)) - (if k in g.accs then f(row(k, g.accs[k])) else 0)
  {
    if k in g.accs {
      CollectUpdate(g.keys, g.accs, k, v, row, f);
    } else {
      var h := Put(g, k, v);
      assert h.keys[1..] == g.keys;
      CollectOtherKey(g.keys, g.accs, k, v, row);
    }
  }
}

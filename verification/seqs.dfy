/**
 * The three sequence operations the storage queries perform: keep the rows a
 * predicate accepts, order them by a key with the largest first, and take the
 * rows whose offsets fall in an inclusive range.
 */
module Seqs {

  /** How many copies of `x` a filtered sequence keeps: all of them, or none. */
  function Filter<T(!new)>(xs: seq<T>, p: T -> bool): (r: seq<T>)
    ensures forall x :: multiset(r)[x] == if p(x) then multiset(xs)[x] else 0
    ensures forall i :: 0 <= i < |r| ==> p(r[i])
    ensures |r| <= |xs|
  {
    if xs == [] then []
    else
      var rest := Filter(xs[1..], p);
      assert xs == [xs[0]] + xs[1..];
      if p(xs[0]) then [xs[0]] + rest else rest
  }

  /** Filtering a concatenation filters each part, so the kept elements stay in their order. */
  lemma {:induction false} FilterAppend<T(!new)>(a: seq<T>, b: seq<T>, p: T -> bool)
    ensures Filter(a + b, p) == Filter(a, p) + Filter(b, p)
    decreases |a|
  {
    if a == [] {
      assert a + b == b;
    } else {
      assert (a + b)[1..] == a[1..] + b;
      FilterAppend(a[1..], b, p);
    }
  }

  /** One element is kept exactly when the predicate accepts it. */
  lemma FilterSingle<T(!new)>(x: T, p: T -> bool)
    ensures Filter([x], p) == if p(x) then [x] else []
  {
  }

  ghost predicate SortedDesc<T>(xs: seq<T>, key: T -> int) {
    forall i, j :: 0 <= i < j < |xs| ==> key(xs[i]) >= key(xs[j])
  }

  /** Places `x` before the first element whose key is not larger than its own. */
  function Insert<T(!new)>(x: T, xs: seq<T>, key: T -> int): (r: seq<T>)
    ensures multiset(r) == multiset(xs) + multiset{x}
    ensures |r| == |xs| + 1
    ensures r[0] == x || (xs != [] && r[0] == xs[0])
  {
    if xs == [] || key(x) >= key(xs[0]) then
      [x] + xs
    else
      assert xs == [xs[0]] + xs[1..];
      [xs[0]] + Insert(x, xs[1..], key)
  }

  lemma {:induction false} InsertSorted<T(!new)>(x: T, xs: seq<T>, key: T -> int)
    requires SortedDesc(xs, key)
    ensures SortedDesc(Insert(x, xs, key), key)
    decreases |xs|
  {
    if xs == [] || key(x) >= key(xs[0]) {
    } else {
      var rest := Insert(x, xs[1..], key);
      InsertSorted(x, xs[1..], key);
      var r := [xs[0]] + rest;
      assert key(rest[0]) <= key(xs[0]);
      forall i, j | 0 <= i < j < |r| ensures key(r[i]) >= key(r[j]) {
        assert r[j] == rest[j - 1];
        if i > 0 {
          assert r[i] == rest[i - 1];
        } else {
          assert key(rest[j - 1]) <= key(rest[0]);
        }
      }
    }
  }

  /**
   * `ORDER BY key DESC`: a permutation of `xs`, largest key first.
   */
  function SortDesc<T(!new)>(xs: seq<T>, key: T -> int): (r: seq<T>)
    ensures SortedDesc(r, key)
    ensures multiset(r) == multiset(xs)
    ensures |r| == |xs|
  {
    if xs == [] then []
    else
      assert xs == [xs[0]] + xs[1..];
      var sorted := SortDesc(xs[1..], key);
      InsertSorted(xs[0], sorted, key);
      Insert(xs[0], sorted, key)
  }

  function Max(a: int, b: int): int { if a >= b then a else b }
  function Min(a: int, b: int): int { if a <= b then a else b }

  /**
   * The rows at offsets `from` through `to` inclusive; offsets outside the
   * sequence contribute nothing.
   */
  function Range<T>(xs: seq<T>, from: int, to: int): (r: seq<T>)
    ensures |r| == Max(0, Min(to + 1, |xs|) - Max(from, 0))
    ensures forall i :: 0 <= i < |r| ==> r[i] == xs[Max(from, 0) + i]
  {
    var lo := Max(from, 0);
    var hi := Min(to + 1, |xs|);
    if lo < hi then xs[lo..hi] else []
  }
}

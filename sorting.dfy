/**
 * Ordering of query results: MongoDB's `.sort({field: 1 | -1})` and
 * JavaScript's `Array.prototype.sort` by a numeric key, plus `slice(0, n)`
 * of a descending sort (a "top n" table).
 */
module Sorting {

  /** `a` may precede `b`: ascending (`1`) or descending (`-1`) order. */
  predicate InOrder(a: real, b: real, desc: bool) {
    if desc then a >= b else a <= b
  }

  ghost predicate SortedBy<X>(s: seq<X>, key: X -> real, desc: bool) {
    forall i, j :: 0 <= i < j < |s| ==> InOrder(key(s[i]), key(s[j]), desc)
  }

  /** Inserts `x` in front of the first element it may precede. */
  function Insert<X>(x: X, s: seq<X>, key: X -> real, desc: bool): (r: seq<X>)
    ensures multiset(r) == multiset(s) + multiset{x}
    ensures SortedBy(s, key, desc) ==> SortedBy(r, key, desc)
  {
    if s == [] then [x]
    else if InOrder(key(x), key(s[0]), desc) then [x] + s
    else
      var rest := Insert(x, s[1..], key, desc);
      assert s == [s[0]] + s[1..];
      assert SortedBy(s, key, desc) ==> SortedBy([s[0]] + rest, key, desc) by {
        if SortedBy(s, key, desc) {
          InsertBelowHead(s[0], s[1..], x, rest, key, desc);
        }
      }
      [s[0]] + rest
  }

  /**
   * An element that may not precede the head of a sorted list, inserted
   * into its tail, leaves the head in front.
   */
  lemma InsertBelowHead<X>(h: X, t: seq<X>, x: X, rest: seq<X>, key: X -> real, desc: bool)
    requires SortedBy([h] + t, key, desc) && !InOrder(key(x), key(h), desc)
    requires multiset(rest) == multiset(t) + multiset{x} && SortedBy(rest, key, desc)
    ensures SortedBy([h] + rest, key, desc)
  {
    forall y | y in rest ensures InOrder(key(h), key(y), desc) {
      assert y in multiset(rest);
      if y != x {
        assert y in t;
        var j :| 0 <= j < |t| && t[j] == y;
        var ht := [h] + t;
        assert ht[0] == h && ht[j + 1] == y;
        assert InOrder(key(ht[0]), key(ht[j + 1]), desc);
      }
    }
    ConsSorted(h, rest, key, desc);
  }

  lemma ConsSorted<X>(h: X, t: seq<X>, key: X -> real, desc: bool)
    requires SortedBy(t, key, desc)
    requires forall y :: y in t ==> InOrder(key(h), key(y), desc)
    ensures SortedBy([h] + t, key, desc)
  {
    var r := [h] + t;
    forall i, j | 0 <= i < j < |r| ensures InOrder(key(r[i]), key(r[j]), desc) {
      assert r[j] == t[j - 1];
      if i > 0 {
        assert r[i] == t[i - 1];
      }
    }
  }

  /** Insertion sort by `key`; the result is an ordered permutation of `s`. */
  function Sort<X>(s: seq<X>, key: X -> real, desc: bool): (r: seq<X>)
    ensures multiset(r) == multiset(s)
    ensures SortedBy(r, key, desc)
  {
    if s == [] then []
    else
      assert s == [s[0]] + s[1..];
      Insert(s[0], Sort(s[1..], key, desc), key, desc)
  }

  /**
   * The first `k` elements of a descending order rank at least as high as
   * every element outside them: an element that occurs more often in the
   * whole sequence than in its prefix has a key at most that of each
   * prefix element.
   */
  lemma {:induction false} PrefixHoldsLargest<X>(sorted: seq<X>, key: X -> real, k: nat)
    requires k <= |sorted| && SortedBy(sorted, key, true)
    ensures forall x :: multiset(sorted[..k])[x] < multiset(sorted)[x] ==>
      forall i :: 0 <= i < k ==> key(x) <= key(sorted[i])
  {
    assert sorted == sorted[..k] + sorted[k..];
    assert multiset(sorted) == multiset(sorted[..k]) + multiset(sorted[k..]);
    forall x | multiset(sorted[..k])[x] < multiset(sorted)[x]
      ensures forall i :: 0 <= i < k ==> key(x) <= key(sorted[i])
    {
      assert x in multiset(sorted[k..]);
      var j :| k <= j < |sorted| && sorted[j] == x;
      forall i | 0 <= i < k ensures key(x) <= key(sorted[i]) {
        assert InOrder(key(sorted[i]), key(sorted[j]), true);
      }
    }
  }

  /** A prefix of a descending permutation of `s` is a descending part of `s` that holds its largest elements. */
  lemma PrefixOfSorted<X(!new)>(s: seq<X>, sorted: seq<X>, key: X -> real, k: nat)
    requires multiset(sorted) == multiset(s) && SortedBy(sorted, key, true) && k <= |sorted|
    ensures |sorted| == |s|
    ensures SortedBy(sorted[..k], key, true)
    ensures multiset(sorted[..k]) <= multiset(s)
    ensures forall x :: multiset(sorted[..k])[x] < multiset(s)[x] ==>
      forall i :: 0 <= i < k ==> key(x) <= key(sorted[..k][i])
  {
    assert |sorted| == |multiset(sorted)| == |s|;
    assert sorted == sorted[..k] + sorted[k..];
    assert multiset(sorted) == multiset(sorted[..k]) + multiset(sorted[k..]);
    PrefixHoldsLargest(sorted, key, k);
  }

  /**
   * The first `n` elements of the descending sort (`sort(...).slice(0, n)`):
   * all of `s` when it is shorter than `n`, otherwise `n` elements, and
   * whatever is left out ranks no higher than anything kept.
   */
  function Top<X(!new)>(s: seq<X>, key: X -> real, n: nat): (r: seq<X>)
    ensures |r| == if |s| < n then |s| else n
    ensures SortedBy(r, key, true)
    ensures multiset(r) <= multiset(s)
    ensures forall x :: multiset(r)[x] < multiset(s)[x] ==> forall i :: 0 <= i < |r| ==> key(x) <= key(r[i])
  {
    var sorted := Sort(s, key, true);
    var k := if n < |sorted| then n else |sorted|;
    PrefixOfSorted(s, sorted, key, k);
    sorted[..k]
  }
}

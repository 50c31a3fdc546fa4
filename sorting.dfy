/**
 * A sort driven by a comparator, standing for JavaScript's
 * `Array.prototype.sort(compare)`. The comparator is given as the relation
 * `le(a, b)`: "a may come before b", that is `compare(a, b) <= 0`.
 * Only the order that `le` imposes is specified; the order of elements that
 * `le` ranks equal is whatever insertion sort produces.
 */
module Sorting {

  /** `s` is ordered by `le`. */
  predicate SortedBy<T>(s: seq<T>, le: (T, T) -> bool) {
    forall i, j :: 0 <= i < j < |s| ==> le(s[i], s[j])
  }

  /** `le` is total and transitive, as any comparator built from keys is. */
  ghost predicate TotalPreorder<T(!new)>(le: (T, T) -> bool) {
    && (forall a, b :: le(a, b) || le(b, a))
    && (forall a, b, c :: le(a, b) && le(b, c) ==> le(a, c))
  }

  /** Inserts `x` before the first element it may precede. */
  function InsertBy<T>(x: T, s: seq<T>, le: (T, T) -> bool): (r: seq<T>)
    ensures |r| == |s| + 1
    ensures multiset(r) == multiset(s) + multiset{x}
  {
    if s == [] || le(x, s[0]) then [x] + s
    else
      assert s == [s[0]] + s[1..];
      [s[0]] + InsertBy(x, s[1..], le)
  }

  /** Sorts `s` by `le`; the result is a permutation of `s`. */
  function SortBy<T>(s: seq<T>, le: (T, T) -> bool): (r: seq<T>)
    ensures |r| == |s|
    ensures multiset(r) == multiset(s)
  {
    if s == [] then []
    else
      assert s == [s[0]] + s[1..];
      InsertBy(s[0], SortBy(s[1..], le), le)
  }

  lemma {:induction false} InsertBySorted<T(!new)>(x: T, s: seq<T>, le: (T, T) -> bool)
    requires TotalPreorder(le)
    requires SortedBy(s, le)
    ensures SortedBy(InsertBy(x, s, le), le)
  {
    if s != [] && !le(x, s[0]) {
      SortedTail(s, le);
      InsertBySorted(x, s[1..], le);
      var tail := InsertBy(x, s[1..], le);
      forall y | y in tail ensures le(s[0], y) {
        assert y in multiset(tail);
        if y != x {
          assert y in multiset(s[1..]);
        }
      }
      ConsSorted(s[0], tail, le);
    } else if s != [] {
      SortedTail(s, le);
      forall y | y in s ensures le(x, y) {
        if y != s[0] {
          assert y in s[1..];
        }
      }
      ConsSorted(x, s, le);
    }
  }

  /** The tail of a sorted sequence is sorted and ranks no higher than its head. */
  lemma SortedTail<T>(s: seq<T>, le: (T, T) -> bool)
    requires SortedBy(s, le) && s != []
    ensures SortedBy(s[1..], le)
    ensures forall y :: y in s[1..] ==> le(s[0], y)
  {
    forall i, j | 0 <= i < j < |s[1..]| ensures le(s[1..][i], s[1..][j]) {
      assert s[1..][i] == s[i + 1] && s[1..][j] == s[j + 1];
    }
    forall y | y in s[1..] ensures le(s[0], y) {
      var j :| 0 <= j < |s[1..]| && s[1..][j] == y;
      assert s[j + 1] == y;
    }
  }

  /** A head that may precede every element of a sorted tail gives a sorted sequence. */
  lemma ConsSorted<T>(h: T, tail: seq<T>, le: (T, T) -> bool)
    requires SortedBy(tail, le)
    requires forall y :: y in tail ==> le(h, y)
    ensures SortedBy([h] + tail, le)
  {
    var r := [h] + tail;
    forall i, j | 0 <= i < j < |r| ensures le(r[i], r[j]) {
      if i == 0 {
        assert r[j] == tail[j - 1];
        assert r[j] in tail;
      } else {
        assert r[i] == tail[i - 1] && r[j] == tail[j - 1];
      }
    }
  }

  lemma {:induction false} SortBySorted<T(!new)>(s: seq<T>, le: (T, T) -> bool)
    requires TotalPreorder(le)
    ensures SortedBy(SortBy(s, le), le)
  {
    if s != [] {
      SortBySorted(s[1..], le);
      InsertBySorted(s[0], SortBy(s[1..], le), le);
    }
  }

  /** A prefix of a sorted sequence is sorted, is part of it, and every
      element it keeps ranks at least as high as every element it drops. */
  lemma SortedPrefix<T>(sorted: seq<T>, e: nat, le: (T, T) -> bool)
    requires SortedBy(sorted, le) && e <= |sorted|
    ensures SortedBy(sorted[..e], le)
    ensures multiset(sorted) == multiset(sorted[..e]) + multiset(sorted[e..])
    ensures forall x, y :: x in sorted[..e] && y in multiset(sorted) - multiset(sorted[..e]) ==> le(x, y)
  {
    assert sorted == sorted[..e] + sorted[e..];
    var r := sorted[..e];
    forall x, y | x in r && y in multiset(sorted) - multiset(r) ensures le(x, y) {
      assert y in multiset(sorted[e..]);
      var i :| 0 <= i < e && r[i] == x;
      var j :| 0 <= j < |sorted[e..]| && sorted[e..][j] == y;
      assert sorted[i] == x && sorted[e + j] == y;
    }
  }
}

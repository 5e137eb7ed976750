/**
 * `Array.prototype.sort` with a comparator: a stable sort.  `le(a, b)` holds when the
 * comparator lets `a` stay in front of `b` (it returns a value <= 0).  The sort is written
 * as an insertion sort that puts each element in front of the first one it may precede,
 * so elements the comparator calls equal keep their input order.
 */
module Sorting {

  ghost predicate TotalPreorder<T(!new)>(le: (T, T) -> bool) {
    && (forall a, b :: le(a, b) || le(b, a))
    && (forall a, b, c :: le(a, b) && le(b, c) ==> le(a, c))
  }

  ghost predicate SortedBy<T>(le: (T, T) -> bool, s: seq<T>) {
    forall i, j :: 0 <= i < j < |s| ==> le(s[i], s[j])
  }

  function Insert<T>(x: T, s: seq<T>, le: (T, T) -> bool): (r: seq<T>)
    ensures |r| == |s| + 1
    ensures multiset(r) == multiset(s) + multiset{x}
  {
    if s == [] || le(x, s[0]) then [x] + s
    else
      var r := [s[0]] + Insert(x, s[1..], le);
      assert s == [s[0]] + s[1..];
      r
  }

  function SortBy<T>(s: seq<T>, le: (T, T) -> bool): (r: seq<T>)
    ensures |r| == |s|
    ensures multiset(r) == multiset(s)
  {
    if s == [] then []
    else
      var r := Insert(s[0], SortBy(s[1..], le), le);
      assert s == [s[0]] + s[1..];
      r
  }

  lemma {:induction false} InsertSorted<T(!new)>(x: T, s: seq<T>, le: (T, T) -> bool)
    requires TotalPreorder(le)
    requires SortedBy(le, s)
    ensures SortedBy(le, Insert(x, s, le))
  {
    if s == [] || le(x, s[0]) {
    } else {
      InsertSorted(x, s[1..], le);
      var r := Insert(x, s[1..], le);
      assert le(s[0], x);
      forall k | 0 <= k < |r| ensures le(s[0], r[k]) {
        assert r[k] in multiset(s[1..]) + multiset{x};
        if r[k] in multiset(s[1..]) {
          var j :| 0 <= j < |s[1..]| && s[1..][j] == r[k];
          assert s[j + 1] == r[k];
        }
      }
    }
  }

  /** The result of the sort is ordered by the comparator (and, by SortBy's contract, a permutation). */
  lemma {:induction false} SortBySorted<T(!new)>(s: seq<T>, le: (T, T) -> bool)
    requires TotalPreorder(le)
    ensures SortedBy(le, SortBy(s, le))
  {
    if s != [] {
      SortBySorted(s[1..], le);
      InsertSorted(s[0], SortBy(s[1..], le), le);
    }
  }

  /** Sorting an already sorted sequence returns it unchanged. */
  lemma {:induction false} SortBySortedIsIdentity<T(!new)>(s: seq<T>, le: (T, T) -> bool)
    requires SortedBy(le, s)
    ensures SortBy(s, le) == s
  {
    if s != [] {
      assert SortedBy(le, s[1..]);
      SortBySortedIsIdentity(s[1..], le);
      if |s| > 1 {
        assert le(s[0], s[1..][0]);
      }
      assert s == [s[0]] + s[1..];
    }
  }
}

/**
 * Array operations the source gets from the JavaScript runtime: `filter`, and the
 * stable `sort` with a "largest key first" comparator (`(a, b) => b.k - a.k`).
 */
module Sequences {

  /** `Array.prototype.filter`: the elements satisfying `p`, in their original order. */
  function Filter<T(!new)>(s: seq<T>, p: T -> bool): (r: seq<T>)
    ensures |r| <= |s|
    ensures forall i :: 0 <= i < |r| ==> p(r[i])
    ensures forall x {:trigger x in r} :: x in r <==> x in s && p(x)
  {
    if s == [] then []
    else
      assert s == [s[0]] + s[1..];
      (if p(s[0]) then [s[0]] else []) + Filter(s[1..], p)
  }

  /** `Array.prototype.map`: `f` applied to each element, position by position. */
  function Map<T, U>(s: seq<T>, f: T -> U): (r: seq<U>)
    ensures |r| == |s| && forall i :: 0 <= i < |s| ==> r[i] == f(s[i])
  {
    seq(|s|, i requires 0 <= i < |s| => f(s[i]))
  }

  /** `filter` keeps every satisfying value as often as the input holds it, and no other. */
  lemma {:induction false} FilterCounts<T(!new)>(s: seq<T>, p: T -> bool)
    ensures forall x :: multiset(Filter(s, p))[x] == if p(x) then multiset(s)[x] else 0
  {
    if s != [] {
      FilterCounts(s[1..], p);
      assert s == [s[0]] + s[1..];
    }
  }

  /** Filtering distributes over concatenation, so the kept elements keep their relative order. */
  lemma {:induction false} FilterAppend<T(!new)>(a: seq<T>, b: seq<T>, p: T -> bool)
    ensures Filter(a + b, p) == Filter(a, p) + Filter(b, p)
  {
    if a == [] {
      assert a + b == b;
    } else {
      assert (a + b)[0] == a[0] && (a + b)[1..] == a[1..] + b;
      FilterAppend(a[1..], b, p);
    }
  }

  /** `s` is ordered by `key`, largest first (what `sort((a, b) => key(b) - key(a))` leaves). */
  ghost predicate SortedDesc<T>(s: seq<T>, key: T -> real) {
    forall i, j :: 0 <= i < j < |s| ==> key(s[i]) >= key(s[j])
  }

  /**
   * Inserts `x` in front of the first element whose key does not exceed its own.
   * Used with `x` taken from the front of the input, this keeps equal keys in input order.
   */
  function InsertDesc<T(!new)>(x: T, s: seq<T>, key: T -> real): (r: seq<T>)
    ensures |r| == |s| + 1
    ensures multiset(r) == multiset(s) + multiset{x}
    ensures forall y :: y in r <==> y == x || y in s
  {
    if s == [] then [x]
    else if key(x) >= key(s[0]) then [x] + s
    else
      assert s == [s[0]] + s[1..];
      [s[0]] + InsertDesc(x, s[1..], key)
  }

  /** Inserting into a sorted sequence keeps it sorted. */
  lemma {:induction false} InsertDescSorted<T(!new)>(x: T, s: seq<T>, key: T -> real)
    requires SortedDesc(s, key)
    ensures SortedDesc(InsertDesc(x, s, key), key)
  {
    if s != [] && key(x) < key(s[0]) {
      var t := InsertDesc(x, s[1..], key);
      InsertDescSorted(x, s[1..], key);
      forall k | 0 <= k < |t| ensures key(s[0]) >= key(t[k]) {
        assert t[k] in t;
        if t[k] != x {
          var j :| 0 <= j < |s[1..]| && s[1..][j] == t[k];
          assert s[1..][j] == s[j + 1];
        }
      }
      assert InsertDesc(x, s, key) == [s[0]] + t;
    }
  }

  /** The stable descending sort: a permutation of `s` ordered by `key`, largest first. */
  function SortDesc<T(!new)>(s: seq<T>, key: T -> real): (r: seq<T>)
    ensures |r| == |s|
    ensures multiset(r) == multiset(s)
    ensures SortedDesc(r, key)
  {
    if s == [] then []
    else
      assert s == [s[0]] + s[1..];
      InsertDescSorted(s[0], SortDesc(s[1..], key), key);
      InsertDesc(s[0], SortDesc(s[1..], key), key)
  }

  /** The first element of a sorted permutation carries a maximal key. */
  lemma SortDescFirstIsMax<T(!new)>(s: seq<T>, key: T -> real)
    requires s != []
    ensures SortDesc(s, key) != []
    ensures SortDesc(s, key)[0] in s
    ensures forall y :: y in s ==> key(SortDesc(s, key)[0]) >= key(y)
  {
    var r := SortDesc(s, key);
    assert r[0] in multiset(r);
    forall y | y in s ensures key(r[0]) >= key(y) {
      assert y in multiset(s);
      assert y in multiset(r);
      var j :| 0 <= j < |r| && r[j] == y;
      assert j == 0 || key(r[0]) >= key(r[j]);
    }
  }
}

/**
 * The LINQ pipeline pieces the metrics collector uses on its arrays:
 * `Where` with a timestamp bound, the stable `OrderBy` on a timestamp key,
 * and `Min` over a timestamp key.  Each is a function over a sequence and a
 * key function, so that the five metric kinds share one definition.
 */
module Ordering {

  /** Every element's key is at least the key of any element before it. */
  ghost predicate SortedBy<T>(s: seq<T>, key: T -> int) {
    forall i, j :: 0 <= i < j < |s| ==> key(s[i]) <= key(s[j])
  }

  /** `s.Where(x => key(x) <= bound)`: the elements up to the bound, in their stored order. */
  function Upto<T(!new)>(s: seq<T>, key: T -> int, bound: int): (r: seq<T>)
    ensures |r| <= |s|
    ensures forall i :: 0 <= i < |r| ==> key(r[i]) <= bound
    ensures forall x :: multiset(r)[x] == if key(x) <= bound then multiset(s)[x] else 0
  {
    if s == [] then []
    else
      assert s == [s[0]] + s[1..];
      var rest := Upto(s[1..], key, bound);
      if key(s[0]) <= bound then [s[0]] + rest else rest
  }

  /** The elements whose key is exactly `k`, in their order in `s`. */
  function WithKey<T>(s: seq<T>, key: T -> int, k: int): seq<T> {
    if s == [] then []
    else if key(s[0]) == k then [s[0]] + WithKey(s[1..], key, k)
    else WithKey(s[1..], key, k)
  }

  /**
   * Puts `x` in front of the first element whose key is not smaller than
   * its own; elements with an equal key therefore stay behind `x`.
   */
  function InsertByKey<T>(x: T, s: seq<T>, key: T -> int): (r: seq<T>)
    ensures |r| == |s| + 1
    ensures multiset(r) == multiset(s) + multiset{x}
  {
    if s == [] then [x]
    else if key(x) <= key(s[0]) then [x] + s
    else
      assert s == [s[0]] + s[1..];
      [s[0]] + InsertByKey(x, s[1..], key)
  }

  /** `s.OrderBy(key)`: a stable sort, written as an insertion sort. */
  function OrderBy<T>(s: seq<T>, key: T -> int): (r: seq<T>)
    ensures |r| == |s|
    ensures multiset(r) == multiset(s)
  {
    if s == [] then []
    else
      assert s == [s[0]] + s[1..];
      InsertByKey(s[0], OrderBy(s[1..], key), key)
  }

  /** `s.Min(key)`: the smallest key of a non-empty sequence. */
  function MinKey<T>(s: seq<T>, key: T -> int): (m: int)
    requires |s| > 0
    ensures exists i :: 0 <= i < |s| && key(s[i]) == m
    ensures forall i :: 0 <= i < |s| ==> m <= key(s[i])
  {
    if |s| == 1 then key(s[0])
    else
      var rest := MinKey(s[1..], key);
      assert forall i :: 1 <= i < |s| ==> s[i] == s[1..][i - 1];
      if key(s[0]) <= rest then key(s[0]) else rest
  }

  /** `s.Max(key)`: the largest key of a non-empty sequence. */
  function MaxKey<T>(s: seq<T>, key: T -> int): (m: int)
    requires |s| > 0
    ensures exists i :: 0 <= i < |s| && key(s[i]) == m
    ensures forall i :: 0 <= i < |s| ==> key(s[i]) <= m
  {
    if |s| == 1 then key(s[0])
    else
      var rest := MaxKey(s[1..], key);
      assert forall i :: 1 <= i < |s| ==> s[i] == s[1..][i - 1];
      if key(s[0]) >= rest then key(s[0]) else rest
  }

  lemma {:induction false} InsertByKeySorted<T>(x: T, s: seq<T>, key: T -> int)
    requires SortedBy(s, key)
    ensures SortedBy(InsertByKey(x, s, key), key)
  {
    if s != [] && key(x) > key(s[0]) {
      InsertByKeySorted(x, s[1..], key);
      var r := InsertByKey(x, s, key);
      var tail := InsertByKey(x, s[1..], key);
      assert r == [s[0]] + tail;
      assert multiset(tail) == multiset(s[1..]) + multiset{x};
      forall j | 0 < j < |r| ensures key(r[0]) <= key(r[j]) {
        assert r[j] in multiset(tail);
        assert r[j] == x || r[j] in multiset(s[1..]);
        if r[j] != x {
          var k :| 0 <= k < |s[1..]| && s[1..][k] == r[j];
          assert s[1..][k] == s[k + 1];
        }
      }
    }
  }

  /** The order produced by `OrderBy` is non-decreasing in the key. */
  lemma {:induction false} OrderBySorted<T>(s: seq<T>, key: T -> int)
    ensures SortedBy(OrderBy(s, key), key)
  {
    if s != [] {
      OrderBySorted(s[1..], key);
      InsertByKeySorted(s[0], OrderBy(s[1..], key), key);
    }
  }

  lemma {:induction false} WithKeyInsert<T>(x: T, s: seq<T>, key: T -> int, k: int)
    requires SortedBy(s, key)
    ensures WithKey(InsertByKey(x, s, key), key, k)
         == if key(x) == k then [x] + WithKey(s, key, k) else WithKey(s, key, k)
  {
    if s != [] && key(x) > key(s[0]) {
      assert SortedBy(s[1..], key) by {
        forall i, j | 0 <= i < j < |s[1..]| ensures key(s[1..][i]) <= key(s[1..][j]) {
          assert s[1..][i] == s[i + 1] && s[1..][j] == s[j + 1];
        }
      }
      WithKeyInsert(x, s[1..], key, k);
      assert InsertByKey(x, s, key) == [s[0]] + InsertByKey(x, s[1..], key);
    }
  }

  /**
   * Stability: for every key value, the elements carrying it come out of
   * `OrderBy` in the same relative order as they went in.
   */
  lemma {:induction false} OrderByStable<T>(s: seq<T>, key: T -> int, k: int)
    ensures WithKey(OrderBy(s, key), key, k) == WithKey(s, key, k)
  {
    if s != [] {
      OrderByStable(s[1..], key, k);
      OrderBySorted(s[1..], key);
      WithKeyInsert(s[0], OrderBy(s[1..], key), key, k);
    }
  }

  /** A sequence already in key order is returned unchanged by `OrderBy`. */
  lemma {:induction false} OrderByOfSorted<T>(s: seq<T>, key: T -> int)
    requires SortedBy(s, key)
    ensures OrderBy(s, key) == s
  {
    if s != [] {
      assert SortedBy(s[1..], key) by {
        forall i, j | 0 <= i < j < |s[1..]| ensures key(s[1..][i]) <= key(s[1..][j]) {
          assert s[1..][i] == s[i + 1] && s[1..][j] == s[j + 1];
        }
      }
      OrderByOfSorted(s[1..], key);
      if |s| > 1 {
        assert key(s[0]) <= key(s[1..][0]);
      }
      assert s == [s[0]] + s[1..];
    }
  }

  /** When every key is within the bound, `Upto` keeps the whole sequence. */
  lemma {:induction false} UptoAll<T(!new)>(s: seq<T>, key: T -> int, bound: int)
    requires forall i :: 0 <= i < |s| ==> key(s[i]) <= bound
    ensures Upto(s, key, bound) == s
  {
    if s != [] {
      assert forall i :: 0 <= i < |s[1..]| ==> s[1..][i] == s[i + 1];
      UptoAll(s[1..], key, bound);
      assert s == [s[0]] + s[1..];
    }
  }

  /** `s.Where(x => key(x) <= bound).OrderBy(key)`: what a snapshot keeps of one stored sequence. */
  function Window<T(!new)>(s: seq<T>, key: T -> int, bound: int): seq<T> {
    OrderBy(Upto(s, key, bound), key)
  }

  /**
   * `r` is a window of `s` up to `bound`: exactly the entries of `s` whose key
   * is within the bound (as a multiset), in key order, and, among entries
   * with one and the same key, in their stored order.
   */
  ghost predicate IsWindowOf<T(!new)>(r: seq<T>, s: seq<T>, key: T -> int, bound: int) {
    && (forall x :: multiset(r)[x] == if key(x) <= bound then multiset(s)[x] else 0)
    && (forall i :: 0 <= i < |r| ==> key(r[i]) <= bound)
    && SortedBy(r, key)
    && (forall k :: WithKey(r, key, k) == if k <= bound then WithKey(s, key, k) else [])
  }

  lemma {:induction false} WithKeyUpto<T(!new)>(s: seq<T>, key: T -> int, bound: int, k: int)
    ensures WithKey(Upto(s, key, bound), key, k) == if k <= bound then WithKey(s, key, k) else []
  {
    if s != [] {
      WithKeyUpto(s[1..], key, bound, k);
    }
  }

  lemma WindowIsWindow<T(!new)>(s: seq<T>, key: T -> int, bound: int)
    ensures IsWindowOf(Window(s, key, bound), s, key, bound)
  {
    var u := Upto(s, key, bound);
    var r := Window(s, key, bound);
    OrderBySorted(u, key);
    forall i | 0 <= i < |r| ensures key(r[i]) <= bound {
      assert r[i] in multiset(u);
      var j :| 0 <= j < |u| && u[j] == r[i];
    }
    forall k ensures WithKey(r, key, k) == if k <= bound then WithKey(s, key, k) else [] {
      OrderByStable(u, key, k);
      WithKeyUpto(s, key, bound, k);
    }
  }

  /**
   * A later window of a grown sequence keeps every entry of an earlier one:
   * if `s1` is a prefix of `s2` and `b1 <= b2`, each entry of the first
   * window occurs in the second at least as often.
   */
  lemma WindowGrows<T(!new)>(s1: seq<T>, s2: seq<T>, key: T -> int, b1: int, b2: int)
    requires s1 <= s2 && b1 <= b2
    ensures multiset(Window(s1, key, b1)) <= multiset(Window(s2, key, b2))
  {
    assert s2 == s1 + s2[|s1|..];
    assert multiset(s2) == multiset(s1) + multiset(s2[|s1|..]);
    var r1, r2 := Window(s1, key, b1), Window(s2, key, b2);
    forall x ensures multiset(r1)[x] <= multiset(r2)[x] {
      assert multiset(r1)[x] == multiset(Upto(s1, key, b1))[x];
      assert multiset(r2)[x] == multiset(Upto(s2, key, b2))[x];
    }
  }

  /** A stored sequence already in key order and wholly within the bound is its own window. */
  lemma WindowOfOrdered<T(!new)>(s: seq<T>, key: T -> int, bound: int)
    requires SortedBy(s, key)
    requires forall i :: 0 <= i < |s| ==> key(s[i]) <= bound
    ensures Window(s, key, bound) == s
  {
    UptoAll(s, key, bound);
    OrderByOfSorted(s, key);
  }
}

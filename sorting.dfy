/**
 * Array.prototype.sort with a numeric comparator, as the source uses it to
 * order trips, country summaries and residency results. JavaScript's sort is
 * stable; it is modelled by insertion sort on an integer key, ascending, where
 * an element is inserted before every element whose key is not smaller.
 */
module Sorting {

  ghost predicate SortedBy<T>(s: seq<T>, key: T -> int) {
    forall i, j :: 0 <= i < j < |s| ==> key(s[i]) <= key(s[j])
  }

  /** No two elements share the value of `f`. */
  ghost predicate DistinctBy<T, K>(s: seq<T>, f: T -> K) {
    forall i, j :: 0 <= i < j < |s| ==> f(s[i]) != f(s[j])
  }

  function Insert<T>(x: T, s: seq<T>, key: T -> int): (r: seq<T>)
    ensures |r| == |s| + 1
    ensures multiset(r) == multiset(s) + multiset{x}
  {
    if s == [] then [x]
    else if key(x) <= key(s[0]) then [x] + s
    else
      assert s == [s[0]] + s[1..];
      [s[0]] + Insert(x, s[1..], key)
  }

  /** Every element of Insert(x, s) is x or an element of s. */
  lemma InsertElements<T>(x: T, s: seq<T>, key: T -> int, e: T)
    requires e in Insert(x, s, key)
    ensures e == x || e in s
  {
    assert e in multiset(Insert(x, s, key));
  }

  lemma {:induction false} InsertSorted<T>(x: T, s: seq<T>, key: T -> int)
    requires SortedBy(s, key)
    ensures SortedBy(Insert(x, s, key), key)
  {
    if s != [] && key(x) > key(s[0]) {
      var rest := Insert(x, s[1..], key);
      InsertSorted(x, s[1..], key);
      forall e | e in rest ensures key(s[0]) <= key(e) {
        InsertElements(x, s[1..], key, e);
      }
      assert Insert(x, s, key) == [s[0]] + rest;
    }
  }

  /** The sorted copy of s. */
  function SortBy<T>(s: seq<T>, key: T -> int): (r: seq<T>)
    ensures |r| == |s|
    ensures multiset(r) == multiset(s)
    ensures SortedBy(r, key)
  {
    if s == [] then []
    else
      assert s == [s[0]] + s[1..];
      InsertSorted(s[0], SortBy(s[1..], key), key);
      Insert(s[0], SortBy(s[1..], key), key)
  }

  /** Sorting keeps exactly the elements it was given. */
  lemma SortMembers<T>(s: seq<T>, key: T -> int)
    ensures forall x :: x in SortBy(s, key) <==> x in s
  {
    forall x ensures x in SortBy(s, key) <==> x in s {
      assert x in SortBy(s, key) <==> x in multiset(SortBy(s, key));
      assert x in s <==> x in multiset(s);
    }
  }

  lemma {:induction false} InsertKeepsDistinct<T, K>(x: T, s: seq<T>, key: T -> int, f: T -> K)
    requires DistinctBy(s, f)
    requires forall e :: e in s ==> f(e) != f(x)
    ensures DistinctBy(Insert(x, s, key), f)
  {
    if s != [] && key(x) > key(s[0]) {
      var rest := Insert(x, s[1..], key);
      InsertKeepsDistinct(x, s[1..], key, f);
      forall e | e in rest ensures f(e) != f(s[0]) {
        InsertElements(x, s[1..], key, e);
      }
      assert Insert(x, s, key) == [s[0]] + rest;
    }
  }

  /** Sorting keeps a projection injective (each country stays in one entry). */
  lemma {:induction false} SortKeepsDistinct<T, K>(s: seq<T>, key: T -> int, f: T -> K)
    requires DistinctBy(s, f)
    ensures DistinctBy(SortBy(s, key), f)
  {
    if s != [] {
      SortKeepsDistinct(s[1..], key, f);
      var sorted := SortBy(s[1..], key);
      forall e | e in sorted ensures f(e) != f(s[0]) {
        assert e in multiset(sorted);
        assert e in s[1..];
      }
      InsertKeepsDistinct(s[0], sorted, key, f);
    }
  }

  /** The elements of s whose key is k, in their order in s. */
  function WithKey<T>(s: seq<T>, key: T -> int, k: int): seq<T> {
    if s == [] then [] else (if key(s[0]) == k then [s[0]] else []) + WithKey(s[1..], key, k)
  }

  lemma WithKeyCons<T>(a: T, t: seq<T>, key: T -> int, k: int)
    ensures WithKey([a] + t, key, k) == (if key(a) == k then [a] else []) + WithKey(t, key, k)
  {
    assert ([a] + t)[1..] == t;
  }

  /** Inserting x puts it ahead of every element of s with the same key. */
  lemma {:induction false} InsertWithKey<T>(x: T, s: seq<T>, key: T -> int, k: int)
    decreases |s|, 1
    ensures WithKey(Insert(x, s, key), key, k) == (if key(x) == k then [x] else []) + WithKey(s, key, k)
  {
    if s == [] {
    } else if key(x) <= key(s[0]) {
      WithKeyCons(x, s, key, k);
    } else {
      InsertPast(x, s, key, k);
    }
  }

  /** The step of InsertWithKey where x goes past s[0], whose key is smaller. */
  lemma {:induction false} InsertPast<T>(x: T, s: seq<T>, key: T -> int, k: int)
    requires s != [] && key(x) > key(s[0])
    ensures WithKey(Insert(x, s, key), key, k) == (if key(x) == k then [x] else []) + WithKey(s, key, k)
    decreases |s|, 0
  {
    var rest := Insert(x, s[1..], key);
    var tail := WithKey(s[1..], key, k);
    assert Insert(x, s, key) == [s[0]] + rest;
    assert [s[0]] + s[1..] == s;
    WithKeyCons(s[0], rest, key, k);
    WithKeyCons(s[0], s[1..], key, k);
    InsertWithKey(x, s[1..], key, k);
    if key(x) == k {
      assert WithKey(rest, key, k) == [x] + tail;
      assert WithKey(s, key, k) == tail;
      assert WithKey(Insert(x, s, key), key, k) == [x] + tail;
    } else {
      assert WithKey(rest, key, k) == tail;
    }
  }

  /**
   * Sorting is stable: the elements that share a key come out in the order
   * they went in.
   */
  lemma {:induction false} SortStable<T>(s: seq<T>, key: T -> int, k: int)
    ensures WithKey(SortBy(s, key), key, k) == WithKey(s, key, k)
  {
    if s != [] {
      SortStable(s[1..], key, k);
      InsertWithKey(s[0], SortBy(s[1..], key), key, k);
    }
  }

  /** Sum of `val` over s. */
  function SumOf<T>(s: seq<T>, val: T -> int): int {
    if s == [] then 0 else SumOf(s[..|s| - 1], val) + val(s[|s| - 1])
  }

  lemma {:induction false} SumOfAppend<T>(s: seq<T>, t: seq<T>, val: T -> int)
    ensures SumOf(s + t, val) == SumOf(s, val) + SumOf(t, val)
    decreases |t|
  {
    if t == [] {
      assert s + t == s;
    } else {
      assert (s + t)[..|s + t| - 1] == s + t[..|t| - 1];
      SumOfAppend(s, t[..|t| - 1], val);
    }
  }

  lemma {:induction false} InsertSum<T>(x: T, s: seq<T>, key: T -> int, val: T -> int)
    ensures SumOf(Insert(x, s, key), val) == val(x) + SumOf(s, val)
  {
    if s == [] {
      assert SumOf([x], val) == SumOf([], val) + val(x);
    } else if key(x) <= key(s[0]) {
      SumOfAppend([x], s, val);
      assert SumOf([x], val) == SumOf([], val) + val(x);
    } else {
      InsertSum(x, s[1..], key, val);
      SumOfAppend([s[0]], Insert(x, s[1..], key), val);
      SumOfAppend([s[0]], s[1..], val);
      assert [s[0]] + s[1..] == s;
      assert SumOf([s[0]], val) == SumOf([], val) + val(s[0]);
    }
  }

  /** Sorting does not change a sum. */
  lemma {:induction false} SortSum<T>(s: seq<T>, key: T -> int, val: T -> int)
    ensures SumOf(SortBy(s, key), val) == SumOf(s, val)
  {
    if s != [] {
      SortSum(s[1..], key, val);
      InsertSum(s[0], SortBy(s[1..], key), key, val);
      SumOfAppend([s[0]], s[1..], val);
      assert [s[0]] + s[1..] == s;
      assert SumOf([s[0]], val) == SumOf([], val) + val(s[0]);
    }
  }
}

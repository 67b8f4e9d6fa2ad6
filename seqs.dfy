/** Generic sequence helpers shared by the queries: filtering (a QuerySet
    `filter`) and a stable sort by an integer key (an `order_by`, and
    Python's `sorted`, which is stable also with `reverse=True`). */
module Seqs {

  /** The elements of `s` that satisfy `p`, in their original order. */
  function Filter<T>(s: seq<T>, p: T -> bool): (r: seq<T>)
    ensures |r| <= |s|
    ensures forall i :: 0 <= i < |r| ==> r[i] in s && p(r[i])
    ensures forall i :: 0 <= i < |s| && p(s[i]) ==> s[i] in r
    ensures multiset(r) <= multiset(s)
  {
    if s == [] then []
    else
      assert s == [s[0]] + s[1..];
      (if p(s[0]) then [s[0]] else []) + Filter(s[1..], p)
  }

  lemma {:induction false} FilterAppend<T>(s: seq<T>, t: seq<T>, p: T -> bool)
    ensures Filter(s + t, p) == Filter(s, p) + Filter(t, p)
  {
    if s == [] {
      assert s + t == t;
    } else {
      assert (s + t)[1..] == s[1..] + t;
      FilterAppend(s[1..], t, p);
    }
  }

  /** Counting with a filter: appending one element adds one exactly when it
      satisfies the predicate. */
  lemma FilterCountSnoc<T>(s: seq<T>, x: T, p: T -> bool)
    ensures |Filter(s + [x], p)| == |Filter(s, p)| + (if p(x) then 1 else 0)
  {
    FilterAppend(s, [x], p);
    assert Filter([x], p) == (if p(x) then [x] else []) + Filter([], p);
  }

  /** Monotonicity: a weaker predicate keeps at least the same elements. */
  lemma {:induction false} FilterWeaker<T>(s: seq<T>, p: T -> bool, q: T -> bool)
    requires forall x :: p(x) ==> q(x)
    ensures multiset(Filter(s, p)) <= multiset(Filter(s, q))
  {
    if s != [] {
      FilterWeaker(s[1..], p, q);
    }
  }

  /** Every pair of positions is ordered by non-increasing key. */
  predicate SortedDesc<T>(s: seq<T>, key: T -> int)
  {
    forall i, j :: 0 <= i < j < |s| ==> key(s[i]) >= key(s[j])
  }

  /** The subsequence of `s` whose key equals `v`: a stable sort keeps it. */
  function WithKey<T>(s: seq<T>, key: T -> int, v: int): (r: seq<T>)
    ensures |r| <= |s|
  {
    if s == [] then []
    else (if key(s[0]) == v then [s[0]] else []) + WithKey(s[1..], key, v)
  }

  /** Puts `x` in front of the first element whose key is not larger, so that
      `x` stays ahead of the elements with the same key. */
  function InsertDesc<T>(x: T, s: seq<T>, key: T -> int): (r: seq<T>)
  {
    if s == [] || key(s[0]) <= key(x) then [x] + s
    else [s[0]] + InsertDesc(x, s[1..], key)
  }

  /** Stable insertion sort by non-increasing key. */
  function SortDesc<T>(s: seq<T>, key: T -> int): (r: seq<T>)
  {
    if s == [] then [] else InsertDesc(s[0], SortDesc(s[1..], key), key)
  }

  lemma {:induction false} InsertDescMultiset<T>(x: T, s: seq<T>, key: T -> int)
    ensures multiset(InsertDesc(x, s, key)) == multiset{x} + multiset(s)
  {
    if s != [] && key(s[0]) > key(x) {
      InsertDescMultiset(x, s[1..], key);
      assert s == [s[0]] + s[1..];
    }
  }

  lemma {:induction false} InsertDescFacts<T>(x: T, s: seq<T>, key: T -> int)
    requires SortedDesc(s, key)
    ensures SortedDesc(InsertDesc(x, s, key), key)
    ensures multiset(InsertDesc(x, s, key)) == multiset{x} + multiset(s)
  {
    InsertDescMultiset(x, s, key);
    if s != [] && key(s[0]) > key(x) {
      var t := InsertDesc(x, s[1..], key);
      InsertDescFacts(x, s[1..], key);
      var r := [s[0]] + t;
      assert forall j :: 0 <= j < |t| ==> key(s[0]) >= key(t[j]) by {
        forall j | 0 <= j < |t| ensures key(s[0]) >= key(t[j]) {
          assert t[j] in multiset(t);
          assert t[j] == x || t[j] in multiset(s[1..]);
        }
      }
      forall i, j | 0 <= i < j < |r| ensures key(r[i]) >= key(r[j]) {
        assert r[j] == t[j - 1];
        if i > 0 {
          assert r[i] == t[i - 1];
        }
      }
    }
  }

  lemma {:induction false} InsertDescWithKey<T>(x: T, s: seq<T>, key: T -> int, v: int)
    ensures WithKey(InsertDesc(x, s, key), key, v)
         == (if key(x) == v then [x] else []) + WithKey(s, key, v)
  {
    var xs := if key(x) == v then [x] else [];
    if s == [] || key(s[0]) <= key(x) {
      assert ([x] + s)[0] == x;
      assert ([x] + s)[1..] == s;
      assert WithKey([x] + s, key, v) == xs + WithKey(s, key, v);
    } else {
      var t := InsertDesc(x, s[1..], key);
      InsertDescWithKey(x, s[1..], key, v);
      assert ([s[0]] + t)[0] == s[0];
      assert ([s[0]] + t)[1..] == t;
      var ys := if key(s[0]) == v then [s[0]] else [];
      assert WithKey(s, key, v) == ys + WithKey(s[1..], key, v);
      assert WithKey([s[0]] + t, key, v) == ys + (xs + WithKey(s[1..], key, v));
      if key(x) == v {
        assert ys == [];
      } else {
        assert xs == [];
      }
    }
  }

  /** The sort returns an ordered permutation of its input. */
  lemma {:induction false} SortDescFacts<T>(s: seq<T>, key: T -> int)
    ensures SortedDesc(SortDesc(s, key), key)
    ensures multiset(SortDesc(s, key)) == multiset(s)
    ensures |SortDesc(s, key)| == |s|
  {
    if s != [] {
      SortDescFacts(s[1..], key);
      InsertDescFacts(s[0], SortDesc(s[1..], key), key);
      assert s == [s[0]] + s[1..];
      assert |multiset(SortDesc(s, key))| == |multiset(s)|;
    }
  }

  /** Stability: elements with equal keys keep their original relative order. */
  lemma {:induction false} SortDescStable<T>(s: seq<T>, key: T -> int, v: int)
    ensures WithKey(SortDesc(s, key), key, v) == WithKey(s, key, v)
  {
    if s != [] {
      SortDescStable(s[1..], key, v);
      InsertDescWithKey(s[0], SortDesc(s[1..], key), key, v);
    }
  }

  /** The run of one key in a prefix is a prefix of that run in the whole. */
  lemma {:induction false} WithKeyPrefix<T>(s: seq<T>, n: nat, key: T -> int, v: int)
    requires n <= |s|
    ensures WithKey(s[..n], key, v) <= WithKey(s, key, v)
  {
    if n > 0 {
      assert s[..n][1..] == s[1..][..n - 1];
      WithKeyPrefix(s[1..], n - 1, key, v);
    }
  }
}

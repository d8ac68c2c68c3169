/**
 * `Array.prototype.sort((a, b) => key(b) - key(a))`: a sort into
 * non-increasing order of a numeric key, written as an insertion sort that
 * keeps equal keys in their original order, as the built-in sort does.
 */
module Sorting {
  /** Non-increasing by key. */
  predicate SortedDesc<T>(s: seq<T>, key: T -> real) {
    forall i, j :: 0 <= i < j < |s| ==> key(s[i]) >= key(s[j])
  }

  /** Puts `x` after the elements with a strictly larger key and before the rest. */
  function Insert<T>(x: T, s: seq<T>, key: T -> real): (r: seq<T>)
    requires SortedDesc(s, key)
    ensures SortedDesc(r, key)
    ensures multiset(r) == multiset(s) + multiset{x}
    ensures |r| == |s| + 1
    ensures r[0] == x || (|s| > 0 && r[0] == s[0])
  {
    if |s| == 0 then [x]
    else if key(s[0]) > key(x) then
      var rest := Insert(x, s[1..], key);
      assert s == [s[0]] + s[1..];
      ConsSorted(s[0], rest, key);
      [s[0]] + rest
    else
      ConsSorted(x, s, key);
      [x] + s
  }

  /** An element no smaller than the head of a sorted list can go in front of it. */
  lemma ConsSorted<T>(h: T, rest: seq<T>, key: T -> real)
    requires SortedDesc(rest, key)
    requires |rest| > 0 ==> key(h) >= key(rest[0])
    ensures SortedDesc([h] + rest, key)
  {
    var r := [h] + rest;
    forall i, j | 0 <= i < j < |r|
      ensures key(r[i]) >= key(r[j])
    {
      if i == 0 {
        assert r[j] == rest[j - 1];
      } else {
        assert r[i] == rest[i - 1] && r[j] == rest[j - 1];
      }
    }
  }

  /** The sorted list: the same elements, in non-increasing key order. */
  function SortDesc<T>(s: seq<T>, key: T -> real): (r: seq<T>)
    ensures SortedDesc(r, key)
    ensures multiset(r) == multiset(s)
    ensures |r| == |s|
  {
    if |s| == 0 then []
    else
      assert s == [s[0]] + s[1..];
      Insert(s[0], SortDesc(s[1..], key), key)
  }

  /** The elements whose key is `k`, in their order in `s`. */
  function WithKey<T>(s: seq<T>, key: T -> real, k: real): seq<T> {
    if |s| == 0 then [] else (if key(s[0]) == k then [s[0]] else []) + WithKey(s[1..], key, k)
  }

  lemma WithKeyCons<T>(h: T, t: seq<T>, key: T -> real, k: real)
    ensures WithKey([h] + t, key, k) == (if key(h) == k then [h] else []) + WithKey(t, key, k)
  {
    assert ([h] + t)[1..] == t;
  }

  /** Inserting `x` puts it in front of every element with its key. */
  lemma {:induction false} InsertStable<T>(x: T, s: seq<T>, key: T -> real, k: real)
    requires SortedDesc(s, key)
    ensures WithKey(Insert(x, s, key), key, k) == (if key(x) == k then [x] else []) + WithKey(s, key, k)
  {
    if |s| == 0 {
      assert Insert(x, s, key) == [x] + s;
      WithKeyCons(x, s, key, k);
    } else if key(s[0]) > key(x) {
      var rest := Insert(x, s[1..], key);
      assert Insert(x, s, key) == [s[0]] + rest;
      InsertStable(x, s[1..], key, k);
      assert s == [s[0]] + s[1..];
      PassLarger(s[0], x, rest, s[1..], key, k);
    } else {
      assert Insert(x, s, key) == [x] + s;
      WithKeyCons(x, s, key, k);
    }
  }

  /** Stepping past a head with a larger key than `x` keeps `x` in front of its key's elements. */
  lemma PassLarger<T>(h: T, x: T, rest: seq<T>, tail: seq<T>, key: T -> real, k: real)
    requires key(h) > key(x)
    requires WithKey(rest, key, k) == (if key(x) == k then [x] else []) + WithKey(tail, key, k)
    ensures WithKey([h] + rest, key, k) == (if key(x) == k then [x] else []) + WithKey([h] + tail, key, k)
  {
    WithKeyCons(h, rest, key, k);
    WithKeyCons(h, tail, key, k);
  }

  /** The sort is stable: for every key, the elements with that key keep their relative order. */
  lemma {:induction false} SortDescStable<T>(s: seq<T>, key: T -> real, k: real)
    ensures WithKey(SortDesc(s, key), key, k) == WithKey(s, key, k)
  {
    if |s| > 0 {
      SortDescStable(s[1..], key, k);
      InsertStable(s[0], SortDesc(s[1..], key), key, k);
    }
  }

  /** The first n elements (`slice(0, n)`): all of them when there are fewer. */
  function Take<T>(s: seq<T>, n: nat): (r: seq<T>)
    ensures |r| == if |s| < n then |s| else n
    ensures forall i :: 0 <= i < |r| ==> r[i] == s[i]
  {
    if |s| < n then s else s[..n]
  }

  /** A prefix of a sorted list is sorted, and none of what it leaves out has a larger key. */
  lemma TakeSorted<T>(s: seq<T>, key: T -> real, n: nat)
    requires SortedDesc(s, key)
    ensures SortedDesc(Take(s, n), key)
    ensures forall i, j :: 0 <= i < |Take(s, n)| <= j < |s| ==> key(Take(s, n)[i]) >= key(s[j])
  {
    var t := Take(s, n);
    forall i, j | 0 <= i < j < |t|
      ensures key(t[i]) >= key(t[j])
    {
      assert t[i] == s[i] && t[j] == s[j];
    }
  }

  /** Every element of a prefix is an element of any permutation of the list. */
  lemma TakeFrom<T>(s: seq<T>, all: seq<T>, n: nat)
    requires multiset(s) == multiset(all)
    ensures forall i :: 0 <= i < |Take(s, n)| ==> Take(s, n)[i] in all
  {
    forall i | 0 <= i < |Take(s, n)|
      ensures Take(s, n)[i] in all
    {
      assert s[i] in multiset(s);
    }
  }
}

/**
 * `Array.prototype.sort` with a numeric comparator, as used by the source:
 * a stable sort, ascending in a key. A descending sort `(a, b) => k(b) - k(a)`
 * is the ascending sort on the negated key.
 */
module Sorting {

  /** `s` is in ascending order of `key`. */
  ghost predicate SortedBy<T>(s: seq<T>, key: T -> int) {
    forall i, j :: 0 <= i < j < |s| ==> key(s[i]) <= key(s[j])
  }

  /** Put `x` in front of the first element whose key is not smaller, so earlier elements stay first among equals. */
  function Insert<T>(x: T, s: seq<T>, key: T -> int): (r: seq<T>)
    requires SortedBy(s, key)
    ensures SortedBy(r, key)
    ensures multiset(r) == multiset(s) + multiset{x}
    ensures |r| == |s| + 1
    ensures r[0] == x || (s != [] && r[0] == s[0])
  {
    if s == [] || key(x) <= key(s[0]) then [x] + s
    else
      var t := Insert(x, s[1..], key);
      assert s == [s[0]] + s[1..];
      [s[0]] + t
  }

  /** The stable insertion sort that stands for `Array.prototype.sort`. */
  function SortBy<T>(s: seq<T>, key: T -> int): (r: seq<T>)
    ensures SortedBy(r, key)
    ensures multiset(r) == multiset(s)
    ensures |r| == |s|
  {
    if s == [] then []
    else
      assert s == [s[0]] + s[1..];
      Insert(s[0], SortBy(s[1..], key), key)
  }

  /** Sorting keeps exactly the elements it was given. */
  lemma SortByMembers<T>(s: seq<T>, key: T -> int, x: T)
    ensures x in SortBy(s, key) <==> x in s
  {
    var r := SortBy(s, key);
    assert x in r <==> x in multiset(r);
    assert x in s <==> x in multiset(s);
  }

  /** In a sorted sequence, no element after the first `k` has a smaller key than one of the first `k`. */
  lemma SortedPrefixIsLeast<T>(s: seq<T>, key: T -> int, k: int)
    requires SortedBy(s, key) && 0 <= k <= |s|
    ensures multiset(s[..k]) <= multiset(s)
    ensures forall e, t :: e in multiset(s) - multiset(s[..k]) && t in s[..k] ==> key(t) <= key(e)
  {
    assert s == s[..k] + s[k..];
    assert multiset(s) == multiset(s[..k]) + multiset(s[k..]);
    forall e, t | e in multiset(s) - multiset(s[..k]) && t in s[..k]
      ensures key(t) <= key(e)
    {
      assert e in multiset(s[k..]);
      var j :| k <= j < |s| && s[j] == e;
      var i :| 0 <= i < k && s[i] == t;
    }
  }

  /** The elements of `s` whose key is `k`, in their order in `s`. */
  function WithKey<T>(s: seq<T>, key: T -> int, k: int): (r: seq<T>)
    ensures |r| <= |s|
    ensures forall i :: 0 <= i < |r| ==> r[i] in s && key(r[i]) == k
  {
    if s == [] then []
    else (if key(s[0]) == k then [s[0]] else []) + WithKey(s[1..], key, k)
  }

  /** One step of `WithKey`, on a sequence given as its first element and the rest. */
  lemma WithKeyCons<T>(y: T, u: seq<T>, key: T -> int, k: int)
    ensures WithKey([y] + u, key, k) == (if key(y) == k then [y] else []) + WithKey(u, key, k)
  {
    assert ([y] + u)[0] == y && ([y] + u)[1..] == u;
  }

  /** Two prefixes of which one is empty can be swapped. */
  lemma EmptyCommutes<T>(u: seq<T>, v: seq<T>, w: seq<T>)
    requires u == [] || v == []
    ensures u + (v + w) == v + (u + w)
  {
    if u == [] {
      assert u + (v + w) == v + w;
    } else {
      assert v + (u + w) == u + w;
    }
  }

  /** Inserting `x` puts it in front of every element with the same key. */
  lemma {:induction false} InsertKeepsTies<T>(x: T, s: seq<T>, key: T -> int, k: int)
    requires SortedBy(s, key)
    ensures WithKey(Insert(x, s, key), key, k) == (if key(x) == k then [x] else []) + WithKey(s, key, k)
  {
    if s == [] || key(x) <= key(s[0]) {
      WithKeyCons(x, s, key, k);
    } else {
      // s[0] has a smaller key than x, so at most one of the two contributes.
      var hx := if key(x) == k then [x] else [];
      var h0 := if key(s[0]) == k then [s[0]] else [];
      var t, w := Insert(x, s[1..], key), WithKey(s[1..], key, k);
      InsertKeepsTies(x, s[1..], key, k);
      WithKeyCons(s[0], t, key, k);
      assert h0 == [] || hx == [];
      EmptyCommutes(h0, hx, w);
    }
  }

  /** The sort is stable: the elements with any one key come out in the order they went in. */
  lemma {:induction false} SortByIsStable<T>(s: seq<T>, key: T -> int, k: int)
    ensures WithKey(SortBy(s, key), key, k) == WithKey(s, key, k)
  {
    if s != [] {
      SortByIsStable(s[1..], key, k);
      InsertKeepsTies(s[0], SortBy(s[1..], key), key, k);
    }
  }

  /** `a.sort(...)` in place: afterwards the array holds the stable sort of what it held. */
  method SortInPlace<T>(a: array<T>, key: T -> int)
    modifies a
    ensures a[..] == SortBy(old(a[..]), key)
  {
    var sorted := SortBy(a[..], key);
    forall i | 0 <= i < a.Length {
      a[i] := sorted[i];
    }
  }
}

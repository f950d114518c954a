/** `Array.prototype.sort` with a numeric comparator `(a, b) => key(a) - key(b)`.
    The sort is stable (ECMAScript 2019 and later), so its result is fully
    determined: it is the stable insertion sort `SortByKey` below. A comparator
    of the form `key(b) - key(a)` is the same sort on the negated key. */
module Sorting {

  /** Puts `x` in front of the first element of `t` whose key is not smaller. */
  function Insert<T>(x: T, t: seq<T>, key: T -> real): (r: seq<T>)
    ensures |r| == |t| + 1
  {
    if t == [] || key(x) <= key(t[0]) then [x] + t
    else [t[0]] + Insert(x, t[1..], key)
  }

  /** Inserting adds `x` and loses nothing. */
  lemma {:induction false} InsertPermutes<T>(x: T, t: seq<T>, key: T -> real)
    ensures multiset(Insert(x, t, key)) == multiset(t) + multiset{x}
  {
    if t != [] && key(t[0]) < key(x) {
      InsertPermutes(x, t[1..], key);
      assert t == [t[0]] + t[1..];
    }
  }

  /** The stable sort of `s` by ascending `key`. */
  function SortByKey<T>(s: seq<T>, key: T -> real): (r: seq<T>)
    ensures |r| == |s|
  {
    if s == [] then [] else Insert(s[0], SortByKey(s[1..], key), key)
  }

  ghost predicate SortedBy<T>(s: seq<T>, key: T -> real) {
    forall i, j :: 0 <= i < j < |s| ==> key(s[i]) <= key(s[j])
  }

  /** The elements of `s` whose key is `v`, in their order in `s`. */
  function WithKey<T>(s: seq<T>, key: T -> real, v: real): seq<T> {
    if s == [] then []
    else (if key(s[0]) == v then [s[0]] else []) + WithKey(s[1..], key, v)
  }

  lemma {:induction false} InsertLowerBound<T>(x: T, t: seq<T>, key: T -> real, b: real)
    requires b <= key(x)
    requires forall m :: 0 <= m < |t| ==> b <= key(t[m])
    ensures forall k :: 0 <= k < |Insert(x, t, key)| ==> b <= key(Insert(x, t, key)[k])
  {
    if t != [] && key(t[0]) < key(x) {
      InsertLowerBound(x, t[1..], key, b);
    }
  }

  lemma {:induction false} InsertKeepsSorted<T>(x: T, t: seq<T>, key: T -> real)
    requires SortedBy(t, key)
    ensures SortedBy(Insert(x, t, key), key)
    ensures |Insert(x, t, key)| == |t| + 1
  {
    if t != [] && key(t[0]) < key(x) {
      InsertKeepsSorted(x, t[1..], key);
      InsertLowerBound(x, t[1..], key, key(t[0]));
    }
  }

  /** The result is sorted by `key`. */
  lemma {:induction false} SortByKeySorted<T>(s: seq<T>, key: T -> real)
    ensures SortedBy(SortByKey(s, key), key)
  {
    if s != [] {
      SortByKeySorted(s[1..], key);
      InsertKeepsSorted(s[0], SortByKey(s[1..], key), key);
    }
  }

  /** The result is a permutation of `s`. */
  lemma {:induction false} SortByKeyPermutes<T>(s: seq<T>, key: T -> real)
    ensures multiset(SortByKey(s, key)) == multiset(s)
  {
    if s != [] {
      SortByKeyPermutes(s[1..], key);
      InsertPermutes(s[0], SortByKey(s[1..], key), key);
      assert s == [s[0]] + s[1..];
    }
  }

  /** The result holds exactly the elements of `s`. */
  lemma SortByKeyMembers<T>(s: seq<T>, key: T -> real)
    ensures forall x :: x in SortByKey(s, key) <==> x in s
  {
    SortByKeyPermutes(s, key);
    forall x ensures x in SortByKey(s, key) <==> x in s {
      assert x in SortByKey(s, key) <==> x in multiset(SortByKey(s, key));
      assert x in s <==> x in multiset(s);
    }
  }

  lemma {:induction false} WithKeyAppend<T>(a: seq<T>, b: seq<T>, key: T -> real, v: real)
    ensures WithKey(a + b, key, v) == WithKey(a, key, v) + WithKey(b, key, v)
  {
    if a == [] {
      assert a + b == b;
    } else {
      var h := if key(a[0]) == v then [a[0]] else [];
      assert (a + b)[0] == a[0];
      assert (a + b)[1..] == a[1..] + b;
      WithKeyAppend(a[1..], b, key, v);
      calc {
        WithKey(a + b, key, v);
        h + WithKey(a[1..] + b, key, v);
        h + (WithKey(a[1..], key, v) + WithKey(b, key, v));
        (h + WithKey(a[1..], key, v)) + WithKey(b, key, v);
        WithKey(a, key, v) + WithKey(b, key, v);
      }
    }
  }

  lemma {:induction false} InsertWithKey<T>(x: T, t: seq<T>, key: T -> real, v: real)
    requires SortedBy(t, key)
    ensures WithKey(Insert(x, t, key), key, v)
         == (if key(x) == v then [x] else []) + WithKey(t, key, v)
  {
    if t == [] || key(x) <= key(t[0]) {
      WithKeyAppend([x], t, key, v);
    } else {
      InsertWithKey(x, t[1..], key, v);
      WithKeyAppend([t[0]], Insert(x, t[1..], key), key, v);
      assert key(t[0]) != v || key(x) != v;
      if key(x) == v {
        assert key(t[0]) < v;
      }
    }
  }

  /** Stability: for every key value, the elements with that key keep their
      relative order. */
  lemma {:induction false} SortByKeyStable<T>(s: seq<T>, key: T -> real, v: real)
    ensures WithKey(SortByKey(s, key), key, v) == WithKey(s, key, v)
  {
    if s != [] {
      SortByKeyStable(s[1..], key, v);
      SortByKeySorted(s[1..], key);
      InsertWithKey(s[0], SortByKey(s[1..], key), key, v);
    }
  }

  /** A comparator that always answers 0 leaves the order unchanged. */
  lemma {:induction false} SortByConstantKey<T>(s: seq<T>, key: T -> real)
    requires forall i, j :: 0 <= i < j < |s| ==> key(s[i]) == key(s[j])
    ensures SortByKey(s, key) == s
  {
    if s != [] {
      SortByConstantKey(s[1..], key);
      assert SortByKey(s[1..], key) == s[1..];
      if |s| > 1 {
        assert key(s[0]) == key(s[1]);
      }
    }
  }

  lemma {:induction false} InsertAt<T>(x: T, t: seq<T>, key: T -> real, p: nat)
    requires p <= |t|
    requires forall k :: 0 <= k < p ==> key(t[k]) < key(x)
    requires p < |t| ==> key(x) <= key(t[p])
    ensures Insert(x, t, key) == t[..p] + [x] + t[p..]
  {
    if p == 0 {
      assert t == [] || key(x) <= key(t[0]);
      assert t[..0] + [x] + t[0..] == [x] + t;
    } else {
      var u := t[1..];
      forall k | 0 <= k < p - 1 ensures key(u[k]) < key(x) {
        assert u[k] == t[k + 1];
      }
      InsertAt(x, u, key, p - 1);
      assert Insert(x, t, key) == [t[0]] + Insert(x, u, key);
      assert t == [t[0]] + u;
      ConsSplit(t[0], u, x, p - 1);
    }
  }

  lemma ConsSplit<T>(h: T, u: seq<T>, x: T, q: nat)
    requires q <= |u|
    ensures [h] + (u[..q] + [x] + u[q..]) == ([h] + u)[..q + 1] + [x] + ([h] + u)[q + 1..]
  {
    assert ([h] + u)[..q + 1] == [h] + u[..q];
    assert ([h] + u)[q + 1..] == u[q..];
  }

  lemma SortByKeyFrom<T>(s: seq<T>, i: nat, key: T -> real)
    requires i < |s|
    ensures SortByKey(s[i..], key) == Insert(s[i], SortByKey(s[i + 1..], key), key)
  {
    assert s[i..][0] == s[i];
    assert s[i..][1..] == s[i + 1..];
  }

  /** One step of the in-place sort: `a[i]` is moved into the sorted suffix
      after it, the smaller keys shifting one place to the left. */
  method InsertIntoSuffix<T>(a: array<T>, i: nat, key: T -> real)
    requires i < a.Length
    modifies a
    ensures a[..i] == old(a[..i])
    ensures a[i..] == Insert(old(a[i]), old(a[i + 1..]), key)
  {
    var x := a[i];
    ghost var t := a[i + 1..];
    var j := ShiftLower(a, i, x, key);
    a[j - 1] := x;
    InsertAt(x, t, key, j - 1 - i);
    Reassemble(a[..], i, j, t, x);
  }

  /** The shifting loop of the insertion: moves every element after `i`
      whose key is below `key(x)` one place to the left, and returns the
      position just past the freed slot `j - 1`. */
  method ShiftLower<T>(a: array<T>, i: nat, x: T, key: T -> real) returns (j: nat)
    requires i < a.Length
    modifies a
    ensures i + 1 <= j <= a.Length
    ensures forall k :: 0 <= k < i ==> a[k] == old(a[k])
    ensures forall k :: i <= k < j - 1 ==> a[k] == old(a[k + 1])
    ensures forall k :: j <= k < a.Length ==> a[k] == old(a[k])
    ensures forall k :: i + 1 <= k < j ==> key(old(a[k])) < key(x)
    ensures j < a.Length ==> key(x) <= key(old(a[j]))
  {
    var n := a.Length;
    j := i + 1;
    while j < n && key(a[j]) < key(x)
      invariant i + 1 <= j <= n
      invariant forall k :: 0 <= k < i ==> a[k] == old(a[k])
      invariant forall k :: i <= k < j - 1 ==> a[k] == old(a[k + 1])
      invariant forall k :: j <= k < n ==> a[k] == old(a[k])
      invariant forall k :: i + 1 <= k < j ==> key(old(a[k])) < key(x)
    {
      a[j - 1] := a[j];
      j := j + 1;
    }
  }

  /** The array after the shifting loop and the final store, read as a
      sequence: the shifted prefix of `t`, then `x`, then the rest of `t`. */
  lemma Reassemble<T>(s: seq<T>, i: nat, j: nat, t: seq<T>, x: T)
    requires i + 1 <= j <= |s| && |t| == |s| - i - 1
    requires forall k :: i <= k < j - 1 ==> s[k] == t[k - i]
    requires s[j - 1] == x
    requires forall k :: j <= k < |s| ==> s[k] == t[k - 1 - i]
    ensures s[i..] == t[..j - 1 - i] + [x] + t[j - 1 - i..]
  {
    var p := j - 1 - i;
    var r := t[..p] + [x] + t[p..];
    forall k | i <= k < |s| ensures s[k] == r[k - i] {
      if k < j - 1 {
        assert r[k - i] == t[..p][k - i];
      } else if j - 1 < k {
        assert r[k - i] == t[p..][k - i - p - 1];
      }
    }
  }

  /** The in-place sort: an insertion sort that grows a sorted suffix from
      the right. */
  method SortInPlace<T>(a: array<T>, key: T -> real)
    modifies a
    ensures a[..] == SortByKey(old(a[..]), key)
  {
    ghost var s := a[..];
    var i := a.Length;
    assert s[i..] == [];
    while i > 0
      invariant 0 <= i <= a.Length
      invariant a[..i] == s[..i]
      invariant a[i..] == SortByKey(s[i..], key)
    {
      i := i - 1;
      assert a[i] == s[i];
      InsertIntoSuffix(a, i, key);
      SortByKeyFrom(s, i, key);
    }
    assert a[..] == a[0..];
    assert s[0..] == s;
  }
}

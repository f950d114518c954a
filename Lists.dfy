/** The array methods `filter` and `flatMap` (or `forEach` with `push(...)`),
    as functions on sequences. */
module Lists {
  import opened Wrappers

  /** `s.filter(keep)`. */
  function Filter<T>(s: seq<T>, keep: T -> bool): (r: seq<T>)
    ensures |r| <= |s|
  {
    if s == [] then []
    else Filter(s[..|s| - 1], keep) + (if keep(s[|s| - 1]) then [s[|s| - 1]] else [])
  }

  /** The filter keeps exactly the elements that pass the test. */
  lemma {:induction false} FilterMembers<T>(s: seq<T>, keep: T -> bool)
    ensures forall x :: x in Filter(s, keep) <==> x in s && keep(x)
    ensures forall i :: 0 <= i < |Filter(s, keep)| ==> keep(Filter(s, keep)[i])
  {
    if s != [] {
      var p := s[..|s| - 1];
      FilterMembers(p, keep);
      assert s == p + [s[|s| - 1]];
    }
  }

  /** Filtering a concatenation filters each part. */
  lemma {:induction false} FilterAppend<T>(a: seq<T>, b: seq<T>, keep: T -> bool)
    ensures Filter(a + b, keep) == Filter(a, keep) + Filter(b, keep)
    decreases |b|
  {
    if b == [] {
      assert a + b == a;
    } else {
      var bp := b[..|b| - 1];
      FilterAppend(a, bp, keep);
      assert (a + b)[..|a + b| - 1] == a + bp;
      assert (a + b)[|a + b| - 1] == b[|b| - 1];
    }
  }

  /** Two complementary tests split a list: every element passes exactly
      one of them. */
  lemma {:induction false} FilterComplement<T>(s: seq<T>, p: T -> bool, q: T -> bool)
    requires forall x :: p(x) != q(x)
    ensures |Filter(s, p)| + |Filter(s, q)| == |s|
  {
    if s != [] {
      FilterComplement(s[..|s| - 1], p, q);
    }
  }

  /** `r` is `s` with some elements left out: the elements of `r` occur in
      `s` in the same order. */
  predicate Subsequence<T(==)>(r: seq<T>, s: seq<T>)
    decreases |s|
  {
    if r == [] then true
    else if s == [] then false
    else if r[|r| - 1] == s[|s| - 1] then Subsequence(r[..|r| - 1], s[..|s| - 1])
    else Subsequence(r, s[..|s| - 1])
  }

  /** Leaving nothing out is a subsequence. */
  lemma {:induction false} SubsequenceSelf<T>(s: seq<T>)
    ensures Subsequence(s, s)
  {
    if s != [] {
      SubsequenceSelf(s[..|s| - 1]);
    }
  }

  /** The filter keeps the order of the elements it keeps. */
  lemma {:induction false} FilterSubsequence<T>(s: seq<T>, keep: T -> bool)
    ensures Subsequence(Filter(s, keep), s)
  {
    if s != [] {
      var p := s[..|s| - 1];
      FilterSubsequence(p, keep);
      var f := Filter(s, keep);
      if keep(s[|s| - 1]) {
        assert f[..|f| - 1] == Filter(p, keep);
        assert f[|f| - 1] == s[|s| - 1];
      } else if f != [] {
        assert f == Filter(p, keep);
        FilterMembers(p, keep);
        assert keep(f[|f| - 1]);
        assert f[|f| - 1] != s[|s| - 1];
        assert Subsequence(f, p);
      }
    }
  }

  /** The lists `f(x)` of the elements `x` of `s`, concatenated in order. */
  function FlatMap<T, U>(s: seq<T>, f: T -> seq<U>): seq<U> {
    if s == [] then []
    else FlatMap(s[..|s| - 1], f) + f(s[|s| - 1])
  }

  /** `FlatMap` with a step that can fail: the first failure ends it. */
  function FlatMapOrFail<T, U>(s: seq<T>, f: T -> Option<seq<U>>): Option<seq<U>> {
    if s == [] then Some([])
    else
      match FlatMapOrFail(s[..|s| - 1], f)
      case None => None
      case Some(e) =>
        match f(s[|s| - 1])
        case None => None
        case Some(r) => Some(e + r)
  }

  /** It fails exactly when some step fails, and otherwise agrees with the
      total step `g` that the successful steps agree with. */
  lemma {:induction false} FlatMapOrFailSpec<T, U>(s: seq<T>, f: T -> Option<seq<U>>, g: T -> seq<U>)
    requires forall x :: f(x).Some? ==> f(x).value == g(x)
    ensures FlatMapOrFail(s, f).None? <==> exists i :: 0 <= i < |s| && f(s[i]).None?
    ensures FlatMapOrFail(s, f).Some? ==> FlatMapOrFail(s, f).value == FlatMap(s, g)
  {
    if s != [] {
      var p := s[..|s| - 1];
      FlatMapOrFailSpec(p, f, g);
      assert forall i :: 0 <= i < |p| ==> p[i] == s[i];
      if f(s[|s| - 1]).None? {
        assert 0 <= |s| - 1 < |s| && f(s[|s| - 1]).None?;
      }
      if exists i :: 0 <= i < |s| && f(s[i]).None? {
        var i :| 0 <= i < |s| && f(s[i]).None?;
        if i < |p| {
          assert f(p[i]).None?;
        }
      }
    }
  }

  lemma {:induction false} FlatMapMembers<T, U>(s: seq<T>, f: T -> seq<U>, y: U)
    ensures y in FlatMap(s, f) <==> exists i :: 0 <= i < |s| && y in f(s[i])
  {
    if s != [] {
      var p := s[..|s| - 1];
      FlatMapMembers(p, f, y);
      assert forall i :: 0 <= i < |p| ==> p[i] == s[i];
    }
  }

  lemma {:induction false} FlatMapAppend<T, U>(a: seq<T>, b: seq<T>, f: T -> seq<U>)
    ensures FlatMap(a + b, f) == FlatMap(a, f) + FlatMap(b, f)
    decreases |b|
  {
    if b == [] {
      assert a + b == a;
    } else {
      var bp := b[..|b| - 1];
      FlatMapAppend(a, bp, f);
      assert (a + b)[..|a + b| - 1] == a + bp;
      assert (a + b)[|a + b| - 1] == b[|b| - 1];
    }
  }

  /** `s.includes(x)`, read from the end of `s`. */
  predicate Includes<T(==)>(s: seq<T>, x: T) {
    s != [] && (s[|s| - 1] == x || Includes(s[..|s| - 1], x))
  }

  lemma {:induction false} IncludesIn<T>(s: seq<T>, x: T)
    ensures Includes(s, x) <==> x in s
  {
    if s != [] {
      IncludesIn(s[..|s| - 1], x);
      assert s == s[..|s| - 1] + [s[|s| - 1]];
    }
  }
}

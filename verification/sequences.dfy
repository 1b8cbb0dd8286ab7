/** The Swift collection operations the app relies on: `map`, `filter` and `first(where:)`. */
module Sequences {
  import opened Wrappers

  /** `s.map(f)`: one output per input, in the same order. */
  function Map<T, U>(s: seq<T>, f: T -> U): (r: seq<U>)
    ensures |r| == |s|
    ensures forall i :: 0 <= i < |s| ==> r[i] == f(s[i])
  {
    if s == [] then [] else [f(s[0])] + Map(s[1..], f)
  }

  /** `s.filter(p)`: exactly the elements satisfying `p`, and no more elements than `s` has. */
  function Filter<T(==,!new)>(s: seq<T>, p: T -> bool): (r: seq<T>)
    ensures |r| <= |s|
    ensures forall x :: x in r <==> x in s && p(x)
  {
    if s == [] then [] else (if p(s[0]) then [s[0]] else []) + Filter(s[1..], p)
  }

  /** `s.first(where: p)`: the head of `s.filter(p)`, or nil when nothing matches. */
  function FirstWhere<T(==,!new)>(s: seq<T>, p: T -> bool): (r: Option<T>)
    ensures r == if Filter(s, p) == [] then None else Some(Filter(s, p)[0])
  {
    if s == [] then None
    else if p(s[0]) then Some(s[0])
    else FirstWhere(s[1..], p)
  }

  /** `a` is `b` with some elements deleted, the rest kept in order. */
  predicate IsSubsequence<T(==)>(a: seq<T>, b: seq<T>)
    decreases |b|
  {
    a == [] ||
    (b != [] && ((a[0] == b[0] && IsSubsequence(a[1..], b[1..])) || IsSubsequence(a, b[1..])))
  }

  /** Filtering a concatenation filters each part: the filter keeps the input's order. */
  lemma {:induction false} FilterConcat<T(!new)>(a: seq<T>, b: seq<T>, p: T -> bool)
    ensures Filter(a + b, p) == Filter(a, p) + Filter(b, p)
  {
    if a == [] {
      assert a + b == b;
    } else {
      assert (a + b)[1..] == a[1..] + b;
      FilterConcat(a[1..], b, p);
    }
  }

  /** Mapping a concatenation maps each part. */
  lemma {:induction false} MapConcat<T, U>(a: seq<T>, b: seq<T>, f: T -> U)
    ensures Map(a + b, f) == Map(a, f) + Map(b, f)
  {
    if a == [] {
      assert a + b == b;
    } else {
      assert (a + b)[1..] == a[1..] + b;
      MapConcat(a[1..], b, f);
    }
  }

  /** A filter's result is a subsequence of its input. */
  lemma {:induction false} FilterIsSubsequence<T(!new)>(s: seq<T>, p: T -> bool)
    ensures IsSubsequence(Filter(s, p), s)
  {
    if s != [] {
      FilterIsSubsequence(s[1..], p);
      if p(s[0]) {
        assert Filter(s, p) == [s[0]] + Filter(s[1..], p);
        assert Filter(s, p)[1..] == Filter(s[1..], p);
      } else {
        assert Filter(s, p) == Filter(s[1..], p);
      }
    }
  }

  /** `first(where:)` returns the earliest matching element: nothing before it matches. */
  lemma {:induction false} FirstWhereIsEarliest<T(!new)>(s: seq<T>, p: T -> bool)
    requires FirstWhere(s, p).Some?
    ensures exists i :: 0 <= i < |s| && s[i] == FirstWhere(s, p).value && p(s[i]) &&
                        forall j :: 0 <= j < i ==> !p(s[j])
  {
    if !p(s[0]) {
      FirstWhereIsEarliest(s[1..], p);
      var i :| 0 <= i < |s[1..]| && s[1..][i] == FirstWhere(s, p).value && p(s[1..][i]) &&
               forall j :: 0 <= j < i ==> !p(s[1..][j]);
      assert s[i + 1] == FirstWhere(s, p).value && forall j :: 0 <= j < i + 1 ==> !p(s[j]);
    } else {
      assert s[0] == FirstWhere(s, p).value;
    }
  }
}

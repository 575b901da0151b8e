/**
 * The array built-ins the storefront relies on (`filter`, `find`, `findIndex`,
 * `map` and a summing `reduce`), stated over Dafny sequences.
 */
module JsArray {

  import opened Wrappers

  /** `a` occurs inside `b` in the same order, possibly with gaps. */
  ghost predicate IsSubsequence<T>(a: seq<T>, b: seq<T>)
    decreases |b|
  {
    a == [] || (b != [] && ((a[0] == b[0] && IsSubsequence(a[1..], b[1..])) || IsSubsequence(a, b[1..])))
  }

  /** A sequence is a subsequence of itself. */
  lemma {:induction false} SubsequenceReflexive<T>(s: seq<T>)
    ensures IsSubsequence(s, s)
  {
    if s != [] {
      SubsequenceReflexive(s[1..]);
    }
  }

  lemma {:induction false} SubsequenceLength<T>(a: seq<T>, b: seq<T>)
    requires IsSubsequence(a, b)
    ensures |a| <= |b|
    decreases |b|
  {
    if a != [] {
      if a[0] == b[0] && IsSubsequence(a[1..], b[1..]) {
        SubsequenceLength(a[1..], b[1..]);
      } else {
        SubsequenceLength(a, b[1..]);
      }
    }
  }

  lemma {:induction false} SubsequenceTransitive<T>(a: seq<T>, b: seq<T>, c: seq<T>)
    requires IsSubsequence(a, b) && IsSubsequence(b, c)
    ensures IsSubsequence(a, c)
    decreases |c|
  {
    if a != [] {
      assert b != [] && c != [];
      if b[0] == c[0] && IsSubsequence(b[1..], c[1..]) {
        if a[0] == b[0] && IsSubsequence(a[1..], b[1..]) {
          SubsequenceTransitive(a[1..], b[1..], c[1..]);
        } else {
          SubsequenceTransitive(a, b[1..], c[1..]);
        }
      } else {
        SubsequenceTransitive(a, b, c[1..]);
      }
    }
  }

  /** `s.filter(f)`: the elements satisfying `f`, in order. */
  function Filter<T>(s: seq<T>, f: T -> bool): (r: seq<T>)
    ensures |r| <= |s|
    ensures forall k :: 0 <= k < |r| ==> r[k] in s && f(r[k])
    ensures forall k :: 0 <= k < |s| && f(s[k]) ==> s[k] in r
  {
    if s == [] then []
    else if f(s[0]) then [s[0]] + Filter(s[1..], f)
    else Filter(s[1..], f)
  }

  /** What `filter` keeps stays in its original order. */
  lemma {:induction false} FilterIsSubsequence<T>(s: seq<T>, f: T -> bool)
    ensures IsSubsequence(Filter(s, f), s)
  {
    if s != [] {
      FilterIsSubsequence(s[1..], f);
      var rest := Filter(s[1..], f);
      if f(s[0]) {
        assert ([s[0]] + rest)[1..] == rest;
      }
    }
  }

  /** `filter` keeps every copy of a passing element and none of a failing one. */
  lemma {:induction false} FilterCounts<T>(s: seq<T>, f: T -> bool, x: T)
    ensures multiset(Filter(s, f))[x] == if f(x) then multiset(s)[x] else 0
  {
    if s != [] {
      FilterCounts(s[1..], f, x);
      assert s == [s[0]] + s[1..];
      assert multiset(s) == multiset([s[0]]) + multiset(s[1..]);
    }
  }

  lemma {:induction false} FilterAllPass<T>(s: seq<T>, f: T -> bool)
    requires forall k :: 0 <= k < |s| ==> f(s[k])
    ensures Filter(s, f) == s
  {
    if s != [] {
      FilterAllPass(s[1..], f);
    }
  }

  /** Two tests that agree on every element filter alike. */
  lemma {:induction false} FilterSamePredicate<T>(s: seq<T>, f: T -> bool, g: T -> bool)
    requires forall k :: 0 <= k < |s| ==> f(s[k]) == g(s[k])
    ensures Filter(s, f) == Filter(s, g)
  {
    if s != [] {
      FilterSamePredicate(s[1..], f, g);
    }
  }

  /** Filtering drops exactly one element when it is the only one that fails `f`. */
  lemma {:induction false} FilterDropsOne<T>(s: seq<T>, f: T -> bool, i: int)
    requires 0 <= i < |s| && !f(s[i])
    requires forall k :: 0 <= k < |s| && k != i ==> f(s[k])
    ensures Filter(s, f) == s[..i] + s[i+1..]
  {
    var t := s[1..];
    if i == 0 {
      FilterAllPass(t, f);
      assert s[..0] + s[1..] == t;
    } else {
      assert forall k :: 0 <= k < |t| && k != i - 1 ==> f(t[k]) by {
        forall k | 0 <= k < |t| && k != i - 1
          ensures f(t[k])
        {
          assert t[k] == s[k + 1];
        }
      }
      FilterDropsOne(t, f, i - 1);
      assert Filter(s, f) == [s[0]] + Filter(t, f);
      DropSplitsAtHead(s, i);
    }
  }

  /** Dropping index `i > 0` keeps the head in front of the tail with index `i - 1` dropped. */
  lemma DropSplitsAtHead<T>(s: seq<T>, i: int)
    requires 0 < i < |s|
    ensures s[..i] + s[i+1..] == [s[0]] + (s[1..][..i - 1] + s[1..][i..])
  {
    var t := s[1..];
    assert s[..i] == [s[0]] + t[..i - 1];
    assert s[i + 1..] == t[i..];
  }



  /** `s.map(f)`. */
  function Map<T, U>(s: seq<T>, f: T -> U): (r: seq<U>)
    ensures |r| == |s|
    ensures forall k :: 0 <= k < |s| ==> r[k] == f(s[k])
  {
    seq(|s|, k requires 0 <= k < |s| => f(s[k]))
  }

  /** `s.findIndex(f)`: the first index satisfying `f`, or -1. */
  function FindIndex<T>(s: seq<T>, f: T -> bool): (r: int)
    ensures -1 <= r < |s|
    ensures r == -1 <==> forall k :: 0 <= k < |s| ==> !f(s[k])
    ensures 0 <= r ==> f(s[r]) && forall k :: 0 <= k < r ==> !f(s[k])
  {
    if s == [] then -1
    else if f(s[0]) then 0
    else
      var i := FindIndex(s[1..], f);
      if i == -1 then -1 else i + 1
  }

  /** `s.find(f)`: the first element satisfying `f`, or `undefined`. */
  function Find<T>(s: seq<T>, f: T -> bool): (r: Option<T>)
    ensures r.None? <==> forall k :: 0 <= k < |s| ==> !f(s[k])
    ensures r.Some? ==> exists k :: 0 <= k < |s| && s[k] == r.value && f(s[k]) &&
                                    forall j :: 0 <= j < k ==> !f(s[j])
  {
    var i := FindIndex(s, f);
    if i == -1 then None else Some(s[i])
  }

  /** `s.reduce((acc, x) => acc + f(x), 0)`. */
  function SumBy<T>(s: seq<T>, f: T -> int): int
  {
    if s == [] then 0 else f(s[0]) + SumBy(s[1..], f)
  }

  lemma {:induction false} SumByAppend<T>(a: seq<T>, b: seq<T>, f: T -> int)
    ensures SumBy(a + b, f) == SumBy(a, f) + SumBy(b, f)
  {
    if a == [] {
      assert a + b == b;
    } else {
      assert (a + b)[1..] == a[1..] + b;
      SumByAppend(a[1..], b, f);
    }
  }

  lemma {:induction false} SumByRemove<T>(s: seq<T>, i: int, f: T -> int)
    requires 0 <= i < |s|
    ensures SumBy(s[..i] + s[i+1..], f) == SumBy(s, f) - f(s[i])
  {
    var pre, mid, post := s[..i], [s[i]], s[i+1..];
    assert s == (pre + mid) + post;
    SumByAppend(pre + mid, post, f);
    SumByAppend(pre, mid, f);
    assert mid[1..] == [];
    assert SumBy(mid, f) == f(s[i]);
    SumByAppend(pre, post, f);
  }

  lemma {:induction false} SumByUpdate<T>(s: seq<T>, i: int, x: T, f: T -> int)
    requires 0 <= i < |s|
    ensures SumBy(s[i := x], f) == SumBy(s, f) - f(s[i]) + f(x)
  {
    var t := s[i := x];
    assert t == s[..i] + [x] + s[i+1..];
    assert t[..i] == s[..i] && t[i+1..] == s[i+1..];
    SumByRemove(s, i, f);
    SumByRemove(t, i, f);
  }

}

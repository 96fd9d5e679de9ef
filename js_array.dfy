/**
 * The `Array.prototype` methods the stores and pages build on: `filter`,
 * `findIndex`, `find` and the summing `reduce((acc, x) => acc + f(x), 0)`.
 * Lists are walked from the front, as JavaScript does; the recursive
 * definitions peel off the LAST element so that they read as "the result for
 * a prefix, extended by one more element".
 */
module JsArray {
  import opened Wrappers

  /** `r` is `s` with some elements left out, the rest kept in their order. */
  predicate IsSubsequence<T(==)>(r: seq<T>, s: seq<T>)
    decreases |s|
  {
    || r == []
    || (s != [] &&
         (|| (r[|r| - 1] == s[|s| - 1] && IsSubsequence(r[..|r| - 1], s[..|s| - 1]))
          || IsSubsequence(r, s[..|s| - 1])))
  }

  lemma {:induction false} SubsequenceTransitive<T>(r: seq<T>, m: seq<T>, s: seq<T>)
    requires IsSubsequence(r, m) && IsSubsequence(m, s)
    ensures IsSubsequence(r, s)
    decreases |s|
  {
    if r != [] {
      if m[|m| - 1] == s[|s| - 1] && IsSubsequence(m[..|m| - 1], s[..|s| - 1]) {
        if r[|r| - 1] == m[|m| - 1] && IsSubsequence(r[..|r| - 1], m[..|m| - 1]) {
          SubsequenceTransitive(r[..|r| - 1], m[..|m| - 1], s[..|s| - 1]);
        } else {
          SubsequenceTransitive(r, m[..|m| - 1], s[..|s| - 1]);
        }
      } else {
        SubsequenceTransitive(r, m, s[..|s| - 1]);
      }
    }
  }

  lemma {:induction false} SubsequenceReflexive<T>(s: seq<T>)
    ensures IsSubsequence(s, s)
  {
    if s != [] {
      SubsequenceReflexive(s[..|s| - 1]);
    }
  }

  /** `s.filter(p)`. What it keeps is stated by the two lemmas below. */
  function Filter<T>(s: seq<T>, p: T -> bool): (r: seq<T>)
    ensures |r| <= |s|
  {
    if s == [] then []
    else
      var r := Filter(s[..|s| - 1], p);
      if p(s[|s| - 1]) then r + [s[|s| - 1]] else r
  }

  /** Exactly the elements satisfying `p`, each as often as in `s`. */
  lemma {:induction false} FilterContents<T(!new)>(s: seq<T>, p: T -> bool)
    ensures forall x :: x in Filter(s, p) <==> x in s && p(x)
    ensures forall x :: multiset(Filter(s, p))[x] == if p(x) then multiset(s)[x] else 0
  {
    if s != [] {
      var init, last := s[..|s| - 1], s[|s| - 1];
      assert s == init + [last];
      FilterContents(init, p);
    }
  }

  /** The kept elements stay in their original order. */
  lemma {:induction false} FilterSubsequence<T>(s: seq<T>, p: T -> bool)
    ensures IsSubsequence(Filter(s, p), s)
  {
    if s != [] {
      var init, last := s[..|s| - 1], s[|s| - 1];
      FilterSubsequence(init, p);
      if p(last) {
        var r := Filter(init, p);
        assert (r + [last])[..|r|] == r;
      }
    }
  }

  /** Filtering a longer list extends the filtered prefix by the new element, when it passes. */
  lemma FilterSnoc<T(!new)>(s: seq<T>, x: T, p: T -> bool)
    ensures Filter(s + [x], p) == Filter(s, p) + if p(x) then [x] else []
  {
    assert (s + [x])[..|s|] == s;
  }

  /** Filtering with a test every element passes changes nothing. */
  lemma {:induction false} FilterAll<T(!new)>(s: seq<T>, p: T -> bool)
    requires forall i :: 0 <= i < |s| ==> p(s[i])
    ensures Filter(s, p) == s
  {
    if s != [] {
      FilterAll(s[..|s| - 1], p);
    }
  }

  /** One more element of a list extends its prefix by that element. */
  lemma PrefixSnoc<T>(s: seq<T>, i: nat)
    requires i < |s|
    ensures s[..i + 1] == s[..i] + [s[i]]
  {
  }

  lemma SliceOfInit<T>(s: seq<T>, k: nat)
    requires k + 1 < |s|
    ensures s[..k] + s[k + 1..] == s[..|s| - 1][..k] + s[..|s| - 1][k + 1..] + [s[|s| - 1]]
  {
    assert s[k + 1..] == s[..|s| - 1][k + 1..] + [s[|s| - 1]];
  }

  /** Filtering with a test no element passes leaves nothing. */
  lemma {:induction false} FilterNone<T>(s: seq<T>, p: T -> bool)
    requires forall i :: 0 <= i < |s| ==> !p(s[i])
    ensures Filter(s, p) == []
  {
    if s != [] {
      FilterNone(s[..|s| - 1], p);
    }
  }

  /** Filtering with a test exactly one element fails drops just that element. */
  lemma {:induction false} FilterAllBut<T(!new)>(s: seq<T>, p: T -> bool, k: nat)
    requires k < |s| && !p(s[k])
    requires forall i :: 0 <= i < |s| && i != k ==> p(s[i])
    ensures Filter(s, p) == s[..k] + s[k + 1..]
  {
    var init, last := s[..|s| - 1], s[|s| - 1];
    if k == |s| - 1 {
      assert Filter(s, p) == Filter(init, p);
      FilterAll(init, p);
      assert s[..k] + s[k + 1..] == init;
    } else {
      assert Filter(s, p) == Filter(init, p) + [last];
      FilterAllBut(init, p, k);
      SliceOfInit(s, k);
    }
  }

  /** `s.findIndex(p)`: the first index whose element satisfies `p`, or -1. */
  function FindIndex<T>(s: seq<T>, p: T -> bool): (r: int)
    ensures -1 <= r < |s|
    ensures r == -1 <==> forall i :: 0 <= i < |s| ==> !p(s[i])
    ensures r >= 0 ==> p(s[r]) && forall i :: 0 <= i < r ==> !p(s[i])
  {
    if s == [] then -1
    else if p(s[0]) then 0
    else
      var k := FindIndex(s[1..], p);
      assert forall i :: 1 <= i < |s| ==> s[i] == s[1..][i - 1];
      if k == -1 then -1 else k + 1
  }

  /** `s.find(p)`: the first element satisfying `p`, or `undefined`. */
  function Find<T>(s: seq<T>, p: T -> bool): (r: Option<T>)
    ensures r.None? <==> forall i :: 0 <= i < |s| ==> !p(s[i])
    ensures r.Some? ==> exists i :: 0 <= i < |s| && s[i] == r.value && p(s[i]) && forall j :: 0 <= j < i ==> !p(s[j])
  {
    var k := FindIndex(s, p);
    if k == -1 then None else Some(s[k])
  }

  /** `s.reduce((acc, x) => acc + f(x), 0)`. */
  function Sum<T>(s: seq<T>, f: T -> int): int {
    if s == [] then 0 else Sum(s[..|s| - 1], f) + f(s[|s| - 1])
  }

  lemma SumSingleton<T>(x: T, f: T -> int)
    ensures Sum([x], f) == f(x)
  {
    assert [x][..0] == [];
  }

  lemma {:induction false} SumAppend<T>(a: seq<T>, b: seq<T>, f: T -> int)
    ensures Sum(a + b, f) == Sum(a, f) + Sum(b, f)
    decreases |b|
  {
    if b != [] {
      assert (a + b)[..|a + b| - 1] == a + b[..|b| - 1];
      SumAppend(a, b[..|b| - 1], f);
    } else {
      assert a + b == a;
    }
  }

  /** Two term functions that agree on every element give the same sum. */
  lemma {:induction false} SumPointwise<T>(s: seq<T>, f: T -> int, g: T -> int)
    requires forall i :: 0 <= i < |s| ==> f(s[i]) == g(s[i])
    ensures Sum(s, f) == Sum(s, g)
  {
    if s != [] {
      SumPointwise(s[..|s| - 1], f, g);
    }
  }

  predicate Distinct<T(==)>(s: seq<T>) {
    forall i, j :: 0 <= i < j < |s| ==> s[i] != s[j]
  }

  /**
   * Over a list without repeats, raising the term of one element by `c` and
   * leaving the others alone raises the sum by `c`.
   */
  lemma {:induction false} SumBump<T>(s: seq<T>, f: T -> int, g: T -> int, u: T, c: int)
    requires Distinct(s) && u in s
    requires g(u) == f(u) + c
    requires forall i :: 0 <= i < |s| && s[i] != u ==> g(s[i]) == f(s[i])
    ensures Sum(s, g) == Sum(s, f) + c
  {
    var init, last := s[..|s| - 1], s[|s| - 1];
    assert forall i :: 0 <= i < |init| ==> init[i] == s[i];
    if last == u {
      SumPointwise(init, f, g);
    } else {
      assert u in init by {
        var k :| 0 <= k < |s| && s[k] == u;
        assert k < |init|;
      }
      SumBump(init, f, g, u, c);
    }
  }

  /** Replacing one element changes the sum by the difference of the two terms. */
  lemma {:induction false} SumUpdate<T>(s: seq<T>, i: nat, x: T, f: T -> int)
    requires i < |s|
    ensures Sum(s[i := x], f) == Sum(s, f) - f(s[i]) + f(x)
  {
    var n := |s|;
    if i == n - 1 {
      assert s[i := x][..n - 1] == s[..n - 1];
    } else {
      assert s[i := x][..n - 1] == s[..n - 1][i := x];
      SumUpdate(s[..n - 1], i, x, f);
    }
  }
}

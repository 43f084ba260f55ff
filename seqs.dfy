/** Sequence operations shared by both ledgers: the `reduce` folds, the
    order-preserving `filter`, `find`, `map` and the first-appearance
    de-duplication that `[...new Set(xs)]` performs. */
module Seqs {

  datatype Option<T> = None | Some(value: T)

  /** Loading a list from storage: what was stored, or the empty list when the key is missing. */
  function OrEmpty<T>(stored: Option<seq<T>>): (r: seq<T>)
    ensures stored.None? ==> r == []
    ensures stored.Some? ==> r == stored.value
  {
    if stored.Some? then stored.value else []
  }

  /** `s.reduce((acc, x) => acc + f(x), 0)`: a left fold starting at 0. */
  function Sum<T>(s: seq<T>, f: T -> real): real
  {
    if |s| == 0 then 0.0 else Sum(s[..|s| - 1], f) + f(s[|s| - 1])
  }

  /** `s.filter(p)`: the elements satisfying `p`, in their original order. */
  function Filter<T>(s: seq<T>, p: T -> bool): seq<T>
  {
    if |s| == 0 then []
    else Filter(s[..|s| - 1], p) + (if p(s[|s| - 1]) then [s[|s| - 1]] else [])
  }

  /** `s.map(f)`. */
  function Map<A, B>(s: seq<A>, f: A -> B): (r: seq<B>)
    ensures |r| == |s|
    ensures forall i :: 0 <= i < |s| ==> r[i] == f(s[i])
  {
    seq(|s|, i requires 0 <= i < |s| => f(s[i]))
  }

  /** `s.find(p)`: the first element satisfying `p`, or nothing. */
  function Find<T(==)>(s: seq<T>, p: T -> bool): (r: Option<T>)
    ensures r.None? <==> forall i :: 0 <= i < |s| ==> !p(s[i])
    ensures r.Some? ==> exists i :: 0 <= i < |s| && s[i] == r.value && p(s[i]) && FirstMatch(s, p, i)
  {
    if |s| == 0 then None
    else if p(s[0]) then (assert FirstMatch(s, p, 0); Some(s[0]))
    else
      var r := Find(s[1..], p);
      if r.None? then None
      else
        var i :| 0 <= i < |s[1..]| && s[1..][i] == r.value && p(s[1..][i]) && FirstMatch(s[1..], p, i);
        assert s[i + 1] == r.value && FirstMatch(s, p, i + 1);
        r
  }

  /** No element of `s` before index `i` satisfies `p`. */
  predicate FirstMatch<T>(s: seq<T>, p: T -> bool, i: int)
    requires 0 <= i <= |s|
  {
    forall j :: 0 <= j < i ==> !p(s[j])
  }

  predicate NoDuplicates<T(==)>(s: seq<T>)
  {
    forall i, j :: 0 <= i < j < |s| ==> s[i] != s[j]
  }

  /** `[...new Set(s)]`: each value once, in order of first appearance. */
  function Distinct<T(==)>(s: seq<T>): (r: seq<T>)
    ensures NoDuplicates(r)
    ensures forall i :: 0 <= i < |r| ==> r[i] in s
    ensures forall i :: 0 <= i < |s| ==> s[i] in r
  {
    if |s| == 0 then []
    else
      var d := Distinct(s[..|s| - 1]);
      assert s == s[..|s| - 1] + [s[|s| - 1]];
      if s[|s| - 1] in d then d else d + [s[|s| - 1]]
  }

  // ---------------------------------------------------------------------
  // Sum

  lemma {:induction false} SumAppend<T>(a: seq<T>, b: seq<T>, f: T -> real)
    ensures Sum(a + b, f) == Sum(a, f) + Sum(b, f)
    decreases |b|
  {
    if |b| == 0 {
      assert a + b == a;
    } else {
      var b' := b[..|b| - 1];
      assert (a + b)[..|a + b| - 1] == a + b';
      SumAppend(a, b', f);
    }
  }

  /** Reordering the elements does not change a sum. */
  lemma {:induction false} SumPermutation<T>(a: seq<T>, b: seq<T>, f: T -> real)
    requires multiset(a) == multiset(b)
    ensures Sum(a, f) == Sum(b, f)
    decreases |a|
  {
    if |a| == 0 {
      assert |multiset(b)| == 0;
      assert b == [];
    } else {
      var a' := a[..|a| - 1];
      var x := a[|a| - 1];
      assert a == a' + [x];
      assert x in multiset(b);
      var i :| 0 <= i < |b| && b[i] == x;
      var b1, b2 := b[..i], b[i + 1..];
      assert b == b1 + [x] + b2;
      assert multiset(a) == multiset(a') + multiset{x};
      assert multiset(b) == multiset(b1) + multiset{x} + multiset(b2);
      assert multiset(b1 + b2) == multiset(b1) + multiset(b2);
      assert multiset(a') == multiset(a) - multiset{x};
      assert multiset(b1 + b2) == multiset(b) - multiset{x};
      SumPermutation(a', b1 + b2, f);
      SumAppend(b1, b2, f);
      SumAppend(b1 + [x], b2, f);
      SumAppend(b1, [x], f);
      SumAppend(a', [x], f);
    }
  }

  /** Summing a filtered sequence is summing `f` where `p` holds and 0 elsewhere. */
  lemma {:induction false} SumFilter<T>(s: seq<T>, p: T -> bool, f: T -> real, g: T -> real)
    requires forall x :: g(x) == (if p(x) then f(x) else 0.0)
    ensures Sum(Filter(s, p), f) == Sum(s, g)
    decreases |s|
  {
    if |s| > 0 {
      var s' := s[..|s| - 1];
      var x := s[|s| - 1];
      SumFilter(s', p, f, g);
      SumAppend(Filter(s', p), if p(x) then [x] else [], f);
    }
  }

  /** Sums are linear in the summand. */
  lemma {:induction false} SumAdd<T>(s: seq<T>, f: T -> real, g: T -> real, h: T -> real)
    requires forall x :: h(x) == f(x) + g(x)
    ensures Sum(s, h) == Sum(s, f) + Sum(s, g)
    decreases |s|
  {
    if |s| > 0 {
      SumAdd(s[..|s| - 1], f, g, h);
    }
  }

  /** Two sums agree when their summands agree element by element. */
  lemma {:induction false} SumPointwise<A, B>(a: seq<A>, f: A -> real, b: seq<B>, g: B -> real)
    requires |a| == |b|
    requires forall i :: 0 <= i < |a| ==> f(a[i]) == g(b[i])
    ensures Sum(a, f) == Sum(b, g)
    decreases |a|
  {
    if |a| > 0 {
      SumPointwise(a[..|a| - 1], f, b[..|b| - 1], g);
    }
  }

  /** Summing a function that is zero on every element gives zero. */
  lemma {:induction false} SumZero<T>(s: seq<T>, f: T -> real)
    requires forall i :: 0 <= i < |s| ==> f(s[i]) == 0.0
    ensures Sum(s, f) == 0.0
    decreases |s|
  {
    if |s| > 0 {
      SumZero(s[..|s| - 1], f);
    }
  }

  /** Over a duplicate-free sequence, an indicator of one of its members sums to its weight. */
  lemma {:induction false} SumIndicator<T>(s: seq<T>, k: T, v: real, f: T -> real)
    requires NoDuplicates(s) && k in s
    requires forall x :: f(x) == (if x == k then v else 0.0)
    ensures Sum(s, f) == v
    decreases |s|
  {
    var s' := s[..|s| - 1];
    if s[|s| - 1] == k {
      forall i | 0 <= i < |s'| ensures f(s'[i]) == 0.0 {
        assert s'[i] == s[i] != s[|s| - 1];
      }
      SumZero(s', f);
    } else {
      assert s == s' + [s[|s| - 1]];
      SumIndicator(s', k, v, f);
    }
  }

  /** A sum of negative terms is at most 0, and below 0 as soon as there is a term. */
  lemma {:induction false} SumOfNegatives<T>(s: seq<T>, f: T -> real)
    requires forall i :: 0 <= i < |s| ==> f(s[i]) < 0.0
    ensures Sum(s, f) <= 0.0
    ensures |s| > 0 ==> Sum(s, f) < 0.0
    decreases |s|
  {
    if |s| > 0 {
      SumOfNegatives(s[..|s| - 1], f);
    }
  }

  // ---------------------------------------------------------------------
  // Filter

  /** The filter keeps every occurrence of an element satisfying `p` and no other. */
  lemma {:induction false} FilterCount<T>(s: seq<T>, p: T -> bool, x: T)
    ensures multiset(Filter(s, p))[x] == if p(x) then multiset(s)[x] else 0
    decreases |s|
  {
    if |s| > 0 {
      var s' := s[..|s| - 1];
      assert s == s' + [s[|s| - 1]];
      FilterCount(s', p, x);
    }
  }

  /** Filtering distributes over concatenation, so relative order is kept. */
  lemma {:induction false} FilterAppend<T>(a: seq<T>, b: seq<T>, p: T -> bool)
    ensures Filter(a + b, p) == Filter(a, p) + Filter(b, p)
    decreases |b|
  {
    if |b| == 0 {
      assert a + b == a;
    } else {
      var b' := b[..|b| - 1];
      assert (a + b)[..|a + b| - 1] == a + b';
      FilterAppend(a, b', p);
    }
  }

  /** What callers of `filter` rely on: every survivor satisfies `p`, each element
      satisfying `p` keeps its count and no other element survives, and nothing
      is dropped when every element satisfies `p`. */
  lemma FilterFacts<T>(s: seq<T>, p: T -> bool)
    ensures var r := Filter(s, p);
      && (forall i :: 0 <= i < |r| ==> p(r[i]))
      && (forall x :: multiset(r)[x] == if p(x) then multiset(s)[x] else 0)
      && ((forall i :: 0 <= i < |s| ==> p(s[i])) ==> r == s)
  {
    var r := Filter(s, p);
    forall x ensures multiset(r)[x] == if p(x) then multiset(s)[x] else 0 {
      FilterCount(s, p, x);
    }
    forall i | 0 <= i < |r| ensures p(r[i]) {
      assert r[i] in multiset(r);
      FilterCount(s, p, r[i]);
    }
    if forall i :: 0 <= i < |s| ==> p(s[i]) {
      FilterKeepsAll(s, p);
    }
  }

  /** When every element satisfies `p`, the filter returns its input. */
  lemma {:induction false} FilterKeepsAll<T>(s: seq<T>, p: T -> bool)
    requires forall i :: 0 <= i < |s| ==> p(s[i])
    ensures Filter(s, p) == s
    decreases |s|
  {
    if |s| > 0 {
      FilterKeepsAll(s[..|s| - 1], p);
    }
  }

  // ---------------------------------------------------------------------
  // Distinct

  /** De-duplicating a prefix gives a prefix of the de-duplicated whole. */
  lemma {:induction false} DistinctPrefix<T>(s: seq<T>, k: nat)
    requires k <= |s|
    ensures Distinct(s[..k]) <= Distinct(s)
    decreases |s| - k
  {
    if k < |s| {
      var s' := s[..|s| - 1];
      assert s'[..k] == s[..k];
      DistinctPrefix(s', k);
    } else {
      assert s[..k] == s;
    }
  }

  /** Values come out of `Distinct` in the order of their first appearance. */
  lemma DistinctOrder<T>(s: seq<T>, p: nat, q: nat, a: nat, b: nat)
    requires p < q < |s| && s[q] !in s[..q]
    requires a < |Distinct(s)| && b < |Distinct(s)|
    requires Distinct(s)[a] == s[p] && Distinct(s)[b] == s[q]
    ensures a < b
  {
    var d, d' := Distinct(s), Distinct(s[..q]);
    DistinctPrefix(s, q);
    assert s[p] in s[..q];
    var a' :| 0 <= a' < |d'| && d'[a'] == s[p];
    assert d[a'] == d[a];
  }
}

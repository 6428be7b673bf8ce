/** The array operations the helpers and screens chain together:
    `filter`, `reduce` to a sum and `slice(0, n)`, with their laws. */
module Seqs {

  /** `r` is obtained from `s` by deleting elements, keeping the order. */
  predicate IsSubsequence<T(==)>(r: seq<T>, s: seq<T>)
    decreases |s|
  {
    if r == [] then true
    else if s == [] then false
    else (r[0] == s[0] && IsSubsequence(r[1..], s[1..])) || IsSubsequence(r, s[1..])
  }

  lemma {:induction false} SubsequenceReflexive<T>(s: seq<T>)
    ensures IsSubsequence(s, s)
    decreases |s|
  {
    if s != [] {
      SubsequenceReflexive(s[1..]);
    }
  }

  lemma {:induction false} SubsequenceTransitive<T>(a: seq<T>, b: seq<T>, c: seq<T>)
    requires IsSubsequence(a, b) && IsSubsequence(b, c)
    ensures IsSubsequence(a, c)
    decreases |c|
  {
    if a != [] {
      if b[0] == c[0] && IsSubsequence(b[1..], c[1..]) {
        if a[0] == b[0] && IsSubsequence(a[1..], b[1..]) {
          SubsequenceTransitive(a[1..], b[1..], c[1..]);
        } else {
          SubsequenceTransitive(a, b[1..], c[1..]);
        }
      } else {
        SubsequenceTransitive(a, b, c[1..]);
      }
    }
  }

  /** A subsequence takes no element more often than the sequence has it. */
  lemma {:induction false} SubsequenceSubMultiset<T>(r: seq<T>, s: seq<T>)
    requires IsSubsequence(r, s)
    ensures multiset(r) <= multiset(s)
    decreases |s|
  {
    if r != [] {
      assert s == [s[0]] + s[1..];
      if r[0] == s[0] && IsSubsequence(r[1..], s[1..]) {
        SubsequenceSubMultiset(r[1..], s[1..]);
        assert r == [r[0]] + r[1..];
      } else {
        SubsequenceSubMultiset(r, s[1..]);
      }
    }
  }

  /** `s.filter(p)`. */
  function Filter<T(!new)>(p: T -> bool, s: seq<T>): (r: seq<T>)
    ensures |r| <= |s|
    ensures forall x {:trigger x in r} :: x in r <==> x in s && p(x)
  {
    if s == [] then []
    else
      assert s == [s[0]] + s[1..];
      (if p(s[0]) then [s[0]] else []) + Filter(p, s[1..])
  }

  lemma {:induction false} FilterIsSubsequence<T(!new)>(p: T -> bool, s: seq<T>)
    ensures IsSubsequence(Filter(p, s), s)
  {
    if s != [] {
      FilterIsSubsequence(p, s[1..]);
      var r := Filter(p, s);
      if p(s[0]) {
        assert r[0] == s[0] && r[1..] == Filter(p, s[1..]);
      } else {
        assert r == Filter(p, s[1..]);
      }
    }
  }

  /** Filtering keeps every copy of each element that passes and no copy
      of any other. */
  lemma {:induction false} FilterMultiset<T(!new)>(p: T -> bool, s: seq<T>)
    ensures forall x :: multiset(Filter(p, s))[x] == if p(x) then multiset(s)[x] else 0
  {
    if s != [] {
      FilterMultiset(p, s[1..]);
      assert s == [s[0]] + s[1..];
      var head := if p(s[0]) then [s[0]] else [];
      assert Filter(p, s) == head + Filter(p, s[1..]);
    }
  }

  /** Filtering a sequence none of whose elements pass leaves nothing. */
  lemma {:induction false} FilterNone<T(!new)>(p: T -> bool, s: seq<T>)
    requires forall i :: 0 <= i < |s| ==> !p(s[i])
    ensures Filter(p, s) == []
  {
    if s != [] {
      assert forall i :: 0 <= i < |s[1..]| ==> s[1..][i] == s[i + 1];
      FilterNone(p, s[1..]);
    }
  }

  /** Filtering keeps a sequence whose elements all pass. */
  lemma {:induction false} FilterKeepsAll<T(!new)>(p: T -> bool, s: seq<T>)
    requires forall i :: 0 <= i < |s| ==> p(s[i])
    ensures Filter(p, s) == s
  {
    if s != [] {
      FilterKeepsAll(p, s[1..]);
    }
  }

  /** Filtering twice by the same predicate is filtering once. */
  lemma FilterIdempotent<T(!new)>(p: T -> bool, s: seq<T>)
    ensures Filter(p, Filter(p, s)) == Filter(p, s)
  {
    var r := Filter(p, s);
    forall i | 0 <= i < |r| ensures p(r[i]) {
      assert r[i] in r;
    }
    FilterKeepsAll(p, r);
  }

  lemma {:induction false} FilterConcat<T(!new)>(p: T -> bool, a: seq<T>, b: seq<T>)
    ensures Filter(p, a + b) == Filter(p, a) + Filter(p, b)
  {
    if a == [] {
      assert a + b == b;
    } else {
      var ab := a + b;
      assert ab[0] == a[0] && ab[1..] == a[1..] + b;
      FilterConcat(p, a[1..], b);
      var head := if p(a[0]) then [a[0]] else [];
      assert Filter(p, ab) == head + Filter(p, ab[1..]);
      assert Filter(p, a) == head + Filter(p, a[1..]);
    }
  }

  /** If filtering `u` gives filtering the tail of `s` followed by `w`,
      then filtering `s`'s head followed by `u` gives filtering `s`
      followed by `w`. */
  lemma {:induction false} FilterConsShift<T(!new)>(p: T -> bool, s: seq<T>, u: seq<T>, w: seq<T>)
    requires s != [] && Filter(p, u) == Filter(p, s[1..]) + w
    ensures Filter(p, [s[0]] + u) == Filter(p, s) + w
  {
    FilterConcat(p, [s[0]], u);
    assert s == [s[0]] + s[1..];
    FilterConcat(p, [s[0]], s[1..]);
  }

  /** Filtering a non-empty sequence is filtering all but its last element,
      then the last. */
  lemma {:induction false} FilterSnoc<T(!new)>(p: T -> bool, s: seq<T>)
    requires s != []
    ensures Filter(p, s) == Filter(p, s[..|s| - 1]) + Filter(p, [s[|s| - 1]])
  {
    assert s == s[..|s| - 1] + [s[|s| - 1]];
    FilterConcat(p, s[..|s| - 1], [s[|s| - 1]]);
  }

  /** Two predicates that agree on every element of `s` filter it alike. */
  lemma {:induction false} FilterCongruent<T(!new)>(p: T -> bool, q: T -> bool, s: seq<T>)
    requires forall x :: x in s ==> p(x) == q(x)
    ensures Filter(p, s) == Filter(q, s)
  {
    if s != [] {
      FilterCongruent(p, q, s[1..]);
    }
  }

  /** `s.slice(0, n)`. */
  function Take<T>(s: seq<T>, n: nat): (r: seq<T>)
    ensures |r| == if n < |s| then n else |s|
    ensures forall i :: 0 <= i < |r| ==> r[i] == s[i]
  {
    if n < |s| then s[..n] else s
  }

  /** Every element of a prefix is an element of the sequence. */
  lemma {:induction false} TakeMembers<T>(s: seq<T>, n: nat)
    ensures forall x :: x in Take(s, n) ==> x in s
  {
    forall x | x in Take(s, n) ensures x in s {
      var i :| 0 <= i < |Take(s, n)| && Take(s, n)[i] == x;
      assert s[i] == x;
    }
  }

  /** Filtering a prefix gives a prefix of the filtered sequence. */
  lemma {:induction false} FilterTake<T(!new)>(p: T -> bool, s: seq<T>, n: nat)
    ensures Filter(p, Take(s, n)) <= Filter(p, s)
  {
    if n < |s| {
      assert s == s[..n] + s[n..];
      FilterConcat(p, s[..n], s[n..]);
    }
  }

  /** `s.reduce((total, x) => total + f(x), 0)`: a left fold, so the last
      element is added last. */
  function Sum<T>(f: T -> real, s: seq<T>): real
  {
    if s == [] then 0.0 else Sum(f, s[..|s| - 1]) + f(s[|s| - 1])
  }

  /** A sum of non-negative terms is non-negative. */
  lemma {:induction false} SumNonNegative<T>(f: T -> real, s: seq<T>)
    requires forall i :: 0 <= i < |s| ==> f(s[i]) >= 0.0
    ensures Sum(f, s) >= 0.0
  {
    if s != [] {
      SumNonNegative(f, s[..|s| - 1]);
    }
  }

  /** A sum of zero terms is zero. */
  lemma {:induction false} SumZero<T>(f: T -> real, s: seq<T>)
    requires forall i :: 0 <= i < |s| ==> f(s[i]) == 0.0
    ensures Sum(f, s) == 0.0
  {
    if s != [] {
      SumZero(f, s[..|s| - 1]);
    }
  }

  lemma {:induction false} SumConcat<T>(f: T -> real, a: seq<T>, b: seq<T>)
    ensures Sum(f, a + b) == Sum(f, a) + Sum(f, b)
    decreases |b|
  {
    if b == [] {
      assert a + b == a;
    } else {
      assert (a + b)[..|a + b| - 1] == a + b[..|b| - 1];
      SumConcat(f, a, b[..|b| - 1]);
    }
  }

  lemma SumSingle<T>(f: T -> real, x: T)
    ensures Sum(f, [x]) == f(x)
  {
    assert [x][..0] == [];
  }

  /** Replacing one element changes the sum by the difference. */
  lemma SumUpdate<T>(f: T -> real, s: seq<T>, i: nat, x: T)
    requires i < |s|
    ensures Sum(f, s[i := x]) == Sum(f, s) - f(s[i]) + f(x)
  {
    assert s == s[..i] + [s[i]] + s[i + 1..];
    assert s[i := x] == s[..i] + [x] + s[i + 1..];
    SumConcat(f, s[..i] + [s[i]], s[i + 1..]);
    SumConcat(f, s[..i], [s[i]]);
    SumConcat(f, s[..i] + [x], s[i + 1..]);
    SumConcat(f, s[..i], [x]);
    SumSingle(f, s[i]);
    SumSingle(f, x);
  }

  /** A sum does not depend on the order of the elements. */
  lemma {:induction false} SumPermutation<T>(f: T -> real, a: seq<T>, b: seq<T>)
    requires multiset(a) == multiset(b)
    ensures Sum(f, a) == Sum(f, b)
    decreases |a|
  {
    if a == [] {
      assert |b| == |multiset(b)| == 0;
    } else {
      var n := |a| - 1;
      var x := a[n];
      assert a == a[..n] + [x];
      assert x in multiset(b);
      var k :| 0 <= k < |b| && b[k] == x;
      var rest := b[..k] + b[k + 1..];
      assert b == b[..k] + [x] + b[k + 1..];
      assert multiset(a) == multiset(a[..n]) + multiset{x};
      assert multiset(b) == multiset(b[..k]) + multiset{x} + multiset(b[k + 1..]);
      assert multiset(rest) == multiset(b[..k]) + multiset(b[k + 1..]);
      assert multiset(a[..n]) == multiset(a) - multiset{x};
      assert multiset(a[..n]) == multiset(rest);
      SumPermutation(f, a[..n], rest);
      SumConcat(f, b[..k] + [x], b[k + 1..]);
      SumConcat(f, b[..k], [x]);
      SumConcat(f, b[..k], b[k + 1..]);
      SumSingle(f, x);
    }
  }

  /** Sequences whose elements correspond one to one, with equal values,
      have equal sums. */
  lemma {:induction false} SumPointwise<T, U>(f: T -> real, a: seq<T>, g: U -> real, b: seq<U>)
    requires |a| == |b|
    requires forall i :: 0 <= i < |a| ==> g(b[i]) == f(a[i])
    ensures Sum(g, b) == Sum(f, a)
  {
    if a != [] {
      var n := |a| - 1;
      SumPointwise(f, a[..n], g, b[..n]);
    }
  }

  /** Scaling every term scales the sum. */
  lemma {:induction false} SumScale<T, U>(f: T -> real, a: seq<T>, g: U -> real, b: seq<U>, k: real)
    requires |a| == |b|
    requires forall i :: 0 <= i < |a| ==> g(b[i]) == k * f(a[i])
    ensures Sum(g, b) == k * Sum(f, a)
  {
    if a != [] {
      var n := |a| - 1;
      forall i | 0 <= i < n ensures g(b[..n][i]) == k * f(a[..n][i]) {
        assert b[..n][i] == b[i] && a[..n][i] == a[i];
      }
      SumScale(f, a[..n], g, b[..n], k);
      var x, y := Sum(f, a[..n]), f(a[n]);
      assert k * x + k * y == k * (x + y);
    }
  }
}

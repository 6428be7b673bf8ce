/** The date sorts the screens apply to their lists: `a.getTime() -
    b.getTime()` for oldest first and `b.getTime() - a.getTime()` for newest
    first. The source calls `Array.prototype.sort` on a fresh copy; the copy
    is sorted in place here. */
module Sorting {
  import opened Dates

  /** The comparator does not put `y` before `x`. */
  predicate InOrder(x: Date, y: Date, newestFirst: bool)
  {
    if newestFirst then AtOrBefore(y, x) else AtOrBefore(x, y)
  }

  /** Every element is in order with every later one. */
  predicate SortedByDate<T>(s: seq<T>, key: T -> Date, newestFirst: bool)
  {
    forall i, j :: 0 <= i < j < |s| ==> InOrder(key(s[i]), key(s[j]), newestFirst)
  }

  /** The order is total and transitive, so sorting by it is well defined. */
  lemma InOrderLaws(x: Date, y: Date, z: Date, newestFirst: bool)
    ensures InOrder(x, y, newestFirst) || InOrder(y, x, newestFirst)
    ensures InOrder(x, y, newestFirst) && InOrder(y, z, newestFirst) ==> InOrder(x, z, newestFirst)
  {
  }

  /** Sorting by date in place: insertion sort by adjacent swaps. */
  method SortByDate<T>(a: array<T>, key: T -> Date, newestFirst: bool)
    modifies a
    ensures SortedByDate(a[..], key, newestFirst)
    ensures multiset(a[..]) == multiset(old(a[..]))
  {
    var i := 0;
    while i < a.Length
      invariant 0 <= i <= a.Length
      invariant forall p, q :: 0 <= p < q < i ==> InOrder(key(a[p]), key(a[q]), newestFirst)
      invariant multiset(a[..]) == multiset(old(a[..]))
    {
      InsertAt(a, i, key, newestFirst);
      i := i + 1;
    }
    assert a[..] == a[..a.Length];
  }

  /** One pass of the insertion sort: moves `a[i]` down into the sorted
      prefix `a[..i]`, leaving the rest of the array alone. */
  method InsertAt<T>(a: array<T>, i: int, key: T -> Date, newestFirst: bool)
    requires 0 <= i < a.Length
    requires forall p, q :: 0 <= p < q < i ==> InOrder(key(a[p]), key(a[q]), newestFirst)
    modifies a
    ensures forall p, q :: 0 <= p < q <= i ==> InOrder(key(a[p]), key(a[q]), newestFirst)
    ensures multiset(a[..]) == multiset(old(a[..]))
  {
    var j := i;
    while j > 0 && !InOrder(key(a[j - 1]), key(a[j]), newestFirst)
      invariant 0 <= j <= i
      invariant forall p, q :: 0 <= p < q <= i && p != j && q != j ==> InOrder(key(a[p]), key(a[q]), newestFirst)
      invariant forall q :: j < q <= i ==> InOrder(key(a[j]), key(a[q]), newestFirst)
      invariant multiset(a[..]) == multiset(old(a[..]))
    {
      InOrderLaws(key(a[j - 1]), key(a[j]), key(a[j]), newestFirst);
      a[j - 1], a[j] := a[j], a[j - 1];
      j := j - 1;
    }
    forall p, q | 0 <= p < q <= i
      ensures InOrder(key(a[p]), key(a[q]), newestFirst)
    {
      if q == j && p < j - 1 {
        InOrderLaws(key(a[p]), key(a[j - 1]), key(a[j]), newestFirst);
      }
    }
  }

  /** `[...s].sort(...)`: sorts a fresh copy, leaving `s` as it was. */
  method SortedCopy<T>(s: seq<T>, key: T -> Date, newestFirst: bool) returns (r: seq<T>)
    ensures |r| == |s|
    ensures SortedByDate(r, key, newestFirst)
    ensures multiset(r) == multiset(s)
  {
    var copy := new T[|s|](i requires 0 <= i < |s| => s[i]);
    assert copy[..] == s;
    SortByDate(copy, key, newestFirst);
    r := copy[..];
  }

  /** The first `n` entries of a newest-first list are the latest: every
      entry left out is no later than any kept. */
  lemma SortedPrefixHoldsLatest<T>(s: seq<T>, key: T -> Date, n: nat)
    requires SortedByDate(s, key, true) && n <= |s|
    ensures forall x, y :: multiset(s[..n])[x] < multiset(s)[x] && y in s[..n] ==> AtOrBefore(key(x), key(y))
  {
    assert s == s[..n] + s[n..];
    forall x, y | multiset(s[..n])[x] < multiset(s)[x] && y in s[..n]
      ensures AtOrBefore(key(x), key(y))
    {
      assert multiset(s)[x] == multiset(s[..n])[x] + multiset(s[n..])[x];
      assert x in s[n..];
      var j :| 0 <= j < |s[n..]| && s[n..][j] == x;
      var i :| 0 <= i < n && s[..n][i] == y;
      assert s[i] == y && s[n + j] == x;
    }
  }

  /** The `n` latest entries of `s`, newest first: sorts a copy newest first
      and keeps its first `n` entries. */
  method LatestFirst<T>(s: seq<T>, key: T -> Date, n: nat) returns (shown: seq<T>)
    ensures |shown| == if |s| < n then |s| else n
    ensures multiset(shown) <= multiset(s)
    ensures SortedByDate(shown, key, true)
    ensures forall x, y :: multiset(shown)[x] < multiset(s)[x] && y in shown ==> AtOrBefore(key(x), key(y))
  {
    var sorted := SortedCopy(s, key, true);
    var m := if |s| < n then |s| else n;
    shown := sorted[..m];
    SortedPrefixHoldsLatest(sorted, key, m);
    assert sorted == shown + sorted[m..];
  }
}

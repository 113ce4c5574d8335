/**
 * The numeric sort `xs.sort((a, b) => a - b)` and the sum
 * `xs.reduce((a, b) => a + b)` that the headway code applies to lists of
 * seconds, specified by what they produce.
 */
module Sorting {
  predicate Sorted(s: seq<int>)
  {
    forall i, j :: 0 <= i < j < |s| ==> s[i] <= s[j]
  }

  function Insert(x: int, s: seq<int>): (r: seq<int>)
    requires Sorted(s)
    ensures Sorted(r) && multiset(r) == multiset(s) + multiset{x}
  {
    if s == [] then [x]
    else if x <= s[0] then [x] + s
    else
      var t := Insert(x, s[1..]);
      InsertStep(x, s, t);
      [s[0]] + t
  }

  /** Putting the head back in front of the tail's insertion keeps the list sorted and the elements. */
  lemma InsertStep(x: int, s: seq<int>, t: seq<int>)
    requires Sorted(s) && s != [] && s[0] < x
    requires Sorted(t) && multiset(t) == multiset(s[1..]) + multiset{x}
    ensures Sorted([s[0]] + t) && multiset([s[0]] + t) == multiset(s) + multiset{x}
  {
    assert s == [s[0]] + s[1..];
    forall k | 0 <= k < |t|
      ensures s[0] <= t[k]
    {
      assert t[k] in multiset(t);
      assert t[k] in multiset(s[1..]) + multiset{x};
      if t[k] != x {
        assert t[k] in s[1..];
      }
    }
    var r := [s[0]] + t;
    forall i, j | 0 <= i < j < |r|
      ensures r[i] <= r[j]
    {
      if i > 0 {
        assert r[i] == t[i - 1] && r[j] == t[j - 1];
      } else {
        assert r[j] == t[j - 1];
      }
    }
  }

  /** The ascending sort of a list of numbers. */
  function Sort(s: seq<int>): (r: seq<int>)
    ensures Sorted(r) && multiset(r) == multiset(s) && |r| == |s|
  {
    if s == [] then []
    else
      assert s == [s[0]] + s[1..];
      Insert(s[0], Sort(s[1..]))
  }

  lemma SortedTail(s: seq<int>)
    requires Sorted(s) && |s| > 0
    ensures Sorted(s[1..])
  {
  }

  /** The first element of a sorted list is its minimum. */
  lemma SortedHeadIsMin(s: seq<int>)
    requires Sorted(s) && |s| > 0
    ensures forall x :: x in multiset(s) ==> s[0] <= x
  {
    forall x | x in multiset(s)
      ensures s[0] <= x
    {
      assert x in s;
    }
  }

  /** Two sorted lists with the same elements are the same list. */
  lemma {:induction false} SortedUnique(a: seq<int>, b: seq<int>)
    requires Sorted(a) && Sorted(b) && multiset(a) == multiset(b)
    ensures a == b
  {
    if a != [] {
      assert |b| == |a| by { assert |multiset(a)| == |multiset(b)|; }
      SortedHeadIsMin(a);
      SortedHeadIsMin(b);
      assert a[0] in multiset(b) && b[0] in multiset(a) by {
        assert a[0] in a;
        assert b[0] in b;
      }
      assert a[0] == b[0];
      assert a == [a[0]] + a[1..];
      assert b == [b[0]] + b[1..];
      assert multiset(a) == multiset{a[0]} + multiset(a[1..]);
      assert multiset(b) == multiset{b[0]} + multiset(b[1..]);
      assert multiset(a[1..]) == multiset(a) - multiset{a[0]};
      assert multiset(b[1..]) == multiset(b) - multiset{b[0]};
      SortedTail(a);
      SortedTail(b);
      SortedUnique(a[1..], b[1..]);
    }
  }

  /** The sort depends only on which numbers occur how often, not on their order. */
  lemma SortOrderIndependent(a: seq<int>, b: seq<int>)
    requires multiset(a) == multiset(b)
    ensures Sort(a) == Sort(b)
  {
    SortedUnique(Sort(a), Sort(b));
  }

  function Sum(s: seq<int>): int
  {
    if s == [] then 0 else Sum(s[..|s| - 1]) + s[|s| - 1]
  }

  /** Every element of `s` lies between `lo` and `hi`. */
  predicate Within(s: seq<int>, lo: int, hi: int)
  {
    forall i :: 0 <= i < |s| ==> lo <= s[i] <= hi
  }

  /** A sum of n numbers between lo and hi lies between n*lo and n*hi. */

  lemma {:induction false} SumBounds(s: seq<int>, lo: int, hi: int)
    requires Within(s, lo, hi)
    ensures |s| * lo <= Sum(s) <= |s| * hi
  {
    if s != [] {
      var t := s[..|s| - 1];
      assert Within(t, lo, hi) by {
        forall i | 0 <= i < |t|
          ensures lo <= t[i] <= hi
        {
          assert t[i] == s[i];
        }
      }
      SumBounds(t, lo, hi);
      assert lo <= s[|s| - 1] <= hi;
      assert |s| * lo == |t| * lo + lo && |s| * hi == |t| * hi + hi;
    }
  }
}

/**
 * `Array.prototype.sort` with a comparator, which is stable: each element
 * goes after every element already placed that does not compare greater.
 * The comparator returns a number whose sign is the order, as in JavaScript.
 */
module StableSort {
  /** Consecutive elements are in order under `cmp`. */
  predicate SortedBy<T>(s: seq<T>, cmp: (T, T) -> int) {
    forall i :: 0 <= i < |s| - 1 ==> cmp(s[i], s[i + 1]) <= 0
  }

  /** `cmp(a, b)` is positive exactly when `cmp(b, a)` is negative. */
  ghost predicate Antisymmetric<T(!new)>(cmp: (T, T) -> int) {
    forall a, b :: cmp(a, b) > 0 <==> cmp(b, a) < 0
  }

  /** `x` placed after the last element of `s` that does not compare greater. */
  function InsertBy<T>(x: T, s: seq<T>, cmp: (T, T) -> int): (r: seq<T>)
    ensures |r| == |s| + 1
    ensures r[|r| - 1] == x || (s != [] && r[|r| - 1] == s[|s| - 1])
  {
    if s == [] then [x]
    else if cmp(s[|s| - 1], x) <= 0 then s + [x]
    else InsertBy(x, s[..|s| - 1], cmp) + [s[|s| - 1]]
  }

  /** The elements of `s` inserted one after the other, in their original order. */
  function SortBy<T>(s: seq<T>, cmp: (T, T) -> int): (r: seq<T>)
    ensures |r| == |s|
  {
    if s == [] then [] else InsertBy(s[|s| - 1], SortBy(s[..|s| - 1], cmp), cmp)
  }

  /** A list already in order comes out unchanged, so elements that compare equal keep their order there. */
  lemma {:induction false} SortBySortedUnchanged<T>(s: seq<T>, cmp: (T, T) -> int)
    requires SortedBy(s, cmp)
    ensures SortBy(s, cmp) == s
  {
    if s != [] {
      var init := s[..|s| - 1];
      assert SortedBy(init, cmp) by {
        forall i | 0 <= i < |init| - 1
          ensures cmp(init[i], init[i + 1]) <= 0
        {
          assert init[i] == s[i] && init[i + 1] == s[i + 1];
        }
      }
      SortBySortedUnchanged(init, cmp);
      if |s| > 1 {
        assert cmp(s[|s| - 2], s[|s| - 1]) <= 0;
        assert init[|init| - 1] == s[|s| - 2];
      }
      assert init + [s[|s| - 1]] == s;
    }
  }

  lemma {:induction false} InsertByPermutes<T>(x: T, s: seq<T>, cmp: (T, T) -> int)
    ensures multiset(InsertBy(x, s, cmp)) == multiset(s) + multiset{x}
  {
    if s != [] && cmp(s[|s| - 1], x) > 0 {
      InsertByPermutes(x, s[..|s| - 1], cmp);
      assert s == s[..|s| - 1] + [s[|s| - 1]];
    }
  }

  lemma {:induction false} InsertBySorted<T(!new)>(x: T, s: seq<T>, cmp: (T, T) -> int)
    requires SortedBy(s, cmp) && Antisymmetric(cmp)
    ensures SortedBy(InsertBy(x, s, cmp), cmp)
  {
    if s == [] {
    } else if cmp(s[|s| - 1], x) <= 0 {
      var r := s + [x];
      forall i | 0 <= i < |r| - 1
        ensures cmp(r[i], r[i + 1]) <= 0
      {
        if i < |s| - 1 {
          assert r[i] == s[i] && r[i + 1] == s[i + 1];
        }
      }
    } else {
      var init := s[..|s| - 1];
      var last := s[|s| - 1];
      assert SortedBy(init, cmp) by {
        forall i | 0 <= i < |init| - 1
          ensures cmp(init[i], init[i + 1]) <= 0
        {
          assert init[i] == s[i] && init[i + 1] == s[i + 1];
        }
      }
      InsertBySorted(x, init, cmp);
      var t := InsertBy(x, init, cmp);
      var r := t + [last];
      assert cmp(t[|t| - 1], last) <= 0 by {
        if t[|t| - 1] == x {
          assert cmp(x, last) < 0;
        } else {
          assert s[|s| - 2] == init[|init| - 1];
        }
      }
      forall i | 0 <= i < |r| - 1
        ensures cmp(r[i], r[i + 1]) <= 0
      {
        if i < |t| - 1 {
          assert r[i] == t[i] && r[i + 1] == t[i + 1];
        }
      }
    }
  }

  /** The sort orders the list and keeps its elements, each as often as it occurs. */
  lemma {:induction false} SortBySorted<T(!new)>(s: seq<T>, cmp: (T, T) -> int)
    requires Antisymmetric(cmp)
    ensures SortedBy(SortBy(s, cmp), cmp)
    ensures multiset(SortBy(s, cmp)) == multiset(s)
  {
    if s != [] {
      SortBySorted(s[..|s| - 1], cmp);
      InsertBySorted(s[|s| - 1], SortBy(s[..|s| - 1], cmp), cmp);
      InsertByPermutes(s[|s| - 1], SortBy(s[..|s| - 1], cmp), cmp);
      assert s == s[..|s| - 1] + [s[|s| - 1]];
    }
  }
}

/** Ascending sort of a list of reals: what `List<double>.Sort()` does for
    the filter in CompassWorker.cs (no NaN ever reaches it, the samples are
    decoded integers). */
module Sorting {

  /** Each value is at most the next one. */
  ghost predicate Sorted(s: seq<real>)
  {
    |s| < 2 || (s[0] <= s[1] && Sorted(s[1..]))
  }

  /** In a sorted list every value is at most every later value. */
  lemma {:induction false} SortedAllPairs(s: seq<real>)
    requires Sorted(s)
    ensures forall i, j | 0 <= i < j < |s| :: s[i] <= s[j]
  {
    if |s| >= 2 {
      SortedAllPairs(s[1..]);
      forall i, j | 0 <= i < j < |s| ensures s[i] <= s[j] {
        if i > 0 {
          assert s[1..][i - 1] <= s[1..][j - 1];
        } else if j > 1 {
          assert s[1..][0] <= s[1..][j - 1];
        }
      }
    }
  }

  function Insert(x: real, s: seq<real>): (r: seq<real>)
    requires Sorted(s)
    ensures |r| == |s| + 1
    ensures multiset(r) == multiset(s) + multiset{x}
    ensures Sorted(r)
    ensures r[0] == if s == [] || x <= s[0] then x else s[0]
  {
    if s == [] then [x]
    else if x <= s[0] then
      assert ([x] + s)[1..] == s;
      [x] + s
    else
      var rest := Insert(x, s[1..]);
      assert s == [s[0]] + s[1..];
      assert ([s[0]] + rest)[1..] == rest;
      [s[0]] + rest
  }

  /** A sorted permutation of `s`, by insertion. */
  function Sort(s: seq<real>): (r: seq<real>)
    ensures |r| == |s|
    ensures multiset(r) == multiset(s)
    ensures Sorted(r)
  {
    if s == [] then []
    else
      assert s == [s[0]] + s[1..];
      Insert(s[0], Sort(s[1..]))
  }

  /** The sorted arrangement of `s`: the specification `Sort` meets. Its
      defining properties are stated by `SortedOfSpec`. */
  ghost function SortedOf(s: seq<real>): (r: seq<real>)
    ensures |r| == |s|
  {
    assert Sorted(Sort(s)) && multiset(Sort(s)) == multiset(s);
    var t :| Sorted(t) && multiset(t) == multiset(s);
    assert |t| == |multiset(t)| == |s|;
    t
  }

  lemma SortedOfSpec(s: seq<real>)
    ensures multiset(SortedOf(s)) == multiset(s) && Sorted(SortedOf(s))
  {
    assert Sorted(Sort(s)) && multiset(Sort(s)) == multiset(s);
  }

  lemma SortedHeadIsLeast(s: seq<real>, x: real)
    requires Sorted(s) && x in multiset(s)
    ensures s[0] <= x
  {
    var k :| 0 <= k < |s| && s[k] == x;
    SortedAllPairs(s);
  }

  /** There is only one sorted arrangement of a multiset. */
  lemma {:induction false} SortedUnique(a: seq<real>, b: seq<real>)
    requires Sorted(a) && Sorted(b) && multiset(a) == multiset(b)
    ensures a == b
  {
    if a == [] {
      assert |b| == |multiset(b)| == 0;
    } else {
      assert |b| == |multiset(b)| == |a|;
      assert a[0] in multiset(a) && b[0] in multiset(b);
      SortedHeadIsLeast(b, a[0]);
      SortedHeadIsLeast(a, b[0]);
      assert a[0] == b[0];
      assert a == [a[0]] + a[1..] && b == [b[0]] + b[1..];
      assert multiset(a) == multiset{a[0]} + multiset(a[1..]);
      assert multiset(b) == multiset{a[0]} + multiset(b[1..]);
      assert multiset(a[1..]) == multiset(a) - multiset{a[0]};
      assert multiset(b[1..]) == multiset(b) - multiset{a[0]};
      SortedUnique(a[1..], b[1..]);
    }
  }

  /** Sorting depends on the multiset of the input only, not on its order. */
  lemma SortPermutation(a: seq<real>, b: seq<real>)
    requires multiset(a) == multiset(b)
    ensures SortedOf(a) == SortedOf(b)
  {
    SortedOfSpec(a);
    SortedOfSpec(b);
    SortedUnique(SortedOf(a), SortedOf(b));
  }

  /** The insertion sort computes the sorted arrangement. */
  lemma SortIsSortedOf(s: seq<real>)
    ensures Sort(s) == SortedOf(s)
  {
    SortedOfSpec(s);
    SortedUnique(Sort(s), SortedOf(s));
  }
}

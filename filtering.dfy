/** The trimmed mean that `CompassWorker.Filter` computes over a sensor's
    window: per axis, sort the values, drop the lowest and the highest and
    average the remaining `N - 2`. */
module Filtering {
  import opened Vectors
  import opened Sorting

  /** `s[lo] + ... + s[hi - 1]`, added left to right as `Filter`'s
      accumulator adds. */
  function SumRange(s: seq<real>, lo: nat, hi: nat): real
    requires lo <= hi <= |s|
    decreases hi - lo
  {
    if lo == hi then 0.0 else SumRange(s, lo, hi - 1) + s[hi - 1]
  }

  /** The values of one axis of a window, in window order. */
  function Column(w: seq<Vec3>, a: Axis): (c: seq<real>)
    ensures |c| == |w|
    ensures forall i | 0 <= i < |w| :: c[i] == Coord(w[i], a)
  {
    seq(|w|, i requires 0 <= i < |w| => Coord(w[i], a))
  }

  /** The mean of the sorted values without the first and the last. */
  ghost function TrimmedMeanOf(s: seq<real>): real
    requires |s| >= 3
  {
    SumRange(SortedOf(s), 1, |s| - 1) / (|s| - 2) as real
  }

  /** `Filter(window)`: the trimmed mean of each axis. */
  ghost function TrimmedMean(w: seq<Vec3>): Vec3
    requires |w| >= 3
  {
    Vec3(TrimmedMeanOf(Column(w, X)), TrimmedMeanOf(Column(w, Y)), TrimmedMeanOf(Column(w, Z)))
  }

  /** The trimmed mean from the insertion-sorted values, as `Filter`
      computes it. */
  lemma TrimmedMeanOfSorted(s: seq<real>, sorted: seq<real>)
    requires |s| >= 3 && sorted == Sort(s)
    ensures TrimmedMeanOf(s) == SumRange(sorted, 1, |sorted| - 1) / (|sorted| - 2) as real
  {
    SortIsSortedOf(s);
  }

  // ---------------------------------------------------------------------
  // Sums

  lemma {:induction false} SumConstant(s: seq<real>, lo: nat, hi: nat, c: real)
    requires lo <= hi <= |s|
    requires forall k | lo <= k < hi :: s[k] == c
    ensures SumRange(s, lo, hi) == (hi - lo) as real * c
  {
    if lo < hi {
      SumConstant(s, lo, hi - 1, c);
    }
  }

  lemma {:induction false} SumBounds(s: seq<real>, lo: nat, hi: nat, min: real, max: real)
    requires lo <= hi <= |s|
    requires forall k | lo <= k < hi :: min <= s[k] <= max
    ensures (hi - lo) as real * min <= SumRange(s, lo, hi) <= (hi - lo) as real * max
  {
    if lo < hi {
      SumBounds(s, lo, hi - 1, min, max);
    }
  }

  // ---------------------------------------------------------------------
  // Order independence

  /** The trimmed mean of a list of values does not depend on their order. */
  lemma TrimmedMeanOfPermutation(a: seq<real>, b: seq<real>)
    requires |a| >= 3 && multiset(a) == multiset(b)
    ensures |b| == |a| && TrimmedMeanOf(a) == TrimmedMeanOf(b)
  {
    assert |b| == |multiset(b)| == |a|;
    SortPermutation(a, b);
  }

  lemma ColumnAppend(w: seq<Vec3>, v: Vec3, a: Axis)
    ensures Column(w + [v], a) == Column(w, a) + [Coord(v, a)]
  {
  }

  lemma ColumnRemove(w: seq<Vec3>, i: nat, a: Axis)
    requires i < |w|
    ensures Column(w, a) == Column(w[..i], a) + [Coord(w[i], a)] + Column(w[i + 1..], a)
    ensures Column(w[..i] + w[i + 1..], a) == Column(w[..i], a) + Column(w[i + 1..], a)
  {
  }

  lemma MultisetColumnAppend(w: seq<Vec3>, v: Vec3, a: Axis)
    ensures multiset(Column(w + [v], a)) == multiset(Column(w, a)) + multiset{Coord(v, a)}
  {
    ColumnAppend(w, v, a);
  }

  lemma MultisetColumnRemove(w: seq<Vec3>, i: nat, a: Axis)
    requires i < |w|
    ensures multiset(Column(w, a)) == multiset(Column(w[..i] + w[i + 1..], a)) + multiset{Coord(w[i], a)}
  {
    ColumnRemove(w, i, a);
    var left, right := Column(w[..i], a), Column(w[i + 1..], a);
    assert multiset(left + [Coord(w[i], a)] + right) == multiset(left) + multiset{Coord(w[i], a)} + multiset(right);
    assert multiset(left + right) == multiset(left) + multiset(right);
  }

  lemma MultisetRemove(w: seq<Vec3>, i: nat)
    requires i < |w|
    ensures multiset(w[..i] + w[i + 1..]) == multiset(w) - multiset{w[i]}
  {
    assert w == w[..i] + [w[i]] + w[i + 1..];
  }

  /** Reordering the samples of a window reorders each of its columns. */
  lemma {:induction false} ColumnPermutation(w1: seq<Vec3>, w2: seq<Vec3>, a: Axis)
    requires multiset(w1) == multiset(w2)
    ensures multiset(Column(w1, a)) == multiset(Column(w2, a))
  {
    if w1 == [] {
      assert |w2| == |multiset(w2)| == 0;
    } else {
      var v := w1[|w1| - 1];
      var w1' := w1[..|w1| - 1];
      assert w1 == w1' + [v];
      assert v in multiset(w2);
      var i :| 0 <= i < |w2| && w2[i] == v;
      MultisetRemove(w2, i);
      MultisetRemove(w1, |w1| - 1);
      ColumnPermutation(w1', w2[..i] + w2[i + 1..], a);
      MultisetColumnAppend(w1', v, a);
      MultisetColumnRemove(w2, i, a);
    }
  }

  /** `Filter` does not depend on the order of the samples in the window. */
  lemma TrimmedMeanPermutation(w1: seq<Vec3>, w2: seq<Vec3>)
    requires |w1| >= 3 && multiset(w1) == multiset(w2)
    ensures |w2| == |w1| && TrimmedMean(w1) == TrimmedMean(w2)
  {
    assert |w2| == |multiset(w2)| == |w1|;
    ColumnPermutation(w1, w2, X);
    ColumnPermutation(w1, w2, Y);
    ColumnPermutation(w1, w2, Z);
    TrimmedMeanOfPermutation(Column(w1, X), Column(w2, X));
    TrimmedMeanOfPermutation(Column(w1, Y), Column(w2, Y));
    TrimmedMeanOfPermutation(Column(w1, Z), Column(w2, Z));
  }

  // ---------------------------------------------------------------------
  // Values

  /** Where every sample is `c`, the trimmed mean is `c`. */
  lemma TrimmedMeanOfConstant(s: seq<real>, c: real)
    requires |s| >= 3
    requires forall i | 0 <= i < |s| :: s[i] == c
    ensures TrimmedMeanOf(s) == c
  {
    var t := SortedOf(s);
    SortedOfSpec(s);
    forall k | 0 <= k < |t| ensures t[k] == c {
      assert t[k] in multiset(s);
    }
    SumConstant(t, 1, |s| - 1, c);
  }

  /** An axis on which every sample of the window is `c` filters to `c`. */
  lemma TrimmedMeanConstantAxis(w: seq<Vec3>, a: Axis, c: real)
    requires |w| >= 3
    requires forall i | 0 <= i < |w| :: Coord(w[i], a) == c
    ensures Coord(TrimmedMean(w), a) == c
  {
    TrimmedMeanOfConstant(Column(w, a), c);
  }

  lemma MeanBounds(total: real, m: real, lo: real, hi: real)
    requires m > 0.0 && m * lo <= total <= m * hi
    ensures lo <= total / m <= hi
  {
  }

  /** The mean of values that all lie in [min, max] lies in [min, max]. */
  lemma MeanOfBounded(s: seq<real>, lo: nat, hi: nat, min: real, max: real)
    requires lo < hi <= |s|
    requires forall k | lo <= k < hi :: min <= s[k] <= max
    ensures min <= SumRange(s, lo, hi) / (hi - lo) as real <= max
  {
    SumBounds(s, lo, hi, min, max);
    MeanBounds(SumRange(s, lo, hi), (hi - lo) as real, min, max);
  }

  lemma SortedEnds(s: seq<real>)
    requires |s| >= 2
    ensures forall k | 0 <= k < |s| :: SortedOf(s)[0] <= SortedOf(s)[k] <= SortedOf(s)[|s| - 1]
    ensures SortedOf(s)[0] in multiset(s) && SortedOf(s)[|s| - 1] in multiset(s)
  {
    var t := SortedOf(s);
    SortedOfSpec(s);
    SortedAllPairs(t);
    assert t[0] in multiset(t) && t[|s| - 1] in multiset(t);
  }

  /** The trimmed mean lies between the least and the greatest sample. */
  lemma TrimmedMeanOfBounds(s: seq<real>)
    requires |s| >= 3
    ensures exists i | 0 <= i < |s| :: s[i] <= TrimmedMeanOf(s)
    ensures exists j | 0 <= j < |s| :: TrimmedMeanOf(s) <= s[j]
  {
    var t := SortedOf(s);
    var lo, hi := t[0], t[|s| - 1];
    SortedEnds(s);
    MeanOfBounded(t, 1, |s| - 1, lo, hi);
    var i :| 0 <= i < |s| && s[i] == lo;
    var j :| 0 <= j < |s| && s[j] == hi;
  }

  /** Each axis of `Filter` lies between that axis's minimum and maximum. */
  lemma TrimmedMeanBounds(w: seq<Vec3>, a: Axis)
    requires |w| >= 3
    ensures exists i | 0 <= i < |w| :: Coord(w[i], a) <= Coord(TrimmedMean(w), a)
    ensures exists j | 0 <= j < |w| :: Coord(TrimmedMean(w), a) <= Coord(w[j], a)
  {
    TrimmedMeanOfBounds(Column(w, a));
    var c := Column(w, a);
    var i :| 0 <= i < |c| && c[i] <= TrimmedMeanOf(c);
    var j :| 0 <= j < |c| && TrimmedMeanOf(c) <= c[j];
    assert Coord(w[i], a) <= Coord(TrimmedMean(w), a);
    assert Coord(TrimmedMean(w), a) <= Coord(w[j], a);
  }

  lemma ExampleMultiset(s: seq<real>, t: seq<real>)
    requires s == [30.0, 10.0, 40.0, 20.0] && t == [10.0, 20.0, 30.0, 40.0]
    ensures multiset(s) == multiset(t) && Sorted(t)
  {
    assert Sorted(t[3..]) && Sorted(t[2..]) && Sorted(t[1..]);
  }

  lemma ExampleMean(t: seq<real>)
    requires t == [10.0, 20.0, 30.0, 40.0]
    ensures SumRange(t, 1, |t| - 1) / (|t| - 2) as real == 25.0
  {
    assert SumRange(t, 1, 2) == 20.0;
  }

  /** Axis values 10, 20, 30, 40, given out of order, filter to (20 + 30) / 2. */
  lemma TrimmedMeanExample(s: seq<real>, t: seq<real>)
    requires s == [30.0, 10.0, 40.0, 20.0] && t == [10.0, 20.0, 30.0, 40.0]
    ensures TrimmedMeanOf(s) == 25.0
  {
    ExampleMultiset(s, t);
    SortedOfSpec(s);
    SortedUnique(SortedOf(s), t);
    ExampleMean(t);
  }
}

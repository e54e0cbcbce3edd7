/**
 * The range partition shared by both samplers: the dataset sizes are turned
 * into running totals (`itertools.accumulate`) and every dataset receives the
 * half-open span of global indices between the previous total and its own.
 */
module Partition {

  /** Sum of a list of integers, taken from the back so that prefixes extend by one element. */
  function Sum(xs: seq<int>): int
  {
    if xs == [] then 0 else Sum(xs[..|xs| - 1]) + xs[|xs| - 1]
  }

  /** Sum of the first `i` entries. */
  function Prefix(xs: seq<int>, i: nat): int
    requires i <= |xs|
  {
    Sum(xs[..i])
  }

  /** Global index `x` lies in the half-open span `r`. */
  predicate Within(r: (int, int), x: int)
  {
    r.0 <= x < r.1
  }

  /** Some span of `rs` holds global index `x`. */
  ghost predicate Covered(rs: seq<(int, int)>, x: int)
  {
    exists i :: 0 <= i < |rs| && Within(rs[i], x)
  }

  ghost predicate NonNegative(xs: seq<int>)
  {
    forall i :: 0 <= i < |xs| ==> 0 <= xs[i]
  }

  /** The indices of Python's `range(a, b)`, empty when `b <= a`. */
  function Interval(a: int, b: int): (r: seq<int>)
    ensures |r| == if a <= b then b - a else 0
    ensures forall j :: 0 <= j < |r| ==> r[j] == a + j
  {
    seq(if a <= b then b - a else 0, j => a + j)
  }

  /** `accumulate(xs, initial=total)` without the initial element: the running totals after each entry. */
  function AccumulateFrom(total: int, xs: seq<int>): (acc: seq<int>)
    ensures |acc| == |xs|
    decreases |xs|
  {
    if xs == [] then [] else [total + xs[0]] + AccumulateFrom(total + xs[0], xs[1..])
  }

  /** `list(accumulate(lengths))`. */
  function Accumulate(xs: seq<int>): (acc: seq<int>)
    ensures |acc| == |xs|
  {
    AccumulateFrom(0, xs)
  }

  /** `[(start, end) for start, end in zip([0] + accumulated, accumulated)]`. */
  function Ranges(lengths: seq<int>): (rs: seq<(int, int)>)
    ensures |rs| == |lengths|
  {
    var acc := Accumulate(lengths);
    var starts := [0] + acc;
    seq(|lengths|, i requires 0 <= i < |lengths| => (starts[i], acc[i]))
  }

  lemma SumPrepend(a: int, ys: seq<int>)
    ensures Sum([a] + ys) == a + Sum(ys)
  {
    if ys != [] {
      assert ([a] + ys)[..|ys|] == [a] + ys[..|ys| - 1];
      SumPrepend(a, ys[..|ys| - 1]);
    }
  }

  lemma PrefixStep(xs: seq<int>, i: nat)
    requires i < |xs|
    ensures Prefix(xs, i + 1) == Prefix(xs, i) + xs[i]
  {
    assert xs[..i + 1][..i] == xs[..i];
  }

  /** Entry `i` of the running totals is the sum of the first `i + 1` sizes (plus the initial total). */
  lemma {:induction false} AccumulateFromAt(total: int, xs: seq<int>, i: nat)
    requires i < |xs|
    ensures AccumulateFrom(total, xs)[i] == total + Prefix(xs, i + 1)
    decreases i
  {
    if i == 0 {
      PrefixStep(xs, 0);
      assert xs[..0] == [];
    } else {
      AccumulateFromAt(total + xs[0], xs[1..], i - 1);
      assert xs[1..][..i] == xs[1..i + 1];
      assert xs[..i + 1] == [xs[0]] + xs[1..i + 1];
      SumPrepend(xs[0], xs[1..i + 1]);
    }
  }

  /** Range `i` runs from the sum of the sizes before dataset `i` to the sum up to and including it. */
  lemma RangeAt(lengths: seq<int>, i: nat)
    requires i < |lengths|
    ensures Ranges(lengths)[i] == (Prefix(lengths, i), Prefix(lengths, i + 1))
  {
    AccumulateFromAt(0, lengths, i);
    if i > 0 {
      AccumulateFromAt(0, lengths, i - 1);
    }
  }

  /**
   * The ranges are laid end to end: the first starts at 0, each ends where the
   * next starts, the last ends at the total size, and range `i` is exactly
   * `lengths[i]` wide.
   */
  lemma RangesContiguous(lengths: seq<int>)
    ensures var rs := Ranges(lengths);
      && (|rs| > 0 ==> rs[0].0 == 0 && rs[|rs| - 1].1 == Sum(lengths))
      && (forall i :: 0 <= i < |rs| ==> rs[i].1 - rs[i].0 == lengths[i])
      && (forall i :: 0 <= i < |rs| - 1 ==> rs[i].1 == rs[i + 1].0)
  {
    var rs := Ranges(lengths);
    forall i | 0 <= i < |rs|
      ensures rs[i].1 - rs[i].0 == lengths[i]
    {
      RangeAt(lengths, i);
      PrefixStep(lengths, i);
    }
    forall i | 0 <= i < |rs| - 1
      ensures rs[i].1 == rs[i + 1].0
    {
      RangeAt(lengths, i);
      RangeAt(lengths, i + 1);
    }
    if |rs| > 0 {
      RangeAt(lengths, 0);
      RangeAt(lengths, |rs| - 1);
      assert lengths[..|rs|] == lengths;
    }
  }

  lemma {:induction false} PrefixMonotone(xs: seq<int>, i: nat, j: nat)
    requires NonNegative(xs)
    requires i <= j <= |xs|
    ensures Prefix(xs, i) <= Prefix(xs, j)
  {
    if i < j {
      PrefixMonotone(xs, i, j - 1);
      PrefixStep(xs, j - 1);
    }
  }

  /** Every global index below the total of the first `k` sizes lies in one of the first `k` spans. */
  lemma {:induction false} PrefixLocate(xs: seq<int>, k: nat, x: int)
    requires k <= |xs|
    requires 0 <= x < Prefix(xs, k)
    ensures exists i :: 0 <= i < k && Prefix(xs, i) <= x < Prefix(xs, i + 1)
  {
    if k > 0 {
      PrefixStep(xs, k - 1);
      if x < Prefix(xs, k - 1) {
        PrefixLocate(xs, k - 1, x);
      }
    }
  }

  /**
   * With non-negative sizes the ranges are pairwise disjoint (an earlier range
   * ends no later than a later one starts) and their union is exactly
   * `[0, Sum(lengths))`.
   */
  lemma RangesPartition(lengths: seq<int>)
    requires NonNegative(lengths)
    ensures var rs := Ranges(lengths);
      && (forall i, j :: 0 <= i < j < |rs| ==> rs[i].1 <= rs[j].0)
      && (forall x :: 0 <= x < Sum(lengths) <==> Covered(rs, x))
  {
    var rs := Ranges(lengths);
    forall i, j | 0 <= i < j < |rs|
      ensures rs[i].1 <= rs[j].0
    {
      RangeAt(lengths, i);
      RangeAt(lengths, j);
      PrefixMonotone(lengths, i + 1, j);
    }
    assert lengths[..|lengths|] == lengths;
    forall x
      ensures 0 <= x < Sum(lengths) <==> Covered(rs, x)
    {
      if 0 <= x < Sum(lengths) {
        PrefixLocate(lengths, |lengths|, x);
        var i :| 0 <= i < |lengths| && Prefix(lengths, i) <= x < Prefix(lengths, i + 1);
        RangeAt(lengths, i);
        assert Within(rs[i], x);
      }
      if i :| 0 <= i < |rs| && Within(rs[i], x) {
        RangeAt(lengths, i);
        PrefixMonotone(lengths, 0, i);
        PrefixMonotone(lengths, i + 1, |lengths|);
        assert lengths[..0] == [];
      }
    }
  }

  /** Two adjacent intervals concatenate to their union. */
  lemma IntervalSplit(a: int, b: int, c: int)
    requires a <= b <= c
    ensures Interval(a, c) == Interval(a, b) + Interval(b, c)
  {
  }
}

/**
 * `ProportionalBatchSampler`: every batch of every dataset is yielded exactly
 * once, and the dataset each next batch comes from is read off a shuffled
 * draw list holding index `i` once per batch of dataset `i`, so a dataset's
 * share of a pass is its share of the batches.
 */
module Proportional {
  import opened Partition
  import opened Batching

  /** `[x] * k`, built from the back; empty when `k <= 0`. */
  function Repeat(x: int, k: int): (r: seq<int>)
    ensures |r| == if k > 0 then k else 0
    ensures forall t :: 0 <= t < |r| ==> r[t] == x
    decreases k
  {
    if k <= 0 then [] else Repeat(x, k - 1) + [x]
  }

  /** `[idx for idx, length in enumerate(counts) for _ in range(length)]`. */
  function DrawList(counts: seq<int>): seq<int>
  {
    if counts == [] then [] else DrawList(counts[..|counts| - 1]) + Repeat(|counts| - 1, counts[|counts| - 1])
  }

  lemma {:induction false} RepeatCounts(x: int, k: int, y: int)
    requires 0 <= k
    ensures multiset(Repeat(x, k))[y] == if y == x then k else 0
    decreases k
  {
    if k > 0 {
      RepeatCounts(x, k - 1, y);
      assert multiset(Repeat(x, k)) == multiset(Repeat(x, k - 1)) + multiset{x};
    }
  }

  /** The draw list is as long as the counts add up to. */
  lemma {:induction false} DrawListLength(counts: seq<int>)
    requires NonNegative(counts)
    ensures |DrawList(counts)| == Sum(counts)
    decreases |counts|
  {
    if counts != [] {
      var front := counts[..|counts| - 1];
      assert forall i :: 0 <= i < |front| ==> front[i] == counts[i];
      DrawListLength(front);
    }
  }

  /** Dataset `i` appears `counts[i]` times in the draw list; any other value, never. */
  lemma {:induction false} DrawListCountOf(counts: seq<int>, i: int)
    requires NonNegative(counts)
    ensures multiset(DrawList(counts))[i] == if 0 <= i < |counts| then counts[i] else 0
    decreases |counts|
  {
    if counts != [] {
      var n := |counts|;
      var front, last := counts[..n - 1], counts[n - 1];
      assert NonNegative(front) by {
        assert forall j :: 0 <= j < |front| ==> front[j] == counts[j];
      }
      var earlier, tail := DrawList(front), Repeat(n - 1, last);
      assert DrawList(counts) == earlier + tail;
      assert multiset(earlier + tail)[i] == multiset(earlier)[i] + multiset(tail)[i];
      DrawListCountOf(front, i);
      RepeatCounts(n - 1, last, i);
      if 0 <= i < n - 1 {
        assert front[i] == counts[i];
      }
    }
  }

  /**
   * The draw list holds dataset index `i` exactly `counts[i]` times and
   * nothing else, so its length is the total batch count.
   */
  lemma DrawListCounts(counts: seq<int>)
    requires NonNegative(counts)
    ensures |DrawList(counts)| == Sum(counts)
    ensures forall i :: multiset(DrawList(counts))[i] == if 0 <= i < |counts| then counts[i] else 0
  {
    DrawListLength(counts);
    forall i
      ensures multiset(DrawList(counts))[i] == if 0 <= i < |counts| then counts[i] else 0
    {
      DrawListCountOf(counts, i);
    }
  }

  /**
   * `order` schedules the batch lists: it names only existing datasets, and
   * names dataset `i` exactly as often as dataset `i` has batches.
   */
  ghost predicate Schedules(order: seq<int>, lists: seq<seq<Batch>>)
  {
    && (forall t :: 0 <= t < |order| ==> 0 <= order[t] < |lists|)
    && (forall i :: 0 <= i < |lists| ==> multiset(order)[i] == |lists[i]|)
  }

  /**
   * When draw `t` names dataset `d`, fewer than `|lists[d]|` earlier draws
   * named it, so its iterator still has a batch: `next` never raises.
   */
  lemma DrawAvailable(order: seq<int>, lists: seq<seq<Batch>>, t: nat)
    requires Schedules(order, lists) && t < |order|
    ensures 0 <= order[t] < |lists|
    ensures multiset(order[..t])[order[t]] < |lists[order[t]]|
  {
    assert order == order[..t] + order[t..];
    assert order[t..] == [order[t]] + order[t + 1..];
    assert multiset(order) == multiset(order[..t]) + multiset{order[t]} + multiset(order[t + 1..]);
  }

  /**
   * The pass as a value: draw `t` yields the next unused batch of the dataset
   * it names, i.e. the one at the number of earlier draws of that dataset.
   */
  function Interleave(lists: seq<seq<Batch>>, order: seq<int>): (out: seq<Tagged>)
    requires Schedules(order, lists)
    ensures |out| == |order|
  {
    seq(|order|, t requires 0 <= t < |order| =>
      DrawAvailable(order, lists, t);
      Tagged(lists[order[t]][multiset(order[..t])[order[t]]], order[t]))
  }

  /**
   * The draw order of a pass: the draw list, built from the `len` of each
   * dataset's `BatchSampler`, permuted by the generator. It is shuffled
   * whether or not `shuffle` is set.
   */
  function DrawOrder(ranges: seq<(int, int)>, batchSize: int, dropLast: bool, seed: int, rng: Shuffler): seq<int>
    requires 0 < batchSize
  {
    rng(seed, |ranges|, DrawList(Counts(ranges, batchSize, dropLast)))
  }

  /**
   * Under any permuting generator the draw order schedules the batch lists:
   * the `len` formula counts exactly the batches each `BatchSampler` yields.
   */
  lemma DrawOrderSchedules(ranges: seq<(int, int)>, batchSize: int, dropLast: bool, shuffle: bool, seed: int, rng: Shuffler)
    requires 0 < batchSize && IsShuffler(rng)
    ensures Schedules(DrawOrder(ranges, batchSize, dropLast, seed, rng), BatchLists(ranges, batchSize, dropLast, shuffle, seed, rng))
    ensures |DrawOrder(ranges, batchSize, dropLast, seed, rng)| == Sum(Counts(ranges, batchSize, dropLast))
  {
    var counts := Counts(ranges, batchSize, dropLast);
    var order := DrawOrder(ranges, batchSize, dropLast, seed, rng);
    var lists := BatchLists(ranges, batchSize, dropLast, shuffle, seed, rng);
    DrawListCounts(counts);
    BatchListsShape(ranges, batchSize, dropLast, shuffle, seed, rng);
    assert multiset(order) == multiset(DrawList(counts));
    assert |order| == |multiset(order)| == |DrawList(counts)|;
    forall t | 0 <= t < |order|
      ensures 0 <= order[t] < |lists|
    {
      assert order[t] in multiset(DrawList(counts));
    }
  }

  /** One proportional pass for the generator seeded with `seed`. */
  function ProportionalPass(ranges: seq<(int, int)>, batchSize: int, dropLast: bool, shuffle: bool, seed: int, rng: Shuffler)
    : (out: seq<Tagged>)
    requires 0 < batchSize && IsShuffler(rng)
    ensures |out| == Sum(Counts(ranges, batchSize, dropLast))
  {
    DrawOrderSchedules(ranges, batchSize, dropLast, shuffle, seed, rng);
    Interleave(BatchLists(ranges, batchSize, dropLast, shuffle, seed, rng), DrawOrder(ranges, batchSize, dropLast, seed, rng))
  }

  /** Cursor `i` has advanced once per earlier draw of dataset `i` and the output is the pass so far. */
  ghost predicate DrainedSoFar(lists: seq<seq<Batch>>, order: seq<int>, out: seq<Tagged>, cursor: seq<nat>)
    requires Schedules(order, lists)
  {
    && |out| <= |order| && |cursor| == |lists|
    && (forall i :: 0 <= i < |lists| ==> cursor[i] == multiset(order[..|out|])[i])
    && out == Interleave(lists, order)[..|out|]
  }

  lemma DrainStep(lists: seq<seq<Batch>>, order: seq<int>, out: seq<Tagged>, cursor: seq<nat>)
    requires Schedules(order, lists) && DrainedSoFar(lists, order, out, cursor) && |out| < |order|
    ensures var t, d := |out|, order[|out|];
      && 0 <= d < |lists| && cursor[d] < |lists[d]|
      && DrainedSoFar(lists, order, out + [Tagged(lists[d][cursor[d]], d)], cursor[d := cursor[d] + 1])
  {
    var t, d := |out|, order[|out|];
    DrawAvailable(order, lists, t);
    assert order[..t + 1] == order[..t] + [d];
    assert Interleave(lists, order)[..t + 1] == Interleave(lists, order)[..t] + [Interleave(lists, order)[t]];
  }

  /**
   * `for dataset_idx in sampler: yield next(batch_samplers[dataset_idx])`,
   * with a cursor per dataset standing for its iterator.
   */
  method DrainInDrawOrder(lists: seq<seq<Batch>>, order: seq<int>) returns (out: seq<Tagged>)
    requires Schedules(order, lists)
    ensures out == Interleave(lists, order)
  {
    var cursor := new nat[|lists|](_ => 0);
    out := [];
    assert order[..0] == [];
    for t := 0 to |order|
      invariant |out| == t
      invariant DrainedSoFar(lists, order, out, cursor[..])
    {
      DrainStep(lists, order, out, cursor[..]);
      var d := order[t];
      out := out + [Tagged(lists[d][cursor[d]], d)];
      cursor[d] := cursor[d] + 1;
    }
    assert Interleave(lists, order)[..|order|] == Interleave(lists, order);
  }

  /** The batches of `out` pulled from dataset `i`, in pass order. */
  function SourcedFrom(out: seq<Tagged>, i: int): seq<Batch>
  {
    if out == [] then []
    else SourcedFrom(out[..|out| - 1], i) + (if out[|out| - 1].source == i then [out[|out| - 1].batch] else [])
  }

  /** Pull `t` extends the batches taken from dataset `i` by one exactly when it is tagged `i`. */
  lemma SourcedStep(out: seq<Tagged>, t: nat, i: nat, batches: seq<Batch>, k: nat)
    requires t < |out| && k <= |batches| && SourcedFrom(out[..t], i) == batches[..k]
    requires out[t].source == i ==> k < |batches| && out[t].batch == batches[k]
    ensures SourcedFrom(out[..t + 1], i) == batches[..if out[t].source == i then k + 1 else k]
  {
    assert out[..t + 1] == out[..t] + [out[t]];
    SourcedFromSnoc(out[..t], out[t], i);
    if out[t].source == i {
      assert batches[..k] + [batches[k]] == batches[..k + 1];
    }
  }

  /** Draw `t` of the pass, and how it moves the number of draws of dataset `i`. */
  lemma InterleaveDraw(lists: seq<seq<Batch>>, order: seq<int>, t: nat, i: nat)
    requires Schedules(order, lists) && t < |order| && i < |lists|
    ensures var out, before := Interleave(lists, order), multiset(order[..t])[i];
      && out[t].source == order[t]
      && multiset(order[..t + 1])[i] == (if order[t] == i then before + 1 else before)
      && (order[t] == i ==> before < |lists[i]| && out[t].batch == lists[i][before])
  {
    DrawAvailable(order, lists, t);
    assert order[..t + 1] == order[..t] + [order[t]];
  }

  lemma {:induction false} InterleavePrefix(lists: seq<seq<Batch>>, order: seq<int>, t: nat, i: nat)
    requires Schedules(order, lists) && t <= |order| && i < |lists|
    ensures multiset(order[..t])[i] <= |lists[i]|
    ensures SourcedFrom(Interleave(lists, order)[..t], i) == lists[i][..multiset(order[..t])[i]]
  {
    var out := Interleave(lists, order);
    if t == 0 {
      assert order[..0] == [];
      assert out[..0] == [];
    } else {
      InterleavePrefix(lists, order, t - 1, i);
      InterleaveDraw(lists, order, t - 1, i);
      SourcedStep(out, t - 1, i, lists[i], multiset(order[..t - 1])[i]);
    }
  }

  /**
   * Draining in any scheduling order hands out each dataset's batches exactly
   * once and in that dataset's own order, and tags nothing with a dataset
   * that does not exist.
   */
  lemma InterleaveDrains(lists: seq<seq<Batch>>, order: seq<int>)
    requires Schedules(order, lists)
    ensures var out := Interleave(lists, order);
      && (forall t :: 0 <= t < |out| ==> out[t].source < |lists|)
      && (forall i :: 0 <= i < |lists| ==> SourcedFrom(out, i) == lists[i])
  {
    var out := Interleave(lists, order);
    forall i | 0 <= i < |lists|
      ensures SourcedFrom(out, i) == lists[i]
    {
      InterleavePrefix(lists, order, |order|, i);
      assert order[..|order|] == order;
      assert out[..|order|] == out;
    }
  }

  /** All indices yielded by a pass, in order. */
  function Yielded(out: seq<Tagged>): seq<int>
  {
    if out == [] then [] else Yielded(out[..|out| - 1]) + out[|out| - 1].batch
  }

  /** The indices in the batches tagged with dataset `i`, counted with multiplicity. */
  ghost function Pulled(out: seq<Tagged>, i: int): multiset<int>
  {
    if out == [] then multiset{}
    else Pulled(out[..|out| - 1], i) + (if out[|out| - 1].source == i then multiset(out[|out| - 1].batch) else multiset{})
  }

  /** The indices in the batches pulled from datasets `0 .. k-1`, counted with multiplicity. */
  ghost function YieldedBelow(out: seq<Tagged>, k: int): multiset<int>
  {
    if out == [] then multiset{}
    else YieldedBelow(out[..|out| - 1], k) + (if out[|out| - 1].source < k then multiset(out[|out| - 1].batch) else multiset{})
  }

  lemma {:induction false} FlattenSnoc(batches: seq<Batch>, b: Batch)
    ensures Flatten(batches + [b]) == Flatten(batches) + b
  {
    FlattenAppend(batches, [b]);
    assert Flatten([b]) == b + Flatten([]);
  }

  lemma SourcedFromSnoc(out: seq<Tagged>, x: Tagged, i: int)
    ensures SourcedFrom(out + [x], i) == SourcedFrom(out, i) + if x.source == i then [x.batch] else []
  {
    assert (out + [x])[..|out|] == out;
  }

  /** The indices tagged `i` are those of the batches `SourcedFrom` collects for dataset `i`. */
  lemma {:induction false} PulledIsSourced(out: seq<Tagged>, i: int)
    ensures Pulled(out, i) == multiset(Flatten(SourcedFrom(out, i)))
  {
    if out != [] {
      var front, x := out[..|out| - 1], out[|out| - 1];
      var earlier := SourcedFrom(front, i);
      PulledIsSourced(front, i);
      if x.source == i {
        assert SourcedFrom(out, i) == earlier + [x.batch];
        FlattenSnoc(earlier, x.batch);
        assert multiset(Flatten(earlier + [x.batch])) == multiset(Flatten(earlier)) + multiset(x.batch);
      } else {
        assert SourcedFrom(out, i) == earlier + [];
        assert earlier + [] == earlier;
      }
    }
  }

  /** Taking in one more dataset adds exactly the indices tagged with it. */
  lemma {:induction false} YieldedBelowStep(out: seq<Tagged>, k: int)
    ensures YieldedBelow(out, k + 1) == YieldedBelow(out, k) + Pulled(out, k)
  {
    if out != [] {
      var front, x := out[..|out| - 1], out[|out| - 1];
      YieldedBelowStep(front, k);
      var earlier, mine := YieldedBelow(front, k), Pulled(front, k);
      if x.source < k {
        assert YieldedBelow(out, k + 1) == (earlier + mine) + multiset(x.batch);
        assert YieldedBelow(out, k) + Pulled(out, k) == (earlier + multiset(x.batch)) + mine;
      } else if x.source == k {
        assert YieldedBelow(out, k) + Pulled(out, k) == earlier + (mine + multiset(x.batch));
      }
    }
  }

  lemma {:induction false} YieldedBelowNone(out: seq<Tagged>)
    ensures YieldedBelow(out, 0) == multiset{}
  {
    if out != [] {
      YieldedBelowNone(out[..|out| - 1]);
    }
  }

  /** When every batch is tagged below `n`, the datasets below `n` account for every yielded index. */
  lemma {:induction false} YieldedByDataset(out: seq<Tagged>, n: int)
    requires forall t :: 0 <= t < |out| ==> out[t].source < n
    ensures multiset(Yielded(out)) == YieldedBelow(out, n)
  {
    if out != [] {
      var front := out[..|out| - 1];
      assert multiset(Yielded(front)) == YieldedBelow(front, n) by {
        assert forall t :: 0 <= t < |front| ==> front[t] == out[t];
        YieldedByDataset(front, n);
      }
    }
  }

  /**
   * When dataset `i`'s batches hold exactly its range, the batches of the
   * first `k` datasets hold exactly the indices below the `k`-th running total.
   */
  lemma {:induction false} YieldedBelowPrefix(out: seq<Tagged>, lengths: seq<int>, k: nat)
    requires NonNegative(lengths) && k <= |lengths|
    requires forall i :: 0 <= i < |lengths| ==>
      Pulled(out, i) == multiset(Interval(Ranges(lengths)[i].0, Ranges(lengths)[i].1))
    ensures YieldedBelow(out, k) == multiset(Interval(0, Prefix(lengths, k)))
  {
    if k == 0 {
      YieldedBelowNone(out);
      assert lengths[..0] == [];
    } else {
      YieldedBelowPrefix(out, lengths, k - 1);
      YieldedBelowStep(out, k - 1);
      RangeAt(lengths, k - 1);
      PrefixStep(lengths, k - 1);
      PrefixMonotone(lengths, 0, k - 1);
      assert lengths[..0] == [];
      IntervalSplit(0, Prefix(lengths, k - 1), Prefix(lengths, k));
    }
  }

  class ProportionalBatchSampler {
    const lengths: seq<int>
    const ranges: seq<(int, int)>
    const seed: int
    const shuffle: bool
    const dropLast: bool
    const batchSize: int
    var epoch: int

    ghost predicate Valid()
    {
      0 < batchSize && NonNegative(lengths) && ranges == Ranges(lengths)
    }

    /** Stores the configuration and partitions the global index space; the epoch starts at 0. */
    constructor (lengths: seq<int>, batchSize: int, dropLast: bool := false, seed: int := 0, shuffle: bool := true)
      requires NonNegative(lengths) && 0 < batchSize
      ensures Valid()
      ensures this.lengths == lengths && this.batchSize == batchSize && this.dropLast == dropLast
      ensures this.seed == seed && this.shuffle == shuffle && epoch == 0
    {
      this.lengths := lengths;
      ranges := Ranges(lengths);
      this.seed := seed;
      this.shuffle := shuffle;
      this.dropLast := dropLast;
      this.batchSize := batchSize;
      epoch := 0;
    }

    /** Only the epoch changes; the configuration fields are constants. */
    method SetEpoch(epoch: int)
      modifies this`epoch
      ensures this.epoch == epoch
    {
      this.epoch := epoch;
    }

    /**
     * One pass. The batch samplers and the draw order come from the generator
     * seeded with `seed + epoch`; each draw yields the next batch of the
     * dataset it names.
     */
    method Iter(rng: Shuffler) returns (out: seq<Tagged>)
      requires Valid() && IsShuffler(rng)
      ensures out == ProportionalPass(ranges, batchSize, dropLast, shuffle, EpochSeed(seed, epoch), rng)
    {
      var g := EpochSeed(seed, epoch);
      var lists := BatchLists(ranges, batchSize, dropLast, shuffle, g, rng);
      var order := rng(g, |ranges|, DrawList(Counts(ranges, batchSize, dropLast)));
      assert Schedules(order, lists) by {
        DrawOrderSchedules(ranges, batchSize, dropLast, shuffle, g, rng);
      }
      out := DrainInDrawOrder(lists, order);
    }

    /** `__len__`: the total of the per-dataset batch counts. */
    function Len(): int
      requires Valid()
    {
      Sum(LengthCounts(lengths, batchSize, dropLast))
    }
  }

  /** Every pass yields exactly `__len__` batches, whatever the seed and epoch. */
  lemma ProportionalLenMatchesPass(s: ProportionalBatchSampler, seed: int, rng: Shuffler)
    requires s.Valid() && IsShuffler(rng)
    ensures |ProportionalPass(s.ranges, s.batchSize, s.dropLast, s.shuffle, seed, rng)| == s.Len()
  {
    CountsOfRanges(s.lengths, s.batchSize, s.dropLast);
  }

  /**
   * A pass exhausts every dataset: the batches tagged with dataset `i` are
   * exactly that dataset's batch list, in its own order.
   */
  lemma ProportionalDrainsEveryDataset(ranges: seq<(int, int)>, batchSize: int, dropLast: bool, shuffle: bool, seed: int, rng: Shuffler)
    requires 0 < batchSize && IsShuffler(rng)
    ensures var out := ProportionalPass(ranges, batchSize, dropLast, shuffle, seed, rng);
      var lists := BatchLists(ranges, batchSize, dropLast, shuffle, seed, rng);
      && (forall t :: 0 <= t < |out| ==> out[t].source < |ranges|)
      && (forall i :: 0 <= i < |ranges| ==> SourcedFrom(out, i) == lists[i])
  {
    DrawOrderSchedules(ranges, batchSize, dropLast, shuffle, seed, rng);
    InterleaveDrains(BatchLists(ranges, batchSize, dropLast, shuffle, seed, rng), DrawOrder(ranges, batchSize, dropLast, seed, rng));
  }

  /**
   * Without `drop_last`, one pass yields every global index `0 .. sum(lengths)-1`
   * exactly once.
   */
  lemma ProportionalCoversEveryIndex(lengths: seq<int>, batchSize: int, shuffle: bool, seed: int, rng: Shuffler)
    requires 0 < batchSize && NonNegative(lengths) && IsShuffler(rng)
    ensures var out := ProportionalPass(Ranges(lengths), batchSize, false, shuffle, seed, rng);
      multiset(Yielded(out)) == multiset(Interval(0, Sum(lengths)))
  {
    var ranges := Ranges(lengths);
    var out := ProportionalPass(ranges, batchSize, false, shuffle, seed, rng);
    ProportionalDrainsEveryDataset(ranges, batchSize, false, shuffle, seed, rng);
    BatchListsShape(ranges, batchSize, false, shuffle, seed, rng);
    YieldedByDataset(out, |lengths|);
    forall i | 0 <= i < |lengths|
      ensures Pulled(out, i) == multiset(Interval(ranges[i].0, ranges[i].1))
    {
      PulledIsSourced(out, i);
    }
    YieldedBelowPrefix(out, lengths, |lengths|);
    assert lengths[..|lengths|] == lengths;
  }

  /** Every index in a batch tagged with dataset `i` lies in dataset `i`'s range, hence below the total size. */
  lemma ProportionalBatchesInRange(lengths: seq<int>, batchSize: int, dropLast: bool, shuffle: bool, seed: int, rng: Shuffler)
    requires 0 < batchSize && NonNegative(lengths) && IsShuffler(rng)
    ensures var ranges := Ranges(lengths);
      var out := ProportionalPass(ranges, batchSize, dropLast, shuffle, seed, rng);
      forall t, x :: 0 <= t < |out| && x in out[t].batch ==>
        out[t].source < |lengths| && Within(ranges[out[t].source], x) && 0 <= x < Sum(lengths)
  {
    var ranges := Ranges(lengths);
    var lists := BatchLists(ranges, batchSize, dropLast, shuffle, seed, rng);
    var order := DrawOrder(ranges, batchSize, dropLast, seed, rng);
    var out := ProportionalPass(ranges, batchSize, dropLast, shuffle, seed, rng);
    DrawOrderSchedules(ranges, batchSize, dropLast, shuffle, seed, rng);
    BatchListsShape(ranges, batchSize, dropLast, shuffle, seed, rng);
    RangesPartition(lengths);
    forall t, x | 0 <= t < |out| && x in out[t].batch
      ensures out[t].source < |lengths| && Within(ranges[out[t].source], x) && 0 <= x < Sum(lengths)
    {
      DrawAvailable(order, lists, t);
      var d, b := order[t], multiset(order[..t])[order[t]];
      assert out[t] == Tagged(lists[d][b], d);
      assert Covered(ranges, x);
    }
  }
}

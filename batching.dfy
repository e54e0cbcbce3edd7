/**
 * Per-dataset batching: each dataset's range, in ascending order or permuted
 * by the seeded generator, is cut into consecutive batches of `batch_size`
 * indices the way `BatchSampler` does, keeping or dropping a short tail.
 */
module Batching {
  import opened Partition

  /** An ordered group of global sample indices. */
  type Batch = seq<int>

  /** A yielded batch together with the index of the dataset it was pulled from. */
  datatype Tagged = Tagged(batch: Batch, source: nat)

  /**
   * The seeded random source, abstracted. `rng(seed, stream, xs)` is the order
   * in which a random subset sampler over `xs` yields its elements when the
   * generator was seeded with `seed`; `stream` tells apart the permutations
   * drawn from that one generator during a pass (dataset `i` uses stream `i`,
   * the proportional draw list uses stream `n`).
   */
  type Shuffler = (int, nat, seq<int>) -> seq<int>

  /** What is known of the generator: every draw is a permutation of its input. */
  ghost predicate IsShuffler(rng: Shuffler)
  {
    forall seed: int, stream: nat, xs: seq<int> :: multiset(rng(seed, stream, xs)) == multiset(xs)
  }

  /** The seed a pass draws with: `manual_seed(self.seed + self.epoch)`. */
  function EpochSeed(seed: int, epoch: int): int
  {
    seed + epoch
  }

  /** Python's `len(range(start, end))`. */
  function Size(r: (int, int)): nat
  {
    if r.0 <= r.1 then r.1 - r.0 else 0
  }

  /** `len(BatchSampler(...))`: floor division with `drop_last`, ceiling division without. */
  function BatchCount(size: int, batchSize: int, dropLast: bool): int
    requires batchSize > 0
  {
    if dropLast then size / batchSize else (size + batchSize - 1) / batchSize
  }

  /** The batch count of every range, in dataset order. */
  function Counts(ranges: seq<(int, int)>, batchSize: int, dropLast: bool): (c: seq<int>)
    requires batchSize > 0
    ensures |c| == |ranges|
    ensures forall i :: 0 <= i < |c| ==> 0 <= c[i]
  {
    seq(|ranges|, i requires 0 <= i < |ranges| => BatchCount(Size(ranges[i]), batchSize, dropLast))
  }

  /** How many batches `len(BatchSampler(range(length)))` holds, for every dataset size. */
  function LengthCounts(lengths: seq<int>, batchSize: int, dropLast: bool): (c: seq<int>)
    requires 0 < batchSize
    ensures |c| == |lengths|
  {
    seq(|lengths|, i requires 0 <= i < |lengths| => BatchCount(lengths[i], batchSize, dropLast))
  }

  /** The counts the samplers compute from the sizes agree with those of the ranges built from the same sizes. */
  lemma CountsOfRanges(lengths: seq<int>, batchSize: int, dropLast: bool)
    requires 0 < batchSize && NonNegative(lengths)
    ensures Counts(Ranges(lengths), batchSize, dropLast) == LengthCounts(lengths, batchSize, dropLast)
    ensures forall i :: 0 <= i < |lengths| ==> 0 <= LengthCounts(lengths, batchSize, dropLast)[i]
  {
    var ranges := Ranges(lengths);
    RangesContiguous(lengths);
    forall i | 0 <= i < |lengths|
      ensures Counts(ranges, batchSize, dropLast)[i] == LengthCounts(lengths, batchSize, dropLast)[i]
    {
      assert Size(ranges[i]) == lengths[i];
    }
  }

  /** All indices of a list of batches, in order. */
  function Flatten(batches: seq<Batch>): seq<int>
  {
    if batches == [] then [] else batches[0] + Flatten(batches[1..])
  }

  lemma {:induction false} FlattenAppend(xs: seq<Batch>, ys: seq<Batch>)
    ensures Flatten(xs + ys) == Flatten(xs) + Flatten(ys)
  {
    if xs == [] {
      assert xs + ys == ys;
    } else {
      assert (xs + ys)[0] == xs[0];
      assert (xs + ys)[1..] == xs[1..] + ys;
      FlattenAppend(xs[1..], ys);
      assert Flatten(xs + ys) == xs[0] + (Flatten(xs[1..]) + Flatten(ys));
    }
  }

  /** An index in one of the batches appears in their concatenation. */
  lemma {:induction false} FlattenMember(batches: seq<Batch>, b: nat, x: int)
    requires b < |batches| && x in batches[b]
    ensures x in Flatten(batches)
  {
    if b > 0 {
      FlattenMember(batches[1..], b - 1, x);
    }
  }

  lemma MulSmall(k: int, d: int)
    requires 0 < d && -d < k * d < d
    ensures k == 0
  {
  }

  /** Floor division and remainder are determined by any quotient-remainder split. */
  lemma DivModUnique(a: int, d: int, q: int, r: int)
    requires 0 < d && 0 <= r < d && a == q * d + r
    ensures a / d == q && a % d == r
  {
    assert (q - a / d) * d == a % d - r;
    MulSmall(q - a / d, d);
  }

  lemma BatchCountStep(size: int, batchSize: int, dropLast: bool)
    requires 0 < batchSize <= size
    ensures BatchCount(size, batchSize, dropLast) == 1 + BatchCount(size - batchSize, batchSize, dropLast)
    ensures size % batchSize == (size - batchSize) % batchSize
  {
    var q, r := (size - batchSize) / batchSize, (size - batchSize) % batchSize;
    DivModUnique(size, batchSize, q + 1, r);
    var q', r' := (size - 1) / batchSize, (size - 1) % batchSize;
    DivModUnique(size + batchSize - 1, batchSize, q' + 1, r');
  }

  /** A batch count below one full batch: none with `drop_last`, one for a non-empty tail without. */
  lemma BatchCountTail(size: int, batchSize: int, dropLast: bool)
    requires 0 <= size < batchSize
    ensures BatchCount(size, batchSize, dropLast) == if size > 0 && !dropLast then 1 else 0
    ensures size % batchSize == size
  {
    DivModUnique(size, batchSize, 0, size);
    if size > 0 {
      DivModUnique(size + batchSize - 1, batchSize, 1, size - 1);
    } else {
      DivModUnique(batchSize - 1, batchSize, 0, batchSize - 1);
    }
  }

  /** Putting one full batch in front of the batches of the rest of the order. */
  lemma ChunkCons(order: seq<int>, batchSize: int, dropLast: bool, rest: seq<Batch>)
    requires 0 < batchSize <= |order|
    requires |rest| == BatchCount(|order| - batchSize, batchSize, dropLast)
    requires var tail := order[batchSize..];
      Flatten(rest) == if dropLast then tail[..|tail| - |tail| % batchSize] else tail
    ensures |[order[..batchSize]] + rest| == BatchCount(|order|, batchSize, dropLast)
    ensures Flatten([order[..batchSize]] + rest) == if dropLast then order[..|order| - |order| % batchSize] else order
  {
    BatchCountStep(|order|, batchSize, dropLast);
    var tail := order[batchSize..];
    assert ([order[..batchSize]] + rest)[1..] == rest;
    if dropLast {
      assert order[..batchSize] + tail[..|tail| - |tail| % batchSize] == order[..|order| - |order| % batchSize];
    } else {
      assert order[..batchSize] + tail == order;
    }
  }

  /**
   * `BatchSampler(order, batch_size, drop_last)`: consecutive groups of
   * `batchSize`; a short final group is kept unless `dropLast`. The count is
   * the `len` formula, every batch but the last is full, the last holds 1 to
   * `batchSize` indices (and is full under `dropLast`), and the batches
   * concatenate back to the order, without its short tail under `dropLast`.
   */
  function Chunk(order: seq<int>, batchSize: int, dropLast: bool): (batches: seq<Batch>)
    requires batchSize > 0
    ensures |batches| == BatchCount(|order|, batchSize, dropLast)
    ensures forall b :: 0 <= b < |batches| ==> 0 < |batches[b]| <= batchSize
    ensures forall b :: 0 <= b < |batches| - 1 ==> |batches[b]| == batchSize
    ensures dropLast ==> forall b :: 0 <= b < |batches| ==> |batches[b]| == batchSize
    ensures Flatten(batches) == if dropLast then order[..|order| - |order| % batchSize] else order
    decreases |order|
  {
    if |order| >= batchSize then
      var rest := Chunk(order[batchSize..], batchSize, dropLast);
      ChunkCons(order, batchSize, dropLast, rest);
      [order[..batchSize]] + rest
    else
      BatchCountTail(|order|, batchSize, dropLast);
      if |order| > 0 && !dropLast then
        assert Flatten([order]) == order + Flatten([]);
        [order]
      else
        []
  }

  /** Every index of every batch comes from the order that was batched. */
  lemma ChunkMember(order: seq<int>, batchSize: int, dropLast: bool, b: nat, x: int)
    requires batchSize > 0
    requires b < |Chunk(order, batchSize, dropLast)| && x in Chunk(order, batchSize, dropLast)[b]
    ensures x in order
  {
    var batches := Chunk(order, batchSize, dropLast);
    FlattenMember(batches, b, x);
    if dropLast {
      assert x in order[..|order| - |order| % batchSize];
    }
  }

  /** The order a dataset's indices are batched in: its range ascending, or permuted when `shuffle`. */
  function DatasetOrder(r: (int, int), shuffle: bool, seed: int, stream: nat, rng: Shuffler): seq<int>
  {
    if shuffle then rng(seed, stream, Interval(r.0, r.1)) else Interval(r.0, r.1)
  }

  /** One `BatchSampler` per range, built in dataset order from one seeded generator. */
  function BatchLists(ranges: seq<(int, int)>, batchSize: int, dropLast: bool, shuffle: bool, seed: int, rng: Shuffler)
    : (lists: seq<seq<Batch>>)
    requires batchSize > 0
    ensures |lists| == |ranges|
  {
    seq(|ranges|, i requires 0 <= i < |ranges| => Chunk(DatasetOrder(ranges[i], shuffle, seed, i, rng), batchSize, dropLast))
  }

  /**
   * Each dataset's batch list has exactly as many batches as `len` of its
   * `BatchSampler` says, every index in it lies in that dataset's range, and
   * without `drop_last` its batches hold every index of the range exactly once.
   */
  lemma BatchListsShape(ranges: seq<(int, int)>, batchSize: int, dropLast: bool, shuffle: bool, seed: int, rng: Shuffler)
    requires batchSize > 0
    requires IsShuffler(rng)
    ensures var lists := BatchLists(ranges, batchSize, dropLast, shuffle, seed, rng);
      && (forall i :: 0 <= i < |ranges| ==> |lists[i]| == Counts(ranges, batchSize, dropLast)[i])
      && (forall i, b, x :: 0 <= i < |ranges| && 0 <= b < |lists[i]| && x in lists[i][b] ==> Within(ranges[i], x))
      && (!dropLast ==> forall i :: 0 <= i < |ranges| ==>
            multiset(Flatten(lists[i])) == multiset(Interval(ranges[i].0, ranges[i].1)))
  {
    var lists := BatchLists(ranges, batchSize, dropLast, shuffle, seed, rng);
    forall i | 0 <= i < |ranges|
      ensures |lists[i]| == Counts(ranges, batchSize, dropLast)[i]
      ensures forall b, x :: 0 <= b < |lists[i]| && x in lists[i][b] ==> Within(ranges[i], x)
      ensures !dropLast ==> multiset(Flatten(lists[i])) == multiset(Interval(ranges[i].0, ranges[i].1))
    {
      var span := Interval(ranges[i].0, ranges[i].1);
      var order := DatasetOrder(ranges[i], shuffle, seed, i, rng);
      assert multiset(order) == multiset(span);
      assert |order| == |multiset(order)| == |span| == Size(ranges[i]);
      forall b, x | 0 <= b < |lists[i]| && x in lists[i][b]
        ensures Within(ranges[i], x)
      {
        ChunkMember(order, batchSize, dropLast, b, x);
        assert x in multiset(span);
      }
    }
  }
}

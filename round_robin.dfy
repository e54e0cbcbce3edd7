/**
 * `RoundRobinBatchSampler`: one batch from each dataset in turn, 0, 1, ...,
 * n - 1, 0, 1, ..., until the first dataset whose batches have run out; the
 * whole pass ends there.
 */
module RoundRobin {
  import opened Partition
  import opened Batching

  /** Python's `min` of a non-empty list: a lower bound of every entry that some entry attains. */
  function MinCount(c: seq<int>): (m: int)
    requires |c| > 0
    ensures forall i :: 0 <= i < |c| ==> m <= c[i]
    ensures exists i :: 0 <= i < |c| && c[i] == m
  {
    if |c| == 1 then
      c[0]
    else
      var rest := MinCount(c[1..]);
      assert forall i :: 1 <= i < |c| ==> c[1..][i - 1] == c[i];
      if c[0] <= rest then c[0] else rest
  }

  /** The first position holding `v`. */
  function FirstIndexOf(c: seq<int>, v: int): (k: nat)
    requires v in c
    ensures k < |c| && c[k] == v
    ensures forall i :: 0 <= i < k ==> c[i] != v
  {
    if c[0] == v then 0 else 1 + FirstIndexOf(c[1..], v)
  }

  /** The first dataset whose batch count is the smallest. */
  function FirstMinIndex(c: seq<int>): (k: nat)
    requires |c| > 0
    ensures k < |c|
  {
    FirstIndexOf(c, MinCount(c))
  }

  /** The number of batches each dataset's iterator holds. */
  function PullCounts(lists: seq<seq<Batch>>): (c: seq<int>)
    ensures |c| == |lists|
    ensures forall i :: 0 <= i < |c| ==> c[i] == |lists[i]|
  {
    seq(|lists|, i requires 0 <= i < |lists| => |lists[i]|)
  }

  /** Pulls made before the first exhausted iterator: `m` full cycles, then `k` more, where `k` is the first dataset holding only `m`. */
  function PassLength(c: seq<int>): nat
    requires forall i :: 0 <= i < |c| ==> 0 <= c[i]
  {
    if |c| == 0 then 0 else MinCount(c) * |c| + FirstMinIndex(c)
  }

  /** The dataset that `cycle(range(n))` yields at pull `j` (it is `j % n`, see CycleIsDivMod). */
  function Turn(j: nat, n: nat): (t: nat)
    requires 0 < n
    ensures t < n
    decreases j
  {
    if j < n then j else Turn(j - n, n)
  }

  /** How many full cycles come before pull `j` (it is `j / n`, see CycleIsDivMod). */
  function Round(j: nat, n: nat): nat
    requires 0 < n
    decreases j
  {
    if j < n then 0 else Round(j - n, n) + 1
  }

  lemma {:induction false} CycleSplit(j: nat, n: nat)
    requires 0 < n
    ensures j == Round(j, n) * n + Turn(j, n)
    decreases j
  {
    if j >= n {
      CycleSplit(j - n, n);
    }
  }

  /** Pull `q * n + r` is visit number `q` of dataset `r`. */
  lemma {:induction false} CycleAt(q: nat, n: nat, r: nat)
    requires r < n
    ensures Round(q * n + r, n) == q && Turn(q * n + r, n) == r
  {
    if q > 0 {
      assert q * n + r - n == (q - 1) * n + r;
      CycleAt(q - 1, n, r);
    }
  }

  /** The cycle position of pull `j` is Euclidean division of `j` by the number of datasets. */
  lemma CycleIsDivMod(j: nat, n: nat)
    requires 0 < n
    ensures Turn(j, n) == j % n && Round(j, n) == j / n
  {
    CycleSplit(j, n);
    DivModUnique(j, n, Round(j, n), Turn(j, n));
  }

  lemma MulBelow(k: int, d: int)
    requires 0 < d && k * d < d
    ensures k < 1
  {
  }

  /** A pull numbered below `m * n + k` is in a round before `m`, or in round `m` before dataset `k`. */
  lemma BeforeStop(j: int, n: int, q: int, r: int, m: int, k: int)
    requires 0 <= r < n && 0 <= k < n
    requires j == q * n + r && j < m * n + k
    ensures q < m || (q == m && r < k)
  {
    assert (q - m) * n < k - r;
    MulBelow(q - m, n);
  }

  /** Every pull before the first exhaustion finds a batch: pull `j` wants batch `Round(j, n)` of dataset `Turn(j, n)`, and it exists. */
  lemma CycleSlotAvailable(c: seq<int>, j: nat)
    requires |c| > 0 && forall i :: 0 <= i < |c| ==> 0 <= c[i]
    requires j < PassLength(c)
    ensures Round(j, |c|) < c[Turn(j, |c|)]
  {
    var n, m, k := |c|, MinCount(c), FirstMinIndex(c);
    CycleSplit(j, n);
    BeforeStop(j, n, Round(j, n), Turn(j, n), m, k);
  }

  /**
   * The pass in closed form: pull `j` yields batch `Round(j, n)` of dataset
   * `Turn(j, n)`, for exactly as many pulls as come before the first exhausted
   * iterator.
   */
  function RoundRobinMerge(lists: seq<seq<Batch>>): (out: seq<Tagged>)
  {
    var n := |lists|;
    var c := PullCounts(lists);
    seq(PassLength(c), j requires 0 <= j < PassLength(c) =>
      CycleSlotAvailable(c, j);
      Tagged(lists[Turn(j, n)][Round(j, n)], Turn(j, n)))
  }

  /** A value that is a lower bound attained first at `k` is the minimum, and `k` the first index attaining it. */
  lemma MinCharacterized(c: seq<int>, v: int, k: nat)
    requires k < |c| && c[k] == v
    requires forall i :: 0 <= i < |c| ==> v <= c[i]
    requires forall i :: 0 <= i < k ==> v < c[i]
    ensures MinCount(c) == v && FirstMinIndex(c) == k
  {
  }

  /**
   * The cyclic order and the stopping rule: pull `j` goes to dataset
   * `Turn(j, n)` (`j % n`) and receives that dataset's batch number
   * `Round(j, n)` (`j / n`), every such pull finds a batch, and the pull right
   * after the last one goes to a dataset whose batches are all used up, so
   * nothing is yielded after the first exhaustion.
   */
  lemma RoundRobinStopsAtFirstExhaustion(lists: seq<seq<Batch>>)
    requires |lists| > 0
    ensures var out, n := RoundRobinMerge(lists), |lists|;
      && (forall j: nat :: j < |out| ==>
            out[j].source == Turn(j, n) && Round(j, n) < |lists[Turn(j, n)]| && out[j].batch == lists[Turn(j, n)][Round(j, n)])
      && Round(|out|, n) == |lists[Turn(|out|, n)]|
  {
    MergePulls(lists);
    MergeExhausted(lists);
  }

  lemma MergePulls(lists: seq<seq<Batch>>)
    requires |lists| > 0
    ensures var out, n := RoundRobinMerge(lists), |lists|;
      forall j: nat :: j < |out| ==>
        out[j].source == Turn(j, n) && Round(j, n) < |lists[Turn(j, n)]| && out[j].batch == lists[Turn(j, n)][Round(j, n)]
  {
    var out, n, c := RoundRobinMerge(lists), |lists|, PullCounts(lists);
    forall j: nat | j < |out|
      ensures out[j].source == Turn(j, n) && Round(j, n) < |lists[Turn(j, n)]| && out[j].batch == lists[Turn(j, n)][Round(j, n)]
    {
      CycleSlotAvailable(c, j);
    }
  }

  lemma MergeExhausted(lists: seq<seq<Batch>>)
    requires |lists| > 0
    ensures var out, n := RoundRobinMerge(lists), |lists|;
      Round(|out|, n) == |lists[Turn(|out|, n)]|
  {
    var n, c := |lists|, PullCounts(lists);
    var m, k := MinCount(c), FirstMinIndex(c);
    CycleAt(m, n, k);
  }

  /** A sequence that agrees with the closed form at every pull, and is as long, is the closed form. */
  lemma MergeFromPulls(lists: seq<seq<Batch>>, out: seq<Tagged>)
    requires |lists| > 0
    requires |out| == PassLength(PullCounts(lists))
    requires forall j: nat :: j < |out| ==>
      Round(j, |lists|) < |lists[Turn(j, |lists|)]| && out[j] == Tagged(lists[Turn(j, |lists|)][Round(j, |lists|)], Turn(j, |lists|))
    ensures out == RoundRobinMerge(lists)
  {
  }

  /** What the pass yields so far is the closed form's prefix. */
  ghost predicate PullsSoFar(lists: seq<seq<Batch>>, out: seq<Tagged>)
    requires |lists| > 0
  {
    forall j: nat :: j < |out| ==>
      Round(j, |lists|) < |lists[Turn(j, |lists|)]| && out[j] == Tagged(lists[Turn(j, |lists|)][Round(j, |lists|)], Turn(j, |lists|))
  }

  /** One more successful pull keeps the yielded batches a prefix of the closed form. */
  lemma PullsExtend(lists: seq<seq<Batch>>, out: seq<Tagged>)
    requires |lists| > 0 && PullsSoFar(lists, out)
    requires Round(|out|, |lists|) < |lists[Turn(|out|, |lists|)]|
    ensures var t, q := Turn(|out|, |lists|), Round(|out|, |lists|);
      PullsSoFar(lists, out + [Tagged(lists[t][q], t)])
  {
    var t, q := Turn(|out|, |lists|), Round(|out|, |lists|);
    var next := out + [Tagged(lists[t][q], t)];
    forall j: nat | j < |next|
      ensures Round(j, |lists|) < |lists[Turn(j, |lists|)]|
      ensures next[j] == Tagged(lists[Turn(j, |lists|)][Round(j, |lists|)], Turn(j, |lists|))
    {
      if j < |out| {
        assert next[j] == out[j];
      }
    }
  }

  /**
   * When the cyclic loop stops, the cursor it is looking at has reached the end
   * of its list while every earlier dataset in this round is one batch ahead:
   * what was yielded is then exactly the closed form.
   */
  lemma CycleLoopDone(lists: seq<seq<Batch>>, out: seq<Tagged>, cursor: seq<nat>, round: nat, idx: nat)
    requires 0 <= idx < |lists| == |cursor|
    requires Round(|out|, |lists|) == round && Turn(|out|, |lists|) == idx
    requires forall i :: 0 <= i < |lists| ==> cursor[i] == if i < idx then round + 1 else round
    requires forall i :: 0 <= i < |lists| ==> cursor[i] <= |lists[i]|
    requires cursor[idx] == |lists[idx]|
    requires PullsSoFar(lists, out)
    ensures out == RoundRobinMerge(lists)
  {
    var c := PullCounts(lists);
    MinCharacterized(c, round, idx);
    PassEndsAt(c, |out|);
    MergeFromPulls(lists, out);
  }

  /** The pull after `MinCount` full cycles and `FirstMinIndex` more is pull number `PassLength`. */
  lemma PassEndsAt(c: seq<int>, j: nat)
    requires |c| > 0 && forall i :: 0 <= i < |c| ==> 0 <= c[i]
    requires Round(j, |c|) == MinCount(c) && Turn(j, |c|) == FirstMinIndex(c)
    ensures j == PassLength(c)
  {
    CycleSplit(j, |c|);
  }

  /** One pull further along the cycle: the next dataset, wrapping to 0 and a new round after the last. */
  lemma {:induction false} CycleNext(j: nat, n: nat)
    requires 0 < n
    ensures Turn(j + 1, n) == if Turn(j, n) + 1 < n then Turn(j, n) + 1 else 0
    ensures Round(j + 1, n) == if Turn(j, n) + 1 < n then Round(j, n) else Round(j, n) + 1
    decreases j
  {
    if j >= n {
      CycleNext(j - n, n);
    }
  }

  /**
   * The loop of `__iter__` over the per-dataset batch lists: a cursor per
   * dataset, the datasets visited in the order 0, 1, ..., n - 1, 0, 1, ...,
   * and the first visit to a dataset whose cursor is at the end of its list
   * ends the pass. What it yields is the closed form.
   */
  method CycleUntilExhausted(lists: seq<seq<Batch>>) returns (out: seq<Tagged>)
    ensures out == RoundRobinMerge(lists)
  {
    var n := |lists|;
    out := [];
    if n == 0 {
      // cycling over no datasets yields nothing
      return;
    }
    var cursor := new nat[n](_ => 0);
    var idx, round := 0, 0;
    while cursor[idx] < |lists[idx]|
      invariant 0 <= idx < n == cursor.Length
      invariant Round(|out|, n) == round && Turn(|out|, n) == idx
      invariant forall i :: 0 <= i < n ==> cursor[i] == if i < idx then round + 1 else round
      invariant forall i :: 0 <= i < n ==> cursor[i] <= |lists[i]|
      invariant PullsSoFar(lists, out)
      decreases |lists[0]| - round, n - idx
    {
      CycleNext(|out|, n);
      PullsExtend(lists, out);
      out := out + [Tagged(lists[idx][cursor[idx]], idx)];
      cursor[idx] := cursor[idx] + 1;
      if idx + 1 < n {
        idx := idx + 1;
      } else {
        idx, round := 0, round + 1;
      }
    }
    CycleLoopDone(lists, out, cursor[..], round, idx);
  }

  /** One round-robin pass for the generator seeded with `seed`. */
  function RoundRobinPass(ranges: seq<(int, int)>, batchSize: int, dropLast: bool, shuffle: bool, seed: int, rng: Shuffler)
    : seq<Tagged>
    requires 0 < batchSize
  {
    RoundRobinMerge(BatchLists(ranges, batchSize, dropLast, shuffle, seed, rng))
  }

  /** The batch lists built from the ranges hold as many batches as the size formula gives for every dataset. */
  lemma PullCountsAreLengthCounts(lengths: seq<int>, batchSize: int, dropLast: bool, shuffle: bool, seed: int, rng: Shuffler)
    requires 0 < batchSize && NonNegative(lengths) && IsShuffler(rng)
    ensures PullCounts(BatchLists(Ranges(lengths), batchSize, dropLast, shuffle, seed, rng)) == LengthCounts(lengths, batchSize, dropLast)
    ensures forall i :: 0 <= i < |lengths| ==> 0 <= LengthCounts(lengths, batchSize, dropLast)[i]
  {
    var ranges := Ranges(lengths);
    var lists := BatchLists(ranges, batchSize, dropLast, shuffle, seed, rng);
    BatchListsShape(ranges, batchSize, dropLast, shuffle, seed, rng);
    CountsOfRanges(lengths, batchSize, dropLast);
  }

  /**
   * Every batch of a pass holds only indices from the range of the dataset it
   * is tagged with, hence only indices in `[0, Sum(lengths))`.
   */
  lemma RoundRobinBatchesInRange(lengths: seq<int>, batchSize: int, dropLast: bool, shuffle: bool, seed: int, rng: Shuffler)
    requires 0 < batchSize && NonNegative(lengths) && IsShuffler(rng)
    ensures var out := RoundRobinMerge(BatchLists(Ranges(lengths), batchSize, dropLast, shuffle, seed, rng));
      forall j, x :: 0 <= j < |out| && x in out[j].batch ==>
        out[j].source < |lengths| && Within(Ranges(lengths)[out[j].source], x) && 0 <= x < Sum(lengths)
  {
    var ranges := Ranges(lengths);
    var lists := BatchLists(ranges, batchSize, dropLast, shuffle, seed, rng);
    var out := RoundRobinMerge(lists);
    BatchListsShape(ranges, batchSize, dropLast, shuffle, seed, rng);
    RangesPartition(lengths);
    if |lists| > 0 {
      RoundRobinStopsAtFirstExhaustion(lists);
    }
    forall j, x | 0 <= j < |out| && x in out[j].batch
      ensures out[j].source < |lengths| && Within(ranges[out[j].source], x) && 0 <= x < Sum(lengths)
    {
      var i := out[j].source;
      assert x in lists[i][Round(j, |lists|)];
      assert Covered(ranges, x);
    }
  }

  class RoundRobinBatchSampler {
    const lengths: seq<int>
    const ranges: seq<(int, int)>
    const seed: int
    const shuffle: bool
    const dropLast: bool
    const batchSize: int
    var epoch: int

    ghost predicate Valid()
    {
      0 < batchSize && NonNegative(lengths) && ranges == Ranges(lengths)
    }

    /** Stores the configuration and partitions the global index space; the epoch starts at 0. */
    constructor (lengths: seq<int>, batchSize: int, dropLast: bool := false, seed: int := 0, shuffle: bool := true)
      requires NonNegative(lengths) && 0 < batchSize
      ensures Valid()
      ensures this.lengths == lengths && this.batchSize == batchSize && this.dropLast == dropLast
      ensures this.seed == seed && this.shuffle == shuffle && epoch == 0
    {
      this.lengths := lengths;
      ranges := Ranges(lengths);
      this.seed := seed;
      this.shuffle := shuffle;
      this.dropLast := dropLast;
      this.batchSize := batchSize;
      epoch := 0;
    }

    /** Only the epoch changes; the configuration fields are constants. */
    method SetEpoch(epoch: int)
      modifies this`epoch
      ensures this.epoch == epoch
    {
      this.epoch := epoch;
    }

    /**
     * One pass. The batch lists are built from the generator seeded with
     * `seed + epoch`; then the datasets are visited cyclically and the pass
     * stops at the first one whose cursor has reached the end of its list.
     */
    method Iter(rng: Shuffler) returns (out: seq<Tagged>)
      requires Valid()
      ensures out == RoundRobinPass(ranges, batchSize, dropLast, shuffle, EpochSeed(seed, epoch), rng)
    {
      var g := EpochSeed(seed, epoch);
      var lists := BatchLists(ranges, batchSize, dropLast, shuffle, g, rng);
      out := CycleUntilExhausted(lists);
    }

    /**
     * `__len__`: the smallest per-dataset batch count times the number of
     * datasets, i.e. a multiple of `n` whose quotient is a batch count no
     * larger than any other.
     */
    function Len(): (r: int)
      requires Valid() && |lengths| > 0
      ensures r % |lengths| == 0
      ensures forall i :: 0 <= i < |lengths| ==> r / |lengths| <= LengthCounts(lengths, batchSize, dropLast)[i]
      ensures exists i :: 0 <= i < |lengths| && r / |lengths| == LengthCounts(lengths, batchSize, dropLast)[i]
    {
      var m := MinCount(LengthCounts(lengths, batchSize, dropLast));
      DivModUnique(m * |lengths|, |lengths|, m, 0);
      m * |lengths|
    }

    /** The number of batches one pass actually yields: every pull before the first exhaustion. */
    function ExactLen(): (r: nat)
      requires Valid()
    {
      var c := LengthCounts(lengths, batchSize, dropLast);
      assert forall i :: 0 <= i < |c| ==> 0 <= c[i];
      PassLength(c)
    }
  }

  /**
   * The declared length undercounts the pass by the index of the first
   * dataset with the fewest batches: the two agree exactly when dataset 0 is
   * among the shortest.
   */
  lemma RoundRobinLenVsPass(s: RoundRobinBatchSampler, seed: int, rng: Shuffler)
    requires s.Valid() && |s.lengths| > 0 && IsShuffler(rng)
    ensures var c := LengthCounts(s.lengths, s.batchSize, s.dropLast);
      var out := RoundRobinMerge(BatchLists(s.ranges, s.batchSize, s.dropLast, s.shuffle, seed, rng));
      && |out| == s.Len() + FirstMinIndex(c)
      && (|out| == s.Len() <==> FirstMinIndex(c) == 0)
  {
    PullCountsAreLengthCounts(s.lengths, s.batchSize, s.dropLast, s.shuffle, seed, rng);
  }

  /** The corrected length is the number of batches of every pass, whatever the seed and epoch. */
  lemma ExactLenMatchesPass(s: RoundRobinBatchSampler, seed: int, rng: Shuffler)
    requires s.Valid() && IsShuffler(rng)
    ensures s.ExactLen() == |RoundRobinMerge(BatchLists(s.ranges, s.batchSize, s.dropLast, s.shuffle, seed, rng))|
  {
    PullCountsAreLengthCounts(s.lengths, s.batchSize, s.dropLast, s.shuffle, seed, rng);
  }

  /** Sizes 6 and 4 with batch size 2 and no drop: the pass yields 5 batches while `__len__` says 4. */
  lemma RoundRobinLenMismatch(s: RoundRobinBatchSampler, seed: int, rng: Shuffler)
    requires s.Valid() && s.lengths == [6, 4] && s.batchSize == 2 && !s.dropLast && IsShuffler(rng)
    ensures s.Len() == 4
    ensures |RoundRobinMerge(BatchLists(s.ranges, s.batchSize, s.dropLast, s.shuffle, seed, rng))| == 5
  {
    var c := LengthCounts(s.lengths, 2, false);
    assert c == [3, 2];
    MinCharacterized(c, 2, 1);
    RoundRobinLenVsPass(s, seed, rng);
  }
}

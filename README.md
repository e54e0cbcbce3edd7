# Multi-dataset batch samplers, modelled in Dafny

This project models the two batch samplers of `sentence_transformers/sampler.py`.
Both schedule batches of global sample indices drawn from several datasets that
were concatenated into one index space.

- **Range partition** (module `Partition`). The dataset sizes become running
  totals (`itertools.accumulate`). Dataset `i` gets the half-open range from the
  previous total to its own.
- **Per-dataset batching** (module `Batching`). Each range, ascending or
  permuted by the seeded generator, is cut into `batch_size` chunks the way
  torch's `BatchSampler` does. `drop_last` decides whether a short tail is kept.
- **`RoundRobinBatchSampler`** (module `RoundRobin`). It pulls one batch from
  dataset 0, 1, …, n-1, 0, 1, … and ends the pass at the first dataset whose
  iterator is exhausted.
- **`ProportionalBatchSampler`** (module `Proportional`). It builds a draw list
  naming dataset `i` once per batch of dataset `i`, permutes it, and pulls one
  batch per entry, so every dataset is drained.

A pass is modelled as the finite sequence of `Tagged(batch, source)` pairs the
generator yields. `source` is the dataset index. Each `__iter__` is a method
with the source's loop over per-dataset cursors. It is proved equal to a
closed-form function of the configuration and of `seed + epoch`.

The torch generator is a parameter `rng: Shuffler`. `rng(seed, stream, xs)` is
the order a `SubsetRandomSampler` over `xs` yields. The only thing assumed about
it, as the precondition `IsShuffler(rng)`, is that every draw is a permutation
of its input. Stream `i` is the draw for dataset `i`; stream `n` is the
proportional draw list.

The source validates neither the sizes nor the batch size. The constructors
require non-negative sizes and a positive batch size (see Left out).
`RoundRobinBatchSampler.Len` also requires at least one dataset, because
`min([])` raises in the source.

## Model

| member | source | states |
|---|---|---|
| Partition.RangeAt | sentence_transformers/sampler.py:25-26 | Range `i` is `(sum of the first i sizes, sum of the first i+1 sizes)` |
| Partition.RangesContiguous | sentence_transformers/sampler.py:25-26 | The first range starts at 0 and the last ends at the total size; each range is exactly its dataset's size wide; each ends where the next begins |
| Partition.RangesPartition | sentence_transformers/sampler.py:85-86 | With non-negative sizes, earlier ranges end no later than later ones start (disjoint), and an index lies in some range iff it is in `[0, sum(lengths))` |
| Batching.Chunk | sentence_transformers/sampler.py:43-47 | `BatchSampler` batching: the batch count is `L // bs` with `drop_last` and `ceil(L / bs)` without; every batch but the last is full; the last holds 1..bs indices and is full under `drop_last`; the batches concatenate back to the order, minus its short tail under `drop_last` |
| Batching.BatchListsShape | sentence_transformers/sampler.py:41-50 | For any permuting generator, each dataset's batch list has as many batches as `len` of its `BatchSampler` says, holds only indices of its own range, and without `drop_last` holds every index of the range exactly once |
| Batching.CountsOfRanges | sentence_transformers/sampler.py:66-69 | The per-dataset `len` formulas over the sizes equal the batch counts of the ranges built from them, and are non-negative |
| RoundRobin.CycleUntilExhausted | sentence_transformers/sampler.py:52-60 | The cyclic loop with one cursor per dataset yields exactly the closed-form pass `RoundRobinMerge` |
| RoundRobin.RoundRobinStopsAtFirstExhaustion | sentence_transformers/sampler.py:52-60 | Pull `j` goes to dataset `Turn(j, n)` and yields its batch number `Round(j, n)`, and that batch exists; the pull right after the last one finds its dataset exhausted, so nothing follows the first exhaustion |
| RoundRobin.CycleIsDivMod | sentence_transformers/sampler.py:52 | The dataset of pull `j` is `j % n` and its round is `j / n`: the order is 0, 1, …, n-1, 0, 1, … |
| RoundRobin.PullCountsAreLengthCounts | sentence_transformers/sampler.py:41-50 | The round-robin iterators hold exactly the batch counts the `__len__` formula computes per dataset |
| RoundRobin.RoundRobinBatchesInRange | sentence_transformers/sampler.py:41-60 | Every index in a yielded batch lies in the range of the dataset the batch is tagged with, hence in `[0, sum(lengths))` |
| RoundRobin.RoundRobinBatchSampler.constructor | sentence_transformers/sampler.py:15-34 | Stores the configuration, builds the ranges from the sizes, and starts at epoch 0 |
| RoundRobin.RoundRobinBatchSampler.SetEpoch | sentence_transformers/sampler.py:62-63 | Changes only `epoch`; every other field is a constant |
| RoundRobin.RoundRobinBatchSampler.Iter | sentence_transformers/sampler.py:36-60 | Building one batch list per range from the generator seeded with `seed + epoch` and running the cyclic loop yields exactly the closed-form pass; a pass is the round-robin merge of the batch lists drawn with seed `seed + epoch`, so it depends only on the configuration and `seed + epoch` |
| RoundRobin.RoundRobinBatchSampler.Len | sentence_transformers/sampler.py:65-71 | `__len__` as written: a multiple of `n` whose quotient is one of the per-dataset batch counts and no larger than any of them |
| RoundRobin.RoundRobinLenVsPass | sentence_transformers/sampler.py:52-71 | A pass yields `__len__ + k` batches, where `k` is the first dataset with the fewest batches; the two agree iff `k = 0` |
| RoundRobin.RoundRobinLenMismatch | sentence_transformers/sampler.py:65-71 | Sizes `[6, 4]`, batch size 2, no `drop_last`: `__len__` is 4 but every pass yields 5 batches |
| RoundRobin.ExactLenMatchesPass | sentence_transformers/sampler.py:52-60 | The corrected length `m*n + k` equals the number of batches of every pass, for every seed and epoch |
| Proportional.DrawListCounts | sentence_transformers/sampler.py:110-111 | The draw list names dataset `i` exactly `c_i` times and names nothing else, so its length is `sum(c_i)` |
| Proportional.DrawAvailable | sentence_transformers/sampler.py:115-116 | Under a draw order that schedules the batch lists, the dataset named at each draw still has a batch, so `next` never meets an exhausted iterator |
| Proportional.DrawOrderSchedules | sentence_transformers/sampler.py:110-114 | For any permuting generator, the permuted draw list names only existing datasets and names each exactly as often as it has batches, and its length is the sum of the counts |
| Proportional.DrainInDrawOrder | sentence_transformers/sampler.py:114-116 | The loop over the draw order with one cursor per dataset yields exactly the closed-form pass `Interleave` |
| Proportional.InterleaveDrains | sentence_transformers/sampler.py:114-116 | Draining in any scheduling order yields the batches of dataset `i` exactly once each, in that dataset's own order, and tags no batch with a dataset that does not exist |
| Proportional.ProportionalBatchSampler.constructor | sentence_transformers/sampler.py:75-94 | Stores the configuration, builds the ranges from the sizes, and starts at epoch 0 |
| Proportional.ProportionalBatchSampler.SetEpoch | sentence_transformers/sampler.py:120-121 | Changes only `epoch` |
| Proportional.ProportionalBatchSampler.Iter | sentence_transformers/sampler.py:96-116 | Building the batch lists, permuting the draw list with the same seeded generator and draining in that order yields exactly the closed-form pass; a pass is the proportional pass for seed `seed + epoch`, so it depends only on the configuration and `seed + epoch` |
| Proportional.ProportionalLenMatchesPass | sentence_transformers/sampler.py:123-127 | Every pass yields exactly `__len__` batches, the sum of the per-dataset counts, for every seed and epoch |
| Proportional.ProportionalDrainsEveryDataset | sentence_transformers/sampler.py:101-116 | The batches tagged with dataset `i` are exactly dataset `i`'s batch list, in order; with `drop_last` these are all of its full batches |
| Proportional.ProportionalCoversEveryIndex | sentence_transformers/sampler.py:101-116 | Without `drop_last`, one pass yields every index of `[0, sum(lengths))` exactly once across all batches |
| Proportional.ProportionalBatchesInRange | sentence_transformers/sampler.py:101-116 | Every index in a yielded batch lies in the range of the dataset the batch is tagged with, hence in `[0, sum(lengths))` |

## Left out

- The torch generator (`torch.Generator`, `manual_seed`, `randperm` inside
  `SubsetRandomSampler`) is a foreign library. It is the parameter `rng`, known
  only to permute its input. Which permutation comes out, and the order in which
  lazy `next` calls consume the shared generator, are not modelled. Each draw
  is told apart by a stream number instead.
- The trainer notification (`sampler.py:55-56`, `117-118`) writes into an
  external trainer object after each `yield`. It is left out, apart from the
  dataset index that tags every yielded batch.
- Generator laziness and suspension: a pass is the whole finite sequence.
- Logging and the type-checking-only imports.
- Negative sizes and a non-positive batch size: `sampler.py` validates
  neither. A zero batch size makes `__len__` raise `ZeroDivisionError`, and
  torch's `BatchSampler` raises `ValueError` for `batch_size <= 0`. Negative
  sizes are accepted and give overlapping ranges. The model excludes both by
  precondition.
- The round-robin length: a declared length is expected to equal the number
  of batches a pass yields. The code yields `m*n + k` batches instead, where
  `k` is the first dataset with the fewest batches. The model follows the code
  (see Findings).

## Findings

| source | as written | input that shows it | evidently intended | confidence | as-written member | corrected member |
|---|---|---|---|---|---|---|
| sentence_transformers/sampler.py:65-71 | `__len__` returns `min(counts) * n` | sizes `[6, 4]`, batch size 2, no `drop_last`: counts `[3, 2]`, the pass yields 5 batches (0, 1, 0, 1, 0, then dataset 1 is exhausted) but `__len__` is 4 | `__len__` equals the number of batches a pass yields: `min(counts) * n + k`, `k` the first index with the minimal count | high; derived by proof, not executed | RoundRobin.RoundRobinLenMismatch | RoundRobin.ExactLenMatchesPass |

# Rod cutting and 3D-print queue batching, in Dafny

This project models two small optimisation routines and proves what they compute.

- **Rod cutting** (`rod_cutting.py`). A rod of length `length` is cut into pieces, and a piece of
  length `i` sells for `prices[i-1]`. Only lengths `1..len(prices)` can be sold. Two strategies
  return the maximum profit, the list of piece lengths (`cuts`) and `number_of_cuts`:
  - the memoised one: an inner recursive `dp(n)` over a dictionary `memo`;
  - the tabulated one: lists `dp` and `cuts`, filled by two nested loops.

  Both scan the first piece `i = 1..n` from the start value `(0, [])`. They keep a candidate only
  when it is strictly better, so on a tie the smaller first piece wins. They build the cut list as
  `cuts(n - i) + [i]`.
- **Print-queue optimisation** (`printer_queue.py`). `optimize_printing` first bubble-sorts the
  jobs by priority in place, swapping neighbours only on a strict `>`. It then repeatedly forms a
  batch by a first-fit scan of the remaining jobs, limited by `max_items` and `max_volume`. It
  removes the batch's jobs from the list with `list.remove`, appends their ids to `print_order`
  and adds the batch's longest `print_time` to `total_time`.

`rod_cutting.dfy` (module `RodCutting`):
- The recurrence is written once, as pure functions: `Opt`, `Scan` and `Candidate`.
- `Dp` is the recursive `dp`. It passes the dictionary in and out as a `map`.
- `RodCuttingTable` keeps `dp` and `cuts` as arrays and runs the source's nested loops.
- Both are proved equal to `Solve`.
- The lemmas cover the tie-break rule, optimality among all priced cut lists, the link between
  the profit and the cuts, and the source's test cases.

`printer_queue.dfy` (module `PrinterQueue`):
- `BubbleSort` works in place on an array. It is proved sorted and stable (each priority's jobs
  keep their input order). It is also proved equal to a reference insertion sort, and therefore
  a permutation of its input.
- `FormBatch`, `RemoveBatch` and `OptimizePrinting` are the batch loop. They are proved equal to
  the specification `Optimize`, built from `Picks` (the first-fit scan), `RemoveEach` (removal by
  value, as `list.remove` does) and `Batches`.
- The lemmas cover the following:
  - the capacity limits;
  - termination;
  - the permutation of ids;
  - the priority order of the batches;
  - the equivalence of removal by value and removal by position;
  - the source's demonstration inputs.

Where the code and the design of the repository differ, the model follows the code:
- The design says the cuts add up to the rod length. The code guarantees this when some price
  exists and all prices are positive (`PositivePricesUseWholeRod`). With prices of zero or below,
  part of the rod can stay unsold. For example, prices `[-1, 5]` and length 3 give profit 5 and
  cuts `[2]`. The model proves `Sum(cuts) <= length` in general.
- The design asks for an "unplaceable job" failure when some job cannot fit into an empty batch.
  The code has no such guard. With no negative volume, a job that does not fit into an empty
  batch never joins any batch, so the loop never ends (`UnfitJobStaysQueued`). The model makes "every job fits into an
  empty batch" (`Placeable`) a precondition of `OptimizePrinting` and invents no error.

## Model

| member | source | states |
|---|---|---|
| RodCutting.Opt | rod_cutting.py:13-30 | the best plan for length `n`: `(0, [])` at length 0, otherwise the scan of first pieces `1..n` from `(0, [])`; its profit is never negative |
| RodCutting.Scan | rod_cutting.py:19-27 | the `for i` loop from the best plan so far: a candidate replaces it only when strictly greater, and `i` beyond `len(prices)` is skipped; the result's profit is at least the starting profit |
| RodCutting.Candidate | rod_cutting.py:23-24 | the profit of a first piece `i`: the best profit for `n - i` plus `prices[i-1]`, which is at least `prices[i-1]` |
| RodCutting.Dp | rod_cutting.py:13-30 | returns the recurrence's plan (profit, cuts) for `n`; the dictionary it hands back holds only correct plans, keeps every old key and now holds `n` when `n > 0` |
| RodCutting.RodCuttingMemo | rod_cutting.py:4-38 | the memoised strategy returns `Solve(length, prices)` |
| RodCutting.RodCuttingTable | rod_cutting.py:41-63 | the tabulated strategy with its arrays and nested loops returns `Solve(length, prices)` |
| RodCutting.StrategiesAgree | rod_cutting.py:4-63 | both strategies return the same `max_profit`, `cuts` and `number_of_cuts` for every length and price list |
| RodCutting.ScanChoice | rod_cutting.py:21-27 | a scan over first pieces `i..n` ends with a plan at least as good as every candidate, strictly better than every smaller first piece, and built as `cuts(n - c) + [c]` |
| RodCutting.OptChoice | rod_cutting.py:19-29 | for `n > 0`: profit ≥ 0 and ≥ every candidate; cuts are empty exactly when no candidate is positive; otherwise the last cut `c` is the smallest first piece reaching the profit and cuts = `cuts(n - c) + [c]` |
| RodCutting.CutsAccountForProfit | rod_cutting.py:21-27 | every cut has a price and is at most `n`, the profit is the total price of the cuts, and the cuts use at most the whole rod |
| RodCutting.OptIsUpperBound | rod_cutting.py:19-30 | no list of priced pieces that fits in the rod sells for more than the profit, and the profit is never negative |
| RodCutting.OptIsMaximum | rod_cutting.py:19-30 | the profit is the maximum total price over all fitting priced piece lists, and the plan's own cuts reach it |
| RodCutting.ProfitMonotone | rod_cutting.py:19-27 | a longer rod never sells for less |
| RodCutting.ProfitGrowsByFirstPrice | rod_cutting.py:21-27 | one more unit of length adds at least `prices[0]`, and strictly more profit when `prices[0] > 0` |
| RodCutting.PositivePricesUseWholeRod | rod_cutting.py:21-27 | with a non-empty list of positive prices the cuts add up to exactly `n`, and a rod of positive length is cut into at least one piece |
| RodCutting.EmptyPricesSellNothing | rod_cutting.py:19-22 | with no prices every length gives profit 0 and no cuts |
| RodCutting.SolveShape | rod_cutting.py:32-38 | the result's profit is the total price of its cuts, `number_of_cuts` is one less than the number of pieces (0 with none), and length 0 gives `(0, [], 0)` |
| RodCutting.CutPointsBelowLength | rod_cutting.py:37 | with positive prices a rod of length `n > 0` has fewer than `n` cut points |
| RodCutting.ExampleBaseCase | rod_cutting.py:68-72 | length 5, prices `[2, 5, 7, 8, 10]` give profit 12, cuts `[2, 2, 1]`, 2 cut points |
| RodCutting.ExampleNoCut | rod_cutting.py:73-77 | length 3, prices `[1, 3, 8]` give profit 8, cuts `[3]`, 0 cut points |
| RodCutting.ExampleUniformCuts | rod_cutting.py:78-82 | length 4, prices `[3, 5, 6, 7]` give profit 12, cuts `[1, 1, 1, 1]`, 3 cut points |
| PrinterQueue.BubbleSort | printer_queue.py:29-33 | the array ends sorted by priority, each priority's jobs in their input order, a permutation of the input, and equal to the reference stable sort |
| PrinterQueue.BubbleStep | printer_queue.py:31-33 | one compare-and-swap moves the pass's largest priority to `j + 1` and leaves the sorted tail and its bound alone |
| PrinterQueue.BubbleStepTies | printer_queue.py:32-33 | the same step keeps every priority's jobs in input order |
| PrinterQueue.PassDone | printer_queue.py:30-31 | a finished pass extends the sorted tail by one position |
| PrinterQueue.SwapKeepsTies | printer_queue.py:32-33 | swapping neighbours of different priority leaves the jobs of every priority in the same order |
| PrinterQueue.SortByPriorityIsStableSort | printer_queue.py:29-33 | the reference insertion sort is sorted, keeps each priority's jobs in order, and is a permutation |
| PrinterQueue.SortedTiesUnique | printer_queue.py:29-33 | two sorted sequences with the same jobs of each priority in the same order are equal |
| PrinterQueue.StableSortIsReference | printer_queue.py:29-33 | any sorted sequence with the input's per-priority order equals the reference sort of the input and holds the same jobs |
| PrinterQueue.SortJobs | printer_queue.py:29-33 | sorting a copy of the jobs in an array yields the reference sort |
| PrinterQueue.Picks | printer_queue.py:42-45 | the first-fit scan over the remaining jobs: one join-or-skip decision per job, given the batch's count and volume so far |
| PrinterQueue.PicksDecideEachJob | printer_queue.py:42-45 | each job joins exactly when the batch formed from the jobs before it stays within both limits once the job is added; a skipped job would break a limit |
| PrinterQueue.PicksWithinLimits | printer_queue.py:42-45 | a batch never exceeds `max_items` jobs or `max_volume` |
| PrinterQueue.FirstJobJoins | printer_queue.py:42-45 | when every job fits into an empty batch, the first waiting job opens the next batch |
| PrinterQueue.FormBatch | printer_queue.py:39-45 | the scan loop returns the batch of the first-fit scan and its volume |
| PrinterQueue.RemoveBatch | printer_queue.py:47-48 | removing the batch job by job gives `RemoveEach(pool, batch)` |
| PrinterQueue.RemoveFirst | printer_queue.py:48 | `list.remove`: a present job takes exactly one entry out of the list; an absent one leaves the list as it was |
| PrinterQueue.RemoveFirstCount | printer_queue.py:48 | removing a present job takes exactly one copy of it out of the list |
| PrinterQueue.RemoveEachCount | printer_queue.py:47-48 | removing a batch whose jobs are present takes exactly the batch's jobs out |
| PrinterQueue.RestCount | printer_queue.py:42-48 | the batch is drawn from the pool, and what is left is the pool minus the batch |
| PrinterQueue.RoundShrinks | printer_queue.py:38-48 | with every job placeable each round shrinks the pool, and what is left is still placeable and drawn from the pool: the loop ends |
| PrinterQueue.UnfitJobStaysQueued | printer_queue.py:38-48 | with no negative volume, a job that does not fit into an empty batch is still in the list after a round, and the list keeps no negative volume, so the `while` loop never ends |
| PrinterQueue.RemovalByValueIsPositional | printer_queue.py:42-48 | with no negative volume, removal by value leaves exactly the jobs the scan skipped, in queue order |
| PrinterQueue.Batches | printer_queue.py:38-49 | the batches the `while` loop forms, one per round on the jobs that remain; there are none exactly when there are no jobs, and never more batches than jobs |
| PrinterQueue.Optimize | printer_queue.py:19-54 | the result of `optimize_printing`: the sorted jobs' batches, their ids in batch order as `print_order` and the sum of their longest print times as `total_time`; the print order is as long as the job list |
| PrinterQueue.BatchesStep | printer_queue.py:38-52 | one round adds the batch's ids to the order and its longest print time to the total, then goes on with the rest |
| PrinterQueue.OptimizePrinting | printer_queue.py:19-54 | sorting then the batch loop returns `Optimize(jobs, c)` |
| PrinterQueue.AllBatchesWithinLimits | printer_queue.py:38-48 | every batch holds between 1 and `max_items` jobs, and its volume is within `max_volume` |
| PrinterQueue.BatchesCoverPool | printer_queue.py:38-48 | the batches together hold every job of the pool exactly once |
| PrinterQueue.OrderIsIds | printer_queue.py:50-51 | the print order is the ids of the batches' jobs, batch after batch |
| PrinterQueue.IdsCount | printer_queue.py:51 | the same jobs have the same ids |
| PrinterQueue.PrintOrderIsPermutation | printer_queue.py:38-54 | `print_order` lists every input job's id exactly once |
| PrinterQueue.KeepSorted | printer_queue.py:42-45 | the jobs a scan takes, and the jobs it skips, stay in priority order |
| PrinterQueue.RemoveEachSorted | printer_queue.py:47-48 | removing jobs keeps the queue in priority order |
| PrinterQueue.RoundKeepsOrder | printer_queue.py:38-48 | on a sorted queue the batch is sorted and opens with the queue's first job, and what is left is sorted with no job ahead of that first job |
| PrinterQueue.BatchesSorted | printer_queue.py:38-48 | on a sorted queue every batch is non-empty and in priority order |
| PrinterQueue.BatchJobInPool | printer_queue.py:38-48 | a job of any batch is a job of the pool |
| PrinterQueue.BatchesOpenInOrder | printer_queue.py:38-48 | on a sorted queue the job that opens a batch has no larger priority number than any job of a later batch |
| PrinterQueue.MaxTimeIsLongest | printer_queue.py:52 | the batch time is at least every job's print time and equals one of them |
| PrinterQueue.EmptyQueue | printer_queue.py:35-38 | an empty job list gives an empty print order and total time 0 |
| PrinterQueue.ExampleSamePriority | printer_queue.py:58-62 | test 1 with `max_volume` 300 and `max_items` 2 prints `M1, M2, M3` in 270 |
| PrinterQueue.ExampleDifferentPriorities | printer_queue.py:64-68 | test 2 prints `M2, M1, M3` in 270 |
| PrinterQueue.ExampleExceedingConstraints | printer_queue.py:70-74 | test 3 prints `M1, M2, M3` in 450, one job per batch |

## Left out

- Console output is not modelled. This covers `run_tests`, `test_printing_optimization` and the
  `__main__` blocks. Their inputs appear only as the example lemmas.
- Building `PrintJob` and `PrinterConstraints` from dictionaries (`**job`, `**constraints`) is
  not modelled. The records are Dafny datatypes, and the rod result dictionary is `RodResult`.
- Volumes are `int`, not floating point. Rounding in `batch_volume + job.volume` is not captured.
- A negative rod length is not modelled; `length` is a `nat`.
- Memo cache hits are observable only as speed. `Dp` consults and fills the dictionary, but only
  its contents are specified.
- Nothing models the `ValueError` that `list.remove` raises when the job is absent.
  `RemoveFirst` leaves the list unchanged in that case. `RemoveBatch` only removes jobs that are
  present, so the case never arises.
- RodCutting.RodCuttingMemo: ignores Python's recursion limit. The inner `dp` first recurses on
  `dp(n - 1)`, so a call nests about `length + 1` frames deep. With a non-empty `prices` and
  `length` near CPython's default limit of 1000, the source raises `RecursionError`. The model
  returns `Solve` for every length.
- RodCutting.StrategiesAgree: for the same reason, the two strategies agree in the program only
  while `dp`'s recursion stays below the interpreter's limit. Beyond it `rod_cutting_memo` raises
  and `rod_cutting_table` still returns.
- PrinterQueue.OptimizePrinting: requires every job to fit into an empty batch
  (`max_items >= 1` and volume ≤ `max_volume`). With no negative volume, a job that does not
  fit into an empty batch never joins any batch, so the loop never ends. The condition is sufficient, not necessary: with negative volumes an oversized job can still join
  after a negative one. Runs that never end are not modelled.
- PrinterQueue.RemovalByValueIsPositional: holds only when no volume is negative. The pool
  `[b(5), x(8), a(9), y(-5), x]` with `max_volume` 10 and `max_items` 3 is a case where it fails. The scan skips the
  first `x` and takes the second, and `list.remove` then removes the first copy of `x`. The rest
  of the model uses removal by value, as the source does.
- The print order is not globally sorted by priority: first-fit can skip a job and let a later
  one into the batch. The model proves the order that does hold (`BatchesSorted`,
  `BatchesOpenInOrder`).

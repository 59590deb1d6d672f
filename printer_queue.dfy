/** The 3D-printer queue optimiser (printer_queue.py): jobs are bubble-sorted
    by priority, then repeatedly a batch is formed by a first-fit scan of the
    remaining jobs under the printer's item and volume limits, its jobs are
    removed from the queue, their ids are appended to the print order and the
    batch's longest print time is added to the total time. */
module PrinterQueue {

  datatype PrintJob = PrintJob(id: string, volume: int, priority: int, printTime: int)

  datatype PrinterConstraints = PrinterConstraints(maxVolume: int, maxItems: int)

  datatype PrintResult = PrintResult(printOrder: seq<string>, totalTime: int)

  // ---------------------------------------------------------------------------
  // Priority order and stability
  // ---------------------------------------------------------------------------

  /** Non-decreasing priority. */
  predicate Sorted(s: seq<PrintJob>)
  {
    forall k, l :: 0 <= k < l < |s| ==> s[k].priority <= s[l].priority
  }

  /** The jobs of priority p, in their order in s. */
  function WithPriority(s: seq<PrintJob>, p: int): seq<PrintJob>
  {
    if s == [] then []
    else (if s[0].priority == p then [s[0]] else []) + WithPriority(s[1..], p)
  }

  /** Jobs of equal priority appear in the same order in s and t (and, for
      each priority, the same jobs). */
  ghost predicate SameTies(s: seq<PrintJob>, t: seq<PrintJob>)
  {
    forall p :: WithPriority(s, p) == WithPriority(t, p)
  }

  lemma {:induction false} WithPriorityAppend(s: seq<PrintJob>, t: seq<PrintJob>, p: int)
    ensures WithPriority(s + t, p) == WithPriority(s, p) + WithPriority(t, p)
  {
    if s == [] {
      assert s + t == t;
    } else {
      var h := if s[0].priority == p then [s[0]] else [];
      assert (s + t)[0] == s[0];
      assert (s + t)[1..] == s[1..] + t;
      assert WithPriority(s + t, p) == h + WithPriority(s[1..] + t, p);
      WithPriorityAppend(s[1..], t, p);
      assert WithPriority(s, p) == h + WithPriority(s[1..], p);
    }
  }

  /** s with the neighbours at j and j + 1 exchanged. */
  function Swapped(s: seq<PrintJob>, j: nat): seq<PrintJob>
    requires j + 1 < |s|
  {
    s[j := s[j + 1]][j + 1 := s[j]]
  }

  /** The jobs of priority p around and at two neighbouring positions. */
  lemma WithPriorityAround(pre: seq<PrintJob>, x: PrintJob, y: PrintJob, post: seq<PrintJob>, p: int)
    ensures WithPriority(pre + [x] + [y] + post, p)
            == WithPriority(pre, p) + WithPriority([x], p) + WithPriority([y], p) + WithPriority(post, p)
  {
    WithPriorityAppend(pre + [x] + [y], post, p);
    WithPriorityAppend(pre + [x], [y], p);
    WithPriorityAppend(pre, [x], p);
  }

  /** Exchanging neighbours of different priority keeps every priority's
      jobs in order: the reason the swap on a strict `>` is stable. */
  lemma SwapKeepsTies(s: seq<PrintJob>, j: nat)
    requires j + 1 < |s| && s[j].priority != s[j + 1].priority
    ensures SameTies(Swapped(s, j), s)
  {
    var pre, post := s[..j], s[j + 2..];
    assert s == pre + [s[j]] + [s[j + 1]] + post;
    assert Swapped(s, j) == pre + [s[j + 1]] + [s[j]] + post;
    forall p ensures WithPriority(Swapped(s, j), p) == WithPriority(s, p) {
      WithPriorityAround(pre, s[j], s[j + 1], post, p);
      WithPriorityAround(pre, s[j + 1], s[j], post, p);
    }
  }

  /** The jobs from position lo on are in priority order. */
  predicate SortedFrom(s: seq<PrintJob>, lo: nat)
  {
    forall k, l :: lo <= k < l < |s| ==> s[k].priority <= s[l].priority
  }

  /** No job before position lo has a greater priority than a job from lo on. */
  predicate SplitAt(s: seq<PrintJob>, lo: nat)
  {
    forall k, l :: 0 <= k < lo <= l < |s| ==> s[k].priority <= s[l].priority
  }

  /** The job at j has the greatest priority among positions 0..j. */
  predicate MaxAt(s: seq<PrintJob>, j: nat)
  {
    forall k :: 0 <= k <= j < |s| ==> s[k].priority <= s[j].priority
  }

  /** One compare-and-swap of a pass carries the pass's largest priority
      along to position j + 1 and leaves the sorted tail alone. */
  lemma BubbleStep(s: seq<PrintJob>, j: nat, bound: nat)
    requires j + 1 < bound <= |s|
    requires MaxAt(s, j) && SortedFrom(s, bound) && SplitAt(s, bound)
    ensures var s' := if s[j].priority > s[j + 1].priority then Swapped(s, j) else s;
      MaxAt(s', j + 1) && SortedFrom(s', bound) && SplitAt(s', bound)
  {
  }

  /** The same step keeps every priority's jobs in their input order. */
  lemma BubbleStepTies(s: seq<PrintJob>, j: nat, orig: seq<PrintJob>)
    requires j + 1 < |s| && SameTies(s, orig)
    ensures var s' := if s[j].priority > s[j + 1].priority then Swapped(s, j) else s;
      SameTies(s', orig)
  {
    if s[j].priority > s[j + 1].priority {
      SwapKeepsTies(s, j);
      forall p ensures WithPriority(Swapped(s, j), p) == WithPriority(orig, p) {
        assert WithPriority(Swapped(s, j), p) == WithPriority(s, p);
      }
    }
  }

  /** A finished pass puts the largest priority of 0..bound-1 at bound - 1. */
  lemma PassDone(s: seq<PrintJob>, bound: nat)
    requires 0 < bound <= |s|
    requires MaxAt(s, bound - 1) && SortedFrom(s, bound) && SplitAt(s, bound)
    ensures SortedFrom(s, bound - 1) && SplitAt(s, bound - 1)
  {
  }

  /** The bubble sort of the source, in place: passes i = 0..n-2, each
      swapping neighbours j, j + 1 for j < n - i - 1 when the left one has the
      strictly greater priority. */
  method BubbleSort(a: array<PrintJob>)
    modifies a
    ensures Sorted(a[..])
    ensures SameTies(a[..], old(a[..]))
    ensures multiset(a[..]) == multiset(old(a[..]))
    ensures a[..] == SortByPriority(old(a[..]))
  {
    ghost var orig := a[..];
    var n := a.Length;
    var i := 0;
    while i < n - 1
      invariant 0 <= i <= n
      invariant SortedFrom(a[..], n - i) && SplitAt(a[..], n - i)
      invariant SameTies(a[..], orig)
    {
      var j := 0;
      while j < n - i - 1
        invariant 0 <= j <= n - i - 1
        invariant MaxAt(a[..], j) && SortedFrom(a[..], n - i) && SplitAt(a[..], n - i)
        invariant SameTies(a[..], orig)
      {
        ghost var before := a[..];
        BubbleStep(before, j, n - i);
        BubbleStepTies(before, j, orig);
        if a[j].priority > a[j + 1].priority {
          a[j], a[j + 1] := a[j + 1], a[j];
          assert a[..] == Swapped(before, j);
        }
        j := j + 1;
      }
      PassDone(a[..], n - i);
      i := i + 1;
    }
    assert SortedFrom(a[..], 0);
    StableSortIsReference(a[..], orig);
  }

  // ---------------------------------------------------------------------------
  // A reference stable sort, and why the sorted order is unique
  // ---------------------------------------------------------------------------

  /** Puts x after every job of t with priority at most x's. */
  function InsertByPriority(t: seq<PrintJob>, x: PrintJob): seq<PrintJob>
  {
    if t == [] then [x]
    else if x.priority < t[0].priority then [x] + t
    else [t[0]] + InsertByPriority(t[1..], x)
  }

  /** Insertion sort of the jobs in input order: a stable sort by priority. */
  function SortByPriority(s: seq<PrintJob>): seq<PrintJob>
  {
    if s == [] then []
    else InsertByPriority(SortByPriority(s[..|s| - 1]), s[|s| - 1])
  }

  lemma {:induction false} InsertCount(t: seq<PrintJob>, x: PrintJob)
    ensures multiset(InsertByPriority(t, x)) == multiset(t) + multiset{x}
  {
    if t != [] && x.priority >= t[0].priority {
      InsertCount(t[1..], x);
      SplitFirst(t);
    }
  }

  lemma {:induction false} SortCount(s: seq<PrintJob>)
    ensures multiset(SortByPriority(s)) == multiset(s)
  {
    if s != [] {
      SortCount(s[..|s| - 1]);
      InsertCount(SortByPriority(s[..|s| - 1]), s[|s| - 1]);
      SplitLast(s);
    }
  }

  lemma {:induction false} NoneBelowFirst(t: seq<PrintJob>, p: int)
    requires Sorted(t) && t != [] && p < t[0].priority
    ensures WithPriority(t, p) == []
  {
    if |t| > 1 {
      NoneBelowFirst(t[1..], p);
    }
  }

  lemma {:induction false} InsertKeepsSorted(t: seq<PrintJob>, x: PrintJob)
    requires Sorted(t)
    ensures Sorted(InsertByPriority(t, x))
  {
    if t != [] && x.priority >= t[0].priority {
      var r' := InsertByPriority(t[1..], x);
      InsertKeepsSorted(t[1..], x);
      InsertCount(t[1..], x);
      forall y | y in r' ensures t[0].priority <= y.priority {
        assert y in multiset(r');
        assert y == x || y in multiset(t[1..]);
      }
      ConsSorted(t[0], r');
    }
  }

  lemma SortedTail(t: seq<PrintJob>)
    requires Sorted(t) && t != []
    ensures Sorted(t[1..])
  {
    forall k, l | 0 <= k < l < |t[1..]| ensures t[1..][k].priority <= t[1..][l].priority {
      assert t[1..][k] == t[k + 1] && t[1..][l] == t[l + 1];
    }
  }

  /** Inserting in front of a sorted sequence of higher priority numbers. */
  lemma InsertInFrontKeepsTies(t: seq<PrintJob>, x: PrintJob, p: int)
    requires Sorted(t) && t != [] && x.priority < t[0].priority
    ensures WithPriority([x] + t, p) == WithPriority(t, p) + (if x.priority == p then [x] else [])
  {
    assert ([x] + t)[0] == x && ([x] + t)[1..] == t;
    if x.priority == p {
      NoneBelowFirst(t, p);
    }
  }

  lemma {:induction false} InsertKeepsTies(t: seq<PrintJob>, x: PrintJob, p: int)
    requires Sorted(t)
    ensures WithPriority(InsertByPriority(t, x), p)
            == WithPriority(t, p) + (if x.priority == p then [x] else [])
  {
    var extra := if x.priority == p then [x] else [];
    if t == [] {
      assert InsertByPriority(t, x) == [x] && [x][1..] == [];
      assert WithPriority([x], p) == extra + WithPriority([], p);
    } else if x.priority < t[0].priority {
      InsertInFrontKeepsTies(t, x, p);
    } else {
      var r' := InsertByPriority(t[1..], x);
      SortedTail(t);
      InsertKeepsTies(t[1..], x, p);
      var r := [t[0]] + r';
      var h := if t[0].priority == p then [t[0]] else [];
      assert InsertByPriority(t, x) == r;
      assert r[0] == t[0] && r[1..] == r';
      assert WithPriority(r, p) == h + WithPriority(r', p);
      assert WithPriority(t, p) == h + WithPriority(t[1..], p);
      AppendAssoc(h, WithPriority(t[1..], p), extra);
    }
  }

  lemma AppendAssoc(a: seq<PrintJob>, b: seq<PrintJob>, c: seq<PrintJob>)
    ensures a + (b + c) == (a + b) + c
  {
  }

  lemma SplitFirst(s: seq<PrintJob>)
    requires s != []
    ensures s == [s[0]] + s[1..]
  {
  }

  lemma SplitLast(s: seq<PrintJob>)
    requires s != []
    ensures s == s[..|s| - 1] + [s[|s| - 1]]
  {
  }

  lemma {:induction false} SortIsSorted(s: seq<PrintJob>)
    ensures Sorted(SortByPriority(s))
  {
    if s != [] {
      var front := s[..|s| - 1];
      SortIsSorted(front);
      InsertKeepsSorted(SortByPriority(front), s[|s| - 1]);
    }
  }

  lemma {:induction false} SortKeepsTies(s: seq<PrintJob>, p: int)
    ensures WithPriority(SortByPriority(s), p) == WithPriority(s, p)
  {
    if s != [] {
      var front, x := s[..|s| - 1], s[|s| - 1];
      SortKeepsTies(front, p);
      SortIsSorted(front);
      InsertKeepsTies(SortByPriority(front), x, p);
      SplitLast(s);
      WithPriorityAppend(front, [x], p);
    }
  }

  /** The reference sort is sorted, stable and a permutation. */
  lemma SortByPriorityIsStableSort(s: seq<PrintJob>)
    ensures Sorted(SortByPriority(s))
    ensures SameTies(SortByPriority(s), s)
    ensures multiset(SortByPriority(s)) == multiset(s)
  {
    SortIsSorted(s);
    SortCount(s);
    forall p ensures WithPriority(SortByPriority(s), p) == WithPriority(s, p) {
      SortKeepsTies(s, p);
    }
  }

  /** Dropping the first job drops it from its own priority's jobs only. */
  lemma WithPriorityTail(s: seq<PrintJob>, r: int)
    requires s != []
    ensures WithPriority(s[1..], r)
            == if s[0].priority == r then WithPriority(s, r)[1..] else WithPriority(s, r)
  {
  }

  /** In a sorted sequence the first job is the first of its priority, and
      no priority below it occurs. */
  lemma {:induction false} FirstOfSorted(s: seq<PrintJob>, q: int)
    requires Sorted(s) && s != []
    ensures WithPriority(s, s[0].priority) != [] && WithPriority(s, s[0].priority)[0] == s[0]
    ensures q < s[0].priority ==> WithPriority(s, q) == []
  {
    if q < s[0].priority {
      NoneBelowFirst(s, q);
    }
  }

  /** Any stable sort by priority returns what the reference sort returns,
      and so holds the same jobs. */
  lemma StableSortIsReference(s: seq<PrintJob>, orig: seq<PrintJob>)
    requires Sorted(s) && SameTies(s, orig)
    ensures s == SortByPriority(orig) && multiset(s) == multiset(orig)
  {
    SortByPriorityIsStableSort(orig);
    SortedTiesUnique(s, SortByPriority(orig));
  }

  /** Sorted by priority with each priority's jobs in a given order: there is
      only one such sequence. */
  lemma {:induction false} SortedTiesUnique(s: seq<PrintJob>, t: seq<PrintJob>)
    requires Sorted(s) && Sorted(t) && SameTies(s, t)
    ensures s == t
    decreases |s|
  {
    if s != [] {
      FirstOfSorted(s, s[0].priority);
      assert WithPriority(t, s[0].priority) != [];
    }
    if t != [] {
      FirstOfSorted(t, t[0].priority);
      assert WithPriority(s, t[0].priority) != [];
    }
    if s != [] && t != [] {
      var p, q := s[0].priority, t[0].priority;
      FirstOfSorted(s, q);
      FirstOfSorted(t, p);
      assert p == q;
      assert s[0] == t[0];
      forall r ensures WithPriority(s[1..], r) == WithPriority(t[1..], r) {
        assert WithPriority(s, r) == WithPriority(t, r);
        WithPriorityTail(s, r);
        WithPriorityTail(t, r);
      }
      SortedTiesUnique(s[1..], t[1..]);
      SplitFirst(s);
      SplitFirst(t);
    }
  }

  // ---------------------------------------------------------------------------
  // Forming one batch
  // ---------------------------------------------------------------------------

  /** A job joins a batch of `count` jobs and volume `volume` when both limits
      still hold afterwards. */
  predicate Fits(c: PrinterConstraints, count: int, volume: int, job: PrintJob)
  {
    count < c.maxItems && volume + job.volume <= c.maxVolume
  }

  /** Total volume of some jobs. */
  function Volume(s: seq<PrintJob>): int
  {
    if s == [] then 0 else s[0].volume + Volume(s[1..])
  }

  lemma {:induction false} VolumeAppend(s: seq<PrintJob>, t: seq<PrintJob>)
    ensures Volume(s + t) == Volume(s) + Volume(t)
  {
    if s == [] {
      assert s + t == t;
    } else {
      assert (s + t)[1..] == s[1..] + t;
      VolumeAppend(s[1..], t);
    }
  }

  /** The first-fit scan: which jobs of the pool join a batch that already
      holds `count` jobs of volume `volume`. */
  function Picks(pool: seq<PrintJob>, c: PrinterConstraints, count: int, volume: int): (mask: seq<bool>)
    ensures |mask| == |pool|
  {
    if pool == [] then []
    else if Fits(c, count, volume, pool[0]) then
      [true] + Picks(pool[1..], c, count + 1, volume + pool[0].volume)
    else
      [false] + Picks(pool[1..], c, count, volume)
  }

  /** The jobs whose mark is b, in order. */
  function Keep(s: seq<PrintJob>, mask: seq<bool>, b: bool): seq<PrintJob>
    requires |mask| == |s|
  {
    if s == [] then []
    else (if mask[0] == b then [s[0]] else []) + Keep(s[1..], mask[1..], b)
  }

  /** The marked and unmarked jobs together are the pool. */
  lemma {:induction false} KeepSplit(s: seq<PrintJob>, mask: seq<bool>)
    requires |mask| == |s|
    ensures multiset(Keep(s, mask, true)) + multiset(Keep(s, mask, false)) == multiset(s)
  {
    if s != [] {
      var x, tl, mt := s[0], s[1..], mask[1..];
      KeepSplit(tl, mt);
      SplitFirst(s);
      if mask[0] {
        assert Keep(s, mask, true) == [x] + Keep(tl, mt, true);
        assert Keep(s, mask, false) == Keep(tl, mt, false);
      } else {
        assert Keep(s, mask, true) == Keep(tl, mt, true);
        assert Keep(s, mask, false) == [x] + Keep(tl, mt, false);
      }
    }
  }

  /** The jobs the scan puts into the next batch, in queue order. */
  function NextBatch(pool: seq<PrintJob>, c: PrinterConstraints): seq<PrintJob>
  {
    Keep(pool, Picks(pool, c, 0, 0), true)
  }

  /** Each job is judged against the batch formed from the jobs before it: it
      joins exactly when the batch then stays within both limits, so a job
      that is skipped would have broken the item or the volume limit. */
  lemma {:induction false} PicksDecideEachJob(pool: seq<PrintJob>, c: PrinterConstraints, count: int, volume: int, k: nat)
    requires k < |pool|
    ensures var mask := Picks(pool, c, count, volume);
      var before := Keep(pool[..k], mask[..k], true);
      mask[k] == Fits(c, count + |before|, volume + Volume(before), pool[k])
    decreases k
  {
    var mask := Picks(pool, c, count, volume);
    if k > 0 {
      var fits := Fits(c, count, volume, pool[0]);
      var count', volume' := if fits then count + 1 else count, if fits then volume + pool[0].volume else volume;
      assert mask[1..] == Picks(pool[1..], c, count', volume');
      PicksDecideEachJob(pool[1..], c, count', volume', k - 1);
      var before' := Keep(pool[1..][..k - 1], mask[1..][..k - 1], true);
      assert pool[..k][1..] == pool[1..][..k - 1];
      assert mask[..k][1..] == mask[1..][..k - 1];
      var before := Keep(pool[..k], mask[..k], true);
      assert before == (if fits then [pool[0]] else []) + before';
      VolumeAppend(if fits then [pool[0]] else [], before');
    }
  }

  /** One step of the scan: the first job either joins or is skipped, and
      the scan goes on over the rest of the pool. */
  lemma PicksHead(pool: seq<PrintJob>, c: PrinterConstraints, count: int, volume: int)
    requires pool != []
    ensures var mask := Picks(pool, c, count, volume);
      Fits(c, count, volume, pool[0]) ==>
        var rest := Picks(pool[1..], c, count + 1, volume + pool[0].volume);
        && Keep(pool, mask, true) == [pool[0]] + Keep(pool[1..], rest, true)
        && Keep(pool, mask, false) == Keep(pool[1..], rest, false)
    ensures var mask := Picks(pool, c, count, volume);
      !Fits(c, count, volume, pool[0]) ==>
        var rest := Picks(pool[1..], c, count, volume);
        && Keep(pool, mask, true) == Keep(pool[1..], rest, true)
        && Keep(pool, mask, false) == [pool[0]] + Keep(pool[1..], rest, false)
  {
    var mask := Picks(pool, c, count, volume);
    if Fits(c, count, volume, pool[0]) {
      assert mask[0] && mask[1..] == Picks(pool[1..], c, count + 1, volume + pool[0].volume);
    } else {
      assert !mask[0] && mask[1..] == Picks(pool[1..], c, count, volume);
    }
  }

  /** A batch never exceeds the item limit or the volume limit. */
  lemma {:induction false} PicksWithinLimits(pool: seq<PrintJob>, c: PrinterConstraints, count: int, volume: int)
    ensures var batch := Keep(pool, Picks(pool, c, count, volume), true);
      batch == [] || (count + |batch| <= c.maxItems && volume + Volume(batch) <= c.maxVolume)
  {
    if pool != [] {
      PicksHead(pool, c, count, volume);
      if Fits(c, count, volume, pool[0]) {
        PicksWithinLimits(pool[1..], c, count + 1, volume + pool[0].volume);
      } else {
        PicksWithinLimits(pool[1..], c, count, volume);
      }
    }
  }

  /** Every job fits into an empty batch: a batch may hold at least one job
      and no job is over the volume limit. */
  ghost predicate Placeable(jobs: seq<PrintJob>, c: PrinterConstraints)
  {
    forall j :: j in jobs ==> Fits(c, 0, 0, j)
  }

  /** When every job fits into an empty batch, the first job of the queue
      always opens the next batch. */
  lemma FirstJobJoins(pool: seq<PrintJob>, c: PrinterConstraints)
    requires Placeable(pool, c) && pool != []
    ensures Picks(pool, c, 0, 0)[0]
    ensures NextBatch(pool, c) != [] && NextBatch(pool, c)[0] == pool[0]
  {
    assert pool[0] in pool;
    PicksHead(pool, c, 0, 0);
  }

  // ---------------------------------------------------------------------------
  // Removing a batch from the queue (list.remove)
  // ---------------------------------------------------------------------------

  /** Removes the first job equal to x (the list is unchanged when there is
      none; the batch loop only removes jobs that are present). */
  function RemoveFirst(s: seq<PrintJob>, x: PrintJob): (r: seq<PrintJob>)
    ensures x in s ==> |r| == |s| - 1
    ensures x !in s ==> r == s
  {
    if s == [] then []
    else if s[0] == x then s[1..]
    else [s[0]] + RemoveFirst(s[1..], x)
  }

  /** Removes the jobs of `batch` one after the other. */
  function RemoveEach(s: seq<PrintJob>, batch: seq<PrintJob>): seq<PrintJob>
    decreases |batch|
  {
    if batch == [] then s else RemoveEach(RemoveFirst(s, batch[0]), batch[1..])
  }

  lemma {:induction false} RemoveFirstCount(s: seq<PrintJob>, x: PrintJob)
    requires x in s
    ensures multiset(RemoveFirst(s, x)) == multiset(s) - multiset{x}
    ensures |RemoveFirst(s, x)| == |s| - 1
  {
    SplitFirst(s);
    if s[0] != x {
      RemoveFirstCount(s[1..], x);
    }
  }

  lemma {:induction false} RemoveEachCount(s: seq<PrintJob>, batch: seq<PrintJob>)
    requires multiset(batch) <= multiset(s)
    ensures multiset(RemoveEach(s, batch)) == multiset(s) - multiset(batch)
    ensures |RemoveEach(s, batch)| == |s| - |batch|
    decreases |batch|
  {
    if batch != [] {
      var x, more := batch[0], batch[1..];
      SplitFirst(batch);
      assert multiset(batch) == multiset{x} + multiset(more);
      assert x in multiset(s);
      var s' := RemoveFirst(s, x);
      RemoveFirstCount(s, x);
      assert multiset(more) <= multiset(s');
      RemoveEachCount(s', more);
    }
  }

  /** The queue after one round: the pool without the batch. */
  function Rest(pool: seq<PrintJob>, c: PrinterConstraints): seq<PrintJob>
  {
    RemoveEach(pool, NextBatch(pool, c))
  }

  /** A round removes exactly the batch's jobs from the queue. */
  lemma RestCount(pool: seq<PrintJob>, c: PrinterConstraints)
    ensures multiset(NextBatch(pool, c)) <= multiset(pool)
    ensures multiset(Rest(pool, c)) == multiset(pool) - multiset(NextBatch(pool, c))
    ensures |Rest(pool, c)| == |pool| - |NextBatch(pool, c)|
  {
    KeepSplit(pool, Picks(pool, c, 0, 0));
    RemoveEachCount(pool, NextBatch(pool, c));
  }

  /** With every job placeable each round shrinks the queue, and what is left
      is still placeable: the batch loop terminates. */
  lemma RoundShrinks(pool: seq<PrintJob>, c: PrinterConstraints)
    requires Placeable(pool, c) && pool != []
    ensures |Rest(pool, c)| < |pool|
    ensures Placeable(Rest(pool, c), c)
    ensures forall y :: y in Rest(pool, c) ==> y in pool
  {
    FirstJobJoins(pool, c);
    RestCount(pool, c);
    forall y | y in Rest(pool, c) ensures y in pool {
      assert y in multiset(Rest(pool, c));
    }
  }

  lemma {:induction false} RemoveEachSkipsHead(x: PrintJob, s: seq<PrintJob>, batch: seq<PrintJob>)
    requires x !in batch
    ensures RemoveEach([x] + s, batch) == [x] + RemoveEach(s, batch)
    decreases |batch|
  {
    if batch != [] {
      assert ([x] + s)[1..] == s;
      assert RemoveFirst([x] + s, batch[0]) == [x] + RemoveFirst(s, batch[0]);
      assert batch[0] in batch;
      assert forall y :: y in batch[1..] ==> y in batch;
      RemoveEachSkipsHead(x, RemoveFirst(s, batch[0]), batch[1..]);
    }
  }

  /** No job has a negative volume. */
  predicate NonNegative(pool: seq<PrintJob>)
  {
    forall k :: 0 <= k < |pool| ==> pool[k].volume >= 0
  }

  /** With volumes that are not negative the running batch only grows, so a
      job the scan rejects stays rejected for the rest of that scan. */
  lemma {:induction false} RejectedStaysOut(pool: seq<PrintJob>, c: PrinterConstraints, count: int, volume: int, x: PrintJob)
    requires NonNegative(pool)
    requires !Fits(c, count, volume, x)
    ensures x !in Keep(pool, Picks(pool, c, count, volume), true)
  {
    if pool != [] {
      PicksHead(pool, c, count, volume);
      if Fits(c, count, volume, pool[0]) {
        RejectedStaysOut(pool[1..], c, count + 1, volume + pool[0].volume, x);
      } else {
        RejectedStaysOut(pool[1..], c, count, volume, x);
      }
    }
  }

  /** Without the placeability precondition, and with no negative volume: a
      job that does not fit into an empty batch is still waiting after a
      round, and the jobs still waiting have no negative volume either, so
      the `while` loop never ends. */
  lemma UnfitJobStaysQueued(pool: seq<PrintJob>, c: PrinterConstraints, x: PrintJob)
    requires NonNegative(pool) && x in pool && !Fits(c, 0, 0, x)
    ensures x in Rest(pool, c)
    ensures NonNegative(Rest(pool, c))
  {
    RejectedStaysOut(pool, c, 0, 0, x);
    RestCount(pool, c);
    assert x in multiset(pool) && x !in multiset(NextBatch(pool, c));
    assert x in multiset(Rest(pool, c));
    var rest := Rest(pool, c);
    forall k | 0 <= k < |rest| ensures rest[k].volume >= 0 {
      assert rest[k] in multiset(pool);
    }
  }

  lemma {:induction false} RemovePicked(pool: seq<PrintJob>, c: PrinterConstraints, count: int, volume: int)
    requires NonNegative(pool)
    ensures var mask := Picks(pool, c, count, volume);
      RemoveEach(pool, Keep(pool, mask, true)) == Keep(pool, mask, false)
  {
    if pool != [] {
      var mask := Picks(pool, c, count, volume);
      var x, rest := pool[0], pool[1..];
      PicksHead(pool, c, count, volume);
      if Fits(c, count, volume, x) {
        var m' := Picks(rest, c, count + 1, volume + x.volume);
        var picked := Keep(rest, m', true);
        RemovePicked(rest, c, count + 1, volume + x.volume);
        var batch := [x] + picked;
        assert batch[0] == x && batch[1..] == picked;
        assert RemoveFirst(pool, x) == rest;
      } else {
        var m' := Picks(rest, c, count, volume);
        var picked := Keep(rest, m', true);
        RemovePicked(rest, c, count, volume);
        RejectedStaysOut(rest, c, count, volume, x);
        RemoveEachSkipsHead(x, rest, picked);
        SplitFirst(pool);
      }
    }
  }

  /** Removing the batch by value, as list.remove does, leaves exactly the
      jobs the scan skipped, in queue order, provided no volume is negative. */
  lemma RemovalByValueIsPositional(pool: seq<PrintJob>, c: PrinterConstraints)
    requires NonNegative(pool)
    ensures Rest(pool, c) == Keep(pool, Picks(pool, c, 0, 0), false)
  {
    RemovePicked(pool, c, 0, 0);
  }

  // ---------------------------------------------------------------------------
  // All batches
  // ---------------------------------------------------------------------------

  /** The batches in the order they are printed. */
  function Batches(pool: seq<PrintJob>, c: PrinterConstraints): (r: seq<seq<PrintJob>>)
    requires Placeable(pool, c)
    ensures (r == []) == (pool == [])
    ensures |r| <= |pool|
    decreases |pool|
  {
    if pool == [] then []
    else
      RoundShrinks(pool, c);
      [NextBatch(pool, c)] + Batches(Rest(pool, c), c)
  }

  /** Ids of some jobs, in order. */
  function Ids(s: seq<PrintJob>): (r: seq<string>)
    ensures |r| == |s|
  {
    if s == [] then [] else [s[0].id] + Ids(s[1..])
  }

  /** The longest print time of a non-empty batch. */
  function MaxTime(batch: seq<PrintJob>): int
    requires batch != []
  {
    if |batch| == 1 then batch[0].printTime
    else
      var t := MaxTime(batch[1..]);
      if batch[0].printTime > t then batch[0].printTime else t
  }

  /** print_order: the ids of every non-empty batch, batch after batch. */
  function OrderOf(batches: seq<seq<PrintJob>>): seq<string>
  {
    if batches == [] then []
    else (if batches[0] != [] then Ids(batches[0]) else []) + OrderOf(batches[1..])
  }

  /** total_time: the longest print time of every non-empty batch, summed. */
  function TimeOf(batches: seq<seq<PrintJob>>): int
  {
    if batches == [] then 0
    else (if batches[0] != [] then MaxTime(batches[0]) else 0) + TimeOf(batches[1..])
  }

  /** Placeability depends only on which jobs there are. */
  lemma PlaceableKept(jobs: seq<PrintJob>, s: seq<PrintJob>, c: PrinterConstraints)
    requires Placeable(jobs, c) && multiset(s) == multiset(jobs)
    ensures Placeable(s, c)
  {
    forall j | j in s ensures j in jobs {
      assert j in multiset(s);
    }
  }

  /** The result of optimize_printing. */
  function Optimize(jobs: seq<PrintJob>, c: PrinterConstraints): (r: PrintResult)
    requires Placeable(jobs, c)
    ensures |r.printOrder| == |jobs|
  {
    SortCount(jobs);
    PlaceableKept(jobs, SortByPriority(jobs), c);
    var batches := Batches(SortByPriority(jobs), c);
    OrderIsIds(batches);
    BatchesCoverPool(SortByPriority(jobs), c);
    assert |Flatten(batches)| == |multiset(Flatten(batches))| == |multiset(jobs)|;
    PrintResult(OrderOf(batches), TimeOf(batches))
  }

  /** One round of the batch loop, on the specification side. */
  lemma BatchesStep(pool: seq<PrintJob>, c: PrinterConstraints)
    requires Placeable(pool, c) && pool != []
    ensures NextBatch(pool, c) != [] && Placeable(Rest(pool, c), c) && |Rest(pool, c)| < |pool|
    ensures OrderOf(Batches(pool, c)) == Ids(NextBatch(pool, c)) + OrderOf(Batches(Rest(pool, c), c))
    ensures TimeOf(Batches(pool, c)) == MaxTime(NextBatch(pool, c)) + TimeOf(Batches(Rest(pool, c), c))
  {
    FirstJobJoins(pool, c);
    RoundShrinks(pool, c);
    var all := Batches(pool, c);
    assert all[0] == NextBatch(pool, c) && all[1..] == Batches(Rest(pool, c), c);
  }

  /** The first batch, then the batches of what is left. */
  lemma BatchesUnfold(pool: seq<PrintJob>, c: PrinterConstraints)
    requires Placeable(pool, c) && pool != []
    ensures Placeable(Rest(pool, c), c) && |Rest(pool, c)| < |pool|
    ensures var b := Batches(pool, c);
      |b| == 1 + |Batches(Rest(pool, c), c)| && b[0] == NextBatch(pool, c) && b[1..] == Batches(Rest(pool, c), c)
  {
    RoundShrinks(pool, c);
  }

  /** The scan at position k: the job there joins or is skipped. */
  lemma ScanStep(pool: seq<PrintJob>, k: nat, c: PrinterConstraints, count: int, volume: int)
    requires k < |pool|
    ensures var x := pool[k];
      Fits(c, count, volume, x) ==>
        Keep(pool[k..], Picks(pool[k..], c, count, volume), true)
        == [x] + Keep(pool[k + 1..], Picks(pool[k + 1..], c, count + 1, volume + x.volume), true)
    ensures !Fits(c, count, volume, pool[k]) ==>
        Keep(pool[k..], Picks(pool[k..], c, count, volume), true)
        == Keep(pool[k + 1..], Picks(pool[k + 1..], c, count, volume), true)
  {
    PicksHead(pool[k..], c, count, volume);
    assert pool[k..][0] == pool[k] && pool[k..][1..] == pool[k + 1..];
  }

  /** The scan `for job in print_jobs[:]` that forms the current batch. */
  method FormBatch(pool: seq<PrintJob>, c: PrinterConstraints) returns (batch: seq<PrintJob>, batchVolume: int)
    ensures batch == NextBatch(pool, c)
    ensures batchVolume == Volume(batch)
  {
    batch := [];
    batchVolume := 0;
    var k := 0;
    while k < |pool|
      invariant 0 <= k <= |pool|
      invariant batch + Keep(pool[k..], Picks(pool[k..], c, |batch|, batchVolume), true) == NextBatch(pool, c)
      invariant batchVolume == Volume(batch)
    {
      var job := pool[k];
      ScanStep(pool, k, c, |batch|, batchVolume);
      if |batch| < c.maxItems && batchVolume + job.volume <= c.maxVolume {
        VolumeAppend(batch, [job]);
        batch := batch + [job];
        batchVolume := batchVolume + job.volume;
      }
      k := k + 1;
    }
  }

  /** `for job in current_batch: print_jobs.remove(job)`; every job removed
      is present, so list.remove never fails. */
  method RemoveBatch(pool: seq<PrintJob>, batch: seq<PrintJob>) returns (rest: seq<PrintJob>)
    requires multiset(batch) <= multiset(pool)
    ensures rest == RemoveEach(pool, batch)
  {
    rest := pool;
    var m := 0;
    while m < |batch|
      invariant 0 <= m <= |batch|
      invariant multiset(batch[m..]) <= multiset(rest)
      invariant RemoveEach(rest, batch[m..]) == RemoveEach(pool, batch)
    {
      SplitFirst(batch[m..]);
      assert batch[m..][1..] == batch[m + 1..];
      assert batch[m] in multiset(rest);
      assert batch[m] in rest;
      RemoveFirstCount(rest, batch[m]);
      rest := RemoveFirst(rest, batch[m]);
      m := m + 1;
    }
  }

  /** The jobs, bubble-sorted in a list of their own. */
  method SortJobs(jobs: seq<PrintJob>) returns (sorted: seq<PrintJob>)
    ensures sorted == SortByPriority(jobs)
  {
    var a := new PrintJob[|jobs|](k requires 0 <= k < |jobs| => jobs[k]);
    assert a[..] == jobs;
    BubbleSort(a);
    sorted := a[..];
  }

  /** optimize_printing.  It terminates only when every job can be placed,
      which the source does not check; that is its precondition here. */
  method OptimizePrinting(jobs: seq<PrintJob>, c: PrinterConstraints) returns (r: PrintResult)
    requires Placeable(jobs, c)
    ensures r == Optimize(jobs, c)
  {
    var pool := SortJobs(jobs);
    ghost var sorted := pool;
    SortCount(jobs);
    PlaceableKept(jobs, sorted, c);

    var printOrder: seq<string> := [];
    var totalTime := 0;
    while |pool| > 0
      invariant Placeable(pool, c)
      invariant OrderOf(Batches(sorted, c)) == printOrder + OrderOf(Batches(pool, c))
      invariant TimeOf(Batches(sorted, c)) == totalTime + TimeOf(Batches(pool, c))
      decreases |pool|
    {
      var batch, _ := FormBatch(pool, c);
      BatchesStep(pool, c);
      RestCount(pool, c);
      pool := RemoveBatch(pool, batch);
      if |batch| > 0 {
        printOrder := printOrder + Ids(batch);
        totalTime := totalTime + MaxTime(batch);
      }
    }
    r := PrintResult(printOrder, totalTime);
  }
  // ---------------------------------------------------------------------------
  // Properties of the whole run
  // ---------------------------------------------------------------------------

  /** Every batch holds between one and maxItems jobs, and its volume is
      within maxVolume. */
  lemma {:induction false} AllBatchesWithinLimits(pool: seq<PrintJob>, c: PrinterConstraints)
    requires Placeable(pool, c)
    ensures var b := Batches(pool, c);
      forall i :: 0 <= i < |b| ==> 1 <= |b[i]| <= c.maxItems && Volume(b[i]) <= c.maxVolume
    decreases |pool|
  {
    if pool != [] {
      FirstJobJoins(pool, c);
      BatchesUnfold(pool, c);
      PicksWithinLimits(pool, c, 0, 0);
      AllBatchesWithinLimits(Rest(pool, c), c);
      var b := Batches(pool, c);
      forall i | 1 <= i < |b| ensures 1 <= |b[i]| <= c.maxItems && Volume(b[i]) <= c.maxVolume {
        assert b[i] == b[1..][i - 1];
      }
    }
  }

  /** The batches one after the other. */
  function Flatten(batches: seq<seq<PrintJob>>): seq<PrintJob>
  {
    if batches == [] then [] else batches[0] + Flatten(batches[1..])
  }

  /** The batches hold every job of the pool exactly once. */
  lemma {:induction false} BatchesCoverPool(pool: seq<PrintJob>, c: PrinterConstraints)
    requires Placeable(pool, c)
    ensures multiset(Flatten(Batches(pool, c))) == multiset(pool)
    decreases |pool|
  {
    if pool != [] {
      BatchesUnfold(pool, c);
      RestCount(pool, c);
      BatchesCoverPool(Rest(pool, c), c);
    }
  }

  lemma {:induction false} IdsAppend(s: seq<PrintJob>, t: seq<PrintJob>)
    ensures Ids(s + t) == Ids(s) + Ids(t)
  {
    if s == [] {
      assert s + t == t;
    } else {
      assert (s + t)[1..] == s[1..] + t;
      IdsAppend(s[1..], t);
    }
  }

  /** The print order is the ids of the batches' jobs, batch after batch (an
      empty batch would add no ids either way). */
  lemma {:induction false} OrderIsIds(batches: seq<seq<PrintJob>>)
    ensures OrderOf(batches) == Ids(Flatten(batches))
  {
    if batches != [] {
      OrderIsIds(batches[1..]);
      IdsAppend(batches[0], Flatten(batches[1..]));
    }
  }

  lemma {:induction false} IdsRemoveFirst(s: seq<PrintJob>, x: PrintJob)
    requires x in s
    ensures multiset(Ids(s)) == multiset(Ids(RemoveFirst(s, x))) + multiset{x.id}
  {
    if s[0] != x {
      IdsRemoveFirst(s[1..], x);
    }
  }

  /** The same jobs have the same ids. */
  lemma {:induction false} IdsCount(s: seq<PrintJob>, t: seq<PrintJob>)
    requires multiset(s) == multiset(t)
    ensures multiset(Ids(s)) == multiset(Ids(t))
    decreases |s|
  {
    if s == [] {
      assert |t| == |multiset(t)| == 0;
    } else {
      var x := s[0];
      SplitFirst(s);
      assert x in multiset(t);
      RemoveFirstCount(t, x);
      IdsRemoveFirst(t, x);
      IdsCount(s[1..], RemoveFirst(t, x));
    }
  }

  /** print_order lists every job's id exactly once. */
  lemma PrintOrderIsPermutation(jobs: seq<PrintJob>, c: PrinterConstraints)
    requires Placeable(jobs, c)
    ensures multiset(Optimize(jobs, c).printOrder) == multiset(Ids(jobs))
    ensures |Optimize(jobs, c).printOrder| == |jobs|
  {
    var sorted := SortByPriority(jobs);
    SortCount(jobs);
    PlaceableKept(jobs, sorted, c);
    var b := Batches(sorted, c);
    OrderIsIds(b);
    BatchesCoverPool(sorted, c);
    IdsCount(Flatten(b), jobs);
    assert |Optimize(jobs, c).printOrder| == |multiset(Ids(jobs))|;
  }

  /** A priority-ordered sequence with a first job no later than the rest. */
  lemma ConsSorted(x: PrintJob, s: seq<PrintJob>)
    requires Sorted(s) && forall y :: y in s ==> x.priority <= y.priority
    ensures Sorted([x] + s)
  {
    var r := [x] + s;
    forall k, l | 0 <= k < l < |r| ensures r[k].priority <= r[l].priority {
      assert r[l] == s[l - 1];
      if k > 0 {
        assert r[k] == s[k - 1];
      } else {
        assert s[l - 1] in s;
      }
    }
  }

  lemma {:induction false} KeepMembers(s: seq<PrintJob>, mask: seq<bool>, b: bool)
    requires |mask| == |s|
    ensures forall y :: y in Keep(s, mask, b) ==> y in s
  {
    KeepSplit(s, mask);
    forall y | y in Keep(s, mask, b) ensures y in s {
      assert y in multiset(Keep(s, mask, b));
      assert y in multiset(s);
    }
  }

  /** The jobs of a batch, and the jobs skipped, stay in priority order. */
  lemma {:induction false} KeepSorted(s: seq<PrintJob>, mask: seq<bool>, b: bool)
    requires |mask| == |s| && Sorted(s)
    ensures Sorted(Keep(s, mask, b))
  {
    if s != [] {
      KeepSorted(s[1..], mask[1..], b);
      if mask[0] == b {
        KeepMembers(s[1..], mask[1..], b);
        forall y | y in Keep(s[1..], mask[1..], b) ensures s[0].priority <= y.priority {
          var k :| 0 <= k < |s[1..]| && s[1..][k] == y;
          assert s[k + 1] == y;
        }
        ConsSorted(s[0], Keep(s[1..], mask[1..], b));
      } else {
        assert Keep(s, mask, b) == Keep(s[1..], mask[1..], b);
      }
    }
  }

  lemma {:induction false} RemoveFirstSorted(s: seq<PrintJob>, x: PrintJob)
    requires Sorted(s)
    ensures Sorted(RemoveFirst(s, x))
    ensures forall y :: y in RemoveFirst(s, x) ==> y in s
  {
    if s != [] && s[0] != x {
      var r' := RemoveFirst(s[1..], x);
      RemoveFirstSorted(s[1..], x);
      forall y | y in r' ensures s[0].priority <= y.priority {
        var k :| 0 <= k < |s[1..]| && s[1..][k] == y;
        assert s[k + 1] == y;
      }
      ConsSorted(s[0], r');
    }
  }

  lemma {:induction false} RemoveEachSorted(s: seq<PrintJob>, batch: seq<PrintJob>)
    requires Sorted(s)
    ensures Sorted(RemoveEach(s, batch))
    decreases |batch|
  {
    if batch != [] {
      RemoveFirstSorted(s, batch[0]);
      RemoveEachSorted(RemoveFirst(s, batch[0]), batch[1..]);
    }
  }

  /** Removing a batch keeps the queue in priority order. */
  lemma RestSorted(pool: seq<PrintJob>, c: PrinterConstraints)
    requires Sorted(pool)
    ensures Sorted(Rest(pool, c))
  {
    RemoveEachSorted(pool, NextBatch(pool, c));
  }

  /** On a priority-ordered queue a round keeps the order: the batch lists
      its jobs in queue order, opens with the first job of the queue, and
      the queue left behind is still in priority order. */
  lemma RoundKeepsOrder(pool: seq<PrintJob>, c: PrinterConstraints)
    requires Sorted(pool) && Placeable(pool, c) && pool != []
    ensures NextBatch(pool, c) != [] && NextBatch(pool, c)[0] == pool[0]
    ensures Sorted(NextBatch(pool, c)) && Sorted(Rest(pool, c))
    ensures forall y :: y in Rest(pool, c) ==> pool[0].priority <= y.priority
  {
    FirstJobJoins(pool, c);
    KeepSorted(pool, Picks(pool, c, 0, 0), true);
    RemoveEachSorted(pool, NextBatch(pool, c));
    RestCount(pool, c);
    forall y | y in Rest(pool, c) ensures pool[0].priority <= y.priority {
      assert y in multiset(Rest(pool, c));
      var k :| 0 <= k < |pool| && pool[k] == y;
    }
  }

  /** On a priority-ordered queue every batch is in priority order. */
  lemma {:induction false} BatchesSorted(pool: seq<PrintJob>, c: PrinterConstraints)
    requires Sorted(pool) && Placeable(pool, c)
    ensures var b := Batches(pool, c);
      forall i :: 0 <= i < |b| ==> b[i] != [] && Sorted(b[i])
    decreases |pool|
  {
    if pool != [] {
      var rest := Rest(pool, c);
      BatchesUnfold(pool, c);
      RoundKeepsOrder(pool, c);
      BatchesSorted(rest, c);
      var b := Batches(pool, c);
      forall i | 1 <= i < |b| ensures b[i] == b[1..][i - 1] {
      }
    }
  }

  /** A job of any batch is a job of the pool. */
  lemma {:induction false} BatchJobInPool(pool: seq<PrintJob>, c: PrinterConstraints, j: nat, y: PrintJob)
    requires Placeable(pool, c) && j < |Batches(pool, c)| && y in Batches(pool, c)[j]
    ensures y in pool
    decreases |pool|
  {
    var rest := Rest(pool, c);
    BatchesUnfold(pool, c);
    if j == 0 {
      KeepMembers(pool, Picks(pool, c, 0, 0), true);
    } else {
      var b, b' := Batches(pool, c), Batches(rest, c);
      assert b[j] == b'[j - 1];
      BatchJobInPool(rest, c, j - 1, y);
      RoundShrinks(pool, c);
    }
  }

  /** The job opening the first batch has no greater priority number than a
      job y of a later batch j. */
  lemma FirstOpensBefore(pool: seq<PrintJob>, c: PrinterConstraints, j: nat, y: PrintJob)
    requires Sorted(pool) && Placeable(pool, c)
    requires 0 < j < |Batches(pool, c)| && y in Batches(pool, c)[j]
    ensures Batches(pool, c)[0] != [] && Batches(pool, c)[0][0].priority <= y.priority
  {
    var rest := Rest(pool, c);
    BatchesUnfold(pool, c);
    assert y in Batches(rest, c)[j - 1];
    BatchJobInPool(rest, c, j - 1, y);
    RoundKeepsOrder(pool, c);
  }

  /** Batches i and j of the queue are batches i - 1 and j - 1 of what is
      left after the first round. */
  lemma ShiftBatches(pool: seq<PrintJob>, c: PrinterConstraints, i: nat, j: nat, y: PrintJob)
    requires Sorted(pool) && Placeable(pool, c)
    requires 0 < i < j < |Batches(pool, c)| && y in Batches(pool, c)[j]
    ensures Sorted(Rest(pool, c)) && Placeable(Rest(pool, c), c) && |Rest(pool, c)| < |pool|
    ensures j - 1 < |Batches(Rest(pool, c), c)| && y in Batches(Rest(pool, c), c)[j - 1]
    ensures Batches(pool, c)[i] == Batches(Rest(pool, c), c)[i - 1]
  {
    BatchesUnfold(pool, c);
    RestSorted(pool, c);
    var b, b' := Batches(pool, c), Batches(Rest(pool, c), c);
    assert b[j] == b'[j - 1] && b[i] == b'[i - 1];
  }

  /** The batch is opened by a job with no greater priority number than y. */
  predicate OpensNoLater(batch: seq<PrintJob>, y: PrintJob)
  {
    batch != [] && batch[0].priority <= y.priority
  }

  /** The job opening batch i has no greater priority number than a job y of
      a later batch j. */
  lemma {:induction false} OpensBefore(pool: seq<PrintJob>, c: PrinterConstraints, i: nat, j: nat, y: PrintJob)
    requires Sorted(pool) && Placeable(pool, c)
    requires i < j < |Batches(pool, c)| && y in Batches(pool, c)[j]
    ensures OpensNoLater(Batches(pool, c)[i], y)
    decreases |pool|
  {
    if i == 0 {
      FirstOpensBefore(pool, c, j, y);
    } else {
      ShiftBatches(pool, c, i, j, y);
      OpensBefore(Rest(pool, c), c, i - 1, j - 1, y);
    }
  }

  /** On a priority-ordered queue the job opening a batch has no lower
      priority (no greater number) than any job of a later batch. */
  lemma BatchesOpenInOrder(pool: seq<PrintJob>, c: PrinterConstraints)
    requires Sorted(pool) && Placeable(pool, c)
    ensures var b := Batches(pool, c);
      forall i, j, y: PrintJob :: 0 <= i < j < |b| && y in b[j] ==> b[i] != [] && b[i][0].priority <= y.priority
  {
    var b: seq<seq<PrintJob>> := Batches(pool, c);
    forall i: nat, j: nat, y: PrintJob | i < j < |b| && y in b[j]
      ensures b[i] != [] && b[i][0].priority <= y.priority
    {
      OpensBefore(pool, c, i, j, y);
    }
  }

  /** The longest print time of a batch: no job takes longer, and some job
      takes exactly that long. */
  lemma {:induction false} MaxTimeIsLongest(batch: seq<PrintJob>)
    requires batch != []
    ensures forall k :: 0 <= k < |batch| ==> batch[k].printTime <= MaxTime(batch)
    ensures exists k :: 0 <= k < |batch| && batch[k].printTime == MaxTime(batch)
  {
    if |batch| > 1 {
      MaxTimeIsLongest(batch[1..]);
      var k :| 0 <= k < |batch[1..]| && batch[1..][k].printTime == MaxTime(batch[1..]);
      if batch[0].printTime <= MaxTime(batch[1..]) {
        assert batch[k + 1].printTime == MaxTime(batch);
      }
      forall l | 1 <= l < |batch| ensures batch[l].printTime <= MaxTime(batch) {
        assert batch[l] == batch[1..][l - 1];
      }
    } else {
      assert batch[0].printTime == MaxTime(batch);
    }
  }

  /** An empty queue prints nothing and takes no time. */
  lemma EmptyQueue(c: PrinterConstraints)
    ensures Optimize([], c) == PrintResult([], 0)
  {
  }
  // ---------------------------------------------------------------------------
  // The demonstration inputs (max_volume 300, max_items 2)
  // ---------------------------------------------------------------------------

  /** Same priority: M1 and M2 share a batch, M3 follows; 120 + 150 minutes. */
  lemma ExampleSamePriority()
    ensures var m1, m2, m3 := PrintJob("M1", 100, 1, 120), PrintJob("M2", 150, 1, 90), PrintJob("M3", 120, 1, 150);
      var c := PrinterConstraints(300, 2);
      Placeable([m1, m2, m3], c) && Optimize([m1, m2, m3], c) == PrintResult(["M1", "M2", "M3"], 270)
  {
    var m1, m2, m3 := PrintJob("M1", 100, 1, 120), PrintJob("M2", 150, 1, 90), PrintJob("M3", 120, 1, 150);
    var c := PrinterConstraints(300, 2);
    var jobs := [m1, m2, m3];
    Slices3(m1, m2, m3);
    assert SortByPriority([m1]) == [m1];
    assert InsertByPriority([m1], m2) == [m1, m2];
    assert SortByPriority([m1, m2]) == [m1, m2];
    assert InsertByPriority([m2], m3) == [m2, m3];
    assert InsertByPriority([m1, m2], m3) == jobs;
    assert SortByPriority(jobs) == jobs;
    assert Picks([m3], c, 2, 250) == [false];
    assert Picks([m2, m3], c, 1, 100) == [true, false];
    assert Picks(jobs, c, 0, 0) == [true, true, false];
    Masks3(m1, m2, m3, [true, true, false]);
    assert NextBatch(jobs, c) == [m1, m2];
    assert RemoveFirst(jobs, m1) == [m2, m3];
    assert RemoveFirst([m2, m3], m2) == [m3];
    assert RemoveEach([m3], []) == [m3];
    assert RemoveEach([m2, m3], [m2]) == [m3];
    assert Rest(jobs, c) == [m3];
    LastJob(m3, c);
    assert Batches(jobs, c) == [[m1, m2], [m3]];
    PairThenOne(m1, m2, m3);
  }

  /** Different priorities: the sort puts M2 first; 120 + 150 minutes. */
  lemma ExampleDifferentPriorities()
    ensures var m1, m2, m3 := PrintJob("M1", 100, 2, 120), PrintJob("M2", 150, 1, 90), PrintJob("M3", 120, 3, 150);
      var c := PrinterConstraints(300, 2);
      Placeable([m1, m2, m3], c) && Optimize([m1, m2, m3], c) == PrintResult(["M2", "M1", "M3"], 270)
  {
    var m1, m2, m3 := PrintJob("M1", 100, 2, 120), PrintJob("M2", 150, 1, 90), PrintJob("M3", 120, 3, 150);
    var c := PrinterConstraints(300, 2);
    var jobs := [m1, m2, m3];
    var sorted := [m2, m1, m3];
    Slices3(m1, m2, m3);
    Slices3(m2, m1, m3);
    assert SortByPriority([m1]) == [m1];
    assert InsertByPriority([m1], m2) == [m2, m1];
    assert SortByPriority([m1, m2]) == [m2, m1];
    assert InsertByPriority([m1], m3) == [m1, m3];
    assert InsertByPriority([m2, m1], m3) == sorted;
    assert SortByPriority(jobs) == sorted;
    assert Picks([m3], c, 2, 250) == [false];
    assert Picks([m1, m3], c, 1, 150) == [true, false];
    assert Picks(sorted, c, 0, 0) == [true, true, false];
    Masks3(m2, m1, m3, [true, true, false]);
    assert NextBatch(sorted, c) == [m2, m1];
    assert RemoveFirst(sorted, m2) == [m1, m3];
    assert RemoveFirst([m1, m3], m1) == [m3];
    assert RemoveEach([m3], []) == [m3];
    assert RemoveEach([m1, m3], [m1]) == [m3];
    assert Rest(sorted, c) == [m3];
    LastJob(m3, c);
    assert Batches(sorted, c) == [[m2, m1], [m3]];
    PairThenOne(m2, m1, m3);
  }

  /** Volumes over the limit: each job prints alone; 180 + 150 + 120 minutes. */
  lemma ExampleExceedingConstraints()
    ensures var m1, m2, m3 := PrintJob("M1", 250, 1, 180), PrintJob("M2", 200, 1, 150), PrintJob("M3", 180, 2, 120);
      var c := PrinterConstraints(300, 2);
      Placeable([m1, m2, m3], c) && Optimize([m1, m2, m3], c) == PrintResult(["M1", "M2", "M3"], 450)
  {
    var m1, m2, m3 := PrintJob("M1", 250, 1, 180), PrintJob("M2", 200, 1, 150), PrintJob("M3", 180, 2, 120);
    var c := PrinterConstraints(300, 2);
    var jobs := [m1, m2, m3];
    Slices3(m1, m2, m3);
    assert SortByPriority([m1]) == [m1];
    assert InsertByPriority([m1], m2) == [m1, m2];
    assert SortByPriority([m1, m2]) == [m1, m2];
    assert InsertByPriority([m2], m3) == [m2, m3];
    assert InsertByPriority([m1, m2], m3) == jobs;
    assert SortByPriority(jobs) == jobs;
    assert Picks([m3], c, 1, 250) == [false];
    assert Picks([m2, m3], c, 1, 250) == [false, false];
    assert Picks(jobs, c, 0, 0) == [true, false, false];
    Masks3(m1, m2, m3, [true, false, false]);
    assert NextBatch(jobs, c) == [m1];
    assert RemoveFirst(jobs, m1) == [m2, m3];
    assert RemoveEach([m2, m3], []) == [m2, m3];
    assert Rest(jobs, c) == [m2, m3];
    TwoApart(m2, m3, c);
    assert Batches(jobs, c) == [[m1], [m2], [m3]];
    OneByOne(m1, m2, m3);
  }

  /** Two placeable jobs too large to share a batch print one after the other. */
  lemma TwoApart(x: PrintJob, y: PrintJob, c: PrinterConstraints)
    requires Placeable([x, y], c) && x.volume + y.volume > c.maxVolume
    ensures Batches([x, y], c) == [[x], [y]]
  {
    assert [x, y][1..] == [y] && [y][1..] == [];
    assert [true, false][1..] == [false] && [false][1..] == [];
    assert x in [x, y] && [x, y][0] == x && [y][0] == y;
    assert Fits(c, 0, 0, x) && !Fits(c, 1, x.volume, y);
    assert Picks([y], c, 1, x.volume) == [false] + Picks([], c, 1, x.volume) == [false];
    assert Picks([x, y], c, 0, 0) == [true] + Picks([y], c, 1, x.volume) == [true, false];
    assert NextBatch([x, y], c) == [x] + Keep([y], [false], true) == [x];
    assert RemoveFirst([x, y], x) == [y];
    assert Rest([x, y], c) == RemoveEach([y], []) == [y];
    LastJob(y, c);
  }

  /** A queue of one placeable job prints it alone. */
  lemma LastJob(x: PrintJob, c: PrinterConstraints)
    requires Placeable([x], c)
    ensures Batches([x], c) == [[x]]
  {
    assert [x][1..] == [] && [true][1..] == [];
    assert x in [x] && [x][0] == x;
    assert Fits(c, 0, 0, x);
    assert Picks([x], c, 0, 0) == [true] + Picks([], c, 1, x.volume) == [true];
    assert NextBatch([x], c) == [x] + Keep([], [], true) == [x];
    assert RemoveFirst([x], x) == [];
    assert Rest([x], c) == RemoveEach([], []) == [];
  }

  lemma PairThenOne(x: PrintJob, y: PrintJob, z: PrintJob)
    ensures OrderOf([[x, y], [z]]) == [x.id, y.id, z.id]
    ensures TimeOf([[x, y], [z]]) == (if x.printTime > y.printTime then x.printTime else y.printTime) + z.printTime
  {
    var b := [[x, y], [z]];
    assert b[0] == [x, y] && b[1..] == [[z]] && [[z]][0] == [z] && [[z]][1..] == [];
    assert [x, y][0] == x && [x, y][1..] == [y] && [y][0] == y && [y][1..] == [] && [z][0] == z && [z][1..] == [];
    assert Ids([x, y]) == [x.id] + Ids([y]) == [x.id, y.id];
    assert Ids([z]) == [z.id];
    assert MaxTime([y]) == y.printTime && MaxTime([z]) == z.printTime;
    assert OrderOf([[z]]) == Ids([z]) + OrderOf([]) == [z.id];
    assert TimeOf([[z]]) == MaxTime([z]) + TimeOf([]) == z.printTime;
  }

  lemma OneByOne(x: PrintJob, y: PrintJob, z: PrintJob)
    ensures OrderOf([[x], [y], [z]]) == [x.id, y.id, z.id]
    ensures TimeOf([[x], [y], [z]]) == x.printTime + y.printTime + z.printTime
  {
    var b := [[x], [y], [z]];
    assert b[0] == [x] && b[1..] == [[y], [z]] && [[y], [z]][0] == [y] && [[y], [z]][1..] == [[z]];
    assert [[z]][0] == [z] && [[z]][1..] == [];
    assert [x][0] == x && [x][1..] == [] && [y][0] == y && [y][1..] == [] && [z][0] == z && [z][1..] == [];
    assert Ids([x]) == [x.id] && Ids([y]) == [y.id] && Ids([z]) == [z.id];
    assert MaxTime([x]) == x.printTime && MaxTime([y]) == y.printTime && MaxTime([z]) == z.printTime;
    assert OrderOf([[z]]) == Ids([z]) + OrderOf([]) == [z.id];
    assert TimeOf([[z]]) == MaxTime([z]) + TimeOf([]) == z.printTime;
    assert OrderOf([[y], [z]]) == [y.id, z.id] && TimeOf([[y], [z]]) == y.printTime + z.printTime;
  }

  lemma Slices3(x: PrintJob, y: PrintJob, z: PrintJob)
    ensures [x, y, z][..2] == [x, y] && [x, y][..1] == [x] && [x][..0] == []
    ensures [x, y, z][1..] == [y, z] && [y, z][1..] == [z] && [z][1..] == []
    ensures [x, y][1..] == [y] && [x][1..] == []
  {
  }

  lemma Masks3(x: PrintJob, y: PrintJob, z: PrintJob, m: seq<bool>)
    requires |m| == 3
    ensures Keep([x, y, z], m, true) == (if m[0] then [x] else []) + (if m[1] then [y] else []) + (if m[2] then [z] else [])
  {
    var s := [x, y, z];
    assert s[0] == x && s[1..] == [y, z] && [y, z][0] == y && [y, z][1..] == [z] && [z][0] == z && [z][1..] == [];
    var m1 := m[1..];
    assert m1[0] == m[1] && m1[1..][0] == m[2] && m1[1..][1..] == [];
    var kz := Keep([z], m1[1..], true);
    assert kz == (if m[2] then [z] else []) + Keep([], [], true);
    var ky := Keep([y, z], m1, true);
    assert ky == (if m[1] then [y] else []) + kz;
  }
}

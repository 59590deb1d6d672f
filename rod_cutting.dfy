/** Rod cutting by dynamic programming (rod_cutting.py).
    `prices[i-1]` is the price of a piece of length `i`; only the lengths
    1..|prices| can be sold as one piece.  The recurrence is written once, as
    the pure functions Opt/Scan/Candidate, and both strategies of the source,
    the memoised top-down one and the tabulated bottom-up one, are proved to
    compute it. */
module RodCutting {

  /** The pair (profit, cuts) that `dp(n)` returns and `memo`, `dp`, `cuts` store. */
  datatype Plan = Plan(profit: int, cuts: seq<nat>)

  /** The dictionary returned to the caller. */
  datatype RodResult = RodResult(maxProfit: int, cuts: seq<nat>, numberOfCuts: nat)

  // ---------------------------------------------------------------------------
  // The recurrence
  // ---------------------------------------------------------------------------

  /** The best plan for a rod of length n: (0, []) at length 0, otherwise the
      result of scanning the first cuts 1..n from the start value (0, []). */
  function Opt(prices: seq<int>, n: nat): (r: Plan)
    ensures r.profit >= 0
    decreases n, 2
  {
    if n == 0 then Plan(0, []) else Scan(prices, n, 1, Plan(0, []))
  }

  /** The profit of cutting a first piece of length i off a rod of length n
      and using the best plan for the remaining n - i. */
  function Candidate(prices: seq<int>, n: nat, i: nat): (r: int)
    requires 1 <= i <= n && i <= |prices|
    ensures r >= prices[i - 1]
    decreases n, 0
  {
    Opt(prices, n - i).profit + prices[i - 1]
  }

  /** The loop over i = the first cut, from i up to n, starting from the best
      plan `acc` found so far: the plan is replaced only by a strictly greater
      profit, and i beyond |prices| is skipped. */
  function Scan(prices: seq<int>, n: nat, i: nat, acc: Plan): (r: Plan)
    requires 1 <= i <= n + 1
    ensures r.profit >= acc.profit
    decreases n, 1, n + 1 - i
  {
    if i > n then acc
    else if i <= |prices| && Candidate(prices, n, i) > acc.profit then
      Scan(prices, n, i + 1, Plan(Candidate(prices, n, i), Opt(prices, n - i).cuts + [i]))
    else
      Scan(prices, n, i + 1, acc)
  }

  /** What both entry points return for a rod of length `length`. */
  function Solve(length: nat, prices: seq<int>): RodResult
  {
    Report(Opt(prices, length))
  }

  /** Packs a plan into the result dictionary: the number of cut points is one
      less than the number of pieces, and 0 when there is no piece. */
  function Report(p: Plan): RodResult
  {
    RodResult(p.profit, p.cuts, if |p.cuts| > 0 then |p.cuts| - 1 else 0)
  }

  // ---------------------------------------------------------------------------
  // Piece lists: their lengths and their total price
  // ---------------------------------------------------------------------------

  /** Every piece has a length that has a price. */
  predicate Priced(prices: seq<int>, pieces: seq<nat>)
  {
    forall k :: 0 <= k < |pieces| ==> 1 <= pieces[k] <= |prices|
  }

  /** Total length of the pieces. */
  function Sum(pieces: seq<nat>): nat
  {
    if pieces == [] then 0 else Sum(pieces[..|pieces| - 1]) + pieces[|pieces| - 1]
  }

  /** Total price of the pieces. */
  function Total(prices: seq<int>, pieces: seq<nat>): int
    requires Priced(prices, pieces)
  {
    if pieces == [] then 0
    else Total(prices, pieces[..|pieces| - 1]) + prices[pieces[|pieces| - 1] - 1]
  }

  // ---------------------------------------------------------------------------
  // The memoised strategy (rod_cutting_memo)
  // ---------------------------------------------------------------------------

  /** Every cached entry is the plan of its length. */
  predicate Cached(prices: seq<int>, memo: map<nat, Plan>)
  {
    forall k :: k in memo ==> memo[k] == Opt(prices, k)
  }

  /** The inner recursive `dp`.  The dictionary `memo`, local to one call of
      rod_cutting_memo and updated by every `dp`, is passed in and handed back. */
  method Dp(prices: seq<int>, n: nat, memo: map<nat, Plan>) returns (r: Plan, memo': map<nat, Plan>)
    requires Cached(prices, memo)
    ensures r == Opt(prices, n)
    ensures Cached(prices, memo') && memo.Keys <= memo'.Keys
    ensures n > 0 ==> n in memo'
    decreases n
  {
    if n == 0 {
      return Plan(0, []), memo;
    }
    if n in memo {
      return memo[n], memo;
    }
    var maxProfit := 0;
    var bestCuts: seq<nat> := [];
    memo' := memo;
    var i := 1;
    while i <= n
      invariant 1 <= i <= n + 1
      invariant Cached(prices, memo') && memo.Keys <= memo'.Keys
      invariant Scan(prices, n, i, Plan(maxProfit, bestCuts)) == Opt(prices, n)
    {
      if i <= |prices| {
        var sub;
        sub, memo' := Dp(prices, n - i, memo');
        var profit := sub.profit;
        profit := profit + prices[i - 1];
        if profit > maxProfit {
          maxProfit := profit;
          bestCuts := sub.cuts + [i];
        }
      }
      i := i + 1;
    }
    memo' := memo'[n := Plan(maxProfit, bestCuts)];
    r := memo'[n];
  }

  /** rod_cutting_memo: one `dp(length)` over an empty dictionary. */
  method RodCuttingMemo(length: nat, prices: seq<int>) returns (res: RodResult)
    ensures res == Solve(length, prices)
  {
    var plan, _ := Dp(prices, length, map[]);
    res := RodResult(plan.profit, plan.cuts, if |plan.cuts| > 0 then |plan.cuts| - 1 else 0);
  }

  // ---------------------------------------------------------------------------
  // The tabulated strategy (rod_cutting_table)
  // ---------------------------------------------------------------------------

  /** rod_cutting_table: `dp[n]` and `cuts[n]` are filled for n = 1..length,
      each by a scan over the first cut i = 1..n. */
  method RodCuttingTable(length: nat, prices: seq<int>) returns (res: RodResult)
    ensures res == Solve(length, prices)
  {
    var dp := new int[length + 1](_ => 0);
    var cuts := new seq<nat>[length + 1](_ => []);
    var n := 1;
    while n <= length
      invariant 1 <= n <= length + 1
      invariant forall k :: 0 <= k < n ==> dp[k] == Opt(prices, k).profit && cuts[k] == Opt(prices, k).cuts
      invariant forall k :: n <= k <= length ==> dp[k] == 0 && cuts[k] == []
    {
      var i := 1;
      while i <= n
        invariant 1 <= i <= n + 1
        invariant forall k :: 0 <= k < n ==> dp[k] == Opt(prices, k).profit && cuts[k] == Opt(prices, k).cuts
        invariant forall k :: n < k <= length ==> dp[k] == 0 && cuts[k] == []
        invariant Scan(prices, n, i, Plan(dp[n], cuts[n])) == Opt(prices, n)
      {
        if i <= |prices| {
          var profit := dp[n - i] + prices[i - 1];
          if dp[n] < profit {
            dp[n] := profit;
            cuts[n] := cuts[n - i] + [i];
          }
        }
        i := i + 1;
      }
      n := n + 1;
    }
    res := RodResult(dp[length], cuts[length], if |cuts[length]| > 0 then |cuts[length]| - 1 else 0);
  }

  /** Both strategies return the same profit, cuts and number of cuts. */
  method StrategiesAgree(length: nat, prices: seq<int>) returns (memoResult: RodResult, tableResult: RodResult)
    ensures memoResult == tableResult
  {
    memoResult := RodCuttingMemo(length, prices);
    tableResult := RodCuttingTable(length, prices);
  }

  // ---------------------------------------------------------------------------
  // What the recurrence chooses
  // ---------------------------------------------------------------------------

  /** The facts a scan keeps about its best plan so far, after the first cuts
      1..i-1 have been tried: no candidate beat it; the empty plan has profit 0;
      a non-empty plan ends with the first cut c that reached its profit, and
      no smaller cut reached that profit. */
  predicate ChoiceSoFar(prices: seq<int>, n: nat, i: nat, acc: Plan)
    requires 1 <= i <= n + 1
  {
    && acc.profit >= 0
    && (forall j :: 1 <= j < i && j <= |prices| ==> Candidate(prices, n, j) <= acc.profit)
    && (acc.cuts == [] ==> acc.profit == 0)
    && (acc.cuts != [] ==> acc.profit > 0)
    && (acc.cuts != [] ==>
          var c := acc.cuts[|acc.cuts| - 1];
          && 1 <= c < i && c <= |prices|
          && acc.profit == Candidate(prices, n, c)
          && acc.cuts == Opt(prices, n - c).cuts + [c]
          && forall j :: 1 <= j < c ==> Candidate(prices, n, j) < acc.profit)
  }

  lemma {:induction false} ScanChoice(prices: seq<int>, n: nat, i: nat, acc: Plan)
    requires 1 <= i <= n + 1
    requires ChoiceSoFar(prices, n, i, acc)
    ensures ChoiceSoFar(prices, n, n + 1, Scan(prices, n, i, acc))
    decreases n + 1 - i
  {
    if i <= n {
      if i <= |prices| && Candidate(prices, n, i) > acc.profit {
        var next := Plan(Candidate(prices, n, i), Opt(prices, n - i).cuts + [i]);
        assert next.cuts[|next.cuts| - 1] == i;
        ScanChoice(prices, n, i + 1, next);
      } else {
        ScanChoice(prices, n, i + 1, acc);
      }
    }
  }

  /** The recurrence exactly: for n > 0 the profit is at least 0 and at least
      every candidate first cut; it is 0 with no cuts when no candidate is
      positive; otherwise the last cut c is the smallest first cut whose
      candidate reaches the profit (ties keep the smaller cut), and the cuts
      are those of n - c followed by c. */
  lemma OptChoice(prices: seq<int>, n: nat)
    requires n > 0
    ensures var r := Opt(prices, n);
      && r.profit >= 0
      && (forall j :: 1 <= j <= n && j <= |prices| ==> Candidate(prices, n, j) <= r.profit)
      && (r.cuts == [] <==> forall j :: 1 <= j <= n && j <= |prices| ==> Candidate(prices, n, j) <= 0)
      && (r.cuts == [] ==> r.profit == 0)
      && (r.cuts != [] ==>
            var c := r.cuts[|r.cuts| - 1];
            && 1 <= c <= n && c <= |prices|
            && r.profit == Candidate(prices, n, c)
            && r.cuts == Opt(prices, n - c).cuts + [c]
            && forall j :: 1 <= j < c ==> Candidate(prices, n, j) < r.profit)
  {
    ScanChoice(prices, n, 1, Plan(0, []));
    var r := Opt(prices, n);
    if r.cuts != [] {
      var c := r.cuts[|r.cuts| - 1];
      assert 1 <= c <= n && c <= |prices| && Candidate(prices, n, c) > 0;
      assert !(forall j :: 1 <= j <= n && j <= |prices| ==> Candidate(prices, n, j) <= 0);
    }
  }

  // ---------------------------------------------------------------------------
  // Profit and cuts agree; the plan is optimal
  // ---------------------------------------------------------------------------

  lemma {:induction false} SumSnoc(pieces: seq<nat>, c: nat)
    ensures Sum(pieces + [c]) == Sum(pieces) + c
  {
    assert (pieces + [c])[..|pieces|] == pieces;
  }

  lemma {:induction false} TotalSnoc(prices: seq<int>, pieces: seq<nat>, c: nat)
    requires Priced(prices, pieces) && 1 <= c <= |prices|
    ensures Priced(prices, pieces + [c])
    ensures Total(prices, pieces + [c]) == Total(prices, pieces) + prices[c - 1]
  {
    assert (pieces + [c])[..|pieces|] == pieces;
  }

  /** The profit is the total price of the cuts; every cut is between 1 and
      min(n, |prices|); the cuts use at most the whole rod. */
  lemma {:induction false} CutsAccountForProfit(prices: seq<int>, n: nat)
    ensures var r := Opt(prices, n);
      && Priced(prices, r.cuts)
      && (forall k :: 0 <= k < |r.cuts| ==> r.cuts[k] <= n)
      && r.profit == Total(prices, r.cuts)
      && Sum(r.cuts) <= n
    decreases n
  {
    if n > 0 {
      OptChoice(prices, n);
      var r := Opt(prices, n);
      if r.cuts != [] {
        var c := r.cuts[|r.cuts| - 1];
        var sub := Opt(prices, n - c).cuts;
        CutsAccountForProfit(prices, n - c);
        TotalSnoc(prices, sub, c);
        SumSnoc(sub, c);
        forall k | 0 <= k < |r.cuts| ensures r.cuts[k] <= n {
          if k < |sub| {
            assert r.cuts[k] == sub[k];
          }
        }
      }
    }
  }

  /** Optimality: no list of priced pieces that fits in the rod sells for more
      than the profit, and neither does selling nothing. */
  lemma {:induction false} OptIsUpperBound(prices: seq<int>, n: nat, pieces: seq<nat>)
    requires Priced(prices, pieces) && Sum(pieces) <= n
    ensures Opt(prices, n).profit >= 0
    ensures Total(prices, pieces) <= Opt(prices, n).profit
    decreases |pieces|
  {
    if n > 0 {
      OptChoice(prices, n);
    }
    if pieces != [] {
      var rest := pieces[..|pieces| - 1];
      var c := pieces[|pieces| - 1];
      assert Priced(prices, rest);
      OptIsUpperBound(prices, n - c, rest);
      assert Candidate(prices, n, c) == Opt(prices, n - c).profit + prices[c - 1];
    }
  }

  /** The profit is the maximum: it is reached by the plan's own cuts, and no
      fitting list of priced pieces does better. */
  lemma OptIsMaximum(prices: seq<int>, n: nat)
    ensures var r := Opt(prices, n);
      && Priced(prices, r.cuts) && Sum(r.cuts) <= n && r.profit == Total(prices, r.cuts)
      && forall pieces :: Priced(prices, pieces) && Sum(pieces) <= n ==> Total(prices, pieces) <= r.profit
  {
    CutsAccountForProfit(prices, n);
    forall pieces | Priced(prices, pieces) && Sum(pieces) <= n
      ensures Total(prices, pieces) <= Opt(prices, n).profit
    {
      OptIsUpperBound(prices, n, pieces);
    }
  }

  /** A longer rod never sells for less. */
  lemma ProfitMonotone(prices: seq<int>, m: nat, n: nat)
    requires m <= n
    ensures Opt(prices, m).profit <= Opt(prices, n).profit
  {
    CutsAccountForProfit(prices, m);
    OptIsUpperBound(prices, n, Opt(prices, m).cuts);
  }

  /** One more unit of rod is worth at least the price of a piece of length 1;
      with a positive price for it, profit strictly increases with length. */
  lemma ProfitGrowsByFirstPrice(prices: seq<int>, n: nat)
    requires |prices| >= 1
    ensures Opt(prices, n + 1).profit >= Opt(prices, n).profit + prices[0]
    ensures prices[0] > 0 ==> Opt(prices, n + 1).profit > Opt(prices, n).profit
  {
    OptChoice(prices, n + 1);
    assert Candidate(prices, n + 1, 1) == Opt(prices, n).profit + prices[0];
  }

  predicate AllPositive(prices: seq<int>)
  {
    forall k :: 0 <= k < |prices| ==> prices[k] > 0
  }

  /** With a non-empty list of positive prices the cuts use the whole rod, and
      a rod of positive length is always cut into at least one piece. */
  lemma {:induction false} PositivePricesUseWholeRod(prices: seq<int>, n: nat)
    requires |prices| >= 1 && AllPositive(prices)
    ensures Sum(Opt(prices, n).cuts) == n
    ensures n > 0 ==> Opt(prices, n).cuts != []
    decreases n
  {
    if n > 0 {
      OptChoice(prices, n);
      OptIsUpperBound(prices, n - 1, []);
      assert Candidate(prices, n, 1) > 0;
      var r := Opt(prices, n);
      var c := r.cuts[|r.cuts| - 1];
      PositivePricesUseWholeRod(prices, n - c);
      SumSnoc(Opt(prices, n - c).cuts, c);
    }
  }

  /** With no prices nothing can be sold: profit 0 and no cuts, at every length. */
  lemma EmptyPricesSellNothing(prices: seq<int>, n: nat)
    requires prices == []
    ensures Opt(prices, n) == Plan(0, [])
  {
    if n > 0 {
      OptChoice(prices, n);
    }
  }

  // ---------------------------------------------------------------------------
  // The result dictionary
  // ---------------------------------------------------------------------------

  /** The result of either strategy: profit equals the total price of the cuts,
      each cut is priced and at most the length, number_of_cuts counts the cut
      points between the pieces, and a rod of length 0 gives (0, [], 0). */
  lemma SolveShape(length: nat, prices: seq<int>)
    ensures var res := Solve(length, prices);
      && Priced(prices, res.cuts)
      && (forall k :: 0 <= k < |res.cuts| ==> res.cuts[k] <= length)
      && res.maxProfit == Total(prices, res.cuts)
      && Sum(res.cuts) <= length
      && (res.cuts != [] ==> res.numberOfCuts + 1 == |res.cuts|)
      && (res.cuts == [] ==> res.numberOfCuts == 0 && res.maxProfit == 0)
      && (length == 0 ==> res == RodResult(0, [], 0))
  {
    CutsAccountForProfit(prices, length);
    if length > 0 {
      OptChoice(prices, length);
    }
  }

  /** With positive prices a rod of length n > 0 has fewer than n cut points. */
  lemma CutPointsBelowLength(length: nat, prices: seq<int>)
    requires |prices| >= 1 && AllPositive(prices) && length > 0
    ensures Solve(length, prices).numberOfCuts < length
  {
    var cuts := Opt(prices, length).cuts;
    PositivePricesUseWholeRod(prices, length);
    CutsAccountForProfit(prices, length);
    SumAtLeastCount(cuts);
  }

  lemma {:induction false} SumAtLeastCount(pieces: seq<nat>)
    requires forall k :: 0 <= k < |pieces| ==> pieces[k] >= 1
    ensures Sum(pieces) >= |pieces|
  {
    if pieces != [] {
      SumAtLeastCount(pieces[..|pieces| - 1]);
    }
  }

  // ---------------------------------------------------------------------------
  // The demonstration inputs
  // ---------------------------------------------------------------------------

  /** Length 5 with prices [2, 5, 7, 8, 10]: profit 12; the profit ties at
      cuts [2, 3] and [1, ...], and the smaller first cut wins, giving [2, 2, 1]. */
  lemma ExampleBaseCase()
    ensures Solve(5, [2, 5, 7, 8, 10]) == RodResult(12, [2, 2, 1], 2)
  {
    var p := [2, 5, 7, 8, 10];
    assert Opt(p, 1) == Plan(2, [1]);
    assert Opt(p, 2) == Plan(5, [2]);
    assert Opt(p, 3) == Plan(7, [2, 1]);
    assert Opt(p, 4) == Plan(10, [2, 2]);
  }

  /** Length 3 with prices [1, 3, 8]: keep the rod whole, profit 8, no cut point. */
  lemma ExampleNoCut()
    ensures Solve(3, [1, 3, 8]) == RodResult(8, [3], 0)
  {
    var p := [1, 3, 8];
    assert Opt(p, 1) == Plan(1, [1]);
    assert Opt(p, 2) == Plan(3, [2]);
  }

  /** Length 4 with prices [3, 5, 6, 7]: four pieces of length 1, profit 12. */
  lemma ExampleUniformCuts()
    ensures Solve(4, [3, 5, 6, 7]) == RodResult(12, [1, 1, 1, 1], 3)
  {
    var p := [3, 5, 6, 7];
    assert Opt(p, 1) == Plan(3, [1]);
    assert Opt(p, 2) == Plan(6, [1, 1]);
    assert Opt(p, 3) == Plan(9, [1, 1, 1]);
  }
}

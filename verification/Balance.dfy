/** Swap refinement and the balanced partition built on it (src/prime_rl/trainer/utils.py:225-265). */
module Balance {
  import opened Arithmetic
  import opened Sequences
  import opened KarmarkarKarp

  type Score = (int, int)

  /** Python's order on pairs. */
  predicate Better(a: Score, b: Score) {
    a.0 < b.0 || (a.0 == b.0 && a.1 < b.1)
  }

  function ScoreOf(loads: seq<int>): Score
    requires loads != []
  {
    (Max(loads), Max(loads) - Min(loads))
  }

  datatype Swap = Swap(left: nat, right: nat, leftPos: nat, rightPos: nat) {
    predicate Fits(parts: seq<seq<int>>) {
      left < right < |parts| && leftPos < |parts[left]| && rightPos < |parts[right]|
    }

    /** Comes before position (l, r, lp, rp) in the nested loops. */
    predicate Before(l: int, r: int, lp: int, rp: int) {
      left < l || (left == l && (right < r || (right == r && (leftPos < lp || (leftPos == lp && rightPos < rp)))))
    }
  }

  function Swapped(parts: seq<seq<int>>, s: Swap): seq<seq<int>>
    requires s.Fits(parts)
  {
    var x, y := parts[s.left][s.leftPos], parts[s.right][s.rightPos];
    parts[s.left := parts[s.left][s.leftPos := y]][s.right := parts[s.right][s.rightPos := x]]
  }

  function SwappedLoads(weights: seq<int>, parts: seq<seq<int>>, loads: seq<int>, s: Swap): (r: seq<int>)
    requires s.Fits(parts) && AllInRange(parts, |weights|) && |loads| == |parts|
    ensures |r| == |loads|
  {
    var d := weights[parts[s.left][s.leftPos]] - weights[parts[s.right][s.rightPos]];
    loads[s.left := loads[s.left] - d][s.right := loads[s.right] + d]
  }

  /** No single swap between two parts improves (max load, spread). */
  ghost predicate SwapOptimal(weights: seq<int>, parts: seq<seq<int>>)
    requires parts != [] && AllInRange(parts, |weights|)
  {
    forall s: Swap :: s.Fits(parts) ==>
      !Better(ScoreOf(SwappedLoads(weights, parts, Loads(weights, parts), s)), ScoreOf(Loads(weights, parts)))
  }

  // ---- One accepted swap ----

  /** Moving `d` from load `l` to load `r`, if it improves the pair (max, spread), strictly
      shrinks the spread, never lowers the minimum and never raises the maximum. */
  lemma AcceptedSwapShrinks(loads: seq<int>, moved: seq<int>, l: nat, r: nat, d: int)
    requires |moved| == |loads| && l < |loads| && r < |loads| && l != r
    requires moved[l] == loads[l] - d && moved[r] == loads[r] + d
    requires forall i :: 0 <= i < |loads| && i != l && i != r ==> moved[i] == loads[i]
    requires Better(ScoreOf(moved), ScoreOf(loads))
    ensures Max(moved) <= Max(loads) && Min(moved) >= Min(loads)
    ensures Spread(moved) < Spread(loads)
  {
    var lo :| 0 <= lo < |moved| && moved[lo] == Min(moved);
    var hi :| 0 <= hi < |loads| && loads[hi] == Max(loads);
    assert moved[l] <= Max(moved) && moved[r] <= Max(moved) && moved[hi] <= Max(moved);
    if lo != l && lo != r {
      assert moved[lo] == loads[lo];
    }
  }

  lemma {:induction false} LoadUpdate(weights: seq<int>, items: seq<int>, i: nat, x: int)
    requires InRange(items, |weights|) && i < |items| && 0 <= x < |weights|
    ensures InRange(items[i := x], |weights|)
    ensures Load(weights, items[i := x]) == Load(weights, items) - weights[items[i]] + weights[x]
  {
    if i == 0 {
      assert items[i := x][1..] == items[1..];
    } else {
      assert items[i := x][1..] == items[1..][i - 1 := x];
      LoadUpdate(weights, items[1..], i - 1, x);
    }
  }

  lemma SwapMovesLoads(weights: seq<int>, parts: seq<seq<int>>, s: Swap)
    requires s.Fits(parts) && AllInRange(parts, |weights|)
    ensures AllInRange(Swapped(parts, s), |weights|)
    ensures Loads(weights, Swapped(parts, s)) == SwappedLoads(weights, parts, Loads(weights, parts), s)
  {
    LoadUpdate(weights, parts[s.left], s.leftPos, parts[s.right][s.rightPos]);
    LoadUpdate(weights, parts[s.right], s.rightPos, parts[s.left][s.leftPos]);
  }

  lemma SwapKeepsContents(parts: seq<seq<int>>, s: Swap)
    requires s.Fits(parts)
    ensures Contents(Swapped(parts, s)) == Contents(parts)
  {
    var x, y := parts[s.left][s.leftPos], parts[s.right][s.rightPos];
    var a, b := parts[s.left][s.leftPos := y], parts[s.right][s.rightPos := x];
    ContentsUpdate(parts, s.left, a);
    ContentsUpdate(parts[s.left := a], s.right, b);
    UpdateContents(parts[s.left], s.leftPos, y);
    UpdateContents(parts[s.right], s.rightPos, x);
    Cancel(Contents(parts), Contents(parts[s.left := a]), Contents(Swapped(parts, s)),
           multiset(parts[s.left]), multiset(a), multiset(parts[s.right]), multiset(b), x, y);
  }

  lemma UpdateContents(items: seq<int>, i: nat, x: int)
    requires i < |items|
    ensures multiset(items[i := x]) + multiset{items[i]} == multiset(items) + multiset{x}
  {
    assert items == items[..i] + ([items[i]] + items[i + 1..]);
    assert items[i := x] == items[..i] + ([x] + items[i + 1..]);
  }

  lemma Cancel(before: multiset<int>, mid: multiset<int>, after: multiset<int>,
               left: multiset<int>, a: multiset<int>, right: multiset<int>, b: multiset<int>, x: int, y: int)
    requires mid + left == before + a && after + right == mid + b
    requires a + multiset{x} == left + multiset{y} && b + multiset{y} == right + multiset{x}
    ensures after == before
  {
    forall e: int
      ensures after[e] == before[e]
    {
      assert (mid + left)[e] == (before + a)[e];
      assert (after + right)[e] == (mid + b)[e];
      assert (a + multiset{x})[e] == (left + multiset{y})[e];
      assert (b + multiset{y})[e] == (right + multiset{x})[e];
    }
  }

  // ---- The refinement loop ----

  /** What the search knows on reaching position (l, r, lp, rp): nothing seen so far beats `best`. */
  ghost predicate Searched(weights: seq<int>, parts: seq<seq<int>>, loads: seq<int>, best: Score,
                           found: bool, swap: Swap, l: int, r: int, lp: int, rp: int)
    requires AllInRange(parts, |weights|) && |loads| == |parts| > 0
  {
    && (forall s: Swap :: s.Fits(parts) && s.Before(l, r, lp, rp) ==>
      !Better(ScoreOf(SwappedLoads(weights, parts, loads, s)), best))
    && (!found ==> best == ScoreOf(loads))
    && (found ==>
      && swap.Fits(parts) && best == ScoreOf(SwappedLoads(weights, parts, loads, swap))
      && Better(best, ScoreOf(loads)))
  }

  lemma Considered(weights: seq<int>, parts: seq<seq<int>>, loads: seq<int>, best: Score, found: bool, swap: Swap,
                   c: Swap)
    requires AllInRange(parts, |weights|) && |loads| == |parts| > 0 && c.Fits(parts)
    requires Searched(weights, parts, loads, best, found, swap, c.left, c.right, c.leftPos, c.rightPos)
    ensures var score := ScoreOf(SwappedLoads(weights, parts, loads, c));
      if Better(score, best) then
        Searched(weights, parts, loads, score, true, c, c.left, c.right, c.leftPos, c.rightPos + 1)
      else
        Searched(weights, parts, loads, best, found, swap, c.left, c.right, c.leftPos, c.rightPos + 1)
  {
    forall s: Swap | s.Fits(parts) && s.Before(c.left, c.right, c.leftPos, c.rightPos + 1)
      ensures s == c || s.Before(c.left, c.right, c.leftPos, c.rightPos)
    {
    }
  }

  /** The two inner loops: every pair of items of parts `l` and `r`. */
  method BestForParts(weights: seq<int>, parts: seq<seq<int>>, loads: seq<int>, l: nat, r: nat,
                      best0: Score, found0: bool, swap0: Swap)
    returns (best: Score, found: bool, swap: Swap)
    requires AllInRange(parts, |weights|) && |loads| == |parts| > 0 && l < r < |parts|
    requires Searched(weights, parts, loads, best0, found0, swap0, l, r, 0, 0)
    ensures Searched(weights, parts, loads, best, found, swap, l, r + 1, 0, 0)
  {
    best, found, swap := best0, found0, swap0;
    for lp := 0 to |parts[l]|
      invariant Searched(weights, parts, loads, best, found, swap, l, r, lp, 0)
    {
      for rp := 0 to |parts[r]|
        invariant Searched(weights, parts, loads, best, found, swap, l, r, lp, rp)
      {
        var candidate := Swap(l, r, lp, rp);
        var score := ScoreOf(SwappedLoads(weights, parts, loads, candidate));
        Considered(weights, parts, loads, best, found, swap, candidate);
        if Better(score, best) {
          best, found, swap := score, true, candidate;
        }
      }
    }
  }

  method BestSwap(weights: seq<int>, parts: seq<seq<int>>, loads: seq<int>)
    returns (found: bool, swap: Swap)
    requires AllInRange(parts, |weights|) && |loads| == |parts| > 0
    ensures found ==> swap.Fits(parts)
    ensures found ==> Better(ScoreOf(SwappedLoads(weights, parts, loads, swap)), ScoreOf(loads))
    ensures var best := if found then ScoreOf(SwappedLoads(weights, parts, loads, swap)) else ScoreOf(loads);
      forall s: Swap :: s.Fits(parts) ==> !Better(ScoreOf(SwappedLoads(weights, parts, loads, s)), best)
  {
    found, swap := false, Swap(0, 0, 0, 0);
    var best := ScoreOf(loads);
    for l := 0 to |parts|
      invariant Searched(weights, parts, loads, best, found, swap, l, l + 1, 0, 0)
    {
      for r := l + 1 to |parts|
        invariant Searched(weights, parts, loads, best, found, swap, l, r, 0, 0)
      {
        best, found, swap := BestForParts(weights, parts, loads, l, r, best, found, swap);
      }
    }
  }

  /** `to` has the part sizes and contents of `from`, and loads within those of `from`. */
  ghost predicate Refines(weights: seq<int>, from: seq<seq<int>>, to: seq<seq<int>>)
    requires AllInRange(from, |weights|) && from != []
  {
    && |to| == |from| && AllInRange(to, |weights|)
    && (forall i :: 0 <= i < |from| ==> |to[i]| == |from[i]|)
    && Contents(to) == Contents(from)
    && Max(Loads(weights, to)) <= Max(Loads(weights, from))
    && Min(Loads(weights, to)) >= Min(Loads(weights, from))
  }

  lemma SwappedLoadsShrink(weights: seq<int>, parts: seq<seq<int>>, loads: seq<int>, s: Swap)
    requires AllInRange(parts, |weights|) && |loads| == |parts| > 0 && s.Fits(parts)
    requires Better(ScoreOf(SwappedLoads(weights, parts, loads, s)), ScoreOf(loads))
    ensures var moved := SwappedLoads(weights, parts, loads, s);
      Max(moved) <= Max(loads) && Min(moved) >= Min(loads) && Spread(moved) < Spread(loads)
  {
    var moved := SwappedLoads(weights, parts, loads, s);
    AcceptedSwapShrinks(loads, moved, s.left, s.right, loads[s.left] - moved[s.left]);
  }

  lemma SwapStep(weights: seq<int>, parts: seq<seq<int>>, s: Swap)
    requires parts != [] && AllInRange(parts, |weights|) && s.Fits(parts)
    requires Better(ScoreOf(SwappedLoads(weights, parts, Loads(weights, parts), s)), ScoreOf(Loads(weights, parts)))
    ensures Refines(weights, parts, Swapped(parts, s))
    ensures Loads(weights, Swapped(parts, s)) == SwappedLoads(weights, parts, Loads(weights, parts), s)
    ensures Spread(Loads(weights, Swapped(parts, s))) < Spread(Loads(weights, parts))
  {
    var loads := Loads(weights, parts);
    SwappedLoadsShrink(weights, parts, loads, s);
    SwapMovesLoads(weights, parts, s);
    SwapKeepsContents(parts, s);
  }

  lemma RefinesTransitive(weights: seq<int>, a: seq<seq<int>>, b: seq<seq<int>>, c: seq<seq<int>>)
    requires AllInRange(a, |weights|) && a != [] && Refines(weights, a, b) && Refines(weights, b, c)
    ensures Refines(weights, a, c)
  {
  }

  method RefineBySwapping(weights: seq<int>, parts: seq<seq<int>>) returns (refined: seq<seq<int>>)
    requires parts != [] && AllInRange(parts, |weights|)
    ensures Refines(weights, parts, refined)
    ensures SwapOptimal(weights, refined)
  {
    refined := parts;
    var loads := Loads(weights, parts);
    while true
      invariant Refines(weights, parts, refined) && loads == Loads(weights, refined)
      decreases Spread(loads)
    {
      var found, swap := BestSwap(weights, refined, loads);
      if !found {
        return;
      }
      SwapStep(weights, refined, swap);
      RefinesTransitive(weights, parts, refined, Swapped(refined, swap));
      loads := SwappedLoads(weights, refined, loads, swap);
      refined := Swapped(refined, swap);
    }
  }

  /** What swap-optimal means: exchanging any item of one part with any item of a later one makes the heaviest load
      heavier, or leaves it and does not bring the loads closer together. */
  lemma NoSwapHelps(weights: seq<int>, parts: seq<seq<int>>, i: nat, j: nat, p: nat, q: nat)
    requires parts != [] && AllInRange(parts, |weights|) && SwapOptimal(weights, parts)
    requires i < j < |parts| && p < |parts[i]| && q < |parts[j]|
    ensures var swapped := parts[i := parts[i][p := parts[j][q]]][j := parts[j][q := parts[i][p]]];
      && AllInRange(swapped, |weights|)
      && Max(Loads(weights, swapped)) >= Max(Loads(weights, parts))
      && (Max(Loads(weights, swapped)) == Max(Loads(weights, parts)) ==>
            Spread(Loads(weights, swapped)) >= Spread(Loads(weights, parts)))
  {
    var s := Swap(i, j, p, q);
    assert s.Fits(parts);
    SwapMovesLoads(weights, parts, s);
    assert Swapped(parts, s) == parts[i := parts[i][p := parts[j][q]]][j := parts[j][q := parts[i][p]]];
  }

  // ---- The whole partition ----

  /** Equal-sized parts using every index once, no two loads further apart than the widest chunk of
      `k` consecutive sorted weights, and no single swap left that helps. */
  method BalancedPartition(weights: seq<int>, k: nat) returns (parts: seq<seq<int>>)
    requires 0 < k <= |weights| && |weights| % k == 0
    ensures |parts| == k && Covers(parts, |weights|) && AllInRange(parts, |weights|)
    ensures forall i :: 0 <= i < k ==> |parts[i]| == |weights| / k
    ensures Spread(Loads(weights, parts)) <= ChunkSpread(WeightedIndices(weights), k)
    ensures SwapOptimal(weights, parts)
  {
    var first := KarmarkarKarp.Run(weights, k);
    parts := RefineBySwapping(weights, first);
  }

  lemma WidestChunk(weights: seq<int>, k: nat)
    requires 0 < k <= |weights| && |weights| % k == 0
    ensures ChunkSpread(WeightedIndices(weights), k) <= Max(weights) - Min(weights)
  {
    WeightedIndicesAre(weights);
    ChunkSpreadAtMost(WeightedIndices(weights), k, Min(weights), Max(weights));
  }

  // ---- How good any partition with a bounded spread is ----

  lemma {:induction false} SumBelow(loads: seq<int>, hi: int)
    requires forall i :: 0 <= i < |loads| ==> loads[i] <= hi
    ensures Sum(loads) <= |loads| * hi
  {
    if loads != [] {
      SumBelow(loads[1..], hi);
      Distribute(|loads| - 1, hi);
    }
  }

  lemma {:induction false} SumAbove(loads: seq<int>, lo: int)
    requires forall i :: 0 <= i < |loads| ==> lo <= loads[i]
    ensures |loads| * lo <= Sum(loads)
  {
    if loads != [] {
      SumAbove(loads[1..], lo);
      Distribute(|loads| - 1, lo);
    }
  }

  lemma LoadNearMean(loads: seq<int>, i: nat, lo: int)
    requires i < |loads| && forall j :: 0 <= j < |loads| ==> lo <= loads[j]
    ensures |loads| * loads[i] <= Sum(loads) + (|loads| - 1) * (loads[i] - lo)
  {
    SumSplit(loads, i);
    SumAbove(Without(loads, i), lo);
    MeanBound(|loads| - 1, loads[i], Sum(Without(loads, i)), loads[i] - lo);
  }

  lemma MaxNearMean(loads: seq<int>, d: int)
    requires loads != [] && Spread(loads) <= d
    ensures |loads| * Max(loads) <= Sum(loads) + (|loads| - 1) * d
  {
    var hi :| 0 <= hi < |loads| && loads[hi] == Max(loads);
    LoadNearMean(loads, hi, Max(loads) - d);
  }

  lemma MeanBound(m: int, hi: int, rest: int, d: int)
    requires m * (hi - d) <= rest
    ensures (m + 1) * hi <= hi + rest + m * d
  {
  }

  lemma Unscale(n: int, lo: int, hi: int)
    requires n > 0 && n * lo <= n * hi
    ensures lo <= hi
  {
    MulSteps(n, lo - hi);
    assert n * (lo - hi) == n * lo - n * hi;
  }

  lemma {:induction false} LoadsOfFlat(weights: seq<int>, parts: seq<seq<int>>)
    requires AllInRange(parts, |weights|)
    ensures InRange(Flat(parts), |weights|) && multiset(Flat(parts)) == Contents(parts)
    ensures Sum(Loads(weights, parts)) == Load(weights, Flat(parts))
  {
    if parts != [] {
      LoadsOfFlat(weights, parts[1..]);
      assert Loads(weights, parts)[1..] == Loads(weights, parts[1..]);
      LoadConcat(weights, parts[0], Flat(parts[1..]));
    }
  }

  lemma {:induction false} LoadOfRange(weights: seq<int>, from: nat)
    requires from <= |weights|
    ensures Load(weights, Indices(|weights|)[from..]) == Sum(weights[from..])
    decreases |weights| - from
  {
    if from < |weights| {
      LoadOfRange(weights, from + 1);
      assert Indices(|weights|)[from..][1..] == Indices(|weights|)[from + 1..];
      assert weights[from..][1..] == weights[from + 1..];
    }
  }

  /** Whatever the partition, the loads add up to the weights. */
  lemma LoadsAddUp(weights: seq<int>, parts: seq<seq<int>>)
    requires AllInRange(parts, |weights|) && Covers(parts, |weights|)
    ensures Sum(Loads(weights, parts)) == Sum(weights)
  {
    LoadsOfFlat(weights, parts);
    LoadOfContents(weights, Flat(parts), Indices(|weights|));
    LoadOfRange(weights, 0);
    assert Indices(|weights|)[0..] == Indices(|weights|) && weights[0..] == weights;
  }

  /** The heaviest part of a partition with spread at most `d` is within `d` of the heaviest part of
      ANY division of the same items over as many parts, and close to the mean. */
  lemma NearOptimal(weights: seq<int>, parts: seq<seq<int>>, d: int, other: seq<seq<int>>)
    requires AllInRange(parts, |weights|) && Covers(parts, |weights|)
    requires AllInRange(other, |weights|) && Covers(other, |weights|)
    requires |parts| == |other| > 0
    requires Spread(Loads(weights, parts)) <= d
    ensures |parts| * Max(Loads(weights, parts)) <= Sum(weights) + (|parts| - 1) * d
    ensures Max(Loads(weights, parts)) <= Max(Loads(weights, other)) + d
  {
    LoadsAddUp(weights, parts);
    LoadsAddUp(weights, other);
    MaxNearMean(Loads(weights, parts), d);
    SumAbove(Loads(weights, parts), Min(Loads(weights, parts)));
    SumBelow(Loads(weights, other), Max(Loads(weights, other)));
    Unscale(|parts|, Min(Loads(weights, parts)), Max(Loads(weights, other)));
  }
}

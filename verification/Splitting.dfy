/** Splitting bins by workload until there are enough of them
    (src/prime_rl/trainer/batch.py:222-242, 315-329; src/prime_rl/trainer/utils.py:157-158). */
module Splitting {
  import opened Arithmetic
  import opened Sequences
  import opened Wrappers
  import opened MicroBatches
  import opened Packing

  /** FLOP coefficients of `build_bin_cost`. */
  datatype CostModel = CostModel(linear: nat, quadratic: nat)

  function Squares(lengths: seq<int>): (r: seq<int>)
    ensures |r| == |lengths| && forall i :: 0 <= i < |r| ==> r[i] == lengths[i] * lengths[i]
  {
    seq(|lengths|, i requires 0 <= i < |lengths| => lengths[i] * lengths[i])
  }

  function BinCost(c: CostModel, lengths: seq<int>): int {
    c.linear * Sum(lengths) + c.quadratic * Sum(Squares(lengths))
  }

  function Workload(c: CostModel, samples: seq<Packed>): int { BinCost(c, Lengths(samples)) }

  function ItemCost(c: CostModel, p: Packed): int { BinCost(c, [|p.sample.ids|]) }

  function HeavierFirst(c: CostModel): (Packed, Packed) -> bool {
    (a, b) => ItemCost(c, a) >= ItemCost(c, b)
  }

  /** Greedy placement of ranked samples, each on the side that is lighter so far. */
  function Dealt(c: CostModel, ranked: seq<Packed>): (r: (seq<Packed>, seq<Packed>)) {
    if ranked == [] then ([], [])
    else
      var (left, right) := Dealt(c, ranked[..|ranked| - 1]);
      var last := ranked[|ranked| - 1];
      if Workload(c, left) <= Workload(c, right) then (left + [last], right) else (left, right + [last])
  }

  function Split(c: CostModel, samples: seq<Packed>): (seq<Packed>, seq<Packed>) {
    Dealt(c, Sorted(HeavierFirst(c), samples))
  }

  // ---- Costs add up ----

  lemma CostConcat(c: CostModel, a: seq<int>, b: seq<int>)
    ensures BinCost(c, a + b) == BinCost(c, a) + BinCost(c, b)
  {
    SumConcat(a, b);
    SumConcat(Squares(a), Squares(b));
    assert Squares(a + b) == Squares(a) + Squares(b);
    Distributes(c.linear, Sum(a), Sum(b));
    Distributes(c.quadratic, Sum(Squares(a)), Sum(Squares(b)));
  }

  /** The cost model: an empty bin costs nothing, a sequence of `n` tokens its linear and its quadratic share, and bins
      add up. */
  lemma CostIs(c: CostModel, n: nat, a: seq<int>, b: seq<int>)
    ensures BinCost(c, []) == 0 && BinCost(c, [n]) == c.linear * n + c.quadratic * (n * n)
    ensures BinCost(c, a + b) == BinCost(c, a) + BinCost(c, b)
  {
    CostConcat(c, a, b);
    assert [n][1..] == [] && Squares([n]) == [n * n] && [n * n][1..] == [] && Squares([]) == [];
    assert Sum([n]) == n && Sum([n * n]) == n * n;
  }

  lemma WorkloadConcat(c: CostModel, a: seq<Packed>, b: seq<Packed>)
    ensures Workload(c, a + b) == Workload(c, a) + Workload(c, b)
  {
    assert Lengths(a + b) == Lengths(a) + Lengths(b);
    CostConcat(c, Lengths(a), Lengths(b));
  }

  lemma WorkloadOfOne(c: CostModel, p: Packed)
    ensures Workload(c, [p]) == ItemCost(c, p)
  {
    assert Lengths([p]) == [|p.sample.ids|];
  }

  lemma NoWorkload(c: CostModel)
    ensures Workload(c, []) == 0
  {
    assert Lengths([]) == [] && Squares([]) == [];
  }

  lemma ItemCostNonNegative(c: CostModel, p: Packed)
    ensures ItemCost(c, p) >= 0
  {
    var n := |p.sample.ids|;
    assert [n][1..] == [] && Squares([n]) == [n * n] && [n * n][1..] == [];
    assert Sum([n]) == n && Sum([n * n]) == n * n;
  }

  lemma WorkloadGrows(c: CostModel, samples: seq<Packed>, p: Packed)
    ensures Workload(c, samples + [p]) == Workload(c, samples) + ItemCost(c, p)
    ensures ItemCost(c, p) >= 0
  {
    WorkloadConcat(c, samples, [p]);
    WorkloadOfOne(c, p);
    ItemCostNonNegative(c, p);
  }

  /** Workload does not depend on the order. */
  lemma {:induction false} WorkloadOfContents(c: CostModel, a: seq<Packed>, b: seq<Packed>)
    requires multiset(a) == multiset(b)
    ensures Workload(c, a) == Workload(c, b)
  {
    if a == [] {
      SameSize(a, b);
    } else {
      var i := Counterpart(a, b);
      WorkloadOfContents(c, a[1..], Without(b, i));
      assert a == [a[0]] + a[1..] && b == b[..i] + ([b[i]] + b[i + 1..]);
      WorkloadConcat(c, [a[0]], a[1..]);
      WorkloadConcat(c, b[..i], [b[i]] + b[i + 1..]);
      WorkloadConcat(c, [b[i]], b[i + 1..]);
      WorkloadConcat(c, b[..i], b[i + 1..]);
    }
  }

  lemma {:induction false} WorkloadNonNegative(c: CostModel, samples: seq<Packed>)
    ensures Workload(c, samples) >= 0
    ensures (forall i :: 0 <= i < |samples| ==> ItemCost(c, samples[i]) > 0) && samples != [] ==> Workload(c, samples) > 0
  {
    if samples == [] {
      NoWorkload(c);
    } else {
      var n := |samples| - 1;
      WorkloadNonNegative(c, samples[..n]);
      WorkloadGrows(c, samples[..n], samples[n]);
      assert samples == samples[..n] + [samples[n]];
    }
  }

  // ---- One split ----

  /** `split_by_workload`. */
  method SplitByWorkload(c: CostModel, samples: seq<Packed>) returns (left: Bin, right: Bin)
    ensures left == BinOf(Split(c, samples).0) && right == BinOf(Split(c, samples).1)
  {
    var ranked := Sorted(HeavierFirst(c), samples);
    var l: seq<Packed>, r: seq<Packed> := [], [];
    var leftWorkload, rightWorkload := 0, 0;
    NoWorkload(c);
    var i := 0;
    while i < |ranked|
      invariant 0 <= i <= |ranked|
      invariant (l, r) == Dealt(c, ranked[..i])
      invariant leftWorkload == Workload(c, l) && rightWorkload == Workload(c, r)
    {
      var p := ranked[i];
      assert ranked[..i + 1][..i] == ranked[..i];
      WorkloadGrows(c, l, p);
      WorkloadGrows(c, r, p);
      if leftWorkload <= rightWorkload {
        l := l + [p];
        leftWorkload := leftWorkload + ItemCost(c, p);
      } else {
        r := r + [p];
        rightWorkload := rightWorkload + ItemCost(c, p);
      }
      i := i + 1;
    }
    assert ranked[..i] == ranked;
    left, right := Bin(l, Sum(Lengths(l))), Bin(r, Sum(Lengths(r)));
  }

  ghost predicate AtMost(c: CostModel, samples: seq<Packed>, heaviest: int) {
    forall i :: 0 <= i < |samples| ==> ItemCost(c, samples[i]) <= heaviest
  }

  /** Dealing keeps the sides within the heaviest sample of each other. */
  lemma {:induction false} DealtFairly(c: CostModel, ranked: seq<Packed>, heaviest: nat)
    requires AtMost(c, ranked, heaviest)
    ensures Workload(c, Dealt(c, ranked).0) + Workload(c, Dealt(c, ranked).1) == Workload(c, ranked)
    ensures 0 - heaviest <= Workload(c, Dealt(c, ranked).0) - Workload(c, Dealt(c, ranked).1) <= heaviest
  {
    NoWorkload(c);
    if ranked != [] {
      var n := |ranked| - 1;
      var before, last := ranked[..n], ranked[n];
      var (l, r) := Dealt(c, before);
      DealtFairly(c, before, heaviest);
      assert ranked == before + [last];
      WorkloadGrows(c, before, last);
      WorkloadGrows(c, l, last);
      WorkloadGrows(c, r, last);
    }
  }

  /** The left side is never empty, and the right one is exactly as long as everything before the last
      sample costs nothing. */
  lemma {:induction false} DealtSides(c: CostModel, ranked: seq<Packed>, heaviest: nat)
    requires ranked != [] && AtMost(c, ranked, heaviest)
    ensures Dealt(c, ranked).0 != []
    ensures Dealt(c, ranked).1 == [] <==> Workload(c, ranked[..|ranked| - 1]) == 0
  {
    var before := ranked[..|ranked| - 1];
    NoWorkload(c);
    if before != [] {
      DealtSides(c, before, heaviest);
    }
    DealtFairly(c, before, heaviest);
    RightEmpty(c, before, Dealt(c, before).0, Dealt(c, before).1);
  }

  lemma RightEmpty(c: CostModel, before: seq<Packed>, l: seq<Packed>, r: seq<Packed>)
    requires Workload(c, l) + Workload(c, r) == Workload(c, before)
    requires before != [] ==> (r == [] <==> Workload(c, before[..|before| - 1]) == 0)
    requires before == [] ==> r == []
    ensures r == [] && Workload(c, l) <= Workload(c, r) <==> Workload(c, before) == 0
  {
    NoWorkload(c);
    WorkloadNonNegative(c, l);
    WorkloadNonNegative(c, r);
    if before != [] {
      var n := |before| - 1;
      assert before == before[..n] + [before[n]];
      WorkloadGrows(c, before[..n], before[n]);
      WorkloadNonNegative(c, before[..n]);
      LighterMeansFree(r == [], Workload(c, l), Workload(c, r), Workload(c, before[..n]), ItemCost(c, before[n]));
    }
  }

  lemma LighterMeansFree(empty: bool, l: nat, r: nat, earlier: nat, last: nat)
    requires l + r == earlier + last && (empty <==> earlier == 0) && (empty ==> r == 0)
    ensures empty && l <= r <==> l + r == 0
  {
  }

  lemma ByCost(c: CostModel)
    ensures TotalOrder(HeavierFirst(c))
  {
  }

  /** A split loses nothing, its sides differ by at most the heaviest sample and weigh no more than
      the whole, and its left side is never empty. */
  lemma SplitFairly(c: CostModel, samples: seq<Packed>, heaviest: nat)
    requires samples != [] && AtMost(c, samples, heaviest)
    ensures var (l, r) := Split(c, samples);
      && multiset(l) + multiset(r) == multiset(samples)
      && Workload(c, l) + Workload(c, r) == Workload(c, samples)
      && 0 - heaviest <= Workload(c, l) - Workload(c, r) <= heaviest
      && 0 <= Workload(c, l) <= Workload(c, samples) && 0 <= Workload(c, r) <= Workload(c, samples)
      && l != []
  {
    var ranked := Sorted(HeavierFirst(c), samples);
    SortedKeeps(HeavierFirst(c), samples);
    WorkloadOfContents(c, ranked, samples);
    forall i | 0 <= i < |ranked| ensures ItemCost(c, ranked[i]) <= heaviest {
      assert ranked[i] in multiset(samples);
    }
    DealtKeeps(c, ranked);
    DealtFairly(c, ranked, heaviest);
    DealtSides(c, ranked, heaviest);
    var (l, r) := Dealt(c, ranked);
    WorkloadNonNegative(c, l);
    WorkloadNonNegative(c, r);
  }

  lemma DealtEmptyIffFree(c: CostModel, ranked: seq<Packed>)
    requires |ranked| >= 2 && SortedBy(HeavierFirst(c), ranked)
    ensures Dealt(c, ranked).1 == [] <==> ItemCost(c, ranked[0]) == 0
  {
    HeadIsHeaviest(c, ranked);
    DealtSides(c, ranked, ItemCost(c, ranked[0]));
    var before := ranked[..|ranked| - 1];
    assert before == [ranked[0]] + before[1..];
    WorkloadConcat(c, [ranked[0]], before[1..]);
    WorkloadOfOne(c, ranked[0]);
    WorkloadNonNegative(c, before[1..]);
    if ItemCost(c, ranked[0]) == 0 {
      FreeSamples(c, before);
    }
  }

  lemma HeadDecidesAll(c: CostModel, ranked: seq<Packed>, samples: seq<Packed>)
    requires ranked != [] && multiset(ranked) == multiset(samples) && SortedBy(HeavierFirst(c), ranked)
    ensures ItemCost(c, ranked[0]) == 0 <==> forall i :: 0 <= i < |samples| ==> ItemCost(c, samples[i]) == 0
  {
    HeadIsHeaviest(c, ranked);
    assert ranked[0] in multiset(samples);
    forall i | 0 <= i < |samples| && ItemCost(c, ranked[0]) == 0 ensures ItemCost(c, samples[i]) == 0 {
      assert samples[i] in multiset(ranked);
    }
  }

  /** With at least two samples, the right side is empty if and only if every sample costs nothing. */
  lemma EmptySideIffFree(c: CostModel, samples: seq<Packed>)
    requires |samples| >= 2
    ensures Split(c, samples).1 == [] <==> forall i :: 0 <= i < |samples| ==> ItemCost(c, samples[i]) == 0
  {
    var ranked := Sorted(HeavierFirst(c), samples);
    SortedKeeps(HeavierFirst(c), samples);
    ByCost(c);
    SortedSorts(HeavierFirst(c), samples);
    DealtEmptyIffFree(c, ranked);
    HeadDecidesAll(c, ranked, samples);
  }

  /** Two samples without tokens end up on one side, whatever the coefficients. */
  lemma TwoEmptySamples(c: CostModel, p: Packed)
    requires p.sample.ids == []
    ensures Split(c, [p, p]).1 == []
  {
    assert Squares([0]) == [0] && [0][1..] == [] && Sum([0]) == 0;
    assert ItemCost(c, p) == 0;
    EmptySideIffFree(c, [p, p]);
  }

  lemma HeadIsHeaviest(c: CostModel, ranked: seq<Packed>)
    requires ranked != [] && SortedBy(HeavierFirst(c), ranked)
    ensures AtMost(c, ranked, ItemCost(c, ranked[0]))
    ensures forall p :: p in ranked ==> 0 <= ItemCost(c, p) <= ItemCost(c, ranked[0])
  {
    forall i | 0 <= i < |ranked| ensures 0 <= ItemCost(c, ranked[i]) <= ItemCost(c, ranked[0]) {
      ItemCostNonNegative(c, ranked[i]);
      if i > 0 {
        assert HeavierFirst(c)(ranked[0], ranked[i]);
      }
    }
  }

  lemma {:induction false} FreeSamples(c: CostModel, samples: seq<Packed>)
    requires forall p :: p in samples ==> ItemCost(c, p) == 0
    ensures Workload(c, samples) == 0
  {
    NoWorkload(c);
    if samples != [] {
      var n := |samples| - 1;
      FreeSamples(c, samples[..n]);
      assert samples == samples[..n] + [samples[n]];
      WorkloadGrows(c, samples[..n], samples[n]);
    }
  }

  // ---- Splitting until there are enough bins ----

  predicate Splittable(b: Bin) { |b.samples| > 1 }

  function BinWork(c: CostModel, b: Bin): int { Workload(c, b.samples) }

  /** The splittable bin with the greatest (workload, index) among the first `n`. */
  function Pick(c: CostModel, bins: seq<Bin>, n: nat): (r: Option<nat>)
    requires n <= |bins|
    ensures r.Some? ==> r.value < n && Splittable(bins[r.value])
    ensures r.Some? ==> forall j :: 0 <= j < n && Splittable(bins[j]) ==>
      BinWork(c, bins[j]) < BinWork(c, bins[r.value]) || (BinWork(c, bins[j]) == BinWork(c, bins[r.value]) && j <= r.value)
    ensures r.None? ==> forall j :: 0 <= j < n ==> !Splittable(bins[j])
  {
    if n == 0 then None
    else
      var best := Pick(c, bins, n - 1);
      if Splittable(bins[n - 1]) && (best.None? || BinWork(c, bins[best.value]) <= BinWork(c, bins[n - 1])) then Some(n - 1)
      else best
  }

  function BinOf(samples: seq<Packed>): Bin { Bin(samples, Sum(Lengths(samples))) }

  function Left(c: CostModel, b: Bin): Bin { BinOf(Split(c, b.samples).0) }

  function Right(c: CostModel, b: Bin): Bin { BinOf(Split(c, b.samples).1) }

  function Replaced(bins: seq<Bin>, i: nat, left: Bin, right: Bin): (r: seq<Bin>)
    requires i < |bins|
    ensures |r| == |bins| + 1 && r[i] == left && r[|bins|] == right
    ensures forall k :: 0 <= k < |bins| && k != i ==> r[k] == bins[k]
  {
    bins[i := left] + [right]
  }

  function WithSplit(c: CostModel, bins: seq<Bin>, i: nat): (r: seq<Bin>)
    requires i < |bins|
    ensures |r| == |bins| + 1
  {
    Replaced(bins, i, Left(c, bins[i]), Right(c, bins[i]))
  }

  function Expand(c: CostModel, bins: seq<Bin>, target: nat): seq<Bin>
    decreases target - |bins|
  {
    if |bins| >= target then bins
    else
      match Pick(c, bins, |bins|)
      case None => bins
      case Some(i) => Expand(c, WithSplit(c, bins, i), target)
  }

  method PickHeaviest(c: CostModel, bins: seq<Bin>) returns (best: Option<nat>)
    ensures best == Pick(c, bins, |bins|)
  {
    best := None;
    var n := 0;
    while n < |bins|
      invariant 0 <= n <= |bins| && best == Pick(c, bins, n)
    {
      if Splittable(bins[n]) && (best.None? || BinWork(c, bins[best.value]) <= BinWork(c, bins[n])) {
        best := Some(n);
      }
      n := n + 1;
    }
  }

  /** `_expand_bins_by_splitting`. */
  method ExpandBinsBySplitting(c: CostModel, bins: seq<Bin>, target: nat) returns (expanded: seq<Bin>)
    ensures expanded == Expand(c, bins, target)
  {
    expanded := bins;
    while |expanded| < target
      invariant Expand(c, expanded, target) == Expand(c, bins, target)
      decreases target - |expanded|
    {
      var best := PickHeaviest(c, expanded);
      if best.None? {
        break;
      }
      var left, right := SplitByWorkload(c, expanded[best.value].samples);
      expanded := expanded[best.value := left] + [right];
    }
  }

  /** Costs of all samples held, whatever bins they are in. */
  ghost predicate CostsIn(c: CostModel, bins: seq<Bin>, heaviest: nat) {
    forall p :: p in Contents(Samples(bins)) ==> 0 < ItemCost(c, p) <= heaviest
  }

  ghost predicate WorkAtMost(c: CostModel, bins: seq<Bin>, top: int) {
    forall i :: 0 <= i < |bins| ==> BinWork(c, bins[i]) <= top
  }

  lemma BinCostsIn(c: CostModel, bins: seq<Bin>, i: nat, heaviest: nat)
    requires i < |bins| && CostsIn(c, bins, heaviest)
    ensures forall j :: 0 <= j < |bins[i].samples| ==> 0 < ItemCost(c, bins[i].samples[j]) <= heaviest
  {
    forall j | 0 <= j < |bins[i].samples| ensures bins[i].samples[j] in Contents(Samples(bins)) {
      PartIsHeld(Samples(bins), i, j);
    }
  }

  /** A side of a sound text bin is sound. */
  lemma SideIsSound(b: Bin, side: seq<Packed>)
    requires Sound(b) && Splittable(b) && side != [] && multiset(side) <= multiset(b.samples)
    ensures Sound(BinOf(side))
  {
    forall i | 0 <= i < |side| ensures IsText(side[i]) && ClassOf(side[i].sample) == BinClass(b) {
      assert side[i] in multiset(b.samples);
      var k :| 0 <= k < |b.samples| && b.samples[k] == side[i];
      assert ClassOf(b.samples[k].sample) == ClassOf(b.samples[0].sample);
    }
  }

  lemma SidesFit(samples: seq<Packed>, l: seq<Packed>, r: seq<Packed>)
    requires multiset(l) + multiset(r) == multiset(samples)
    ensures Sum(Lengths(l)) + Sum(Lengths(r)) == Sum(Lengths(samples))
    ensures Sum(Lengths(l)) >= 0 && Sum(Lengths(r)) >= 0
  {
    assert multiset(l + r) == multiset(samples);
    LengthsOfContents(l + r, samples);
    assert Lengths(l + r) == Lengths(l) + Lengths(r);
    SumConcat(Lengths(l), Lengths(r));
    SumNonNegative(Lengths(l));
    SumNonNegative(Lengths(r));
  }

  lemma ReplacedContents(bins: seq<Bin>, i: nat, left: Bin, right: Bin)
    requires i < |bins| && multiset(left.samples) + multiset(right.samples) == multiset(bins[i].samples)
    ensures Contents(Samples(Replaced(bins, i, left, right))) == Contents(Samples(bins))
  {
    var l, r := left.samples, right.samples;
    ContentsUpdate(Samples(bins), i, l);
    ContentsConcat(Samples(bins)[i := l], [r]);
    assert [r][1..] == [] && Contents([r]) == multiset(r);
    assert Samples(Replaced(bins, i, left, right)) == Samples(bins)[i := l] + [r];
    Regroup(Contents(Samples(bins)), Contents(Samples(bins)[i := l]), bins[i].samples, l, r);
  }

  lemma SplitKeepsContents(c: CostModel, bins: seq<Bin>, i: nat)
    requires i < |bins|
    ensures Contents(Samples(WithSplit(c, bins, i))) == Contents(Samples(bins))
  {
    SortedKeeps(HeavierFirst(c), bins[i].samples);
    DealtKeeps(c, Sorted(HeavierFirst(c), bins[i].samples));
    ReplacedContents(bins, i, Left(c, bins[i]), Right(c, bins[i]));
  }

  lemma Regroup(before: multiset<Packed>, mid: multiset<Packed>, whole: seq<Packed>, l: seq<Packed>, r: seq<Packed>)
    requires mid + multiset(whole) == before + multiset(l) && multiset(l) + multiset(r) == multiset(whole)
    ensures mid + multiset(r) == before
  {
    forall e ensures (mid + multiset(r))[e] == before[e] {
      assert (mid + multiset(whole))[e] == (before + multiset(l))[e];
      assert (multiset(l) + multiset(r))[e] == multiset(whole)[e];
    }
  }

  lemma {:induction false} DealtKeeps(c: CostModel, ranked: seq<Packed>)
    ensures multiset(Dealt(c, ranked).0) + multiset(Dealt(c, ranked).1) == multiset(ranked)
  {
    if ranked != [] {
      var n := |ranked| - 1;
      DealtKeeps(c, ranked[..n]);
      OneDealt(Dealt(c, ranked[..n]).0, Dealt(c, ranked[..n]).1, ranked[n], ranked[..n]);
      assert ranked == ranked[..n] + [ranked[n]];
    }
  }

  lemma OneDealt(l: seq<Packed>, r: seq<Packed>, p: Packed, all: seq<Packed>)
    requires multiset(l) + multiset(r) == multiset(all)
    ensures multiset(l + [p]) + multiset(r) == multiset(all + [p])
    ensures multiset(l) + multiset(r + [p]) == multiset(all + [p])
  {
  }

  /** Both sides of a splittable bin are sound, no longer and no heavier than the bin, and at most the
      heaviest sample lighter than half of it. */
  ghost predicate Halves(c: CostModel, b: Bin, left: Bin, right: Bin, heaviest: nat) {
    && Sound(left) && Sound(right) && left.length <= b.length && right.length <= b.length
    && 0 <= BinWork(c, left) <= BinWork(c, b) && 0 <= BinWork(c, right) <= BinWork(c, b)
    && BinWork(c, b) <= 2 * BinWork(c, left) + heaviest && BinWork(c, b) <= 2 * BinWork(c, right) + heaviest
  }

  lemma BothSidesFilled(c: CostModel, samples: seq<Packed>)
    requires |samples| >= 2 && forall j :: 0 <= j < |samples| ==> 0 < ItemCost(c, samples[j])
    ensures Split(c, samples).1 != []
  {
    EmptySideIffFree(c, samples);
    assert ItemCost(c, samples[0]) > 0;
  }

  lemma SplitHalves(c: CostModel, b: Bin, heaviest: nat)
    requires Sound(b) && Splittable(b)
    requires forall j :: 0 <= j < |b.samples| ==> 0 < ItemCost(c, b.samples[j]) <= heaviest
    ensures Halves(c, b, Left(c, b), Right(c, b), heaviest)
  {
    SplitFairly(c, b.samples, heaviest);
    BothSidesFilled(c, b.samples);
    var (l, r) := Split(c, b.samples);
    SideIsSound(b, l);
    SideIsSound(b, r);
    SidesFit(b.samples, l, r);
  }

  /** One split keeps every bin sound and within the limit. */
  lemma SplitKeepsBins(c: CostModel, bins: seq<Bin>, i: nat, limit: nat, heaviest: nat)
    requires i < |bins| && Splittable(bins[i])
    requires AllSound(bins) && Within(bins, limit) && CostsIn(c, bins, heaviest)
    ensures AllSound(WithSplit(c, bins, i)) && Within(WithSplit(c, bins, i), limit)
    ensures Halves(c, bins[i], Left(c, bins[i]), Right(c, bins[i]), heaviest)
  {
    BinCostsIn(c, bins, i, heaviest);
    SplitHalves(c, bins[i], heaviest);
    ReplacedKeeps(bins, i, Left(c, bins[i]), Right(c, bins[i]), limit);
  }

  lemma ReplacedKeeps(bins: seq<Bin>, i: nat, left: Bin, right: Bin, limit: nat)
    requires i < |bins| && AllSound(bins) && Within(bins, limit)
    requires Sound(left) && Sound(right) && left.length <= limit && right.length <= limit
    ensures AllSound(Replaced(bins, i, left, right)) && Within(Replaced(bins, i, left, right), limit)
  {
    var after := Replaced(bins, i, left, right);
    forall k | 0 <= k < |after| ensures Sound(after[k]) && after[k].length <= limit {
      if k != i && k != |bins| {
        assert after[k] == bins[k];
      }
    }
  }

  lemma SplitKeepsTop(c: CostModel, bins: seq<Bin>, i: nat, heaviest: nat, top: int)
    requires i < |bins| && WorkAtMost(c, bins, top) && Halves(c, bins[i], Left(c, bins[i]), Right(c, bins[i]), heaviest)
    ensures WorkAtMost(c, WithSplit(c, bins, i), top)
  {
  }

  /** Expanding keeps the samples and every bin sound and within the limit, never makes the heaviest
      bin heavier, and stops with exactly the target number of bins, or one bin for each sample. */
  lemma {:induction false} ExpandedBins(c: CostModel, bins: seq<Bin>, target: nat, limit: nat, heaviest: nat, top: int)
    requires AllSound(bins) && Within(bins, limit) && CostsIn(c, bins, heaviest) && WorkAtMost(c, bins, top)
    ensures var r := Expand(c, bins, target);
      && AllSound(r) && Within(r, limit) && WorkAtMost(c, r, top)
      && Contents(Samples(r)) == Contents(Samples(bins))
      && |r| >= |bins|
      && (|bins| <= target ==> |r| == target || (|r| < target && forall i :: 0 <= i < |r| ==> |r[i].samples| == 1))
    decreases target - |bins|
  {
    if |bins| < target {
      var pick := Pick(c, bins, |bins|);
      if pick.Some? {
        SplitKeepsBins(c, bins, pick.value, limit, heaviest);
        SplitKeepsContents(c, bins, pick.value);
        SplitKeepsTop(c, bins, pick.value, heaviest, top);
        ExpandedBins(c, WithSplit(c, bins, pick.value), target, limit, heaviest, top);
      }
    }
  }

  lemma {:induction false} SingletonsCount(bins: seq<Bin>)
    requires forall i :: 0 <= i < |bins| ==> |bins[i].samples| == 1
    ensures |Contents(Samples(bins))| == |bins|
  {
    if bins != [] {
      SingletonsCount(bins[1..]);
      assert Samples(bins)[1..] == Samples(bins[1..]);
    }
  }

  /** With at least as many samples as bins wanted, expanding gives exactly that many. */
  lemma EnoughSamples(c: CostModel, bins: seq<Bin>, target: nat, limit: nat, heaviest: nat, top: int)
    requires AllSound(bins) && Within(bins, limit) && CostsIn(c, bins, heaviest) && WorkAtMost(c, bins, top)
    requires |bins| <= target <= |Contents(Samples(bins))|
    ensures |Expand(c, bins, target)| == target
  {
    ExpandedBins(c, bins, target, limit, heaviest, top);
    var r := Expand(c, bins, target);
    if |r| < target {
      SingletonsCount(r);
    }
  }

  /** Every bin is an original, or less than half (minus the heaviest sample) behind any bin that
      could still be split. */
  ghost predicate Even(c: CostModel, original: seq<Bin>, bins: seq<Bin>, heaviest: nat) {
    forall i, j :: 0 <= i < |bins| && 0 <= j < |bins| && Splittable(bins[j]) && !(i < |original| && bins[i] == original[i]) ==>
      BinWork(c, bins[j]) <= 2 * BinWork(c, bins[i]) + heaviest
  }

  lemma ReplacedEven(c: CostModel, original: seq<Bin>, bins: seq<Bin>, i: nat, left: Bin, right: Bin, heaviest: nat)
    requires i < |bins| && Even(c, original, bins, heaviest) && |original| <= |bins|
    requires Splittable(bins[i]) && Halves(c, bins[i], left, right, heaviest)
    requires forall j :: 0 <= j < |bins| && Splittable(bins[j]) ==> BinWork(c, bins[j]) <= BinWork(c, bins[i])
    ensures Even(c, original, Replaced(bins, i, left, right), heaviest)
  {
    var after, n := Replaced(bins, i, left, right), |bins|;
    forall j | 0 <= j <= n && Splittable(after[j]) ensures BinWork(c, after[j]) <= BinWork(c, bins[i]) {
      assert j != i && j != n ==> after[j] == bins[j];
    }
    forall k | 0 <= k <= n && !(k < |original| && after[k] == original[k])
      ensures BinWork(c, bins[i]) <= 2 * BinWork(c, after[k]) + heaviest
    {
      assert k != i && k != n ==> after[k] == bins[k];
    }
  }

  lemma SplitKeepsEven(c: CostModel, original: seq<Bin>, bins: seq<Bin>, i: nat, heaviest: nat)
    requires Pick(c, bins, |bins|) == Some(i) && Even(c, original, bins, heaviest) && |original| <= |bins|
    requires Halves(c, bins[i], Left(c, bins[i]), Right(c, bins[i]), heaviest)
    ensures Even(c, original, WithSplit(c, bins, i), heaviest)
  {
    ReplacedEven(c, original, bins, i, Left(c, bins[i]), Right(c, bins[i]), heaviest);
  }

  /** Because the heaviest bin is always the one split, no bin made by splitting ends up far lighter
      than a bin that was left whole although it could have been split. */
  lemma {:induction false} ExpandedEvenly(c: CostModel, original: seq<Bin>, bins: seq<Bin>, target: nat, limit: nat, heaviest: nat)
    requires Even(c, original, bins, heaviest) && |original| <= |bins|
    requires AllSound(bins) && Within(bins, limit) && CostsIn(c, bins, heaviest)
    ensures Even(c, original, Expand(c, bins, target), heaviest)
    decreases target - |bins|
  {
    if |bins| < target {
      var pick := Pick(c, bins, |bins|);
      if pick.Some? {
        SplitKeepsBins(c, bins, pick.value, limit, heaviest);
        SplitKeepsContents(c, bins, pick.value);
        SplitKeepsEven(c, original, bins, pick.value, heaviest);
        ExpandedEvenly(c, original, WithSplit(c, bins, pick.value), target, limit, heaviest);
      }
    }
  }
}

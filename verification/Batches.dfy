/** From prepared samples to the micro batches of every worker
    (src/prime_rl/trainer/batch.py:332-383, 433-487). */
module Batches {
  import opened Arithmetic
  import opened Sequences
  import opened Wrappers
  import opened KarmarkarKarp
  import opened Balance
  import opened MicroBatches
  import opened Packing
  import opened Splitting

  /** The arguments of `prepare_batch` besides the samples. */
  datatype Setup = Setup(limit: nat, workers: nat, loras: nat, cost: CostModel, multiple: nat)

  predicate ValidSetup(s: Setup) { s.workers > 0 && s.multiple > 0 }

  /** What `prepare_sample` guarantees and its callers supply. */
  predicate Prepared(s: Setup, p: Packed) {
    && Lockstep(p.sample) && |p.sample.ids| <= s.limit && p.lora < s.loras
    && (s.workers > 1 ==> ItemCost(s.cost, p) > 0)
  }

  predicate AllPrepared(s: Setup, samples: seq<Packed>) {
    forall i :: 0 <= i < |samples| ==> Prepared(s, samples[i])
  }

  /** By adapter, longest first within an adapter. */
  function PackingOrder(): (Packed, Packed) -> bool {
    (a: Packed, b: Packed) => a.lora < b.lora || (a.lora == b.lora && |a.sample.ids| >= |b.sample.ids|)
  }

  function Target(bins: nat, workers: nat): nat
    requires workers > 0
  {
    var ceiling := (bins + workers - 1) / workers * workers;
    if ceiling >= workers then ceiling else workers
  }

  function Pack(s: Setup, samples: seq<Packed>): seq<Bin>
    requires ValidSetup(s)
  {
    var bins := FirstFit(Sorted(PackingOrder(), samples), s.limit);
    if s.workers > 1 then Expand(s.cost, bins, Target(|bins|, s.workers)) else bins
  }

  // ---- Packing keeps every sample once ----

  lemma TargetIsMultiple(bins: nat, workers: nat)
    requires workers > 0
    ensures Target(bins, workers) % workers == 0 && Target(bins, workers) >= bins && Target(bins, workers) >= 1
    ensures Target(bins, workers) == workers || Target(bins, workers) < bins + workers
  {
    var q := (bins + workers - 1) / workers;
    MultipleOf(q, workers);
    MultipleOf(1, workers);
    assert bins + workers - 1 == q * workers + (bins + workers - 1) % workers;
  }

  lemma CostBound(c: CostModel, samples: seq<Packed>) returns (heaviest: nat)
    ensures forall i :: 0 <= i < |samples| ==> ItemCost(c, samples[i]) <= heaviest
  {
    heaviest := 0;
    var n := 0;
    while n < |samples|
      invariant 0 <= n <= |samples| && forall i :: 0 <= i < n ==> ItemCost(c, samples[i]) <= heaviest
    {
      if ItemCost(c, samples[n]) > heaviest {
        heaviest := ItemCost(c, samples[n]);
      }
      n := n + 1;
    }
  }

  lemma WorkBound(c: CostModel, bins: seq<Bin>) returns (top: int)
    ensures WorkAtMost(c, bins, top)
  {
    top := 0;
    var n := 0;
    while n < |bins|
      invariant 0 <= n <= |bins| && forall i :: 0 <= i < n ==> BinWork(c, bins[i]) <= top
    {
      if BinWork(c, bins[n]) > top {
        top := BinWork(c, bins[n]);
      }
      n := n + 1;
    }
  }

  lemma SortedPrepared(s: Setup, samples: seq<Packed>)
    requires AllPrepared(s, samples)
    ensures AllPrepared(s, Sorted(PackingOrder(), samples))
    ensures multiset(Sorted(PackingOrder(), samples)) == multiset(samples)
  {
    var ranked := Sorted(PackingOrder(), samples);
    SortedKeeps(PackingOrder(), samples);
    forall i | 0 <= i < |ranked| ensures Prepared(s, ranked[i]) {
      assert ranked[i] in multiset(samples);
    }
  }

  lemma CostsOf(s: Setup, samples: seq<Packed>, bins: seq<Bin>, heaviest: nat)
    requires s.workers > 1 && AllPrepared(s, samples) && Contents(Samples(bins)) == multiset(samples)
    requires forall i :: 0 <= i < |samples| ==> ItemCost(s.cost, samples[i]) <= heaviest
    ensures CostsIn(s.cost, bins, heaviest)
  {
    forall p | p in Contents(Samples(bins)) ensures 0 < ItemCost(s.cost, p) <= heaviest {
      assert p in samples;
      var i :| 0 <= i < |samples| && samples[i] == p;
      assert Prepared(s, samples[i]);
    }
  }

  /** Packing keeps every sample exactly once, in sound bins within the limit. With several workers and
      at least as many samples as the target, the bins divide evenly among the workers. */
  lemma PackedBins(s: Setup, samples: seq<Packed>)
    requires ValidSetup(s) && AllPrepared(s, samples)
    ensures var bins := Pack(s, samples);
      && AllSound(bins) && Within(bins, s.limit) && Contents(Samples(bins)) == multiset(samples)
    ensures s.workers > 1 && |samples| >= Target(|FirstFit(Sorted(PackingOrder(), samples), s.limit)|, s.workers) ==>
      |Pack(s, samples)| == Target(|FirstFit(Sorted(PackingOrder(), samples), s.limit)|, s.workers)
  {
    SortedPrepared(s, samples);
    var ranked := Sorted(PackingOrder(), samples);
    assert forall i :: 0 <= i < |ranked| ==> Prepared(s, ranked[i]);
    FirstFitBins(ranked, s.limit);
    var bins := FirstFit(ranked, s.limit);
    if s.workers > 1 {
      var heaviest := CostBound(s.cost, samples);
      var top := WorkBound(s.cost, bins);
      var target := Target(|bins|, s.workers);
      CostsOf(s, samples, bins, heaviest);
      TargetIsMultiple(|bins|, s.workers);
      ExpandedBins(s.cost, bins, target, s.limit, heaviest, top);
      if |samples| >= target {
        EnoughSamples(s.cost, bins, target, s.limit, heaviest, top);
      }
    }
  }

  // ---- Materialized and padded ----

  ghost predicate CanMaterialize(s: Setup, b: Bin) {
    && b.samples != [] && AllLockstep(b.samples) && OneClass(b.samples)
    && forall i :: 0 <= i < |b.samples| ==> b.samples[i].lora < s.loras
  }

  ghost function ReadyOf(s: Setup, b: Bin): (m: MicroBatch)
    requires ValidSetup(s) && CanMaterialize(s, b)
    ensures Lockstep(m) && m.images == b.samples[0].sample.images
  {
    MaterializedLockstep(b.samples, s.loras);
    PaddingKeepsLockstep(Materialized(b.samples, s.loras), s.multiple);
    PadMicroBatch(Materialized(b.samples, s.loras), s.multiple).value
  }

  lemma PackedCanMaterialize(s: Setup, samples: seq<Packed>, bins: seq<Bin>)
    requires AllPrepared(s, samples) && AllSound(bins) && Contents(Samples(bins)) == multiset(samples)
    ensures forall i :: 0 <= i < |bins| ==> CanMaterialize(s, bins[i])
  {
    forall i, j | 0 <= i < |bins| && 0 <= j < |bins[i].samples| ensures Prepared(s, bins[i].samples[j]) {
      PartIsHeld(Samples(bins), i, j);
      assert bins[i].samples[j] in multiset(samples);
    }
  }

  ghost function ReadyAll(s: Setup, bins: seq<Bin>): (r: seq<MicroBatch>)
    requires ValidSetup(s) && forall i :: 0 <= i < |bins| ==> CanMaterialize(s, bins[i])
    ensures |r| == |bins| && forall i :: 0 <= i < |r| ==> r[i] == ReadyOf(s, bins[i])
  {
    seq(|bins|, i requires 0 <= i < |bins| => ReadyOf(s, bins[i]))
  }

  /** The micro batches before dummies and distribution. */
  ghost function Ready(s: Setup, samples: seq<Packed>): seq<MicroBatch>
    requires ValidSetup(s) && AllPrepared(s, samples)
  {
    PackedBins(s, samples);
    PackedCanMaterialize(s, samples, Pack(s, samples));
    ReadyAll(s, Pack(s, samples))
  }

  /** `packed_samples_into_micro_bs` before materializing. */
  method PackSamples(s: Setup, samples: seq<Packed>) returns (bins: seq<Bin>)
    requires ValidSetup(s)
    ensures bins == Pack(s, samples)
  {
    bins := PackFirstFit(Sorted(PackingOrder(), samples), s.limit);
    if s.workers > 1 {
      bins := ExpandBinsBySplitting(s.cost, bins, Target(|bins|, s.workers));
    }
  }

  method MaterializeAndPad(s: Setup, b: Bin) returns (m: MicroBatch)
    requires ValidSetup(s) && CanMaterialize(s, b)
    ensures m == ReadyOf(s, b)
  {
    m := MaterializeBin(b.samples, s.loras);
    MaterializedLockstep(b.samples, s.loras);
    m := PadMicroBatch(m, s.multiple).value;
  }

  method MaterializeAll(s: Setup, bins: seq<Bin>) returns (ready: seq<MicroBatch>)
    requires ValidSetup(s) && forall i :: 0 <= i < |bins| ==> CanMaterialize(s, bins[i])
    ensures ready == ReadyAll(s, bins)
  {
    ready := [];
    var i := 0;
    while i < |bins|
      invariant 0 <= i <= |bins| && |ready| == i
      invariant forall j :: 0 <= j < i ==> ready[j] == ReadyOf(s, bins[j])
    {
      var m := MaterializeAndPad(s, bins[i]);
      ready := ready + [m];
      i := i + 1;
    }
  }

  // ---- Groups by modality, filled up with dummies ----

  function OfModality(batches: seq<MicroBatch>, multimodal: bool): seq<MicroBatch> {
    if batches == [] then []
    else (if batches[0].images.Some? == multimodal then [batches[0]] else []) + OfModality(batches[1..], multimodal)
  }

  function DummiesNeeded(count: nat, workers: nat): (n: nat)
    requires workers > 0
    ensures n < workers && (count + n) % workers == 0
  {
    PaddingSize(count, workers)
  }

  /** `_pad_group_for_distribution`. */
  function Filled(group: seq<MicroBatch>, workers: nat): (r: seq<MicroBatch>)
    requires workers > 0
    ensures |r| % workers == 0 && |group| <= |r| < |group| + workers
  {
    if group == [] then [] else group + Dummies(group, workers)
  }

  function Dummies(group: seq<MicroBatch>, workers: nat): seq<MicroBatch>
    requires workers > 0
  {
    if group == [] then [] else Repeat(DummyOf(group[0]), DummiesNeeded(|group|, workers))
  }

  lemma {:induction false} ModalityHolds(batches: seq<MicroBatch>, multimodal: bool)
    ensures forall i :: 0 <= i < |OfModality(batches, multimodal)| ==> OfModality(batches, multimodal)[i].images.Some? == multimodal
  {
    if batches != [] {
      ModalityHolds(batches[1..], multimodal);
    }
  }

  lemma FilledModality(batches: seq<MicroBatch>, multimodal: bool, workers: nat)
    requires workers > 0
    ensures forall m :: m in Filled(OfModality(batches, multimodal), workers) ==> m.images.Some? == multimodal
  {
    ModalityHolds(batches, multimodal);
  }

  lemma {:induction false} ModalitiesCover(batches: seq<MicroBatch>)
    ensures multiset(OfModality(batches, true)) + multiset(OfModality(batches, false)) == multiset(batches)
  {
    if batches != [] {
      ModalitiesCover(batches[1..]);
      assert batches == [batches[0]] + batches[1..];
    }
  }

  // ---- Distribution ----

  function Steps(group: seq<MicroBatch>, workers: nat): nat
    requires workers > 0
  {
    |group| / workers
  }

  function Weights(c: CostModel, group: seq<MicroBatch>): (r: seq<int>)
    ensures |r| == |group| && forall i :: 0 <= i < |r| ==> r[i] == BinCost(c, group[i].lengths)
  {
    seq(|group|, i requires 0 <= i < |group| => BinCost(c, group[i].lengths))
  }

  function Gathered(group: seq<MicroBatch>, items: seq<int>): (r: seq<MicroBatch>)
    requires InRange(items, |group|)
    ensures |r| == |items| && forall i :: 0 <= i < |r| ==> r[i] == group[items[i]]
  {
    seq(|items|, i requires 0 <= i < |items| => group[items[i]])
  }

  function GatheredAll(group: seq<MicroBatch>, parts: seq<seq<int>>): (r: seq<seq<MicroBatch>>)
    requires AllInRange(parts, |group|)
    ensures |r| == |parts| && forall i :: 0 <= i < |r| ==> r[i] == Gathered(group, parts[i])
  {
    seq(|parts|, i requires 0 <= i < |parts| => Gathered(group, parts[i]))
  }

  /** Cost of what one worker gets. */
  function WorkerCost(c: CostModel, batches: seq<MicroBatch>): int {
    if batches == [] then 0 else BinCost(c, batches[0].lengths) + WorkerCost(c, batches[1..])
  }

  lemma {:induction false} LoadIsCost(c: CostModel, group: seq<MicroBatch>, items: seq<int>)
    requires InRange(items, |group|)
    ensures Load(Weights(c, group), items) == WorkerCost(c, Gathered(group, items))
  {
    if items != [] {
      LoadIsCost(c, group, items[1..]);
      assert Gathered(group, items)[1..] == Gathered(group, items[1..]);
    }
  }

  lemma {:induction false} GatherFlat(group: seq<MicroBatch>, parts: seq<seq<int>>)
    requires AllInRange(parts, |group|)
    ensures InRange(Flat(parts), |group|) && Contents(GatheredAll(group, parts)) == multiset(Gathered(group, Flat(parts)))
  {
    if parts != [] {
      GatherFlat(group, parts[1..]);
      assert GatheredAll(group, parts)[1..] == GatheredAll(group, parts[1..]);
      assert Gathered(group, Flat(parts)) == Gathered(group, parts[0]) + Gathered(group, Flat(parts[1..]));
    }
  }

  lemma {:induction false} GatherContents(group: seq<MicroBatch>, a: seq<int>, b: seq<int>)
    requires InRange(a, |group|) && InRange(b, |group|) && multiset(a) == multiset(b)
    ensures multiset(Gathered(group, a)) == multiset(Gathered(group, b))
  {
    if a == [] {
      SameSize(a, b);
    } else {
      var i := Counterpart(a, b);
      GatherContents(group, a[1..], Without(b, i));
      assert Gathered(group, a) == [group[a[0]]] + Gathered(group, a[1..]);
      assert Gathered(group, Without(b, i)) == Without(Gathered(group, b), i);
      WithoutContents(Gathered(group, b), i);
    }
  }

  lemma GatherAll(group: seq<MicroBatch>, parts: seq<seq<int>>)
    requires AllInRange(parts, |group|) && Covers(parts, |group|)
    ensures Contents(GatheredAll(group, parts)) == multiset(group)
  {
    GatherFlat(group, parts);
    FlatContents(parts);
    GatherContents(group, Flat(parts), Indices(|group|));
    assert Gathered(group, Indices(|group|)) == group;
  }

  lemma EnoughForAll(count: nat, workers: nat)
    requires workers > 0 && count > 0 && count % workers == 0
    ensures count >= workers
  {
    if count < workers {
      Small(count, workers);
    }
  }

  ghost predicate EvenCosts(c: CostModel, group: seq<MicroBatch>, parts: seq<seq<MicroBatch>>) {
    group != [] ==>
      forall v, w :: 0 <= v < |parts| && 0 <= w < |parts| ==>
        WorkerCost(c, parts[v]) - WorkerCost(c, parts[w]) <= Max(Weights(c, group)) - Min(Weights(c, group))
  }

  lemma CostsAreEven(c: CostModel, group: seq<MicroBatch>, parts: seq<seq<int>>)
    requires group != [] && parts != [] && AllInRange(parts, |group|)
    requires Spread(Loads(Weights(c, group), parts)) <= Max(Weights(c, group)) - Min(Weights(c, group))
    ensures EvenCosts(c, group, GatheredAll(group, parts))
  {
    var all := GatheredAll(group, parts);
    forall v | 0 <= v < |all| ensures WorkerCost(c, all[v]) == Loads(Weights(c, group), parts)[v] {
      LoadIsCost(c, group, parts[v]);
    }
  }

  /** `_distribute_group`: the same number for every worker, everything once, and no two workers further
      apart in cost than the costliest and the cheapest batch. */
  method DistributeGroup(c: CostModel, group: seq<MicroBatch>, workers: nat) returns (parts: seq<seq<MicroBatch>>)
    requires workers > 0 && |group| % workers == 0
    ensures |parts| == workers && forall w :: 0 <= w < workers ==> |parts[w]| == Steps(group, workers)
    ensures Contents(parts) == multiset(group)
    ensures EvenCosts(c, group, parts)
  {
    if group == [] {
      parts := Repeat([], workers);
      NothingInside(parts);
      return;
    }
    var weights := Weights(c, group);
    EnoughForAll(|group|, workers);
    var indices := BalancedPartition(weights, workers);
    WidestChunk(weights, workers);
    CostsAreEven(c, group, indices);
    GatherAll(group, indices);
    parts := GatheredAll(group, indices);
  }

  lemma {:induction false} NothingInside<T>(parts: seq<seq<T>>)
    requires forall i :: 0 <= i < |parts| ==> parts[i] == []
    ensures Contents(parts) == multiset{}
  {
    if parts != [] {
      NothingInside(parts[1..]);
    }
  }

  // ---- `prepare_batch` ----

  function ImageGroup(s: Setup, ready: seq<MicroBatch>): seq<MicroBatch>
    requires ValidSetup(s)
  {
    Filled(OfModality(ready, true), s.workers)
  }

  function TextGroup(s: Setup, ready: seq<MicroBatch>): seq<MicroBatch>
    requires ValidSetup(s)
  {
    Filled(OfModality(ready, false), s.workers)
  }

  function Zipped(a: seq<seq<MicroBatch>>, b: seq<seq<MicroBatch>>): (r: seq<seq<MicroBatch>>)
    requires |a| == |b|
    ensures |r| == |a| && forall w :: 0 <= w < |r| ==> r[w] == a[w] + b[w]
  {
    seq(|a|, w requires 0 <= w < |a| => a[w] + b[w])
  }

  lemma {:induction false} ZippedContents(a: seq<seq<MicroBatch>>, b: seq<seq<MicroBatch>>)
    requires |a| == |b|
    ensures Contents(Zipped(a, b)) == Contents(a) + Contents(b)
  {
    if a != [] {
      ZippedContents(a[1..], b[1..]);
      assert Zipped(a, b)[1..] == Zipped(a[1..], b[1..]);
    }
  }

  /** At every step index all workers see the same modality: first the multimodal batches, then text. */
  ghost predicate InStep(gpus: seq<seq<MicroBatch>>, images: nat, steps: nat) {
    forall w, i :: 0 <= w < |gpus| && 0 <= i < |gpus[w]| ==> |gpus[w]| == steps && (gpus[w][i].images.Some? <==> i < images)
  }

  lemma PartModality(group: seq<MicroBatch>, parts: seq<seq<MicroBatch>>, multimodal: bool)
    requires Contents(parts) == multiset(group) && forall m :: m in group ==> m.images.Some? == multimodal
    ensures forall w, i :: 0 <= w < |parts| && 0 <= i < |parts[w]| ==> parts[w][i].images.Some? == multimodal
  {
    forall w, i | 0 <= w < |parts| && 0 <= i < |parts[w]| ensures parts[w][i].images.Some? == multimodal {
      PartIsHeld(parts, w, i);
      assert parts[w][i] in multiset(group);
    }
  }

  lemma StepsAlign(a: seq<seq<MicroBatch>>, b: seq<seq<MicroBatch>>, m: nat, n: nat)
    requires |a| == |b| && forall w :: 0 <= w < |a| ==> |a[w]| == m && |b[w]| == n
    requires forall w, i :: 0 <= w < |a| && 0 <= i < |a[w]| ==> a[w][i].images.Some?
    requires forall w, i :: 0 <= w < |b| && 0 <= i < |b[w]| ==> !b[w][i].images.Some?
    ensures InStep(Zipped(a, b), m, m + n)
  {
  }

  function Heads(gpus: seq<seq<MicroBatch>>, k: nat): (r: seq<seq<MicroBatch>>)
    requires forall w :: 0 <= w < |gpus| ==> k <= |gpus[w]|
  {
    seq(|gpus|, w requires 0 <= w < |gpus| => gpus[w][..k])
  }

  function Tails(gpus: seq<seq<MicroBatch>>, k: nat): (r: seq<seq<MicroBatch>>)
    requires forall w :: 0 <= w < |gpus| ==> k <= |gpus[w]|
  {
    seq(|gpus|, w requires 0 <= w < |gpus| => gpus[w][k..])
  }

  /** Every worker gets `m` batches of the first group, then `n` of the second; together they get all of
      both groups; and within each group no two workers are further apart in cost than its costliest
      and its cheapest batch. */
  ghost predicate Shared(c: CostModel, images: seq<MicroBatch>, text: seq<MicroBatch>, m: nat, n: nat, gpus: seq<seq<MicroBatch>>) {
    && (forall w :: 0 <= w < |gpus| ==> |gpus[w]| == m + n)
    && InStep(gpus, m, m + n)
    && Contents(gpus) == multiset(images) + multiset(text)
    && EvenCosts(c, images, Heads(gpus, m)) && EvenCosts(c, text, Tails(gpus, m))
  }

  /** What the workers get when the batches `ready` are grouped by modality, filled up and shared out. */
  ghost predicate Distributed(s: Setup, ready: seq<MicroBatch>, gpus: seq<seq<MicroBatch>>)
    requires ValidSetup(s)
  {
    && |gpus| == s.workers
    && Shared(s.cost, ImageGroup(s, ready), TextGroup(s, ready),
              Steps(ImageGroup(s, ready), s.workers), Steps(TextGroup(s, ready), s.workers), gpus)
  }

  method PrepareBatch(s: Setup, samples: seq<Packed>) returns (gpus: seq<seq<MicroBatch>>)
    requires ValidSetup(s) && AllPrepared(s, samples)
    ensures Distributed(s, Ready(s, samples), gpus)
  {
    var bins := PackSamples(s, samples);
    PackedBins(s, samples);
    PackedCanMaterialize(s, samples, bins);
    var ready := MaterializeAll(s, bins);
    gpus := Distribute(s, ready);
  }

  method Distribute(s: Setup, ready: seq<MicroBatch>) returns (gpus: seq<seq<MicroBatch>>)
    requires ValidSetup(s)
    ensures Distributed(s, ready, gpus)
  {
    var images, text := ImageGroup(s, ready), TextGroup(s, ready);
    FilledModality(ready, true, s.workers);
    FilledModality(ready, false, s.workers);
    var a := DistributeGroup(s.cost, images, s.workers);
    var b := DistributeGroup(s.cost, text, s.workers);
    ZippedIsShared(s.cost, images, text, a, b, Steps(images, s.workers), Steps(text, s.workers));
    gpus := Zipped(a, b);
  }

  lemma ZippedIsShared(c: CostModel, images: seq<MicroBatch>, text: seq<MicroBatch>,
                       a: seq<seq<MicroBatch>>, b: seq<seq<MicroBatch>>, m: nat, n: nat)
    requires |a| == |b| && forall w :: 0 <= w < |a| ==> |a[w]| == m && |b[w]| == n
    requires Contents(a) == multiset(images) && Contents(b) == multiset(text)
    requires (forall x :: x in images ==> x.images.Some?) && (forall x :: x in text ==> !x.images.Some?)
    requires EvenCosts(c, images, a) && EvenCosts(c, text, b)
    ensures Shared(c, images, text, m, n, Zipped(a, b))
  {
    PartModality(images, a, true);
    PartModality(text, b, false);
    StepsAlign(a, b, m, n);
    ZippedContents(a, b);
    assert Heads(Zipped(a, b), m) == a && Tails(Zipped(a, b), m) == b;
  }

  // ---- Loss is neither lost nor made ----

  function LossTokens(batches: seq<MicroBatch>): nat {
    if batches == [] then 0 else TrueCount(batches[0].mask) + LossTokens(batches[1..])
  }

  lemma {:induction false} LossConcat(a: seq<MicroBatch>, b: seq<MicroBatch>)
    ensures LossTokens(a + b) == LossTokens(a) + LossTokens(b)
  {
    if a == [] {
      assert a + b == b;
    } else {
      assert (a + b)[1..] == a[1..] + b;
      LossConcat(a[1..], b);
    }
  }

  lemma {:induction false} LossOfContents(a: seq<MicroBatch>, b: seq<MicroBatch>)
    requires multiset(a) == multiset(b)
    ensures LossTokens(a) == LossTokens(b)
  {
    if a == [] {
      SameSize(a, b);
    } else {
      var i := Counterpart(a, b);
      LossOfContents(a[1..], Without(b, i));
      assert b == b[..i] + ([b[i]] + b[i + 1..]);
      LossConcat(b[..i], [b[i]] + b[i + 1..]);
      LossConcat(b[..i], b[i + 1..]);
      assert ([b[i]] + b[i + 1..])[1..] == b[i + 1..];
    }
  }

  lemma {:induction false} DummiesHaveNoLoss(m: MicroBatch, n: nat)
    ensures LossTokens(Repeat(DummyOf(m), n)) == 0
  {
    if n > 0 {
      DummyHasNoLoss(m);
      assert Repeat(DummyOf(m), n)[1..] == Repeat(DummyOf(m), n - 1);
      DummiesHaveNoLoss(m, n - 1);
    }
  }

  lemma FilledLoss(group: seq<MicroBatch>, workers: nat)
    requires workers > 0
    ensures LossTokens(Filled(group, workers)) == LossTokens(group)
  {
    if group != [] {
      LossConcat(group, Dummies(group, workers));
      DummiesHaveNoLoss(group[0], DummiesNeeded(|group|, workers));
    }
  }

  /** The distributed batches carry the loss tokens of the batches they were made from. */
  lemma DistributedLoss(s: Setup, ready: seq<MicroBatch>, gpus: seq<seq<MicroBatch>>)
    requires ValidSetup(s) && Distributed(s, ready, gpus)
    ensures LossTokens(Flat(gpus)) == LossTokens(ready)
  {
    FlatContents(gpus);
    LossOfContents(Flat(gpus), ImageGroup(s, ready) + TextGroup(s, ready));
    LossConcat(ImageGroup(s, ready), TextGroup(s, ready));
    FilledLoss(OfModality(ready, true), s.workers);
    FilledLoss(OfModality(ready, false), s.workers);
    ModalitiesCover(ready);
    LossConcat(OfModality(ready, true), OfModality(ready, false));
    LossOfContents(OfModality(ready, true) + OfModality(ready, false), ready);
  }

  lemma ReadyLoss(s: Setup, b: Bin)
    requires ValidSetup(s) && CanMaterialize(s, b)
    ensures TrueCount(ReadyOf(s, b).mask) == MaskTotal(b.samples)
  {
    MaterializedLockstep(b.samples, s.loras);
    PaddingIsInert(Materialized(b.samples, s.loras), s.multiple);
    MaterializedKeepsMask(b.samples);
  }

  lemma {:induction false} MaskTotalConcat(a: seq<Packed>, b: seq<Packed>)
    ensures MaskTotal(a + b) == MaskTotal(a) + MaskTotal(b)
  {
    if a == [] {
      assert a + b == b;
    } else {
      assert (a + b)[1..] == a[1..] + b;
      MaskTotalConcat(a[1..], b);
    }
  }

  lemma {:induction false} MaskTotalOfContents(a: seq<Packed>, b: seq<Packed>)
    requires multiset(a) == multiset(b)
    ensures MaskTotal(a) == MaskTotal(b)
  {
    if a == [] {
      SameSize(a, b);
    } else {
      var i := Counterpart(a, b);
      MaskTotalOfContents(a[1..], Without(b, i));
      assert b == b[..i] + ([b[i]] + b[i + 1..]);
      MaskTotalConcat(b[..i], [b[i]] + b[i + 1..]);
      MaskTotalConcat(b[..i], b[i + 1..]);
      assert ([b[i]] + b[i + 1..])[1..] == b[i + 1..];
    }
  }

  lemma {:induction false} ReadyAllLoss(s: Setup, bins: seq<Bin>)
    requires ValidSetup(s) && forall i :: 0 <= i < |bins| ==> CanMaterialize(s, bins[i])
    ensures LossTokens(ReadyAll(s, bins)) == MaskTotal(Flat(Samples(bins)))
  {
    if bins != [] {
      ReadyAllLoss(s, bins[1..]);
      assert ReadyAll(s, bins)[1..] == ReadyAll(s, bins[1..]);
      assert Samples(bins)[1..] == Samples(bins[1..]);
      ReadyLoss(s, bins[0]);
      MaskTotalConcat(bins[0].samples, Flat(Samples(bins[1..])));
    }
  }

  /** However the samples are packed, padded, filled up and distributed, the tokens that carry loss are
      exactly those of the samples. */
  lemma LossConserved(s: Setup, samples: seq<Packed>, gpus: seq<seq<MicroBatch>>)
    requires ValidSetup(s) && AllPrepared(s, samples)
    requires Distributed(s, Ready(s, samples), gpus)
    ensures LossTokens(Flat(gpus)) == MaskTotal(samples)
  {
    var bins := Pack(s, samples);
    PackedBins(s, samples);
    PackedCanMaterialize(s, samples, bins);
    DistributedLoss(s, Ready(s, samples), gpus);
    ReadyAllLoss(s, bins);
    FlatContents(Samples(bins));
    MaskTotalOfContents(Flat(Samples(bins)), samples);
  }

  // ---- When no dummy is needed ----

  lemma {:induction false} AllText(batches: seq<MicroBatch>)
    requires forall i :: 0 <= i < |batches| ==> batches[i].images == None
    ensures OfModality(batches, true) == [] && OfModality(batches, false) == batches
  {
    if batches != [] {
      AllText(batches[1..]);
      assert batches == [batches[0]] + batches[1..];
    }
  }

  lemma NoneNeeded(group: seq<MicroBatch>, workers: nat)
    requires workers > 0 && |group| % workers == 0
    ensures Filled(group, workers) == group
  {
    assert PaddingSize(|group|, workers) == 0 by {
      if workers > 1 {
        assert (workers - 0) % workers == 0;
      }
    }
    assert group + Repeat(DummyOf(if group == [] then Blank() else group[0]), 0) == group;
  }

  function Blank(): MicroBatch { MicroBatch([], [], [], [], [], None, None, [], None, None, "") }

  /** An all-text batch with at least as many samples as the target needs no dummy: the workers get
      exactly the packed batches. */
  lemma NoDummyForText(s: Setup, samples: seq<Packed>)
    requires ValidSetup(s) && AllPrepared(s, samples) && s.workers > 1
    requires forall i :: 0 <= i < |samples| ==> IsText(samples[i])
    requires |samples| >= Target(|FirstFit(Sorted(PackingOrder(), samples), s.limit)|, s.workers)
    ensures ImageGroup(s, Ready(s, samples)) == [] && TextGroup(s, Ready(s, samples)) == Ready(s, samples)
  {
    var bins, ready := Pack(s, samples), Ready(s, samples);
    PackedBins(s, samples);
    PackedCanMaterialize(s, samples, bins);
    forall i | 0 <= i < |ready| ensures ready[i].images == None {
      PartIsHeld(Samples(bins), i, 0);
      assert bins[i].samples[0] in multiset(samples);
    }
    AllText(ready);
    TargetIsMultiple(|FirstFit(Sorted(PackingOrder(), samples), s.limit)|, s.workers);
    NoneNeeded(ready, s.workers);
  }
}

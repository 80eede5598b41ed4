/** Packing samples into bins: first fit, then splitting the heaviest bins until every worker has
    the same number (src/prime_rl/trainer/batch.py:195-242, 315-368). */
module Packing {
  import opened Arithmetic
  import opened Sequences
  import opened Wrappers
  import opened MicroBatches

  datatype Bin = Bin(samples: seq<Packed>, length: int)

  predicate CanAdd(b: Bin, m: MicroBatch, limit: nat)
    requires b.samples != []
  {
    var first := b.samples[0].sample;
    && first.images == None && m.images == None
    && b.length + |m.ids| <= limit
    && first.mode == m.mode
    && (first.experts == None) == (m.experts == None)
  }

  predicate NonEmpty(bins: seq<Bin>) { forall i :: 0 <= i < |bins| ==> bins[i].samples != [] }

  /** The first bin from `i` on that takes the sample, or the number of bins. */
  function FirstFitting(bins: seq<Bin>, m: MicroBatch, limit: nat, i: nat): (r: nat)
    requires i <= |bins| && NonEmpty(bins)
    ensures i <= r <= |bins|
    ensures r < |bins| ==> CanAdd(bins[r], m, limit)
    ensures forall j :: i <= j < r ==> !CanAdd(bins[j], m, limit)
    decreases |bins| - i
  {
    if i == |bins| || CanAdd(bins[i], m, limit) then i else FirstFitting(bins, m, limit, i + 1)
  }

  function Add(b: Bin, p: Packed): Bin { Bin(b.samples + [p], b.length + |p.sample.ids|) }

  function Place(bins: seq<Bin>, p: Packed, limit: nat): (r: seq<Bin>)
    requires NonEmpty(bins)
    ensures NonEmpty(r)
  {
    var i := FirstFitting(bins, p.sample, limit, 0);
    if i < |bins| then bins[i := Add(bins[i], p)] else bins + [Bin([p], |p.sample.ids|)]
  }

  function FirstFit(samples: seq<Packed>, limit: nat): (bins: seq<Bin>)
    ensures NonEmpty(bins)
  {
    if samples == [] then [] else Place(FirstFit(samples[..|samples| - 1], limit), samples[|samples| - 1], limit)
  }

  method PackFirstFit(samples: seq<Packed>, limit: nat) returns (bins: seq<Bin>)
    ensures bins == FirstFit(samples, limit)
  {
    bins := [];
    var n := 0;
    while n < |samples|
      invariant 0 <= n <= |samples| && bins == FirstFit(samples[..n], limit)
    {
      var p := samples[n];
      var i := 0;
      while i < |bins| && !CanAdd(bins[i], p.sample, limit)
        invariant 0 <= i <= |bins|
        invariant FirstFitting(bins, p.sample, limit, 0) == FirstFitting(bins, p.sample, limit, i)
      {
        i := i + 1;
      }
      assert samples[..n + 1][..n] == samples[..n];
      if i < |bins| {
        bins := bins[i := Add(bins[i], p)];
      } else {
        bins := bins + [Bin([p], |p.sample.ids|)];
      }
      n := n + 1;
    }
    assert samples[..n] == samples;
  }

  /** Both are text, of one mode, both with routed experts or both without, and the limit is kept. */
  predicate Takes(b: Bin, p: Packed, limit: nat)
    requires b.samples != []
  {
    var first, m := b.samples[0].sample, p.sample;
    && first.images == None && m.images == None && first.mode == m.mode && (first.experts.Some? <==> m.experts.Some?)
    && b.length + |m.ids| <= limit
  }

  /** `after` is `before` with the sample at the end of bin `i`, the first that takes it, or in a new bin if none does. */
  ghost predicate GoesTo(before: seq<Bin>, after: seq<Bin>, p: Packed, limit: nat, i: nat)
    requires NonEmpty(before)
  {
    && i <= |before| && (forall j :: 0 <= j < i ==> !Takes(before[j], p, limit))
    && if i < |before|
       then Takes(before[i], p, limit) && after == before[i := Bin(before[i].samples + [p], before[i].length + |p.sample.ids|)]
       else after == before + [Bin([p], |p.sample.ids|)]
  }

  /** What first fit does with each sample in turn. */
  lemma FirstFitStep(samples: seq<Packed>, n: nat, limit: nat) returns (i: nat)
    requires n < |samples|
    ensures GoesTo(FirstFit(samples[..n], limit), FirstFit(samples[..n + 1], limit), samples[n], limit, i)
  {
    assert samples[..n + 1][..n] == samples[..n];
    var before, p := FirstFit(samples[..n], limit), samples[n];
    i := FirstFitting(before, p.sample, limit, 0);
    assert forall j :: 0 <= j < |before| ==> (Takes(before[j], p, limit) <==> CanAdd(before[j], p.sample, limit));
  }

  // ---- What every bin is ----

  function Samples(bins: seq<Bin>): (r: seq<seq<Packed>>)
    ensures |r| == |bins| && forall i :: 0 <= i < |r| ==> r[i] == bins[i].samples
  {
    seq(|bins|, i requires 0 <= i < |bins| => bins[i].samples)
  }

  predicate IsText(p: Packed) { p.sample.images == None }

  /** Not empty, of one class, with the length it records; a multimodal sample is alone. */
  ghost predicate Sound(b: Bin) {
    && b.samples != [] && OneClass(b.samples) && b.length == Sum(Lengths(b.samples))
    && (|b.samples| > 1 ==> forall i :: 0 <= i < |b.samples| ==> IsText(b.samples[i]))
  }

  ghost predicate AllSound(bins: seq<Bin>) { forall i :: 0 <= i < |bins| ==> Sound(bins[i]) }

  predicate Within(bins: seq<Bin>, limit: nat) { forall i :: 0 <= i < |bins| ==> bins[i].length <= limit }

  function BinClass(b: Bin): Class
    requires b.samples != []
  {
    ClassOf(b.samples[0].sample)
  }

  predicate TextBin(b: Bin) { b.samples != [] && IsText(b.samples[0]) }

  /** No two text bins of one class could have been one. */
  ghost predicate Crowded(bins: seq<Bin>, limit: nat) {
    forall i, j :: 0 <= i < j < |bins| && TextBin(bins[i]) && TextBin(bins[j]) && BinClass(bins[i]) == BinClass(bins[j]) ==>
      bins[i].length + bins[j].length > limit
  }

  lemma LengthsGrow(samples: seq<Packed>, p: Packed)
    ensures Sum(Lengths(samples + [p])) == Sum(Lengths(samples)) + |p.sample.ids|
  {
    assert Lengths(samples + [p]) == Lengths(samples) + [|p.sample.ids|];
    SumConcat(Lengths(samples), [|p.sample.ids|]);
  }

  lemma NewBinIsSound(p: Packed)
    ensures Sound(Bin([p], |p.sample.ids|))
  {
    LengthsGrow([], p);
    assert [] + [p] == [p];
  }

  lemma AddKeepsSound(b: Bin, p: Packed, limit: nat)
    requires Sound(b) && CanAdd(b, p.sample, limit)
    ensures Sound(Add(b, p))
  {
    LengthsGrow(b.samples, p);
    var r := b.samples + [p];
    forall i | 0 <= i < |r| ensures ClassOf(r[i].sample) == ClassOf(p.sample) && IsText(r[i]) {
      if i < |b.samples| {
        assert ClassOf(b.samples[i].sample) == ClassOf(b.samples[0].sample);
      }
    }
  }

  lemma PlaceKeepsBins(bins: seq<Bin>, p: Packed, limit: nat)
    requires AllSound(bins) && Within(bins, limit) && Crowded(bins, limit) && |p.sample.ids| <= limit
    ensures AllSound(Place(bins, p, limit)) && Within(Place(bins, p, limit), limit) && Crowded(Place(bins, p, limit), limit)
  {
    var i := FirstFitting(bins, p.sample, limit, 0);
    if i < |bins| {
      AddKeepsSound(bins[i], p, limit);
    } else {
      NewBinIsSound(p);
    }
  }

  lemma AddKeepsContents(bins: seq<Bin>, i: nat, p: Packed)
    requires i < |bins|
    ensures Contents(Samples(bins[i := Add(bins[i], p)])) == Contents(Samples(bins)) + multiset{p}
  {
    var added := bins[i].samples + [p];
    ContentsUpdate(Samples(bins), i, added);
    assert Samples(bins[i := Add(bins[i], p)]) == Samples(bins)[i := added];
    OneMore(Contents(Samples(bins)), Contents(Samples(bins)[i := added]), bins[i].samples, p);
  }

  lemma OneMore(before: multiset<Packed>, after: multiset<Packed>, part: seq<Packed>, p: Packed)
    requires after + multiset(part) == before + multiset(part + [p])
    ensures after == before + multiset{p}
  {
    forall e ensures after[e] == (before + multiset{p})[e] {
      assert (after + multiset(part))[e] == (before + multiset(part + [p]))[e];
    }
  }

  lemma NewBinKeepsContents(bins: seq<Bin>, p: Packed)
    ensures Contents(Samples(bins + [Bin([p], |p.sample.ids|)])) == Contents(Samples(bins)) + multiset{p}
  {
    assert Samples(bins + [Bin([p], |p.sample.ids|)]) == Samples(bins) + [[p]];
    ContentsConcat(Samples(bins), [[p]]);
    assert Contents([[p]]) == multiset([p]) + Contents([[p]][1..]);
  }

  lemma PlaceKeepsContents(bins: seq<Bin>, p: Packed, limit: nat)
    requires NonEmpty(bins)
    ensures Contents(Samples(Place(bins, p, limit))) == Contents(Samples(bins)) + multiset{p}
  {
    var i := FirstFitting(bins, p.sample, limit, 0);
    if i < |bins| {
      AddKeepsContents(bins, i, p);
    } else {
      NewBinKeepsContents(bins, p);
    }
  }

  /** First fit loses and repeats nothing, keeps every bin within the limit and of one class, leaves
      multimodal samples alone, and never leaves two bins of a class that would fit together. */
  lemma {:induction false} FirstFitBins(samples: seq<Packed>, limit: nat)
    requires forall i :: 0 <= i < |samples| ==> |samples[i].sample.ids| <= limit
    ensures var bins := FirstFit(samples, limit);
      && AllSound(bins) && Within(bins, limit) && Crowded(bins, limit)
      && Contents(Samples(bins)) == multiset(samples)
  {
    if samples != [] {
      var n := |samples| - 1;
      FirstFitBins(samples[..n], limit);
      PlaceKeepsBins(FirstFit(samples[..n], limit), samples[n], limit);
      PlaceKeepsContents(FirstFit(samples[..n], limit), samples[n], limit);
      assert samples == samples[..n] + [samples[n]];
    }
  }

  // ---- How many bins first fit uses ----

  function ClassBins(bins: seq<Bin>, kind: Class): seq<Bin> {
    if bins == [] then []
    else if TextBin(bins[0]) && BinClass(bins[0]) == kind then [bins[0]] + ClassBins(bins[1..], kind)
    else ClassBins(bins[1..], kind)
  }

  predicate TextOf(p: Packed, kind: Class) { IsText(p) && ClassOf(p.sample) == kind }

  function TextSamples(samples: seq<Packed>, kind: Class): seq<Packed> {
    if samples == [] then []
    else (if TextOf(samples[0], kind) then [samples[0]] else []) + TextSamples(samples[1..], kind)
  }

  function BinLengths(bins: seq<Bin>): (r: seq<int>)
    ensures |r| == |bins| && forall i :: 0 <= i < |r| ==> r[i] == bins[i].length
  {
    seq(|bins|, i requires 0 <= i < |bins| => bins[i].length)
  }

  ghost predicate PairwiseAbove(lengths: seq<int>, limit: nat) {
    forall i, j :: 0 <= i < j < |lengths| ==> lengths[i] + lengths[j] > limit
  }

  lemma {:induction false} ClassBinsCrowded(bins: seq<Bin>, kind: Class, limit: nat)
    requires Crowded(bins, limit)
    ensures PairwiseAbove(BinLengths(ClassBins(bins, kind)), limit)
    ensures forall b :: b in ClassBins(bins, kind) ==> b in bins && TextBin(b) && BinClass(b) == kind
  {
    if bins != [] {
      assert forall i, j :: 0 <= i < j < |bins[1..]| ==> bins[1..][i] == bins[i + 1] && bins[1..][j] == bins[j + 1];
      ClassBinsCrowded(bins[1..], kind, limit);
      var rest := ClassBins(bins[1..], kind);
      if TextBin(bins[0]) && BinClass(bins[0]) == kind {
        forall j | 0 <= j < |rest| ensures bins[0].length + rest[j].length > limit {
          assert rest[j] in bins[1..];
          var k :| 0 <= k < |bins[1..]| && bins[1..][k] == rest[j];
          assert bins[k + 1] == rest[j];
        }
      }
    }
  }

  lemma {:induction false} PairsAboveHalf(lengths: seq<int>, limit: nat)
    requires |lengths| >= 2 && PairwiseAbove(lengths, limit)
    ensures |lengths| * limit < 2 * Sum(lengths)
  {
    var rest := lengths[2..];
    assert lengths[1..][1..] == rest;
    assert Sum(lengths) == lengths[0] + lengths[1] + Sum(rest);
    if |lengths| == 3 {
      assert rest[1..] == [] && Sum(rest) == lengths[2];
      assert lengths[0] + lengths[2] > limit && lengths[1] + lengths[2] > limit;
    } else if |lengths| > 3 {
      assert forall i :: 0 <= i < |rest| ==> rest[i] == lengths[i + 2];
      PairsAboveHalf(rest, limit);
      TwoMore(|rest|, limit);
    }
  }

  lemma TwoMore(n: int, c: int)
    ensures (n + 2) * c == n * c + 2 * c
  {
  }

  lemma {:induction false} LengthsOfContents(a: seq<Packed>, b: seq<Packed>)
    requires multiset(a) == multiset(b)
    ensures Sum(Lengths(a)) == Sum(Lengths(b))
  {
    if a == [] {
      SameSize(a, b);
    } else {
      var i := Counterpart(a, b);
      LengthsOfContents(a[1..], Without(b, i));
      SumSplit(Lengths(b), i);
      assert Without(Lengths(b), i) == Lengths(Without(b, i));
      assert Lengths(a)[1..] == Lengths(a[1..]);
    }
  }

  lemma SameSize<T>(a: seq<T>, b: seq<T>)
    requires multiset(a) == multiset(b)
    ensures |a| == |b|
  {
    assert |multiset(a)| == |a| && |multiset(b)| == |b|;
  }

  lemma {:induction false} FlatContents<T>(parts: seq<seq<T>>)
    ensures multiset(Flat(parts)) == Contents(parts)
  {
    if parts != [] {
      FlatContents(parts[1..]);
    }
  }

  lemma {:induction false} LengthsOfFlat(groups: seq<seq<Packed>>, limit: nat)
    requires forall i :: 0 <= i < |groups| ==> Sum(Lengths(groups[i])) <= limit
    ensures Sum(Lengths(Flat(groups))) <= |groups| * limit
  {
    if groups != [] {
      LengthsOfFlat(groups[1..], limit);
      assert Lengths(Flat(groups)) == Lengths(groups[0]) + Lengths(Flat(groups[1..]));
      SumConcat(Lengths(groups[0]), Lengths(Flat(groups[1..])));
      Distribute(|groups| - 1, limit);
    }
  }

  lemma {:induction false} BinLengthsAre(bins: seq<Bin>)
    requires AllSound(bins)
    ensures Sum(BinLengths(bins)) == Sum(Lengths(Flat(Samples(bins))))
  {
    if bins != [] {
      BinLengthsAre(bins[1..]);
      assert BinLengths(bins)[1..] == BinLengths(bins[1..]) && Samples(bins)[1..] == Samples(bins[1..]);
      assert Lengths(Flat(Samples(bins))) == Lengths(bins[0].samples) + Lengths(Flat(Samples(bins[1..])));
      SumConcat(Lengths(bins[0].samples), Lengths(Flat(Samples(bins[1..]))));
    }
  }

  /** The bins of a class hold exactly the samples of that class. */
  lemma {:induction false} ClassBinsHold(bins: seq<Bin>, kind: Class, p: Packed)
    requires AllSound(bins)
    ensures Contents(Samples(ClassBins(bins, kind)))[p] == if TextOf(p, kind) then Contents(Samples(bins))[p] else 0
  {
    if bins == [] {
      assert Samples(bins) == [];
    } else {
      ClassBinsHold(bins[1..], kind, p);
      FirstBinHolds(bins[0], bins[1..], p);
      assert bins == [bins[0]] + bins[1..];
      OneClassThroughout(bins[0], kind, p);
      FirstBinHolds(bins[0], ClassBins(bins[1..], kind), p);
    }
  }

  lemma FirstBinHolds(b: Bin, rest: seq<Bin>, p: Packed)
    ensures Contents(Samples([b] + rest))[p] == multiset(b.samples)[p] + Contents(Samples(rest))[p]
  {
    assert Samples([b] + rest)[1..] == Samples(rest);
  }

  lemma OneClassThroughout(b: Bin, kind: Class, p: Packed)
    requires Sound(b)
    ensures multiset(b.samples)[p] > 0 ==> (TextOf(p, kind) <==> TextBin(b) && BinClass(b) == kind)
  {
    if p in b.samples {
      var i :| 0 <= i < |b.samples| && b.samples[i] == p;
      assert ClassOf(b.samples[i].sample) == ClassOf(b.samples[0].sample);
    }
  }

  lemma ClassBinsSound(bins: seq<Bin>, kind: Class, limit: nat)
    requires AllSound(bins) && Crowded(bins, limit)
    ensures AllSound(ClassBins(bins, kind)) && PairwiseAbove(BinLengths(ClassBins(bins, kind)), limit)
  {
    ClassBinsCrowded(bins, kind, limit);
    var mine := ClassBins(bins, kind);
    forall i | 0 <= i < |mine| ensures Sound(mine[i]) {
      assert mine[i] in bins;
    }
  }

  lemma {:induction false} TextSamplesHold(samples: seq<Packed>, kind: Class, p: Packed)
    ensures multiset(TextSamples(samples, kind))[p] == if TextOf(p, kind) then multiset(samples)[p] else 0
  {
    if samples != [] {
      TextSamplesHold(samples[1..], kind, p);
      assert samples == [samples[0]] + samples[1..];
    }
  }

  lemma ClassContents(bins: seq<Bin>, samples: seq<Packed>, kind: Class)
    requires AllSound(bins) && Contents(Samples(bins)) == multiset(samples)
    ensures Contents(Samples(ClassBins(bins, kind))) == multiset(TextSamples(samples, kind))
  {
    forall p ensures Contents(Samples(ClassBins(bins, kind)))[p] == multiset(TextSamples(samples, kind))[p] {
      ClassBinsHold(bins, kind, p);
      TextSamplesHold(samples, kind, p);
    }
  }

  /** First fit needs fewer than twice the bins of ANY packing of a class within the limit, and two
      or more bins of a class are on average more than half full. */
  lemma FirstFitNearOptimal(samples: seq<Packed>, limit: nat, kind: Class, other: seq<seq<Packed>>)
    requires forall i :: 0 <= i < |samples| ==> |samples[i].sample.ids| <= limit
    requires Contents(other) == multiset(TextSamples(samples, kind))
    requires forall i :: 0 <= i < |other| ==> Sum(Lengths(other[i])) <= limit
    ensures var m := |ClassBins(FirstFit(samples, limit), kind)|;
      && (m >= 2 ==> m * limit < 2 * Sum(Lengths(TextSamples(samples, kind))))
      && (m >= 1 ==> m < 2 * |other|)
  {
    FirstFitBins(samples, limit);
    var bins := FirstFit(samples, limit);
    ClassBinsSound(bins, kind, limit);
    ClassContents(bins, samples, kind);
    SizeOfPacking(ClassBins(bins, kind), TextSamples(samples, kind), other, limit);
  }

  lemma SizeOfPacking(mine: seq<Bin>, samples: seq<Packed>, other: seq<seq<Packed>>, limit: nat)
    requires AllSound(mine) && PairwiseAbove(BinLengths(mine), limit)
    requires Contents(Samples(mine)) == multiset(samples) == Contents(other)
    requires forall i :: 0 <= i < |other| ==> Sum(Lengths(other[i])) <= limit
    ensures |mine| >= 2 ==> |mine| * limit < 2 * Sum(Lengths(samples))
    ensures |mine| >= 1 ==> |mine| < 2 * |other|
  {
    BinLengthsAre(mine);
    FlatContents(Samples(mine));
    FlatContents(other);
    LengthsOfContents(Flat(Samples(mine)), samples);
    LengthsOfContents(Flat(other), samples);
    LengthsOfFlat(other, limit);
    if |mine| >= 2 {
      PairsAboveHalf(BinLengths(mine), limit);
      FewerThanTwice(|mine|, |other|, limit, Sum(Lengths(samples)));
    } else if |mine| == 1 {
      assert mine[0].samples[0] in Samples(mine)[0];
      PartIsHeld(Samples(mine), 0, 0);
      assert other != [];
    }
  }

  lemma FewerThanTwice(m: nat, q: nat, limit: nat, total: int)
    requires m * limit < 2 * total && total <= q * limit
    ensures m < 2 * q
  {
    MulMonotone(2 * q, m, limit);
  }
}

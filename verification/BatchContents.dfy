/** What the workers' micro batches hold: every training sample once, unchanged
    (src/prime_rl/trainer/batch.py:245-312, 386-487). */
module BatchContents {
  import opened Sequences
  import opened Wrappers
  import opened MicroBatches
  import opened Packing
  import opened Splitting
  import opened Batches

  /** What a batch holds of one sample. */
  datatype View = View(
    ids: seq<int>, mask: seq<bool>, advantages: seq<real>, positions: seq<int>, envs: seq<string>,
    kinds: seq<int>, experts: Option<seq<int>>, images: Option<Images>, mode: string)

  function ViewOf(m: MicroBatch): View {
    View(m.ids, m.mask, m.advantages, m.positions, m.envs, Kinds(m), m.experts, m.images, m.mode)
  }

  /** The `i`-th sequence of a batch, cut out at the recorded lengths. */
  function Piece(m: MicroBatch, i: nat): View
    requires Lockstep(m) && i < |m.lengths|
  {
    View(Cut(m.lengths, m.ids)[i], Cut(m.lengths, m.mask)[i], Cut(m.lengths, m.advantages)[i],
         Cut(m.lengths, m.positions)[i], Cut(m.lengths, m.envs)[i],
         if m.kinds.Some? then Cut(m.lengths, m.kinds.value)[i] else Repeat(0, m.lengths[i]),
         if m.experts.Some? then Some(Cut(m.lengths, m.experts.value)[i]) else None, m.images, m.mode)
  }

  /** The first `n` sequences of a batch. */
  function Pieces(m: MicroBatch, n: nat): (r: seq<View>)
    requires Lockstep(m) && n <= |m.lengths|
    ensures |r| == n && forall i :: 0 <= i < n ==> r[i] == Piece(m, i)
  {
    seq(n, i requires 0 <= i < n => Piece(m, i))
  }

  function ViewsOf(samples: seq<Packed>): (r: seq<View>)
    ensures |r| == |samples| && forall i :: 0 <= i < |r| ==> r[i] == ViewOf(samples[i].sample)
  {
    seq(|samples|, i requires 0 <= i < |samples| => ViewOf(samples[i].sample))
  }

  // ---- One bin ----

  lemma ColumnAt<T>(samples: seq<Packed>, of: MicroBatch -> seq<T>, i: nat)
    requires i < |samples|
    ensures Column(samples, of)[i] == of(samples[i].sample)
  {
  }

  lemma PieceOfMaterialized(samples: seq<Packed>, loras: nat, i: nat)
    requires samples != [] && forall j :: 0 <= j < |samples| ==> samples[j].lora < loras
    requires AllLockstep(samples) && OneClass(samples) && i < |samples|
    requires samples[i].sample.images == samples[0].sample.images
    ensures Lockstep(Materialized(samples, loras)) && |Materialized(samples, loras).lengths| == |samples|
    ensures Piece(Materialized(samples, loras), i) == ViewOf(samples[i].sample)
  {
    Unpack(samples, loras);
    assert ClassOf(samples[i].sample) == ClassOf(samples[0].sample);
    assert AnyExperts(samples) <==> samples[i].sample.experts.Some? by {
      if AnyExperts(samples) {
        var j :| 0 <= j < |samples| && samples[j].sample.experts.Some?;
        assert ClassOf(samples[i].sample) == ClassOf(samples[j].sample);
      }
    }
    assert !AnyKinds(samples) ==> samples[i].sample.kinds == None;
    ColumnAt(samples, Ids, i);
    ColumnAt(samples, Masks, i);
    ColumnAt(samples, Advantages, i);
    ColumnAt(samples, Positions, i);
    ColumnAt(samples, Envs, i);
    ColumnAt(samples, Kinds, i);
    ColumnAt(samples, Experts, i);
    assert Ids(samples[i].sample) == samples[i].sample.ids && Masks(samples[i].sample) == samples[i].sample.mask;
  }

  lemma PieceOfPadded(m: MicroBatch, multiple: nat, i: nat)
    requires multiple > 0 && Lockstep(m) && i < |m.lengths|
    ensures var r := PadMicroBatch(m, multiple);
      r.Ok? && Lockstep(r.value) && i < |r.value.lengths| && Piece(r.value, i) == Piece(m, i)
  {
    PaddingIsInert(m, multiple);
    var r := PadMicroBatch(m, multiple).value;
    SamePiece(r.lengths, m.lengths, r.ids, m.ids, i);
    SamePiece(r.lengths, m.lengths, r.mask, m.mask, i);
    SamePiece(r.lengths, m.lengths, r.advantages, m.advantages, i);
    SamePiece(r.lengths, m.lengths, r.positions, m.positions, i);
    SamePiece(r.lengths, m.lengths, r.envs, m.envs, i);
    if m.kinds.Some? {
      SamePiece(r.lengths, m.lengths, r.kinds.value, m.kinds.value, i);
    }
    if m.experts.Some? {
      SamePiece(r.lengths, m.lengths, r.experts.value, m.experts.value, i);
    }
    assert r.lengths[i] == m.lengths[i];
  }

  lemma SamePiece<T>(longer: seq<int>, lengths: seq<int>, padded: seq<T>, s: seq<T>, i: nat)
    requires (forall k :: 0 <= k < |longer| ==> longer[k] >= 0) && Sum(longer) == |padded|
    requires (forall k :: 0 <= k < |lengths| ==> lengths[k] >= 0) && Sum(lengths) == |s|
    requires i < |lengths| <= |longer| && Cut(longer, padded)[..|lengths|] == Cut(lengths, s)
    ensures Cut(longer, padded)[i] == Cut(lengths, s)[i]
  {
    assert Cut(longer, padded)[..|lengths|][i] == Cut(longer, padded)[i];
  }

  /** A sequence of padding: the padding token, no loss, no advantage, positions from 0. */
  predicate IsPadding(v: View) {
    && |v.mask| == |v.advantages| == |v.positions| == |v.envs| == |v.kinds| == |v.ids|
    && (v.experts.Some? ==> |v.experts.value| == |v.ids|)
    && forall t :: 0 <= t < |v.ids| ==>
         && v.ids[t] == 1 && !v.mask[t] && v.advantages[t] == 0.0 && v.positions[t] == t && v.envs[t] == ""
         && v.kinds[t] == 0 && (v.experts.Some? ==> v.experts.value[t] == 0)
  }

  lemma LastPiece<T>(lengths: seq<int>, s: seq<T>, pad: seq<T>)
    requires (forall i :: 0 <= i < |lengths| ==> lengths[i] >= 0) && Sum(lengths) == |s|
    ensures Sum(lengths + [|pad|]) == |s + pad| && Cut(lengths + [|pad|], s + pad)[|lengths|] == pad
  {
    CutPadded(lengths, s, pad);
  }

  /** If padding adds a sequence, it is one of padding. */
  lemma PaddingIsPadding(m: MicroBatch, multiple: nat)
    requires multiple > 0 && Lockstep(m)
    ensures var r := PadMicroBatch(m, multiple);
      && r.Ok? && Lockstep(r.value)
      && (|r.value.lengths| > |m.lengths| ==> IsPadding(Piece(r.value, |m.lengths|)))
  {
    PaddingKeepsLockstep(m, multiple);
    var n := PaddingSize(|m.ids|, multiple);
    if multiple > 1 && n > 0 {
      LastPiece(m.lengths, m.ids, Repeat(1, n));
      LastPiece(m.lengths, m.mask, Repeat(false, n));
      LastPiece(m.lengths, m.advantages, Repeat(0.0, n));
      LastPiece(m.lengths, m.positions, seq(n, i => i));
      LastPiece(m.lengths, m.envs, Repeat("", n));
      if m.kinds.Some? {
        LastPiece(m.lengths, m.kinds.value, Repeat(0, n));
      }
      if m.experts.Some? {
        LastPiece(m.lengths, m.experts.value, Repeat(0, n));
      }
    }
  }

  /** The batch made of a bin holds its samples in order, followed by at most one sequence, of padding. */
  lemma BinRecovered(s: Setup, b: Bin)
    requires ValidSetup(s) && CanMaterialize(s, b) && Sound(b)
    ensures var m := ReadyOf(s, b);
      && |b.samples| <= |m.lengths| <= |b.samples| + 1
      && Pieces(m, |b.samples|) == ViewsOf(b.samples)
      && (|m.lengths| > |b.samples| ==> IsPadding(Piece(m, |b.samples|)))
  {
    MaterializedLockstep(b.samples, s.loras);
    PaddingIsPadding(Materialized(b.samples, s.loras), s.multiple);
    var joined, m := Materialized(b.samples, s.loras), ReadyOf(s, b);
    PaddingIsInert(joined, s.multiple);
    forall i | 0 <= i < |b.samples| ensures Piece(m, i) == ViewOf(b.samples[i].sample) {
      assert b.samples[i].sample.images == b.samples[0].sample.images by {
        assert |b.samples| > 1 ==> IsText(b.samples[i]) && IsText(b.samples[0]);
      }
      PieceOfMaterialized(b.samples, s.loras, i);
      PieceOfPadded(joined, s.multiple, i);
    }
  }

  // ---- All bins ----

  ghost predicate Countable(ready: seq<MicroBatch>, counts: seq<nat>) {
    && |counts| == |ready|
    && forall i :: 0 <= i < |ready| ==>
         && Lockstep(ready[i]) && counts[i] <= |ready[i].lengths| <= counts[i] + 1
         && (|ready[i].lengths| > counts[i] ==> IsPadding(Piece(ready[i], counts[i])))
  }

  /** The first `counts[i]` sequences of every batch `i`. */
  ghost function AllPieces(ready: seq<MicroBatch>, counts: seq<nat>): seq<View>
    requires Countable(ready, counts)
  {
    if ready == [] then [] else Pieces(ready[0], counts[0]) + AllPieces(ready[1..], counts[1..])
  }

  function Counts(bins: seq<Bin>): (r: seq<nat>)
    ensures |r| == |bins| && forall i :: 0 <= i < |r| ==> r[i] == |bins[i].samples|
  {
    seq(|bins|, i requires 0 <= i < |bins| => |bins[i].samples|)
  }

  lemma AllCountable(s: Setup, bins: seq<Bin>)
    requires ValidSetup(s) && AllSound(bins) && forall i :: 0 <= i < |bins| ==> CanMaterialize(s, bins[i])
    ensures Countable(ReadyAll(s, bins), Counts(bins))
  {
    forall i | 0 <= i < |bins|
      ensures |bins[i].samples| <= |ReadyAll(s, bins)[i].lengths| <= |bins[i].samples| + 1
      ensures |ReadyAll(s, bins)[i].lengths| > |bins[i].samples| ==> IsPadding(Piece(ReadyAll(s, bins)[i], |bins[i].samples|))
    {
      BinRecovered(s, bins[i]);
    }
  }

  lemma ViewsConcat(a: seq<Packed>, b: seq<Packed>)
    ensures ViewsOf(a + b) == ViewsOf(a) + ViewsOf(b)
  {
  }

  lemma {:induction false} PiecesOfBins(ready: seq<MicroBatch>, counts: seq<nat>, bins: seq<Bin>)
    requires Countable(ready, counts) && |bins| == |ready|
    requires forall i :: 0 <= i < |bins| ==> Pieces(ready[i], counts[i]) == ViewsOf(bins[i].samples)
    ensures AllPieces(ready, counts) == ViewsOf(Flat(Samples(bins)))
  {
    if bins != [] {
      PiecesOfBins(ready[1..], counts[1..], bins[1..]);
      assert Samples(bins)[1..] == Samples(bins[1..]);
      ViewsConcat(bins[0].samples, Flat(Samples(bins[1..])));
    }
  }

  lemma BinsRecovered(s: Setup, bins: seq<Bin>)
    requires ValidSetup(s) && AllSound(bins) && forall i :: 0 <= i < |bins| ==> CanMaterialize(s, bins[i])
    ensures Countable(ReadyAll(s, bins), Counts(bins))
    ensures AllPieces(ReadyAll(s, bins), Counts(bins)) == ViewsOf(Flat(Samples(bins)))
  {
    AllCountable(s, bins);
    forall i | 0 <= i < |bins| ensures Pieces(ReadyAll(s, bins)[i], Counts(bins)[i]) == ViewsOf(bins[i].samples) {
      BinRecovered(s, bins[i]);
    }
    PiecesOfBins(ReadyAll(s, bins), Counts(bins), bins);
  }

  lemma {:induction false} SameViews(a: seq<Packed>, b: seq<Packed>)
    requires multiset(a) == multiset(b)
    ensures multiset(ViewsOf(a)) == multiset(ViewsOf(b))
  {
    if a == [] {
      assert multiset(b) == multiset{};
      assert |multiset(b)| == |b|;
    } else {
      var i := Counterpart(a, b);
      SameViews(a[1..], Without(b, i));
      assert ViewsOf(a) == [ViewOf(a[0].sample)] + ViewsOf(a[1..]);
      assert ViewsOf(Without(b, i)) == Without(ViewsOf(b), i);
      WithoutContents(ViewsOf(b), i);
    }
  }

  // ---- All workers ----

  /** The dummies that fill up the two groups. */
  ghost function AllDummies(s: Setup, ready: seq<MicroBatch>): seq<MicroBatch>
    requires ValidSetup(s)
  {
    Dummies(OfModality(ready, true), s.workers) + Dummies(OfModality(ready, false), s.workers)
  }

  /** `d` is `m` but for its loss mask and its advantages, which are all off. */
  predicate IsDummyOf(d: MicroBatch, m: MicroBatch) {
    && d == m.(mask := d.mask, advantages := d.advantages) && |d.mask| == |d.advantages| == |m.ids|
    && forall t :: 0 <= t < |d.mask| ==> !d.mask[t] && d.advantages[t] == 0.0
  }

  /** A batch that only fills up a group is a loss-free copy of a real one. */
  ghost predicate OnlyFills(d: MicroBatch, ready: seq<MicroBatch>) {
    TrueCount(d.mask) == 0 && exists m :: m in ready && IsDummyOf(d, m)
  }

  lemma DummiesAreFree(group: seq<MicroBatch>, workers: nat)
    requires workers > 0
    ensures |Dummies(group, workers)| < workers
    ensures forall i :: 0 <= i < |Dummies(group, workers)| ==> OnlyFills(Dummies(group, workers)[i], group)
    ensures multiset(Filled(group, workers)) == multiset(group) + multiset(Dummies(group, workers))
  {
    if group != [] {
      DummyHasNoLoss(group[0]);
      assert IsDummyOf(DummyOf(group[0]), group[0]);
    }
  }

  lemma {:induction false} OfModalityHeld(batches: seq<MicroBatch>, multimodal: bool)
    ensures forall m :: m in OfModality(batches, multimodal) ==> m in batches
  {
    if batches != [] {
      OfModalityHeld(batches[1..], multimodal);
    }
  }

  lemma AllDummiesAreFree(s: Setup, ready: seq<MicroBatch>)
    requires ValidSetup(s)
    ensures |AllDummies(s, ready)| <= 2 * (s.workers - 1)
    ensures forall i :: 0 <= i < |AllDummies(s, ready)| ==> OnlyFills(AllDummies(s, ready)[i], ready)
    ensures multiset(ImageGroup(s, ready)) + multiset(TextGroup(s, ready)) == multiset(ready) + multiset(AllDummies(s, ready))
  {
    DummiesAreFree(OfModality(ready, true), s.workers);
    DummiesAreFree(OfModality(ready, false), s.workers);
    OfModalityHeld(ready, true);
    OfModalityHeld(ready, false);
    ModalitiesCover(ready);
  }

  /** Every sample reaches the workers once and unchanged. Taken together, the micro batches of all workers are
      some real ones and fewer than `workers` loss-free copies of them per modality; cut at its recorded lengths, each
      real one falls into samples and at most one sequence of padding; and the samples that come out, with every column,
      their images and their mode, are exactly the samples that went in. */
  lemma SamplesRecovered(s: Setup, samples: seq<Packed>, gpus: seq<seq<MicroBatch>>)
    returns (ready: seq<MicroBatch>, counts: seq<nat>, dummies: seq<MicroBatch>)
    requires ValidSetup(s) && AllPrepared(s, samples) && Distributed(s, Ready(s, samples), gpus)
    ensures Contents(gpus) == multiset(ready) + multiset(dummies)
    ensures |dummies| <= 2 * (s.workers - 1) && forall i :: 0 <= i < |dummies| ==> OnlyFills(dummies[i], ready)
    ensures Countable(ready, counts) && multiset(AllPieces(ready, counts)) == multiset(ViewsOf(samples))
  {
    var bins := Pack(s, samples);
    PackedBins(s, samples);
    PackedCanMaterialize(s, samples, bins);
    ready, counts, dummies := Ready(s, samples), Counts(bins), AllDummies(s, Ready(s, samples));
    AllDummiesAreFree(s, ready);
    BinsRecovered(s, bins);
    FlatContents(Samples(bins));
    SameViews(Flat(Samples(bins)), samples);
  }
}

/** Micro batches: joining packed samples column by column, padding, and zero-loss dummies
    (src/prime_rl/trainer/batch.py:245-312, 386-438). */
module MicroBatches {
  import opened Arithmetic
  import opened Sequences
  import opened Wrappers

  /** `image_grid_thw` and the rows of `pixel_values`. */
  datatype Images = Images(grid: seq<(nat, nat, nat)>, pixels: seq<int>)

  /** `kinds` is `mm_token_type_ids`; `experts` holds one row of routed experts per token. */
  datatype MicroBatch = MicroBatch(
    ids: seq<int>, mask: seq<bool>, advantages: seq<real>, positions: seq<int>, envs: seq<string>,
    kinds: Option<seq<int>>, experts: Option<seq<int>>, lengths: seq<int>, loraTokens: Option<seq<int>>,
    images: Option<Images>, mode: string)

  datatype Packed = Packed(lora: nat, sample: MicroBatch)

  function Ids(m: MicroBatch): seq<int> { m.ids }
  function Masks(m: MicroBatch): seq<bool> { m.mask }
  function Advantages(m: MicroBatch): seq<real> { m.advantages }
  function Positions(m: MicroBatch): seq<int> { m.positions }
  function Envs(m: MicroBatch): seq<string> { m.envs }
  function Kinds(m: MicroBatch): seq<int> { if m.kinds.Some? then m.kinds.value else Repeat(0, |m.ids|) }
  function Experts(m: MicroBatch): seq<int> { if m.experts.Some? then m.experts.value else [] }

  function Repeat<T>(x: T, n: nat): (r: seq<T>)
    ensures |r| == n
  {
    seq(n, i => x)
  }

  /** Every column has one entry per token, and the recorded lengths account for all tokens. */
  predicate Lockstep(m: MicroBatch) {
    && |m.mask| == |m.advantages| == |m.positions| == |m.envs| == |m.ids|
    && (m.kinds.Some? ==> |m.kinds.value| == |m.ids|)
    && (m.experts.Some? ==> |m.experts.value| == |m.ids|)
    && (forall i :: 0 <= i < |m.lengths| ==> m.lengths[i] >= 0)
    && Sum(m.lengths) == |m.ids|
    && (m.loraTokens.Some? ==> m.loraTokens.value != [] && Sum(m.loraTokens.value) == |m.ids|)
  }

  /** What `can_add` compares: samples packed together agree on it. */
  datatype Class = Class(mode: string, hasExperts: bool)

  function ClassOf(m: MicroBatch): Class { Class(m.mode, m.experts.Some?) }

  function TrueCount(mask: seq<bool>): nat {
    if mask == [] then 0 else (if mask[0] then 1 else 0) + TrueCount(mask[1..])
  }

  lemma {:induction false} TrueCountConcat(a: seq<bool>, b: seq<bool>)
    ensures TrueCount(a + b) == TrueCount(a) + TrueCount(b)
  {
    if a == [] {
      assert a + b == b;
    } else {
      assert (a + b)[1..] == a[1..] + b;
      TrueCountConcat(a[1..], b);
    }
  }

  lemma {:induction false} NoneTrue(n: nat)
    ensures TrueCount(Repeat(false, n)) == 0
  {
    if n > 0 {
      assert Repeat(false, n)[1..] == Repeat(false, n - 1);
      NoneTrue(n - 1);
    }
  }

  // ---- Materializing a bin ----

  function Column<T>(samples: seq<Packed>, of: MicroBatch -> seq<T>): (r: seq<seq<T>>)
    ensures |r| == |samples|
  {
    seq(|samples|, i requires 0 <= i < |samples| => of(samples[i].sample))
  }

  function Lengths(samples: seq<Packed>): (r: seq<int>)
    ensures |r| == |samples| && forall i :: 0 <= i < |r| ==> r[i] == |samples[i].sample.ids|
  {
    seq(|samples|, i requires 0 <= i < |samples| => |samples[i].sample.ids|)
  }

  /** Tokens of each adapter. */
  function LoraTokens(samples: seq<Packed>, loras: nat): (r: seq<int>)
    requires forall i :: 0 <= i < |samples| ==> samples[i].lora < loras
    ensures |r| == loras
  {
    if samples == [] then Repeat(0, loras)
    else
      var last := samples[|samples| - 1];
      var before := LoraTokens(samples[..|samples| - 1], loras);
      before[last.lora := before[last.lora] + |last.sample.ids|]
  }

  predicate AnyKinds(samples: seq<Packed>) { exists i :: 0 <= i < |samples| && samples[i].sample.kinds.Some? }

  predicate AnyExperts(samples: seq<Packed>) { exists i :: 0 <= i < |samples| && samples[i].sample.experts.Some? }

  function Materialized(samples: seq<Packed>, loras: nat): MicroBatch
    requires samples != [] && forall i :: 0 <= i < |samples| ==> samples[i].lora < loras
  {
    var first := samples[0].sample;
    MicroBatch(Flat(Column(samples, Ids)), Flat(Column(samples, Masks)), Flat(Column(samples, Advantages)),
               Flat(Column(samples, Positions)), Flat(Column(samples, Envs)),
               if AnyKinds(samples) then Some(Flat(Column(samples, Kinds))) else None,
               if AnyExperts(samples) then Some(Flat(Column(samples, Experts))) else None,
               Lengths(samples), Some(LoraTokens(samples, loras)), first.images, first.mode)
  }

  lemma ColumnGrows<T>(samples: seq<Packed>, i: nat, of: MicroBatch -> seq<T>)
    requires i < |samples|
    ensures Flat(Column(samples[..i + 1], of)) == Flat(Column(samples[..i], of)) + of(samples[i].sample)
  {
    var last := [of(samples[i].sample)];
    assert Column(samples[..i + 1], of) == Column(samples[..i], of) + last;
    FlatConcat(Column(samples[..i], of), last);
    assert last[1..] == [] && Flat(last) == last[0];
  }

  /** The five columns that every sample has. */
  method JoinColumns(samples: seq<Packed>)
    returns (ids: seq<int>, mask: seq<bool>, advantages: seq<real>, positions: seq<int>, envs: seq<string>)
    ensures ids == Flat(Column(samples, Ids)) && mask == Flat(Column(samples, Masks))
    ensures advantages == Flat(Column(samples, Advantages)) && positions == Flat(Column(samples, Positions))
    ensures envs == Flat(Column(samples, Envs))
  {
    ids, mask, advantages, positions, envs := [], [], [], [], [];
    var i := 0;
    while i < |samples|
      invariant 0 <= i <= |samples|
      invariant ids == Flat(Column(samples[..i], Ids)) && mask == Flat(Column(samples[..i], Masks))
      invariant advantages == Flat(Column(samples[..i], Advantages))
      invariant positions == Flat(Column(samples[..i], Positions)) && envs == Flat(Column(samples[..i], Envs))
    {
      var s := samples[i].sample;
      ColumnGrows(samples, i, Ids);
      ColumnGrows(samples, i, Masks);
      ColumnGrows(samples, i, Advantages);
      ColumnGrows(samples, i, Positions);
      ColumnGrows(samples, i, Envs);
      ids, mask, advantages := ids + s.ids, mask + s.mask, advantages + s.advantages;
      positions, envs := positions + s.positions, envs + s.envs;
      i := i + 1;
    }
    assert samples[..i] == samples;
  }

  /** The optional columns and the adapter counts, gathered by the same loop. */
  method JoinOptional(samples: seq<Packed>, loras: nat)
    returns (kinds: Option<seq<int>>, experts: Option<seq<int>>, tokens: seq<int>)
    requires forall i :: 0 <= i < |samples| ==> samples[i].lora < loras
    ensures kinds == if AnyKinds(samples) then Some(Flat(Column(samples, Kinds))) else None
    ensures experts == if AnyExperts(samples) then Some(Flat(Column(samples, Experts))) else None
    ensures tokens == LoraTokens(samples, loras)
  {
    kinds := if AnyKinds(samples) then Some([]) else None;
    experts, tokens := None, Repeat(0, loras);
    var i := 0;
    while i < |samples|
      invariant 0 <= i <= |samples|
      invariant kinds == if AnyKinds(samples) then Some(Flat(Column(samples[..i], Kinds))) else None
      invariant experts == if AnyExperts(samples[..i]) then Some(Flat(Column(samples[..i], Experts))) else None
      invariant tokens == LoraTokens(samples[..i], loras)
    {
      var s := samples[i].sample;
      assert samples[..i + 1][..i] == samples[..i];
      ColumnGrows(samples, i, Kinds);
      ExpertsGrow(samples, i);
      if kinds.Some? {
        kinds := Some(kinds.value + if s.kinds.Some? then s.kinds.value else Repeat(0, |s.ids|));
      }
      if s.experts.Some? {
        experts := Some((if experts.Some? then experts.value else []) + s.experts.value);
      }
      tokens := tokens[samples[i].lora := tokens[samples[i].lora] + |s.ids|];
      i := i + 1;
    }
    assert samples[..i] == samples;
  }

  /** `_materialize_bin`: one micro batch out of the samples of a bin. */
  method MaterializeBin(samples: seq<Packed>, loras: nat) returns (m: MicroBatch)
    requires samples != [] && forall i :: 0 <= i < |samples| ==> samples[i].lora < loras
    ensures m == Materialized(samples, loras)
  {
    var ids, mask, advantages, positions, envs := JoinColumns(samples);
    var kinds, experts, tokens := JoinOptional(samples, loras);
    m := MicroBatch(ids, mask, advantages, positions, envs, kinds, experts, Lengths(samples), Some(tokens),
                    samples[0].sample.images, samples[0].sample.mode);
  }

  lemma ExpertsGrow(samples: seq<Packed>, i: nat)
    requires i < |samples|
    ensures AnyExperts(samples[..i + 1]) <==> AnyExperts(samples[..i]) || samples[i].sample.experts.Some?
    ensures var before := if AnyExperts(samples[..i]) then Flat(Column(samples[..i], Experts)) else [];
      Flat(Column(samples[..i + 1], Experts)) == before + Experts(samples[i].sample)
    ensures samples[i].sample.experts == None ==> Flat(Column(samples[..i + 1], Experts)) == Flat(Column(samples[..i], Experts))
  {
    var a, b := samples[..i], samples[..i + 1];
    if AnyExperts(a) {
      var j :| 0 <= j < i && a[j].sample.experts.Some?;
      assert b[j].sample.experts.Some?;
    }
    if samples[i].sample.experts.Some? {
      assert b[i].sample.experts.Some?;
    }
    ColumnGrows(samples, i, Experts);
    if !AnyExperts(a) {
      forall j | 0 <= j < i ensures Column(a, Experts)[j] == [] {
        assert !a[j].sample.experts.Some?;
        assert Experts(a[j].sample) == [];
      }
      AllEmpty(Column(a, Experts));
    }
  }

  lemma {:induction false} AllEmpty<T>(parts: seq<seq<T>>)
    requires forall i :: 0 <= i < |parts| ==> parts[i] == []
    ensures Flat(parts) == []
  {
    if parts != [] {
      AllEmpty(parts[1..]);
    }
  }

  // ---- What materializing keeps ----

  predicate AllLockstep(samples: seq<Packed>) {
    forall i :: 0 <= i < |samples| ==> Lockstep(samples[i].sample)
  }

  predicate OneClass(samples: seq<Packed>) {
    forall i, j :: 0 <= i < |samples| && 0 <= j < |samples| ==> ClassOf(samples[i].sample) == ClassOf(samples[j].sample)
  }

  lemma LengthsAre<T>(samples: seq<Packed>, of: MicroBatch -> seq<T>)
    requires forall i :: 0 <= i < |samples| ==> |of(samples[i].sample)| == |samples[i].sample.ids|
    ensures Sum(Lengths(samples)) == |Flat(Column(samples, of))|
    ensures Cut(Lengths(samples), Flat(Column(samples, of))) == Column(samples, of)
  {
    CutFlat(Lengths(samples), Column(samples, of));
  }

  lemma {:induction false} LoraTokensAddUp(samples: seq<Packed>, loras: nat)
    requires forall i :: 0 <= i < |samples| ==> samples[i].lora < loras
    ensures Sum(LoraTokens(samples, loras)) == Sum(Lengths(samples))
  {
    if samples == [] {
      ZerosAddUp(loras);
    } else {
      var n := |samples| - 1;
      LoraTokensAddUp(samples[..n], loras);
      SumUpdate(LoraTokens(samples[..n], loras), samples[n].lora,
                LoraTokens(samples[..n], loras)[samples[n].lora] + |samples[n].sample.ids|);
      assert Lengths(samples) == Lengths(samples[..n]) + [|samples[n].sample.ids|];
      SumConcat(Lengths(samples[..n]), [|samples[n].sample.ids|]);
    }
  }

  lemma {:induction false} ZerosAddUp(n: nat)
    ensures Sum(Repeat(0, n)) == 0
  {
    if n > 0 {
      assert Repeat(0, n)[1..] == Repeat(0, n - 1);
      ZerosAddUp(n - 1);
    }
  }

  /** A batch of compatible samples has one entry per token in every column (for the routed experts
      this is where `can_add` matters), and counts every token for exactly one adapter. */
  lemma MaterializedLockstep(samples: seq<Packed>, loras: nat)
    requires samples != [] && forall i :: 0 <= i < |samples| ==> samples[i].lora < loras
    requires AllLockstep(samples) && OneClass(samples)
    ensures Lockstep(Materialized(samples, loras))
    ensures ClassOf(Materialized(samples, loras)) == ClassOf(samples[0].sample)
  {
    LengthsAre(samples, Ids);
    LengthsAre(samples, Masks);
    LengthsAre(samples, Advantages);
    LengthsAre(samples, Positions);
    LengthsAre(samples, Envs);
    LengthsAre(samples, Kinds);
    LoraTokensAddUp(samples, loras);
    assert samples[0].sample.experts.Some? ==> AnyExperts(samples);
    if AnyExperts(samples) {
      LengthsAre(samples, Experts);
    }
  }

  /** Cutting the columns at the recorded sequence lengths gives back every sample, in order. */
  lemma Unpack(samples: seq<Packed>, loras: nat)
    requires samples != [] && forall i :: 0 <= i < |samples| ==> samples[i].lora < loras
    requires AllLockstep(samples) && OneClass(samples)
    ensures var m := Materialized(samples, loras);
      && Lockstep(m)
      && Cut(m.lengths, m.ids) == Column(samples, Ids) && Cut(m.lengths, m.mask) == Column(samples, Masks)
      && Cut(m.lengths, m.advantages) == Column(samples, Advantages)
      && Cut(m.lengths, m.positions) == Column(samples, Positions) && Cut(m.lengths, m.envs) == Column(samples, Envs)
      && (m.kinds.Some? ==> Cut(m.lengths, m.kinds.value) == Column(samples, Kinds))
      && (m.experts.Some? ==> Cut(m.lengths, m.experts.value) == Column(samples, Experts))
  {
    MaterializedLockstep(samples, loras);
    LengthsAre(samples, Ids);
    LengthsAre(samples, Masks);
    LengthsAre(samples, Advantages);
    LengthsAre(samples, Positions);
    LengthsAre(samples, Envs);
    LengthsAre(samples, Kinds);
    if AnyExperts(samples) {
      LengthsAre(samples, Experts);
    }
  }

  function MaskTotal(samples: seq<Packed>): nat {
    if samples == [] then 0 else TrueCount(samples[0].sample.mask) + MaskTotal(samples[1..])
  }

  lemma {:induction false} MaterializedKeepsMask(samples: seq<Packed>)
    ensures TrueCount(Flat(Column(samples, Masks))) == MaskTotal(samples)
  {
    if samples != [] {
      assert Column(samples, Masks)[1..] == Column(samples[1..], Masks);
      TrueCountConcat(samples[0].sample.mask, Flat(Column(samples[1..], Masks)));
      MaterializedKeepsMask(samples[1..]);
    }
  }

  // ---- Padding and dummies ----

  function PaddingSize(length: nat, multiple: nat): (n: nat)
    requires multiple > 0
    ensures n < multiple && (length + n) % multiple == 0
  {
    PadsToMultiple(length, multiple);
    (multiple - length % multiple) % multiple
  }

  /** `pad_micro_batch`. */
  function PadMicroBatch(m: MicroBatch, multiple: nat): (r: Result<MicroBatch>)
    requires multiple > 0 && (m.loraTokens.Some? ==> m.loraTokens.value != [])
    ensures r.Ok? <==> |m.envs| == |m.ids|
    ensures r.Ok? ==> |r.value.ids| % multiple == 0 && |m.ids| <= |r.value.ids| < |m.ids| + multiple
    ensures r.Ok? ==> m.ids <= r.value.ids && m.lengths <= r.value.lengths && r.value.images == m.images
  {
    var n := PaddingSize(|m.ids|, multiple);
    if |m.envs| != |m.ids| then Err("env_names must match input_ids")
    else if !(multiple > 1 && n > 0) then Ok(m)
    else
      Ok(m.(ids := m.ids + Repeat(1, n), mask := m.mask + Repeat(false, n), advantages := m.advantages + Repeat(0.0, n),
            positions := m.positions + seq(n, i => i), envs := m.envs + Repeat("", n), lengths := m.lengths + [n],
            kinds := if m.kinds.Some? then Some(m.kinds.value + Repeat(0, n)) else None,
            experts := if m.experts.Some? then Some(m.experts.value + Repeat(0, n)) else None,
            loraTokens := if m.loraTokens.Some? then Some(AddToLast(m.loraTokens.value, n)) else None))
  }

  function AddToLast(s: seq<int>, n: int): seq<int>
    requires s != []
  {
    s[|s| - 1 := s[|s| - 1] + n]
  }

  lemma PaddingKeepsLockstep(m: MicroBatch, multiple: nat)
    requires multiple > 0 && Lockstep(m)
    ensures var r := PadMicroBatch(m, multiple);
      r.Ok? && Lockstep(r.value) && ClassOf(r.value) == ClassOf(m)
  {
    var n := PaddingSize(|m.ids|, multiple);
    if multiple > 1 && n > 0 {
      SumConcat(m.lengths, [n]);
      if m.loraTokens.Some? {
        var tokens := m.loraTokens.value;
        SumUpdate(tokens, |tokens| - 1, tokens[|tokens| - 1] + n);
      }
    }
  }

  /** The first pieces of `padded`, cut at its recorded lengths, are those of `m`, in every column. */
  ghost predicate CutsBack(m: MicroBatch, padded: MicroBatch)
    requires Lockstep(m) && Lockstep(padded) && |m.lengths| <= |padded.lengths|
  {
    var k := |m.lengths|;
    && Cut(padded.lengths, padded.ids)[..k] == Cut(m.lengths, m.ids)
    && Cut(padded.lengths, padded.mask)[..k] == Cut(m.lengths, m.mask)
    && Cut(padded.lengths, padded.advantages)[..k] == Cut(m.lengths, m.advantages)
    && Cut(padded.lengths, padded.positions)[..k] == Cut(m.lengths, m.positions)
    && Cut(padded.lengths, padded.envs)[..k] == Cut(m.lengths, m.envs)
    && (padded.kinds.Some? <==> m.kinds.Some?) && (padded.experts.Some? <==> m.experts.Some?)
    && (m.kinds.Some? ==> Cut(padded.lengths, padded.kinds.value)[..k] == Cut(m.lengths, m.kinds.value))
    && (m.experts.Some? ==> Cut(padded.lengths, padded.experts.value)[..k] == Cut(m.lengths, m.experts.value))
  }

  /** Padding adds no loss and can be cut off again: the padded batch splits into the sequences of
      the original, in every column, and at most one more of padding. */
  lemma PaddingIsInert(m: MicroBatch, multiple: nat)
    requires multiple > 0 && Lockstep(m)
    ensures var r := PadMicroBatch(m, multiple);
      && r.Ok? && Lockstep(r.value)
      && TrueCount(r.value.mask) == TrueCount(m.mask)
      && |m.lengths| <= |r.value.lengths| <= |m.lengths| + 1 && m.lengths <= r.value.lengths
      && CutsBack(m, r.value)
  {
    PaddingKeepsLockstep(m, multiple);
    var n := PaddingSize(|m.ids|, multiple);
    if multiple > 1 && n > 0 {
      TrueCountConcat(m.mask, Repeat(false, n));
      NoneTrue(n);
      PaddedCutsBack(m, PadMicroBatch(m, multiple).value, n);
    }
  }

  lemma PaddedCutsBack(m: MicroBatch, padded: MicroBatch, n: nat)
    requires Lockstep(m) && Lockstep(padded) && padded.lengths == m.lengths + [n]
    requires padded.ids == m.ids + Repeat(1, n) && padded.mask == m.mask + Repeat(false, n)
    requires padded.advantages == m.advantages + Repeat(0.0, n) && padded.positions == m.positions + seq(n, i => i)
    requires padded.envs == m.envs + Repeat("", n)
    requires padded.kinds == if m.kinds.Some? then Some(m.kinds.value + Repeat(0, n)) else None
    requires padded.experts == if m.experts.Some? then Some(m.experts.value + Repeat(0, n)) else None
    ensures CutsBack(m, padded)
  {
    CutPadded(m.lengths, m.ids, Repeat(1, n));
    CutPadded(m.lengths, m.mask, Repeat(false, n));
    CutPadded(m.lengths, m.advantages, Repeat(0.0, n));
    CutPadded(m.lengths, m.positions, seq(n, i => i));
    CutPadded(m.lengths, m.envs, Repeat("", n));
    if m.kinds.Some? {
      CutPadded(m.lengths, m.kinds.value, Repeat(0, n));
    }
    if m.experts.Some? {
      CutPadded(m.lengths, m.experts.value, Repeat(0, n));
    }
  }

  lemma {:induction false} CutPadded<T>(lengths: seq<int>, s: seq<T>, pad: seq<T>)
    requires (forall i :: 0 <= i < |lengths| ==> lengths[i] >= 0) && Sum(lengths) == |s|
    ensures Sum(lengths + [|pad|]) == |s + pad| && Cut(lengths + [|pad|], s + pad) == Cut(lengths, s) + [pad]
  {
    SumConcat(lengths, [|pad|]);
    if lengths == [] {
      assert s + pad == pad && lengths + [|pad|] == [|pad|];
      assert pad[..|pad|] == pad;
      assert Cut([|pad|][1..], pad[|pad|..]) == [];
    } else {
      SumNonNegative(lengths[1..]);
      CutPadded(lengths[1..], s[lengths[0]..], pad);
      assert (lengths + [|pad|])[1..] == lengths[1..] + [|pad|];
      assert (s + pad)[lengths[0]..] == s[lengths[0]..] + pad && (s + pad)[..lengths[0]] == s[..lengths[0]];
    }
  }

  /** `_make_dummy_batch`: same shape and modality, no loss. */
  function DummyOf(m: MicroBatch): MicroBatch {
    m.(advantages := Repeat(0.0, |m.ids|), mask := Repeat(false, |m.ids|))
  }

  lemma DummyHasNoLoss(m: MicroBatch)
    ensures TrueCount(DummyOf(m).mask) == 0
  {
    NoneTrue(|m.ids|);
  }
}

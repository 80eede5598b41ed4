/** Which adapter the tokens of a micro batch go to: the trainer cuts the token row at the running sums of
    `lora_num_tokens` (src/prime_rl/trainer/batch.py:245-312, 347-368; src/prime_rl/trainer/models/layers/lora/multi_linear.py:136-154). */
module Adapters {
  import opened Arithmetic
  import opened Sequences
  import opened Wrappers
  import opened MicroBatches
  import opened Packing
  import opened Splitting
  import opened Batches

  // ---- Pieces regrouped by a label ----

  /** The pieces labelled `a`, one after another. */
  function ByLabel<T>(labels: seq<nat>, parts: seq<seq<T>>, a: nat): seq<T>
    requires |labels| == |parts|
  {
    if parts == [] then []
    else
      var n := |parts| - 1;
      var before := ByLabel(labels[..n], parts[..n], a);
      if labels[n] == a then before + parts[n] else before
  }

  function Regrouped<T>(labels: seq<nat>, parts: seq<seq<T>>, count: nat): (r: seq<seq<T>>)
    requires |labels| == |parts|
    ensures |r| == count && forall a :: 0 <= a < count ==> r[a] == ByLabel(labels, parts, a)
  {
    seq(count, a requires 0 <= a < count => ByLabel(labels, parts, a))
  }

  /** The labels of the pieces that are not empty never fall. */
  predicate NeverFalls<T>(labels: seq<nat>, parts: seq<seq<T>>)
    requires |labels| == |parts|
  {
    forall i, j :: 0 <= i < j < |parts| && |parts[i]| > 0 && |parts[j]| > 0 ==> labels[i] <= labels[j]
  }

  lemma {:induction false} NothingLabelled<T>(labels: seq<nat>, parts: seq<seq<T>>, a: nat)
    requires |labels| == |parts| && forall i :: 0 <= i < |parts| && labels[i] == a ==> parts[i] == []
    ensures ByLabel(labels, parts, a) == []
  {
    if parts != [] {
      var n := |parts| - 1;
      NothingLabelled(labels[..n], parts[..n], a);
    }
  }

  /** Adding to a group after which all groups are empty adds at the end. */
  lemma FlatGrows<T>(groups: seq<seq<T>>, a: nat, more: seq<T>)
    requires a < |groups| && forall b :: a < b < |groups| ==> groups[b] == []
    ensures Flat(groups[a := groups[a] + more]) == Flat(groups) + more
  {
    var before, after := groups[..a], groups[a + 1..];
    AllEmpty(after);
    assert groups == before + ([groups[a]] + after);
    assert groups[a := groups[a] + more] == before + ([groups[a] + more] + after);
    FlatConcat(before, [groups[a]] + after);
    FlatConcat(before, [groups[a] + more] + after);
    assert ([groups[a]] + after)[1..] == after && ([groups[a] + more] + after)[1..] == after;
    assert groups[a] + [] == groups[a] && (groups[a] + more) + [] == groups[a] + more;
    assert Flat(before) + (groups[a] + more) == (Flat(before) + groups[a]) + more;
  }

  lemma {:induction false} FlatOfEmpties<T>(groups: seq<seq<T>>)
    requires forall b :: 0 <= b < |groups| ==> groups[b] == []
    ensures Flat(groups) == []
  {
    if groups != [] {
      FlatOfEmpties(groups[1..]);
    }
  }

  lemma RegroupedMore<T>(labels: seq<nat>, parts: seq<seq<T>>, count: nat)
    requires |labels| == |parts| && parts != [] && labels[|parts| - 1] < count
    ensures var n := |parts| - 1;
      var before := Regrouped(labels[..n], parts[..n], count);
      Regrouped(labels, parts, count) == before[labels[n] := before[labels[n]] + parts[n]]
  {
  }

  /** Pieces whose labels never fall are grouped by label already. */
  lemma {:induction false} GroupedAlready<T>(labels: seq<nat>, parts: seq<seq<T>>, count: nat)
    requires |labels| == |parts| && (forall i :: 0 <= i < |labels| ==> labels[i] < count) && NeverFalls(labels, parts)
    ensures Flat(Regrouped(labels, parts, count)) == Flat(parts)
  {
    if parts == [] {
      FlatOfEmpties(Regrouped(labels, parts, count));
    } else {
      var n := |parts| - 1;
      var before := Regrouped(labels[..n], parts[..n], count);
      GroupedAlready(labels[..n], parts[..n], count);
      RegroupedMore(labels, parts, count);
      assert parts == parts[..n] + [parts[n]];
      FlatConcat(parts[..n], [parts[n]]);
      FlatOne(parts[n]);
      if parts[n] == [] {
        assert before[labels[n]] + parts[n] == before[labels[n]];
        assert Regrouped(labels, parts, count) == before;
        assert Flat(parts[..n]) + parts[n] == Flat(parts[..n]);
      } else {
        forall b | labels[n] < b < count ensures before[b] == [] {
          NothingLabelled(labels[..n], parts[..n], b);
        }
        FlatGrows(before, labels[n], parts[n]);
      }
    }
  }

  lemma FlatOne<T>(part: seq<T>)
    ensures Flat([part]) == part
  {
    assert [part][1..] == [] && Flat([part][1..]) == [];
  }

  // ---- The adapters of a batch ----

  function AdaptersOf(samples: seq<Packed>): (r: seq<nat>)
    ensures |r| == |samples| && forall i :: 0 <= i < |r| ==> r[i] == samples[i].lora
  {
    seq(|samples|, i requires 0 <= i < |samples| => samples[i].lora)
  }

  lemma {:induction false} AdapterTokens<T>(samples: seq<Packed>, loras: nat, parts: seq<seq<T>>)
    requires |parts| == |samples| && forall i :: 0 <= i < |samples| ==> |parts[i]| == |samples[i].sample.ids|
    requires forall i :: 0 <= i < |samples| ==> samples[i].lora < loras
    ensures forall a :: 0 <= a < loras ==> LoraTokens(samples, loras)[a] == |ByLabel(AdaptersOf(samples), parts, a)|
  {
    if samples != [] {
      var n := |samples| - 1;
      AdapterTokens(samples[..n], loras, parts[..n]);
      assert AdaptersOf(samples)[..n] == AdaptersOf(samples[..n]);
    }
  }

  /** Samples with tokens come in rising order of their adapters. */
  predicate InAdapterOrder(samples: seq<Packed>) {
    forall i, j :: 0 <= i < j < |samples| && |samples[i].sample.ids| > 0 && |samples[j].sample.ids| > 0 ==>
      samples[i].lora <= samples[j].lora
  }

  /** In a bin in adapter order, cutting any column at the adapter counts gives each adapter exactly the entries of its
      own samples, in order. */
  lemma CutByAdapter<T>(samples: seq<Packed>, loras: nat, of: MicroBatch -> seq<T>)
    requires samples != [] && (forall i :: 0 <= i < |samples| ==> samples[i].lora < loras) && InAdapterOrder(samples)
    requires forall i :: 0 <= i < |samples| ==> |of(samples[i].sample)| == |samples[i].sample.ids|
    ensures var tokens, row := LoraTokens(samples, loras), Flat(Column(samples, of));
      && (forall a :: 0 <= a < loras ==> tokens[a] >= 0) && Sum(tokens) == |row|
      && Cut(tokens, row) == Regrouped(AdaptersOf(samples), Column(samples, of), loras)
  {
    var labels, parts := AdaptersOf(samples), Column(samples, of);
    AdapterTokens(samples, loras, parts);
    GroupedAlready(labels, parts, loras);
    CutFlat(LoraTokens(samples, loras), Regrouped(labels, parts, loras));
  }

  /** The adapter of every token of the row. */
  function Labels(samples: seq<Packed>): (r: seq<seq<nat>>)
    ensures |r| == |samples| && forall i :: 0 <= i < |r| ==> r[i] == Repeat<nat>(samples[i].lora, |samples[i].sample.ids|)
  {
    seq(|samples|, i requires 0 <= i < |samples| => Repeat<nat>(samples[i].lora, |samples[i].sample.ids|))
  }

  /** The adapter that the trainer takes for every token: the first `tokens[0]` ones for adapter 0, and so on. */
  function Assigned(tokens: seq<int>): (r: seq<seq<nat>>)
    requires forall a :: 0 <= a < |tokens| ==> tokens[a] >= 0
    ensures |r| == |tokens| && forall a :: 0 <= a < |r| ==> r[a] == Repeat<nat>(a, tokens[a])
  {
    seq(|tokens|, a requires 0 <= a < |tokens| => Repeat<nat>(a, tokens[a]))
  }

  lemma {:induction false} LabelledAlike(labels: seq<nat>, samples: seq<Packed>, a: nat)
    requires labels == AdaptersOf(samples)
    ensures ByLabel(labels, Labels(samples), a) == Repeat<nat>(a, |ByLabel(labels, Labels(samples), a)|)
  {
    if samples != [] {
      var n := |samples| - 1;
      LabelledAlike(labels[..n], samples[..n], a);
      assert Labels(samples)[..n] == Labels(samples[..n]) && labels[..n] == AdaptersOf(samples[..n]);
    }
  }

  /** `x` comes nowhere before a smaller one. */
  predicate Rising(row: seq<nat>) { forall i, j :: 0 <= i < j < |row| ==> row[i] <= row[j] }

  lemma RisesFurther(row: seq<nat>, a: nat, count: nat)
    requires Rising(row) && forall x :: x in row ==> x < a
    ensures Rising(row + Repeat<nat>(a, count)) && forall x :: x in row + Repeat<nat>(a, count) ==> x <= a
  {
    var more := row + Repeat<nat>(a, count);
    forall i, j | 0 <= i < j < |more| ensures more[i] <= more[j] {
      assert i < |row| ==> more[i] in row;
      assert j < |row| ==> row[i] <= row[j];
    }
  }

  lemma {:induction false} AssignedRises(tokens: seq<int>)
    requires forall a :: 0 <= a < |tokens| ==> tokens[a] >= 0
    ensures Rising(Flat<nat>(Assigned(tokens)))
    ensures forall x :: x in Flat<nat>(Assigned(tokens)) ==> x < |tokens|
  {
    if tokens != [] {
      var n := |tokens| - 1;
      AssignedRises(tokens[..n]);
      assert Assigned(tokens) == Assigned(tokens[..n]) + [Repeat<nat>(n, tokens[n])];
      FlatConcat<nat>(Assigned(tokens[..n]), [Repeat<nat>(n, tokens[n])]);
      FlatOne<nat>(Repeat<nat>(n, tokens[n]));
      RisesFurther(Flat<nat>(Assigned(tokens[..n])), n, tokens[n]);
    }
  }

  /** A row in which nothing falls has its pieces in order. */
  lemma {:induction false} RisingPieces(samples: seq<Packed>)
    requires Rising(Flat<nat>(Labels(samples)))
    ensures InAdapterOrder(samples)
    ensures forall i :: 0 <= i < |samples| && |samples[i].sample.ids| > 0 ==> samples[i].lora in Flat<nat>(Labels(samples))
  {
    if samples != [] {
      var n := |samples| - 1;
      var before, last := Flat<nat>(Labels(samples[..n])), Repeat<nat>(samples[n].lora, |samples[n].sample.ids|);
      assert Labels(samples) == Labels(samples[..n]) + [last];
      FlatConcat(Labels(samples[..n]), [last]);
      FlatOne(last);
      var row := before + last;
      forall i, j | 0 <= i < j < |before| ensures before[i] <= before[j] {
        assert row[i] <= row[j];
      }
      RisingPieces(samples[..n]);
      forall i | 0 <= i < n && |samples[i].sample.ids| > 0 ensures samples[i].lora in before {
        assert samples[..n][i].lora in before;
      }
      if |last| > 0 {
        assert row[|before|] == samples[n].lora;
        forall i | 0 <= i < n && |samples[i].sample.ids| > 0 ensures samples[i].lora <= samples[n].lora {
          var k :| 0 <= k < |before| && before[k] == samples[i].lora;
          assert row[k] <= row[|before|];
        }
      }
      forall i, j | 0 <= i < j < |samples| && |samples[i].sample.ids| > 0 && |samples[j].sample.ids| > 0
        ensures samples[i].lora <= samples[j].lora
      {
        if j < n {
          assert samples[..n][i].lora <= samples[..n][j].lora;
        }
      }
    }
  }

  /** The trainer takes the right adapter for every token if and only if the samples with tokens come in rising order of
      their adapters. */
  lemma RightAdapterIffInOrder(samples: seq<Packed>, loras: nat)
    requires forall i :: 0 <= i < |samples| ==> samples[i].lora < loras
    ensures forall a :: 0 <= a < loras ==> LoraTokens(samples, loras)[a] >= 0
    ensures Flat<nat>(Labels(samples)) == Flat<nat>(Assigned(LoraTokens(samples, loras))) <==> InAdapterOrder(samples)
  {
    var labels, tokens := AdaptersOf(samples), LoraTokens(samples, loras);
    AdapterTokens(samples, loras, Labels(samples));
    if InAdapterOrder(samples) {
      GroupedAlready(labels, Labels(samples), loras);
      forall a | 0 <= a < loras ensures Regrouped(labels, Labels(samples), loras)[a] == Assigned(tokens)[a] {
        LabelledAlike(labels, samples, a);
      }
      assert Regrouped(labels, Labels(samples), loras) == Assigned(tokens);
    } else if Flat<nat>(Labels(samples)) == Flat<nat>(Assigned(tokens)) {
      AssignedRises(tokens);
      RisingPieces(samples);
    }
  }

  // ---- The order in which samples are packed ----

  /** By adapter, and within an adapter the longer one first. */
  predicate Precedes(p: Packed, q: Packed) {
    p.lora < q.lora || (p.lora == q.lora && |p.sample.ids| >= |q.sample.ids|)
  }

  predicate InPackingOrder(samples: seq<Packed>) {
    forall i, j :: 0 <= i < j < |samples| ==> Precedes(samples[i], samples[j])
  }

  lemma RankedInOrder(samples: seq<Packed>)
    ensures InPackingOrder(Sorted(PackingOrder(), samples)) && multiset(Sorted(PackingOrder(), samples)) == multiset(samples)
  {
    SortedSorts(PackingOrder(), samples);
    SortedKeeps(PackingOrder(), samples);
    var ranked := Sorted(PackingOrder(), samples);
    forall i, j | 0 <= i < j < |ranked| ensures Precedes(ranked[i], ranked[j]) {
      assert PackingOrder()(ranked[i], ranked[j]);
    }
  }

  /** Every sample of every bin is one of `samples`, and in every bin they are in packing order. */
  ghost predicate BinsInOrder(bins: seq<Bin>, samples: seq<Packed>) {
    forall b :: 0 <= b < |bins| ==> InPackingOrder(bins[b].samples) && forall p :: p in bins[b].samples ==> p in samples
  }

  lemma PlaceKeepsOrder(bins: seq<Bin>, before: seq<Packed>, p: Packed, limit: nat)
    requires NonEmpty(bins) && BinsInOrder(bins, before) && forall q :: q in before ==> Precedes(q, p)
    ensures BinsInOrder(Place(bins, p, limit), before + [p])
  {
    var i, after := FirstFitting(bins, p.sample, limit, 0), Place(bins, p, limit);
    forall b | 0 <= b < |after|
      ensures InPackingOrder(after[b].samples) && forall q :: q in after[b].samples ==> q in before + [p]
    {
      if b == i && i < |bins| {
        forall k | 0 <= k < |bins[i].samples| ensures Precedes(bins[i].samples[k], p) {
          assert bins[i].samples[k] in before;
        }
      }
    }
  }

  lemma {:induction false} FirstFitInOrder(samples: seq<Packed>, limit: nat)
    requires InPackingOrder(samples)
    ensures BinsInOrder(FirstFit(samples, limit), samples)
  {
    if samples != [] {
      var n := |samples| - 1;
      FirstFitInOrder(samples[..n], limit);
      forall q | q in samples[..n] ensures Precedes(q, samples[n]) {
        var k :| 0 <= k < n && samples[k] == q;
      }
      PlaceKeepsOrder(FirstFit(samples[..n], limit), samples[..n], samples[n], limit);
      assert samples[..n] + [samples[n]] == samples;
    }
  }

  /** Before any splitting, and with one worker there is none, the samples of every bin come by adapter, and within an
      adapter the longer ones first. */
  lemma PackedByAdapter(s: Setup, samples: seq<Packed>)
    requires ValidSetup(s)
    ensures forall b :: 0 <= b < |FirstFit(Sorted(PackingOrder(), samples), s.limit)| ==>
      InPackingOrder(FirstFit(Sorted(PackingOrder(), samples), s.limit)[b].samples)
    ensures s.workers == 1 ==> forall b :: 0 <= b < |Pack(s, samples)| ==> InPackingOrder(Pack(s, samples)[b].samples)
  {
    RankedInOrder(samples);
    FirstFitInOrder(Sorted(PackingOrder(), samples), s.limit);
  }

  // ---- Which adapter every token reaches ----

  predicate OneAdapter(samples: seq<Packed>) {
    forall i, j :: 0 <= i < |samples| && 0 <= j < |samples| ==> samples[i].lora == samples[j].lora
  }

  lemma PackedInAdapterOrder(s: Setup, samples: seq<Packed>, b: nat)
    requires ValidSetup(s) && AllPrepared(s, samples) && b < |Pack(s, samples)|
    requires s.workers == 1 || OneAdapter(samples)
    ensures InAdapterOrder(Pack(s, samples)[b].samples)
  {
    PackedByAdapter(s, samples);
    PackedBins(s, samples);
    var bins := Pack(s, samples);
    if s.workers == 1 {
      assert InPackingOrder(bins[b].samples);
    } else {
      forall i | 0 <= i < |bins[b].samples| ensures bins[b].samples[i] in samples {
        PartIsHeld(Samples(bins), b, i);
        assert bins[b].samples[i] in multiset(samples);
      }
    }
  }

  /** Padding that is counted for the last adapter is cut off as its. */
  lemma CutWithPadding<T>(tokens: seq<int>, row: seq<T>, groups: seq<seq<T>>, pad: seq<T>)
    requires tokens != [] && |groups| == |tokens| && (forall a :: 0 <= a < |tokens| ==> tokens[a] == |groups[a]|) && row == Flat(groups)
    ensures var more := AddToLast(tokens, |pad|);
      && (forall a :: 0 <= a < |more| ==> more[a] >= 0) && Sum(more) == |row + pad|
      && Cut(more, row + pad) == groups[|groups| - 1 := groups[|groups| - 1] + pad]
  {
    FlatGrows(groups, |groups| - 1, pad);
    CutFlat(AddToLast(tokens, |pad|), groups[|groups| - 1 := groups[|groups| - 1] + pad]);
  }

  /** The tokens of adapter `a` in a row cut at `tokens`, but for padding at the end of the last one's. */
  ghost predicate CutByOwner(tokens: seq<int>, row: seq<int>, samples: seq<Packed>, loras: nat)
    requires (forall a :: 0 <= a < |tokens| ==> tokens[a] >= 0) && Sum(tokens) == |row| && |tokens| == loras
  {
    forall a :: 0 <= a < loras ==>
      var own := ByLabel(AdaptersOf(samples), Column(samples, Ids), a);
      own <= Cut(tokens, row)[a] && (a < loras - 1 ==> own == Cut(tokens, row)[a])
  }

  lemma OwnersByGroups(tokens: seq<int>, row: seq<int>, samples: seq<Packed>, loras: nat, groups: seq<seq<int>>, pad: seq<int>)
    requires (forall a :: 0 <= a < |tokens| ==> tokens[a] >= 0) && Sum(tokens) == |row| && |tokens| == loras > 0
    requires groups == Regrouped(AdaptersOf(samples), Column(samples, Ids), loras)
    requires Cut(tokens, row) == groups[loras - 1 := groups[loras - 1] + pad]
    ensures CutByOwner(tokens, row, samples, loras)
  {
  }

  lemma JoinedOwners(samples: seq<Packed>, loras: nat)
    requires samples != [] && (forall i :: 0 <= i < |samples| ==> samples[i].lora < loras) && InAdapterOrder(samples)
    ensures var tokens, groups := LoraTokens(samples, loras), Regrouped(AdaptersOf(samples), Column(samples, Ids), loras);
      && loras > 0 && (forall a :: 0 <= a < loras ==> tokens[a] == |groups[a]|) && Flat(Column(samples, Ids)) == Flat(groups)
  {
    AdapterTokens(samples, loras, Column(samples, Ids));
    GroupedAlready(AdaptersOf(samples), Column(samples, Ids), loras);
  }

  lemma PaddedOwners(samples: seq<Packed>, loras: nat, pad: seq<int>)
    requires samples != [] && (forall i :: 0 <= i < |samples| ==> samples[i].lora < loras) && InAdapterOrder(samples)
    ensures var tokens, row := AddToLast(LoraTokens(samples, loras), |pad|), Flat(Column(samples, Ids)) + pad;
      (forall a :: 0 <= a < loras ==> tokens[a] >= 0) && Sum(tokens) == |row| && CutByOwner(tokens, row, samples, loras)
  {
    JoinedOwners(samples, loras);
    var groups := Regrouped(AdaptersOf(samples), Column(samples, Ids), loras);
    CutWithPadding(LoraTokens(samples, loras), Flat(Column(samples, Ids)), groups, pad);
    OwnersByGroups(AddToLast(LoraTokens(samples, loras), |pad|), Flat(Column(samples, Ids)) + pad, samples, loras, groups, pad);
  }

  lemma OwnersOf(s: Setup, b: Bin)
    requires ValidSetup(s) && CanMaterialize(s, b) && InAdapterOrder(b.samples)
    ensures var m := ReadyOf(s, b);
      && m.loraTokens.Some? && |m.loraTokens.value| == s.loras
      && (forall a :: 0 <= a < s.loras ==> m.loraTokens.value[a] >= 0) && Sum(m.loraTokens.value) == |m.ids|
      && CutByOwner(m.loraTokens.value, m.ids, b.samples, s.loras)
  {
    var joined, m := Materialized(b.samples, s.loras), ReadyOf(s, b);
    MaterializedLockstep(b.samples, s.loras);
    var n := PaddingSize(|joined.ids|, s.multiple);
    if s.multiple > 1 && n > 0 {
      PaddedOwners(b.samples, s.loras, Repeat(1, n));
    } else {
      PaddedOwners(b.samples, s.loras, []);
      assert m == joined && joined.ids + [] == joined.ids;
      assert AddToLast(LoraTokens(b.samples, s.loras), 0) == LoraTokens(b.samples, s.loras);
    }
  }

  /** With one worker, or with samples of one adapter only (as the packer for several runs calls it), every token of
      every padded micro batch reaches its own sample's adapter: cutting the row at the adapter counts gives each
      adapter exactly the tokens of its own samples, in order; the padding goes with the last adapter. */
  lemma TokensReachTheirAdapters(s: Setup, samples: seq<Packed>, b: nat)
    requires ValidSetup(s) && AllPrepared(s, samples) && b < |Pack(s, samples)|
    requires s.workers == 1 || OneAdapter(samples)
    ensures var bin := Pack(s, samples)[b];
      && CanMaterialize(s, bin)
      && var m := ReadyOf(s, bin);
      && m.loraTokens.Some? && |m.loraTokens.value| == s.loras
      && (forall a :: 0 <= a < s.loras ==> m.loraTokens.value[a] >= 0) && Sum(m.loraTokens.value) == |m.ids|
      && CutByOwner(m.loraTokens.value, m.ids, bin.samples, s.loras)
  {
    PackedBins(s, samples);
    PackedCanMaterialize(s, samples, Pack(s, samples));
    PackedInAdapterOrder(s, samples, b);
    OwnersOf(s, Pack(s, samples)[b]);
  }

  // ---- Splitting can mix adapters up ----

  /** A text sample of `n` tokens. */
  function Text(lora: nat, n: nat): Packed {
    Packed(lora, MicroBatch(Repeat(0, n), Repeat(true, n), Repeat(0.0, n), seq(n, i => i), Repeat("", n), None, None, [n], None, None, ""))
  }

  lemma TextCost(lora: nat, n: nat)
    ensures ItemCost(CostModel(1, 0), Text(lora, n)) == n
  {
    assert [n][1..] == [] && Squares([n]) == [n * n] && [n * n][1..] == [];
    assert Sum([n]) == n && Sum([n * n]) == n * n;
  }

  /** A bin of three samples of two adapters, in packing order, that is split by workload: the half with the two lighter
      samples has the one of adapter 1 first, and then the trainer takes adapter 0 for its first token. */
  lemma SplittingMixesAdapters()
    ensures var (b, x, a) := (Text(0, 3), Text(0, 1), Text(1, 2));
      && InPackingOrder([b, x, a]) && Split(CostModel(1, 0), [b, x, a]) == ([b], [a, x])
      && !InAdapterOrder([a, x])
      && LoraTokens([a, x], 2) == [1, 2]
      && Flat<nat>(Labels([a, x])) == [1, 1, 0] && Flat<nat>(Assigned([1, 2])) == [0, 1, 1]
  {
    TextCost(0, 3);
    TextCost(0, 1);
    TextCost(1, 2);
    MixedUp(CostModel(1, 0), Text(0, 3), Text(0, 1), Text(1, 2));
  }

  lemma MixedUp(c: CostModel, b: Packed, x: Packed, a: Packed)
    requires ItemCost(c, b) == |b.sample.ids| == 3 && ItemCost(c, x) == |x.sample.ids| == 1 && ItemCost(c, a) == |a.sample.ids| == 2
    requires b.lora == x.lora == 0 && a.lora == 1
    ensures InPackingOrder([b, x, a]) && Split(c, [b, x, a]) == ([b], [a, x]) && !InAdapterOrder([a, x])
    ensures LoraTokens([a, x], 2) == [1, 2]
    ensures Flat<nat>(Labels([a, x])) == [1, 1, 0] && Flat<nat>(Assigned([1, 2])) == [0, 1, 1]
  {
    RankedByCost(c, b, x, a);
    DealtOut(c, b, a, x);
    TokensOfTwo(a, x);
    LabelsOfTwo(a, x);
    assert [a, x][0] == a && [a, x][1] == x;
  }

  lemma RankedByCost(c: CostModel, b: Packed, x: Packed, a: Packed)
    requires ItemCost(c, b) == 3 && ItemCost(c, x) == 1 && ItemCost(c, a) == 2
    ensures Sorted(HeavierFirst(c), [b, x, a]) == [b, a, x]
  {
    var le := HeavierFirst(c);
    assert [b, x, a][1..] == [x, a] && [x, a][1..] == [a] && [a][1..] == [];
    assert Sorted(le, [a]) == Insert(le, a, []) == [a];
    assert Sorted(le, [x, a]) == Insert(le, x, [a]) == [a] + Insert(le, x, []) == [a, x];
    assert Sorted(le, [b, x, a]) == Insert(le, b, [a, x]) == [b, a, x];
  }

  lemma DealtNext(c: CostModel, ranked: seq<Packed>, p: Packed, left: seq<Packed>, right: seq<Packed>)
    requires Dealt(c, ranked) == (left, right)
    ensures Dealt(c, ranked + [p]) == if Workload(c, left) <= Workload(c, right) then (left + [p], right) else (left, right + [p])
  {
    assert (ranked + [p])[..|ranked|] == ranked;
  }

  lemma DealtOut(c: CostModel, b: Packed, a: Packed, x: Packed)
    requires ItemCost(c, b) == 3 && ItemCost(c, x) == 1 && ItemCost(c, a) == 2
    ensures Dealt(c, [b, a, x]) == ([b], [a, x])
  {
    NoWorkload(c);
    WorkloadOfOne(c, b);
    WorkloadOfOne(c, a);
    DealtNext(c, [], b, [], []);
    assert [] + [b] == [b];
    DealtNext(c, [b], a, [b], []);
    assert [b] + [a] == [b, a] && [] + [a] == [a];
    DealtNext(c, [b, a], x, [b], [a]);
    assert [b, a] + [x] == [b, a, x] && [a] + [x] == [a, x];
  }

  lemma TokensOfTwo(a: Packed, x: Packed)
    requires a.lora == 1 && x.lora == 0 && |a.sample.ids| == 2 && |x.sample.ids| == 1
    ensures LoraTokens([a, x], 2) == [1, 2]
  {
    assert [a, x][..1] == [a] && [a][..0] == [];
    assert LoraTokens([], 2) == [0, 0];
    assert LoraTokens([a], 2) == [0, 2];
  }

  lemma LabelsOfTwo(a: Packed, x: Packed)
    requires a.lora == 1 && x.lora == 0 && |a.sample.ids| == 2 && |x.sample.ids| == 1
    ensures Flat<nat>(Labels([a, x])) == [1, 1, 0] && Flat<nat>(Assigned([1, 2])) == [0, 1, 1]
  {
    assert Repeat<nat>(1, 2) == [1, 1] && Repeat<nat>(0, 1) == [0];
    assert Labels([a, x]) == [[1, 1], [0]] && Assigned([1, 2]) == [[0], [1, 1]];
    FlatOfTwo<nat>([1, 1], [0]);
    FlatOfTwo<nat>([0], [1, 1]);
  }

  lemma FlatOfTwo<T>(p: seq<T>, q: seq<T>)
    ensures Flat([p, q]) == p + q
  {
    assert [p, q][1..] == [q];
    FlatOne(q);
  }
}

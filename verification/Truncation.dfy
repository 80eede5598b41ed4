/** Preparing one training sample: truncation at whole-image boundaries
    (src/prime_rl/trainer/batch.py:57-95, 98-190). */
module Truncation {
  import opened Arithmetic
  import opened Sequences
  import opened Wrappers
  import opened MicroBatches

  /** Python's `s[:n]`. */
  function Take<T>(s: seq<T>, n: nat): seq<T> { if n <= |s| then s[..n] else s }

  function NonZeros(kinds: seq<int>): nat {
    if kinds == [] then 0 else NonZeros(kinds[..|kinds| - 1]) + if kinds[|kinds| - 1] != 0 then 1 else 0
  }

  function Patches(grid: seq<(nat, nat, nat)>): (r: seq<int>)
    ensures |r| == |grid| && forall i :: 0 <= i < |r| ==> r[i] == grid[i].0 * grid[i].1 * grid[i].2
  {
    seq(|grid|, i requires 0 <= i < |grid| => grid[i].0 * grid[i].1 * grid[i].2)
  }

  function PatchesPerToken(kinds: seq<int>, images: Images): nat {
    if NonZeros(kinds) > 0 then |images.pixels| / NonZeros(kinds) else 1
  }

  function TokensPerImage(patches: seq<int>, ppt: nat): (r: seq<int>)
    requires ppt > 0
    ensures |r| == |patches| && forall i :: 0 <= i < |r| ==> r[i] == patches[i] / ppt
  {
    seq(|patches|, i requires 0 <= i < |patches| => patches[i] / ppt)
  }

  /** Leading images whose tokens all survive. */
  function KeptFrom(tokens: seq<int>, surviving: nat, k: nat): (r: nat)
    requires k <= |tokens|
    ensures k <= r <= |tokens|
    decreases |tokens| - k
  {
    if k < |tokens| && Sum(tokens[..k + 1]) <= surviving then KeptFrom(tokens, surviving, k + 1) else k
  }

  /** Position of the first nonzero entry that has `seen` nonzero entries before it, or `fallback`. */
  function Placeholder(kinds: seq<int>, seen: nat, i: nat, fallback: nat): nat
    requires i <= |kinds|
    decreases |kinds| - i
  {
    if i == |kinds| then fallback
    else if kinds[i] != 0 && NonZeros(kinds[..i]) == seen then i
    else Placeholder(kinds, seen, i + 1, fallback)
  }

  datatype Truncated = Truncated(cut: nat, kept: nat, images: Option<Images>)

  function Truncate(kinds: seq<int>, images: Images, seqLen: nat): Result<Truncated> {
    var ppt := PatchesPerToken(kinds, images);
    if ppt == 0 then (if images.grid == [] then Ok(Truncated(CutAt(kinds, seqLen, 0), 0, None)) else Err("division by zero"))
    else
      var patches := Patches(images.grid);
      var tokens := TokensPerImage(patches, ppt);
      var kept := KeptFrom(tokens, NonZeros(Take(kinds, seqLen)), 0);
      var acc := Sum(tokens[..kept]);
      Ok(Truncated(CutAt(kinds, seqLen, acc), kept, ImagesKept(images, kept)))
  }

  function CutAt(kinds: seq<int>, seqLen: nat, acc: int): nat {
    if acc == NonZeros(Take(kinds, seqLen)) || acc < 0 then seqLen else Placeholder(kinds, acc, 0, seqLen)
  }

  function ImagesKept(images: Images, kept: nat): Option<Images> {
    if kept == 0 then None
    else
      var patches := Sum(Take(Patches(images.grid), kept));
      Some(Images(Take(images.grid, kept), if patches >= 0 then Take(images.pixels, patches) else []))
  }

  // ---- Counting ----

  lemma NonZerosStep(kinds: seq<int>, i: nat)
    requires i < |kinds|
    ensures NonZeros(kinds[..i + 1]) == NonZeros(kinds[..i]) + if kinds[i] != 0 then 1 else 0
  {
    assert kinds[..i + 1][..i] == kinds[..i];
  }

  lemma {:induction false} NonZerosMonotone(kinds: seq<int>, i: nat, j: nat)
    requires i <= j <= |kinds|
    ensures NonZeros(kinds[..i]) <= NonZeros(kinds[..j])
  {
    if i < j {
      NonZerosMonotone(kinds, i, j - 1);
      NonZerosStep(kinds, j - 1);
    }
  }

  lemma PrefixStep(tokens: seq<int>, k: nat)
    requires k < |tokens|
    ensures Sum(tokens[..k + 1]) == Sum(tokens[..k]) + tokens[k]
  {
    assert tokens[..k + 1] == tokens[..k] + [tokens[k]];
    SumConcat(tokens[..k], [tokens[k]]);
  }

  lemma {:induction false} PrefixMonotone(tokens: seq<int>, i: nat, j: nat)
    requires i <= j <= |tokens| && forall k :: 0 <= k < |tokens| ==> tokens[k] >= 0
    ensures Sum(tokens[..i]) <= Sum(tokens[..j])
  {
    if i < j {
      PrefixMonotone(tokens, i, j - 1);
      PrefixStep(tokens, j - 1);
    }
  }

  // ---- The method ----

  /** `_truncate_mm`. */
  method TruncateImages(kinds: seq<int>, images: Images, seqLen: nat) returns (r: Result<Truncated>)
    ensures r == Truncate(kinds, images, seqLen)
  {
    var total := CountNonZero(kinds);
    var ppt := if total > 0 then |images.pixels| / total else 1;
    var surviving := CountNonZero(Take(kinds, seqLen));
    if ppt == 0 {
      if images.grid != [] {
        return Err("division by zero");
      }
      var at := CutPoint(kinds, seqLen, 0, surviving);
      return Ok(Truncated(at, 0, None));
    }
    var tokens := TokensPerImage(Patches(images.grid), ppt);
    var kept, acc := CountKept(tokens, surviving);
    var cut := CutPoint(kinds, seqLen, acc, surviving);
    r := Ok(Truncated(cut, kept, ImagesKept(images, kept)));
  }

  method CountNonZero(kinds: seq<int>) returns (n: nat)
    ensures n == NonZeros(kinds)
  {
    n := 0;
    var i := 0;
    while i < |kinds|
      invariant 0 <= i <= |kinds| && n == NonZeros(kinds[..i])
    {
      NonZerosStep(kinds, i);
      if kinds[i] != 0 {
        n := n + 1;
      }
      i := i + 1;
    }
    assert kinds[..i] == kinds;
  }

  method CountKept(tokens: seq<int>, surviving: nat) returns (kept: nat, acc: int)
    ensures kept == KeptFrom(tokens, surviving, 0) && acc == Sum(tokens[..kept])
  {
    kept, acc := 0, 0;
    while kept < |tokens| && acc + tokens[kept] <= surviving
      invariant 0 <= kept <= |tokens| && acc == Sum(tokens[..kept])
      invariant KeptFrom(tokens, surviving, kept) == KeptFrom(tokens, surviving, 0)
    {
      PrefixStep(tokens, kept);
      acc := acc + tokens[kept];
      kept := kept + 1;
    }
    if kept < |tokens| {
      PrefixStep(tokens, kept);
    }
  }

  method CutPoint(kinds: seq<int>, seqLen: nat, acc: int, surviving: nat) returns (cut: nat)
    requires surviving == NonZeros(Take(kinds, seqLen))
    ensures cut == CutAt(kinds, seqLen, acc)
  {
    if acc == surviving || acc < 0 {
      return seqLen;
    }
    var seen, i := 0, 0;
    while i < |kinds|
      invariant 0 <= i <= |kinds| && seen == NonZeros(kinds[..i])
      invariant Placeholder(kinds, acc, i, seqLen) == Placeholder(kinds, acc, 0, seqLen)
    {
      NonZerosStep(kinds, i);
      if kinds[i] != 0 {
        seen := seen + 1;
        if seen == acc + 1 {
          return i;
        }
      }
      i := i + 1;
    }
    cut := seqLen;
  }

  // ---- What truncation guarantees ----

  /** A well-formed multimodal sample: image `i` has `tokens[i]` placeholders, each standing for `ppt`
      patches, and there are no other placeholders or pixel rows. */
  predicate WellFormed(kinds: seq<int>, images: Images, tokens: seq<nat>, ppt: nat) {
    && ppt > 0 && |tokens| == |images.grid|
    && (forall i :: 0 <= i < |tokens| ==> Patches(images.grid)[i] == ppt * tokens[i])
    && Sum(tokens) == NonZeros(kinds) && Sum(Patches(images.grid)) == |images.pixels|
  }

  lemma {:induction false} ScaledSum(patches: seq<int>, tokens: seq<int>, ppt: nat)
    requires |patches| == |tokens| && forall i :: 0 <= i < |tokens| ==> patches[i] == ppt * tokens[i]
    ensures Sum(patches) == ppt * Sum(tokens)
  {
    if tokens != [] {
      ScaledSum(patches[1..], tokens[1..], ppt);
      Distributes(ppt, tokens[0], Sum(tokens[1..]));
    }
  }

  lemma {:induction false} ZeroSum(tokens: seq<nat>, i: nat)
    requires i < |tokens|
    ensures tokens[i] <= Sum(tokens)
  {
    SumSplit(tokens, i);
    SumNonNegative(Without(tokens, i));
  }

  lemma PatchesPerTokenIs(kinds: seq<int>, images: Images, tokens: seq<nat>, ppt: nat)
    requires WellFormed(kinds, images, tokens, ppt)
    ensures PatchesPerToken(kinds, images) == if NonZeros(kinds) > 0 then ppt else 1
  {
    ScaledSum(Patches(images.grid), tokens, ppt);
    if NonZeros(kinds) > 0 {
      DividesExactly(|images.pixels|, ppt, NonZeros(kinds));
    }
  }

  /** The code recovers the token counts from the patch counts. */
  lemma TokensRecovered(kinds: seq<int>, images: Images, tokens: seq<nat>, ppt: nat)
    requires WellFormed(kinds, images, tokens, ppt)
    ensures PatchesPerToken(kinds, images) > 0
    ensures TokensPerImage(Patches(images.grid), PatchesPerToken(kinds, images)) == tokens
  {
    var patches, found := Patches(images.grid), PatchesPerToken(kinds, images);
    PatchesPerTokenIs(kinds, images, tokens, ppt);
    forall i | 0 <= i < |tokens| ensures patches[i] / found == tokens[i] {
      ZeroSum(tokens, i);
      DividesExactly(patches[i], tokens[i], found);
    }
  }

  lemma DividesExactly(p: nat, k: nat, m: nat)
    requires m > 0 && p == k * m
    ensures p / m == k
  {
    var d, r := p / m, p % m;
    assert p == d * m + r;
    Remainder(k, d, m, r);
    assert m * (k - d) == 0;
    MulSteps(m, k - d);
  }

  lemma {:induction false} KeptIsLargest(tokens: seq<nat>, surviving: nat, k: nat)
    requires k <= |tokens| && Sum(tokens[..k]) <= surviving
    ensures var r := KeptFrom(tokens, surviving, k);
      Sum(tokens[..r]) <= surviving && forall j :: r < j <= |tokens| ==> Sum(tokens[..j]) > surviving
    decreases |tokens| - k
  {
    if k < |tokens| {
      if Sum(tokens[..k + 1]) <= surviving {
        KeptIsLargest(tokens, surviving, k + 1);
      } else {
        forall j | k < j <= |tokens| ensures Sum(tokens[..j]) > surviving {
          PrefixMonotone(tokens, k + 1, j);
        }
      }
    }
  }

  lemma {:induction false} PlaceholderFound(kinds: seq<int>, seen: nat, i: nat, limit: nat)
    requires i <= limit <= |kinds| && NonZeros(kinds[..i]) <= seen < NonZeros(kinds[..limit])
    ensures var p := Placeholder(kinds, seen, i, limit);
      i <= p < limit && kinds[p] != 0 && NonZeros(kinds[..p]) == seen
    decreases limit - i
  {
    NonZerosStep(kinds, i);
    if !(kinds[i] != 0 && NonZeros(kinds[..i]) == seen) {
      PlaceholderFound(kinds, seen, i + 1, limit);
    }
  }

  /** The number of placeholders before `cut` is that of the first `k` images. */
  predicate WholeImages(kinds: seq<int>, tokens: seq<nat>, cut: nat, k: nat) {
    cut <= |kinds| && k <= |tokens| && NonZeros(kinds[..cut]) == Sum(tokens[..k])
  }

  lemma CutIsWhole(kinds: seq<int>, tokens: seq<nat>, seqLen: nat)
    requires seqLen <= |kinds| && Sum(tokens) == NonZeros(kinds)
    ensures var kept := KeptFrom(tokens, NonZeros(Take(kinds, seqLen)), 0);
      var cut := CutAt(kinds, seqLen, Sum(tokens[..kept]));
      && cut <= seqLen && WholeImages(kinds, tokens, cut, kept)
      && forall c, k :: cut < c <= seqLen ==> !WholeImages(kinds, tokens, c, k)
  {
    var surviving := NonZeros(kinds[..seqLen]);
    KeptIsLargest(tokens, surviving, 0);
    var kept := KeptFrom(tokens, surviving, 0);
    var acc := Sum(tokens[..kept]);
    SumNonNegative(tokens[..kept]);
    if acc != surviving {
      PlaceholderFound(kinds, acc, 0, seqLen);
      var cut := Placeholder(kinds, acc, 0, seqLen);
      forall c, k | cut < c <= seqLen ensures !WholeImages(kinds, tokens, c, k) {
        NonZerosStep(kinds, cut);
        NonZerosMonotone(kinds, cut + 1, c);
        NonZerosMonotone(kinds, c, seqLen);
        if k <= kept {
          PrefixMonotone(tokens, k, kept);
        }
      }
    }
  }

  /** For a well-formed sample the cut is the LARGEST one within `seqLen` that leaves a whole number of
      leading images, and the grid rows and pixel rows kept are exactly those of these images. */
  lemma TruncationKeepsWholeImages(kinds: seq<int>, images: Images, seqLen: nat, tokens: seq<nat>, ppt: nat)
    requires WellFormed(kinds, images, tokens, ppt) && seqLen <= |kinds|
    ensures var r := Truncate(kinds, images, seqLen);
      && r.Ok? && r.value.cut <= seqLen
      && WholeImages(kinds, tokens, r.value.cut, r.value.kept)
      && (forall c, k :: r.value.cut < c <= seqLen ==> !WholeImages(kinds, tokens, c, k))
      && (r.value.images == None <==> r.value.kept == 0)
      && (r.value.images.Some? ==>
            && r.value.images.value.grid == images.grid[..r.value.kept]
            && |r.value.images.value.pixels| == ppt * NonZeros(kinds[..r.value.cut])
            && r.value.images.value.pixels <= images.pixels)
  {
    TokensRecovered(kinds, images, tokens, ppt);
    CutIsWhole(kinds, tokens, seqLen);
    var kept := KeptFrom(tokens, NonZeros(Take(kinds, seqLen)), 0);
    PixelsKept(images, tokens, ppt, kept);
  }

  lemma PixelsKept(images: Images, tokens: seq<nat>, ppt: nat, kept: nat)
    requires kept <= |tokens| == |images.grid|
    requires forall i :: 0 <= i < |tokens| ==> Patches(images.grid)[i] == ppt * tokens[i]
    requires Sum(Patches(images.grid)) == |images.pixels|
    ensures kept > 0 ==>
      && ImagesKept(images, kept).value.grid == images.grid[..kept]
      && |ImagesKept(images, kept).value.pixels| == ppt * Sum(tokens[..kept])
      && ImagesKept(images, kept).value.pixels <= images.pixels
  {
    var patches := Patches(images.grid);
    ScaledSum(patches[..kept], tokens[..kept], ppt);
    SumNonNegative(tokens[..kept]);
    MulMonotone(0, ppt, Sum(tokens[..kept]));
    forall i | 0 <= i < |patches| ensures patches[i] >= 0 {
      MulMonotone(0, ppt, tokens[i]);
    }
    PrefixMonotone(patches, kept, |patches|);
    assert patches[..|patches|] == patches;
  }

  // ---- Preparing a sample ----

  datatype TrainingSample = TrainingSample(
    ids: seq<int>, mask: seq<bool>, advantage: real, env: string, kinds: Option<seq<int>>,
    experts: Option<seq<int>>, images: Option<Images>, mode: string)

  function CutOf(t: TrainingSample, seqLen: nat): Result<Truncated> {
    if |t.ids| <= seqLen then Ok(Truncated(|t.ids|, 0, t.images))
    else if t.kinds.Some? && t.images.Some? then Truncate(t.kinds.value, t.images.value, seqLen)
    else Ok(Truncated(seqLen, 0, t.images))
  }

  function CutColumn<T>(column: Option<seq<T>>, long: bool, cut: nat): Option<seq<T>> {
    if column.Some? && long then Some(Take(column.value, cut)) else column
  }

  /** `prepare_sample`; its assertions are errors. */
  function PrepareSample(t: TrainingSample, seqLen: nat): (r: Result<MicroBatch>) {
    if t.env == "all" then Err("env_name 'all' is reserved")
    else
      var c := CutOf(t, seqLen);
      if c.Err? then Err(c.error)
      else
        var long := |t.ids| > seqLen;
        var n := c.value.cut;
        var ids := if long then Take(t.ids, n) else t.ids;
        var mask := if long then Take(t.mask, n) else t.mask;
        var kinds, experts := CutColumn(t.kinds, long, n), CutColumn(t.experts, long, n);
        if |mask| != |ids| || (kinds.Some? && |kinds.value| != |ids|) || (experts.Some? && |experts.value| != |ids|) then
          Err("columns differ in length")
        else
          Ok(MicroBatch(ids, mask, Repeat(t.advantage, |ids|), seq(|ids|, i => i), Repeat(t.env, |ids|), kinds, experts,
                        [|ids|], None, c.value.images, t.mode))
  }

  predicate Aligned(t: TrainingSample) {
    && |t.mask| == |t.ids| && (t.kinds.Some? ==> |t.kinds.value| == |t.ids|)
    && (t.experts.Some? ==> |t.experts.value| == |t.ids|)
  }

  predicate IsLeading<T(==)>(part: Option<seq<T>>, whole: Option<seq<T>>) {
    && (part.Some? <==> whole.Some?)
    && (part.Some? ==> part.value <= whole.value)
  }

  /** Of every column `m` has the same leading part of `t`. */
  ghost predicate IsLeadingSample(t: TrainingSample, m: MicroBatch) {
    && Lockstep(m) && m.ids <= t.ids && m.mask <= t.mask
    && IsLeading(m.kinds, t.kinds) && IsLeading(m.experts, t.experts)
    && m.advantages == Repeat(t.advantage, |m.ids|) && m.envs == Repeat(t.env, |m.ids|)
    && m.positions == seq(|m.ids|, i => i)
    && m.lengths == [|m.ids|] && m.mode == t.mode
  }

  /** The images of `m` are the leading ones of `t` whose placeholders are exactly those of `m`: none is left half,
      and each has its own pixel rows. */
  ghost predicate HasWholeImages(t: TrainingSample, m: MicroBatch, tokens: seq<nat>, ppt: nat)
    requires t.images.Some? && t.kinds.Some?
  {
    var kept := if m.images.Some? then |m.images.value.grid| else 0;
    && m.kinds.Some? && WholeImages(t.kinds.value, tokens, |m.ids|, kept)
    && (m.images.Some? ==>
          && m.images.value.grid <= t.images.value.grid
          && m.images.value.pixels <= t.images.value.pixels
          && |m.images.value.pixels| == ppt * NonZeros(m.kinds.value))
    && (m.images == None ==> NonZeros(m.kinds.value) == 0)
  }

  /** What a prepared sample is, for the multimodal case a well-formed one: the same leading part of every column,
      with whole images only, and the longest such part within `seqLen`. */
  lemma PreparedSample(t: TrainingSample, seqLen: nat, tokens: seq<nat>, ppt: nat)
    requires t.env != "all" && Aligned(t)
    requires t.images.Some? ==> t.kinds.Some? && WellFormed(t.kinds.value, t.images.value, tokens, ppt)
    ensures var r := PrepareSample(t, seqLen);
      && r.Ok? && IsLeadingSample(t, r.value) && |r.value.ids| <= seqLen
      && (t.images == None ==> r.value.images == None && |r.value.ids| == if |t.ids| <= seqLen then |t.ids| else seqLen)
      && (|t.ids| <= seqLen ==> r.value.ids == t.ids && r.value.images == t.images)
      && (t.images.Some? ==>
            && HasWholeImages(t, r.value, tokens, ppt)
            && forall c, k :: |r.value.ids| < c <= seqLen ==> !WholeImages(t.kinds.value, tokens, c, k))
  {
    if |t.ids| > seqLen && t.images.Some? {
      TruncationKeepsWholeImages(t.kinds.value, t.images.value, seqLen, tokens, ppt);
    } else if t.images.Some? {
      ScaledSum(Patches(t.images.value.grid), tokens, ppt);
      assert t.kinds.value[..|t.ids|] == t.kinds.value && tokens[..|tokens|] == tokens;
    }
    OneLength(|PrepareSample(t, seqLen).value.ids|);
  }

  lemma OneLength(n: nat)
    ensures Sum([n]) == n
  {
    assert [n][1..] == [];
  }

  // ---- When preparing fails ----

  lemma NoPatches(pixels: nat, total: nat)
    requires total > 0
    ensures pixels / total == 0 <==> pixels < total
  {
  }

  /** Truncation fails exactly when a sample with images has fewer pixel rows than placeholders. */
  lemma TruncateFailsIff(kinds: seq<int>, images: Images, seqLen: nat)
    ensures Truncate(kinds, images, seqLen).Err? <==> images.grid != [] && |images.pixels| < NonZeros(kinds)
  {
    if NonZeros(kinds) > 0 {
      NoPatches(|images.pixels|, NonZeros(kinds));
      assert PatchesPerToken(kinds, images) == 0 <==> |images.pixels| < NonZeros(kinds);
    } else {
      assert PatchesPerToken(kinds, images) == 1;
    }
  }

  /** A sample that needs no truncation fails exactly if its environment has the reserved name or a column differs in
      length; one whose columns agree fails otherwise only if truncating its images does. */
  lemma PrepareFailsIff(t: TrainingSample, seqLen: nat)
    ensures |t.ids| <= seqLen ==> (PrepareSample(t, seqLen).Ok? <==> t.env != "all" && Aligned(t))
    ensures |t.ids| > seqLen && Aligned(t) ==>
      (PrepareSample(t, seqLen).Err? <==>
         || t.env == "all"
         || (t.kinds.Some? && t.images.Some? && t.images.value.grid != [] && |t.images.value.pixels| < NonZeros(t.kinds.value)))
  {
    if t.kinds.Some? && t.images.Some? {
      TruncateFailsIff(t.kinds.value, t.images.value, seqLen);
    }
  }

  /** A sample whose images cannot be counted, for want of token kinds, is cut at `seqLen` and keeps its images. */
  lemma UncountedImagesStay(t: TrainingSample, seqLen: nat)
    requires Aligned(t) && t.env != "all" && |t.ids| > seqLen && t.kinds == None
    ensures var r := PrepareSample(t, seqLen);
      r.Ok? && r.value.ids == t.ids[..seqLen] && r.value.mask == t.mask[..seqLen] && r.value.images == t.images
  {
  }
}

/** Every eval epoch comes out of the sink exactly once and complete, in whatever order its rollouts
    arrive (src/prime_rl/orchestrator/eval_sink.py:90-110, 140-168). */
module EvalEpochs {
  import opened Sequences
  import opened Wrappers
  import opened DispatchProtocol
  import opened EvalSink

  function KeyCount(a: seq<Rollout>, k: Key): nat {
    if a == [] then 0 else KeyCount(a[..|a| - 1], k) + if KeyOf(a[|a| - 1]) == k then 1 else 0
  }

  function OfGid(a: seq<Rollout>, g: GroupId): seq<Rollout> {
    if a == [] then [] else OfGid(a[..|a| - 1], g) + if a[|a| - 1].gid == g then [a[|a| - 1]] else []
  }

  function KeyItems(a: seq<Rollout>, k: Key): multiset<Rollout> {
    if a == [] then multiset{}
    else KeyItems(a[..|a| - 1], k) + if KeyOf(a[|a| - 1]) == k then multiset{a[|a| - 1]} else multiset{}
  }

  /** The groups of epoch `k`. */
  function Gids(a: seq<Rollout>, k: Key): set<GroupId> {
    if a == [] then {}
    else Gids(a[..|a| - 1], k) + if KeyOf(a[|a| - 1]) == k then {a[|a| - 1].gid} else {}
  }

  /** The configured size of a group, by its environment; 0 for a group that never arrives. */
  function SizeOf(c: EvalConfig, full: seq<Rollout>, g: GroupId): nat {
    if full == [] then 0
    else
      var last := full[|full| - 1];
      if last.gid == g && Configured(c, last.env) then c.groupSize[last.env] else SizeOf(c, full[..|full| - 1], g)
  }

  /** The group is complete within the arrivals `p`. */
  predicate Arrived(c: EvalConfig, full: seq<Rollout>, p: seq<Rollout>, g: GroupId) { PutOf(p, g) >= SizeOf(c, full, g) }

  /** All rollouts of the epoch are among the arrivals `p`. */
  predicate EpochFull(c: EvalConfig, p: seq<Rollout>, k: Key) {
    Configured(c, k.0) && KeyCount(p, k) >= BatchSize(c, k.0)
  }

  /** Of `a`, the rollouts of epoch `k` whose group is complete within `p`. */
  function DoneItems(c: EvalConfig, full: seq<Rollout>, p: seq<Rollout>, a: seq<Rollout>, k: Key): multiset<Rollout> {
    if a == [] then multiset{}
    else
      var last := a[|a| - 1];
      DoneItems(c, full, p, a[..|a| - 1], k) +
      if KeyOf(last) == k && Arrived(c, full, p, last.gid) then multiset{last} else multiset{}
  }

  /** Every group belongs to one epoch and has AT MOST `group_size` rollouts, and every epoch has AT MOST
      one group for each of its examples. The dispatcher guarantees this at any moment of any run. */
  ghost predicate Fits(c: EvalConfig, full: seq<Rollout>) {
    && (forall i :: 0 <= i < |full| ==> Configured(c, full[i].env) && PutOf(full, full[i].gid) <= c.groupSize[full[i].env])
    && (forall i, j :: 0 <= i < |full| && 0 <= j < |full| && full[i].gid == full[j].gid ==> KeyOf(full[i]) == KeyOf(full[j]))
    && (forall k: Key :: Configured(c, k.0) ==> |Gids(full, k)| <= c.examples[k.0])
  }

  /** The sink after the first `n` arrivals, and what it returned for arrival `i`. */
  function After(c: EvalConfig, full: seq<Rollout>, n: nat): Pending
    requires n <= |full| && forall i :: 0 <= i < |full| ==> Configured(c, full[i].env)
  {
    if n == 0 then Pending(map[], map[]) else Arrive(c, After(c, full, n - 1), full[n - 1]).0
  }

  function Output(c: EvalConfig, full: seq<Rollout>, i: nat): Option<EvalBatch>
    requires i < |full| && forall i :: 0 <= i < |full| ==> Configured(c, full[i].env)
  {
    Arrive(c, After(c, full, i), full[i]).1
  }

  // ---- Counting ----

  lemma Snoc(a: seq<Rollout>, r: Rollout, g: GroupId, k: Key)
    ensures PutOf(a + [r], g) == PutOf(a, g) + if r.gid == g then 1 else 0
    ensures KeyCount(a + [r], k) == KeyCount(a, k) + if KeyOf(r) == k then 1 else 0
    ensures OfGid(a + [r], g) == OfGid(a, g) + if r.gid == g then [r] else []
    ensures KeyItems(a + [r], k) == KeyItems(a, k) + if KeyOf(r) == k then multiset{r} else multiset{}
  {
    assert (a + [r])[..|a|] == a;
  }

  lemma PrefixSnoc(full: seq<Rollout>, n: nat)
    requires n < |full|
    ensures full[..n + 1] == full[..n] + [full[n]]
  {
  }

  lemma {:induction false} PrefixCounts(full: seq<Rollout>, n: nat, m: nat, g: GroupId, k: Key)
    requires n <= m <= |full|
    ensures PutOf(full[..n], g) <= PutOf(full[..m], g) && KeyCount(full[..n], k) <= KeyCount(full[..m], k)
    ensures PutOf(full[..n], g) == PutOf(full[..m], g) <==> forall j :: n <= j < m ==> full[j].gid != g
    ensures KeyCount(full[..n], k) == KeyCount(full[..m], k) <==> forall j :: n <= j < m ==> KeyOf(full[j]) != k
  {
    if n < m {
      PrefixCounts(full, n, m - 1, g, k);
      PrefixSnoc(full, m - 1);
      Snoc(full[..m - 1], full[m - 1], g, k);
    }
  }

  lemma {:induction false} SizesAre(a: seq<Rollout>, g: GroupId, k: Key)
    ensures |OfGid(a, g)| == PutOf(a, g) && |KeyItems(a, k)| == KeyCount(a, k)
    ensures forall i :: 0 <= i < |OfGid(a, g)| ==> OfGid(a, g)[i] in a && OfGid(a, g)[i].gid == g
  {
    if a != [] {
      SizesAre(a[..|a| - 1], g, k);
    }
  }

  lemma {:induction false} DoneAtMost(c: EvalConfig, full: seq<Rollout>, p: seq<Rollout>, a: seq<Rollout>, k: Key)
    ensures |DoneItems(c, full, p, a, k)| <= KeyCount(a, k)
  {
    if a != [] {
      DoneAtMost(c, full, p, a[..|a| - 1], k);
    }
  }

  lemma {:induction false} AllDone(c: EvalConfig, full: seq<Rollout>, p: seq<Rollout>, a: seq<Rollout>, k: Key)
    requires forall i :: 0 <= i < |a| && KeyOf(a[i]) == k ==> Arrived(c, full, p, a[i].gid)
    ensures DoneItems(c, full, p, a, k) == KeyItems(a, k)
  {
    if a != [] {
      AllDone(c, full, p, a[..|a| - 1], k);
    }
  }

  /** One more arrival of group `g` settles either the whole group or nothing. */
  lemma {:induction false} DoneChanges(c: EvalConfig, full: seq<Rollout>, p: seq<Rollout>, r: Rollout, a: seq<Rollout>, k: Key)
    requires !Arrived(c, full, p, r.gid) && forall i :: 0 <= i < |a| && a[i].gid == r.gid ==> KeyOf(a[i]) == KeyOf(r)
    ensures DoneItems(c, full, p + [r], a, k) == DoneItems(c, full, p, a, k) +
      if KeyOf(r) == k && Arrived(c, full, p + [r], r.gid) then multiset(OfGid(a, r.gid)) else multiset{}
  {
    if a != [] {
      var last := a[|a| - 1];
      DoneChanges(c, full, p, r, a[..|a| - 1], k);
      Snoc(p, r, last.gid, k);
    }
  }

  lemma DoneSnoc(c: EvalConfig, full: seq<Rollout>, p: seq<Rollout>, a: seq<Rollout>, r: Rollout, k: Key)
    ensures DoneItems(c, full, p, a + [r], k) == DoneItems(c, full, p, a, k) +
      if KeyOf(r) == k && Arrived(c, full, p, r.gid) then multiset{r} else multiset{}
  {
    assert (a + [r])[..|a|] == a;
  }

  // ---- How many rollouts an epoch can have ----

  function Others(a: seq<Rollout>, g: GroupId): seq<Rollout> {
    if a == [] then [] else Others(a[..|a| - 1], g) + if a[|a| - 1].gid == g then [] else [a[|a| - 1]]
  }

  lemma {:induction false} OthersCount(a: seq<Rollout>, g: GroupId, k: Key, h: GroupId)
    requires forall i :: 0 <= i < |a| && a[i].gid == g ==> KeyOf(a[i]) == k
    ensures KeyCount(a, k) == PutOf(a, g) + KeyCount(Others(a, g), k)
    ensures PutOf(Others(a, g), h) == if h == g then 0 else PutOf(a, h)
    ensures forall r :: r in Others(a, g) ==> r in a && r.gid != g
  {
    if a != [] {
      var n := |a| - 1;
      OthersCount(a[..n], g, k, h);
      if a[n].gid == g {
        assert Others(a, g) == Others(a[..n], g);
      } else {
        Snoc(Others(a[..n], g), a[n], h, k);
      }
    }
  }

  lemma {:induction false} NoGroups(a: seq<Rollout>, k: Key)
    requires forall i :: 0 <= i < |a| ==> KeyOf(a[i]) != k
    ensures KeyCount(a, k) == 0
  {
    if a != [] {
      NoGroups(a[..|a| - 1], k);
    }
  }

  /** A list whose rollouts of epoch `k` are those of the groups in `s`, each of at most `size`. */
  ghost predicate Spread(a: seq<Rollout>, k: Key, s: set<GroupId>, size: nat) {
    && (forall i :: 0 <= i < |a| ==> (KeyOf(a[i]) == k <==> a[i].gid in s))
    && (forall g :: g in s ==> PutOf(a, g) <= size)
  }

  lemma SpreadWithout(a: seq<Rollout>, k: Key, s: set<GroupId>, size: nat, g: GroupId)
    requires Spread(a, k, s, size) && g in s
    ensures Spread(Others(a, g), k, s - {g}, size) && KeyCount(a, k) == PutOf(a, g) + KeyCount(Others(a, g), k)
  {
    OthersCount(a, g, k, g);
    var b := Others(a, g);
    forall i | 0 <= i < |b| ensures KeyOf(b[i]) == k <==> b[i].gid in s - {g} {
      assert b[i] in b;
      var j :| 0 <= j < |a| && a[j] == b[i];
    }
    forall h | h in s - {g} ensures PutOf(b, h) <= size {
      OthersCount(a, g, k, h);
    }
  }

  lemma {:induction false} SpreadBound(a: seq<Rollout>, k: Key, s: set<GroupId>, size: nat)
    requires Spread(a, k, s, size)
    ensures KeyCount(a, k) <= |s| * size
    decreases |s|
  {
    if s == {} {
      NoGroups(a, k);
    } else {
      var g := Element(s);
      SpreadWithout(a, k, s, size, g);
      SpreadBound(Others(a, g), k, s - {g}, size);
      OneGroupMore(|s - {g}|, size);
      assert |s| == |s - {g}| + 1;
    }
  }

  lemma OneGroupMore(n: nat, size: nat)
    ensures (n + 1) * size == n * size + size
  {
  }

  lemma Element<T>(s: set<T>) returns (x: T)
    requires s != {}
    ensures x in s
  {
    x :| x in s;
  }

  /** An incomplete group leaves the list short. */
  lemma SpreadShort(a: seq<Rollout>, k: Key, s: set<GroupId>, size: nat, g: GroupId)
    requires Spread(a, k, s, size) && g in s && PutOf(a, g) < size
    ensures KeyCount(a, k) < |s| * size
  {
    SpreadWithout(a, k, s, size, g);
    SpreadBound(Others(a, g), k, s - {g}, size);
    OneGroupMore(|s - {g}|, size);
    assert |s| == |s - {g}| + 1;
  }

  lemma {:induction false} GidsAre(a: seq<Rollout>, k: Key)
    ensures forall g :: g in Gids(a, k) <==> exists i :: 0 <= i < |a| && KeyOf(a[i]) == k && a[i].gid == g
  {
    if a != [] {
      var n := |a| - 1;
      GidsAre(a[..n], k);
      forall g | g in Gids(a, k) ensures exists i :: 0 <= i < |a| && KeyOf(a[i]) == k && a[i].gid == g {
        if g in Gids(a[..n], k) {
          var i :| 0 <= i < n && KeyOf(a[..n][i]) == k && a[..n][i].gid == g;
          assert a[i].gid == g;
        } else {
          assert a[n].gid == g;
        }
      }
      forall i | 0 <= i < |a| && KeyOf(a[i]) == k ensures a[i].gid in Gids(a, k) {
        if i < n {
          assert a[..n][i] == a[i];
        }
      }
    }
  }

  lemma {:induction false} GidsGrow(full: seq<Rollout>, n: nat, m: nat, k: Key)
    requires n <= m <= |full|
    ensures Gids(full[..n], k) <= Gids(full[..m], k)
  {
    if n < m {
      GidsGrow(full, n, m - 1, k);
      assert full[..m][..m - 1] == full[..m - 1];
    }
  }

  lemma SubsetSize<T>(s: set<T>, t: set<T>)
    requires s <= t
    ensures |s| <= |t|
  {
    assert t == s + (t - s);
    assert |t| == |s| + |t - s|;
  }

  lemma FewGroups(c: EvalConfig, full: seq<Rollout>, n: nat, k: Key)
    requires n <= |full| && Fits(c, full) && Configured(c, k.0)
    ensures |Gids(full[..n], k)| <= c.examples[k.0]
  {
    assert full[..|full|] == full;
    GidsGrow(full, n, |full|, k);
    SubsetSize(Gids(full[..n], k), Gids(full, k));
  }

  lemma GroupFits(c: EvalConfig, full: seq<Rollout>, n: nat, j: nat)
    requires j < n <= |full| && Fits(c, full)
    ensures PutOf(full[..n], full[j].gid) <= c.groupSize[full[j].env]
  {
    assert full[..|full|] == full;
    PrefixCounts(full, n, |full|, full[j].gid, KeyOf(full[j]));
  }

  /** The first `n` arrivals spread over the groups of epoch `k` seen so far. */
  lemma PrefixSpread(c: EvalConfig, full: seq<Rollout>, n: nat, k: Key)
    requires n <= |full| && Fits(c, full) && Configured(c, k.0)
    ensures Spread(full[..n], k, Gids(full[..n], k), c.groupSize[k.0])
  {
    var p, s := full[..n], Gids(full[..n], k);
    GidsAre(p, k);
    forall i | 0 <= i < |p| && p[i].gid in s ensures KeyOf(p[i]) == k {
      var j :| 0 <= j < |p| && KeyOf(p[j]) == k && p[j].gid == p[i].gid;
      assert full[i] == p[i] && full[j] == p[j];
    }
    forall g | g in s ensures PutOf(p, g) <= c.groupSize[k.0] {
      var j :| 0 <= j < |p| && KeyOf(p[j]) == k && p[j].gid == g;
      assert full[j] == p[j];
      GroupFits(c, full, n, j);
    }
  }

  lemma ProductGrows(a: nat, b: nat, size: nat)
    requires a <= b
    ensures a * size <= b * size
    ensures a < b && size > 0 ==> a * size < b * size
  {
  }

  /** No epoch ever has more rollouts than its batch size. */
  lemma EpochBound(c: EvalConfig, full: seq<Rollout>, n: nat, k: Key)
    requires n <= |full| && Fits(c, full) && Configured(c, k.0)
    ensures KeyCount(full[..n], k) <= BatchSize(c, k.0)
  {
    FewGroups(c, full, n, k);
    PrefixSpread(c, full, n, k);
    SpreadBound(full[..n], k, Gids(full[..n], k), c.groupSize[k.0]);
    ProductGrows(|Gids(full[..n], k)|, c.examples[k.0], c.groupSize[k.0]);
  }

  /** An epoch with as many rollouts as its batch size has one group for each example, and all are complete. */
  lemma FullEpoch(c: EvalConfig, full: seq<Rollout>, n: nat, k: Key)
    requires n <= |full| && Fits(c, full) && EpochFull(c, full[..n], k) && BatchSize(c, k.0) > 0
    ensures |Gids(full[..n], k)| == c.examples[k.0]
    ensures forall g :: g in Gids(full[..n], k) ==> PutOf(full[..n], g) == c.groupSize[k.0]
  {
    var p, s, size := full[..n], Gids(full[..n], k), c.groupSize[k.0];
    FewGroups(c, full, n, k);
    PrefixSpread(c, full, n, k);
    SpreadBound(p, k, s, size);
    NoSlack(|s|, c.examples[k.0], size, KeyCount(p, k));
    forall g | g in s ensures PutOf(p, g) == size {
      if PutOf(p, g) < size {
        SpreadShort(p, k, s, size, g);
      }
    }
  }

  lemma NoSlack(groups: nat, examples: nat, size: nat, count: nat)
    requires groups <= examples && examples * size <= count <= groups * size && examples * size > 0
    ensures groups == examples && count == groups * size
  {
    ProductGrows(groups, examples, size);
  }

  // ---- The invariant ----

  predicate WaitingOk(c: EvalConfig, full: seq<Rollout>, p: seq<Rollout>, s: Pending, g: GroupId) {
    Waiting(s, g) == if Arrived(c, full, p, g) then [] else OfGid(p, g)
  }

  predicate BucketOk(c: EvalConfig, full: seq<Rollout>, p: seq<Rollout>, s: Pending, k: Key) {
    multiset(Bucket(s, k)) == if EpochFull(c, p, k) then multiset{} else DoneItems(c, full, p, p, k)
  }

  ghost predicate SinkOk(c: EvalConfig, full: seq<Rollout>, p: seq<Rollout>, s: Pending) {
    && (forall g :: WaitingOk(c, full, p, s, g))
    && (forall k :: BucketOk(c, full, p, s, k))
  }

  lemma NothingYet(c: EvalConfig, full: seq<Rollout>)
    ensures SinkOk(c, full, [], Pending(map[], map[]))
  {
  }

  lemma {:induction false} SizeIs(c: EvalConfig, full: seq<Rollout>, i: nat)
    requires i < |full| && forall j :: 0 <= j < |full| ==> Configured(c, full[j].env)
    requires forall j :: 0 <= j < |full| && full[j].gid == full[i].gid ==> full[j].env == full[i].env
    ensures Configured(c, full[i].env) && SizeOf(c, full, full[i].gid) == c.groupSize[full[i].env]
  {
    var n := |full| - 1;
    if full[n].gid != full[i].gid {
      SizeIs(c, full[..n], i);
    }
  }

  /** The arrival's group and epoch are not complete yet. */
  lemma StillToCome(c: EvalConfig, full: seq<Rollout>, n: nat)
    requires n < |full| && Fits(c, full)
    ensures SizeOf(c, full, full[n].gid) == c.groupSize[full[n].env]
    ensures !Arrived(c, full, full[..n], full[n].gid) && !EpochFull(c, full[..n], KeyOf(full[n]))
  {
    var r := full[n];
    forall j | 0 <= j < |full| && full[j].gid == r.gid ensures full[j].env == r.env {
      assert KeyOf(full[j]) == KeyOf(full[n]);
    }
    SizeIs(c, full, n);
    PrefixSnoc(full, n);
    Snoc(full[..n], r, r.gid, KeyOf(r));
    assert full[..|full|] == full;
    PrefixCounts(full, n + 1, |full|, r.gid, KeyOf(r));
    EpochBound(c, full, |full|, KeyOf(r));
  }

  /** What is known when `r` arrives after `p`: its group and epoch are not complete yet, and all earlier
      rollouts of its group are of its epoch. */
  ghost predicate Next(c: EvalConfig, full: seq<Rollout>, p: seq<Rollout>, r: Rollout) {
    && Configured(c, r.env)
    && !Arrived(c, full, p, r.gid) && !EpochFull(c, p, KeyOf(r))
    && (PutOf(p, r.gid) + 1 >= c.groupSize[r.env] <==> Arrived(c, full, p + [r], r.gid))
    && (forall i :: 0 <= i < |p| && p[i].gid == r.gid ==> KeyOf(p[i]) == KeyOf(r))
  }

  lemma IsNext(c: EvalConfig, full: seq<Rollout>, n: nat)
    requires n < |full| && Fits(c, full)
    ensures Next(c, full, full[..n], full[n])
  {
    var r := full[n];
    StillToCome(c, full, n);
    Snoc(full[..n], r, r.gid, KeyOf(r));
  }

  lemma WaitingAfter(c: EvalConfig, s: Pending, r: Rollout, g: GroupId)
    requires Configured(c, r.env)
    ensures Waiting(Arrive(c, s, r).0, g) ==
      if g != r.gid then Waiting(s, g)
      else if |Waiting(s, g)| + 1 >= c.groupSize[r.env] then [] else Waiting(s, g) + [r]
  {
  }

  lemma BucketAfter(c: EvalConfig, s: Pending, r: Rollout, k: Key)
    requires Configured(c, r.env) && (Waiting(s, r.gid) != [] ==> KeyOf(Waiting(s, r.gid)[0]) == KeyOf(r))
    ensures Bucket(Filled(c, s, r), k) == Bucket(s, k) +
      if k == KeyOf(r) && |Waiting(s, r.gid)| + 1 >= c.groupSize[r.env] then Waiting(s, r.gid) + [r] else []
    ensures k != KeyOf(r) ==> Bucket(Arrive(c, s, r).0, k) == Bucket(Filled(c, s, r), k)
  {
  }

  lemma {:induction false} GroupKey(p: seq<Rollout>, r: Rollout)
    requires forall i :: 0 <= i < |p| && p[i].gid == r.gid ==> KeyOf(p[i]) == KeyOf(r)
    ensures OfGid(p, r.gid) != [] ==> KeyOf(OfGid(p, r.gid)[0]) == KeyOf(r)
  {
    if p != [] {
      GroupKey(p[..|p| - 1], r);
    }
  }

  /** How the rollouts of finished groups grow with an arrival. */
  lemma DoneAfter(c: EvalConfig, full: seq<Rollout>, p: seq<Rollout>, r: Rollout, k: Key)
    requires Next(c, full, p, r)
    ensures DoneItems(c, full, p + [r], p + [r], k) == DoneItems(c, full, p, p, k) +
      if k == KeyOf(r) && Arrived(c, full, p + [r], r.gid) then multiset(OfGid(p, r.gid) + [r]) else multiset{}
  {
    DoneChanges(c, full, p, r, p, k);
    DoneSnoc(c, full, p + [r], p, r, k);
  }

  /** What the buckets hold before they are looked at. */
  lemma BucketsBefore(c: EvalConfig, full: seq<Rollout>, p: seq<Rollout>, r: Rollout, s: Pending, k: Key)
    requires Next(c, full, p, r) && WaitingOk(c, full, p, s, r.gid) && BucketOk(c, full, p, s, k)
    ensures k == KeyOf(r) ==> multiset(Bucket(Filled(c, s, r), k)) == DoneItems(c, full, p + [r], p + [r], k)
    ensures k != KeyOf(r) ==> BucketOk(c, full, p + [r], Arrive(c, s, r).0, k)
  {
    GroupKey(p, r);
    SizesAre(p, r.gid, k);
    BucketAfter(c, s, r, k);
    DoneAfter(c, full, p, r, k);
    Snoc(p, r, r.gid, k);
  }

  /** The bucket is full exactly when all rollouts of its epoch have arrived, and then it holds them all. */
  lemma BucketFull(c: EvalConfig, full: seq<Rollout>, n: nat)
    requires n < |full| && Fits(c, full)
    ensures var r, p := full[n], full[..n + 1];
      && (|DoneItems(c, full, p, p, KeyOf(r))| >= BatchSize(c, r.env) <==> EpochFull(c, p, KeyOf(r)))
      && (EpochFull(c, p, KeyOf(r)) ==> DoneItems(c, full, p, p, KeyOf(r)) == KeyItems(p, KeyOf(r)))
  {
    var r, p := full[n], full[..n + 1];
    var k := KeyOf(r);
    DoneAtMost(c, full, p, p, k);
    SizesAre(p, r.gid, k);
    if EpochFull(c, p, k) {
      AllArrived(c, full, n, p, k);
      AllDone(c, full, p, p, k);
    }
  }

  lemma AllArrived(c: EvalConfig, full: seq<Rollout>, n: nat, p: seq<Rollout>, k: Key)
    requires n < |full| && Fits(c, full) && p == full[..n + 1] && k == KeyOf(full[n]) && EpochFull(c, p, k)
    ensures forall i :: 0 <= i < |p| && KeyOf(p[i]) == k ==> Arrived(c, full, p, p[i].gid)
  {
    StillToCome(c, full, n);
    FullEpoch(c, full, n + 1, k);
    GidsAre(p, k);
    forall i | 0 <= i < n + 1 && KeyOf(p[i]) == k ensures Arrived(c, full, p, p[i].gid) {
      StillToCome(c, full, i);
      assert p[i] == full[i] && p[i].gid in Gids(p, k);
    }
  }

  lemma WaitingKept(c: EvalConfig, full: seq<Rollout>, p: seq<Rollout>, r: Rollout, s: Pending, g: GroupId)
    requires Next(c, full, p, r) && WaitingOk(c, full, p, s, r.gid) && WaitingOk(c, full, p, s, g)
    ensures WaitingOk(c, full, p + [r], Arrive(c, s, r).0, g)
  {
    SizesAre(p, r.gid, KeyOf(r));
    WaitingAfter(c, s, r, g);
    Snoc(p, r, g, KeyOf(r));
  }

  lemma OwnBucketKept(c: EvalConfig, full: seq<Rollout>, n: nat, s: Pending)
    requires n < |full| && Fits(c, full) && SinkOk(c, full, full[..n], s)
    ensures BucketOk(c, full, full[..n] + [full[n]], Arrive(c, s, full[n]).0, KeyOf(full[n]))
  {
    var p, r := full[..n], full[n];
    IsNext(c, full, n);
    assert WaitingOk(c, full, p, s, r.gid) && BucketOk(c, full, p, s, KeyOf(r));
    BucketsBefore(c, full, p, r, s, KeyOf(r));
    PrefixSnoc(full, n);
    BucketFull(c, full, n);
    SameSizes(Bucket(Filled(c, s, r), KeyOf(r)), DoneItems(c, full, p + [r], p + [r], KeyOf(r)));
  }

  lemma ArrivalKeepsSink(c: EvalConfig, full: seq<Rollout>, n: nat, s: Pending)
    requires n < |full| && Fits(c, full) && SinkOk(c, full, full[..n], s)
    ensures SinkOk(c, full, full[..n] + [full[n]], Arrive(c, s, full[n]).0)
  {
    var p, r := full[..n], full[n];
    var t, q := Arrive(c, s, r).0, p + [r];
    IsNext(c, full, n);
    assert WaitingOk(c, full, p, s, r.gid);
    forall g ensures WaitingOk(c, full, q, t, g) {
      assert WaitingOk(c, full, p, s, g);
      WaitingKept(c, full, p, r, s, g);
    }
    forall k ensures BucketOk(c, full, q, t, k) {
      if k == KeyOf(r) {
        OwnBucketKept(c, full, n, s);
      } else {
        assert BucketOk(c, full, p, s, k);
        BucketsBefore(c, full, p, r, s, k);
      }
    }
  }

  lemma SameSizes(a: seq<Rollout>, m: multiset<Rollout>)
    requires multiset(a) == m
    ensures |a| == |m|
  {
  }

  lemma {:induction false} SinkAlwaysOk(c: EvalConfig, full: seq<Rollout>, n: nat)
    requires n <= |full| && Fits(c, full)
    ensures SinkOk(c, full, full[..n], After(c, full, n))
  {
    if n == 0 {
      assert full[..0] == [];
      NothingYet(c, full);
    } else {
      SinkAlwaysOk(c, full, n - 1);
      PrefixSnoc(full, n - 1);
      ArrivalKeepsSink(c, full, n - 1, After(c, full, n - 1));
    }
  }

  // ---- Epochs ----

  lemma ReturnsWhenFull(c: EvalConfig, full: seq<Rollout>, i: nat)
    requires i < |full| && Fits(c, full)
    ensures Output(c, full, i).Some? <==> EpochFull(c, full[..i + 1], KeyOf(full[i]))
    ensures Output(c, full, i).Some? ==>
      && Output(c, full, i).value.key == KeyOf(full[i])
      && multiset(Output(c, full, i).value.rollouts) == KeyItems(full[..i + 1], KeyOf(full[i]))
  {
    OwnBucket(c, full, i);
  }

  lemma ArrivalCounts(full: seq<Rollout>, i: nat)
    requires i < |full|
    ensures KeyCount(full[..i + 1], KeyOf(full[i])) > 0
  {
    PrefixSnoc(full, i);
    Snoc(full[..i], full[i], 0, KeyOf(full[i]));
  }

  /** An arrival returns a batch if and only if it is the epoch's rollout that makes the batch size, and then
      the batch holds all rollouts of that epoch, of complete groups only, one group for each example. */
  lemma EpochBatch(c: EvalConfig, full: seq<Rollout>, i: nat)
    requires i < |full| && Fits(c, full)
    ensures Output(c, full, i).Some? <==> KeyCount(full[..i + 1], KeyOf(full[i])) == BatchSize(c, full[i].env)
    ensures Output(c, full, i).Some? ==>
      && Output(c, full, i).value.key == KeyOf(full[i])
      && multiset(Output(c, full, i).value.rollouts) == KeyItems(full, KeyOf(full[i]))
      && WholeEpoch(c, full, KeyOf(full[i]), Output(c, full, i).value.rollouts)
  {
    var k := KeyOf(full[i]);
    ReturnsWhenFull(c, full, i);
    EpochBound(c, full, i + 1, k);
    if Output(c, full, i).Some? {
      NoMoreOfEpoch(c, full, i + 1, k);
      ArrivalCounts(full, i);
      WholeBatch(c, full, k, Output(c, full, i).value.rollouts);
    }
  }

  /** `batch` has exactly the configured number of rollouts of every group of the epoch, and there is a group
      for each example. */
  ghost predicate WholeEpoch(c: EvalConfig, full: seq<Rollout>, k: Key, batch: seq<Rollout>) {
    && Configured(c, k.0) && |batch| == BatchSize(c, k.0) && |Gids(full, k)| == c.examples[k.0]
    && forall g :: g in Gids(full, k) ==> PutOf(batch, g) == c.groupSize[k.0]
  }

  lemma NoMoreOfEpoch(c: EvalConfig, full: seq<Rollout>, n: nat, k: Key)
    requires n <= |full| && Fits(c, full) && EpochFull(c, full[..n], k)
    ensures KeyItems(full[..n], k) == KeyItems(full, k) && KeyCount(full[..n], k) == KeyCount(full, k) == BatchSize(c, k.0)
  {
    assert full[..|full|] == full;
    EpochBound(c, full, |full|, k);
    PrefixCounts(full, n, |full|, 0, k);
    NoneLater(full, n, |full|, k);
  }

  lemma WholeBatch(c: EvalConfig, full: seq<Rollout>, k: Key, batch: seq<Rollout>)
    requires Fits(c, full) && Configured(c, k.0) && KeyCount(full, k) == BatchSize(c, k.0) > 0
    requires multiset(batch) == KeyItems(full, k)
    ensures WholeEpoch(c, full, k, batch)
  {
    assert full[..|full|] == full;
    FullEpoch(c, full, |full|, k);
    PrefixSpread(c, full, |full|, k);
    SizesAre(full, 0, k);
    SameSizes(batch, KeyItems(full, k));
    forall g | g in Gids(full, k) ensures PutOf(batch, g) == c.groupSize[k.0] {
      CountOfItems(full, g, k, batch);
    }
  }

  /** What the arrival finds in its bucket, and whether that is enough. */
  lemma OwnBucket(c: EvalConfig, full: seq<Rollout>, i: nat)
    requires i < |full| && Fits(c, full)
    ensures var bucket, k := Bucket(Filled(c, After(c, full, i), full[i]), KeyOf(full[i])), KeyOf(full[i]);
      && (|bucket| >= BatchSize(c, full[i].env) <==> EpochFull(c, full[..i + 1], k))
      && (|bucket| >= BatchSize(c, full[i].env) ==> multiset(bucket) == KeyItems(full[..i + 1], k))
  {
    var s, r, p := After(c, full, i), full[i], full[..i];
    SinkAlwaysOk(c, full, i);
    IsNext(c, full, i);
    assert WaitingOk(c, full, p, s, r.gid) && BucketOk(c, full, p, s, KeyOf(r));
    BucketsBefore(c, full, p, r, s, KeyOf(r));
    PrefixSnoc(full, i);
    BucketFull(c, full, i);
    SameSizes(Bucket(Filled(c, s, r), KeyOf(r)), DoneItems(c, full, p + [r], p + [r], KeyOf(r)));
  }

  lemma {:induction false} NoneLater(full: seq<Rollout>, n: nat, m: nat, k: Key)
    requires n <= m <= |full| && forall j :: n <= j < m ==> KeyOf(full[j]) != k
    ensures KeyItems(full[..n], k) == KeyItems(full[..m], k)
  {
    if n < m {
      NoneLater(full, n, m - 1, k);
      PrefixSnoc(full, m - 1);
      Snoc(full[..m - 1], full[m - 1], 0, k);
    }
  }

  /** The arrival with which the count of the epoch reaches `m`. */
  lemma {:induction false} ArrivalNumber(full: seq<Rollout>, n: nat, k: Key, m: nat) returns (i: nat)
    requires n <= |full| && 0 < m <= KeyCount(full[..n], k)
    ensures i < n && KeyOf(full[i]) == k && KeyCount(full[..i + 1], k) == m
  {
    assert full[..0] == [];
    PrefixSnoc(full, n - 1);
    Snoc(full[..n - 1], full[n - 1], 0, k);
    if KeyCount(full[..n - 1], k) >= m {
      i := ArrivalNumber(full, n - 1, k, m);
    } else {
      i := n - 1;
    }
  }

  lemma {:induction false} CountOfItems(a: seq<Rollout>, g: GroupId, k: Key, batch: seq<Rollout>)
    requires multiset(batch) == KeyItems(a, k)
    requires forall i :: 0 <= i < |a| && a[i].gid == g ==> KeyOf(a[i]) == k
    ensures PutOf(batch, g) == PutOf(a, g)
  {
    if a == [] {
      SameSizes(batch, multiset{});
    } else {
      var n := |a| - 1;
      if KeyOf(a[n]) == k {
        assert a[n] in multiset(batch);
        var i :| 0 <= i < |batch| && batch[i] == a[n];
        WithoutContents(batch, i);
        Removed(KeyItems(a[..n], k), multiset(Without(batch, i)), a[n]);
        CountOfItems(a[..n], g, k, Without(batch, i));
        PutWithout(batch, i, g);
      } else {
        CountOfItems(a[..n], g, k, batch);
      }
    }
  }

  lemma Removed(m: multiset<Rollout>, n: multiset<Rollout>, r: Rollout)
    requires m + multiset{r} == n + multiset{r}
    ensures m == n
  {
    forall x ensures m[x] == n[x] {
      assert (m + multiset{r})[x] == (n + multiset{r})[x];
    }
  }

  lemma {:induction false} PutWithout(a: seq<Rollout>, i: nat, g: GroupId)
    requires i < |a|
    ensures PutOf(a, g) == PutOf(Without(a, i), g) + if a[i].gid == g then 1 else 0
  {
    var n := |a| - 1;
    if i == n {
      assert Without(a, i) == a[..n];
    } else {
      PutWithout(a[..n], i, g);
      assert Without(a, i)[..n - 1] == Without(a[..n], i);
    }
  }

  /** Arrival `i` returns epoch `k`. */
  predicate Returns(c: EvalConfig, full: seq<Rollout>, k: Key, i: nat)
    requires i < |full| && forall j :: 0 <= j < |full| ==> Configured(c, full[j].env)
  {
    Output(c, full, i).Some? && Output(c, full, i).value.key == k
  }

  /** No epoch is ever returned before all its rollouts have arrived. */
  lemma NeverEarly(c: EvalConfig, full: seq<Rollout>, k: Key, i: nat)
    requires i < |full| && Fits(c, full) && Returns(c, full, k, i)
    ensures KeyOf(full[i]) == k && Configured(c, k.0)
    ensures KeyCount(full[..i + 1], k) == BatchSize(c, k.0) == KeyCount(full, k)
    ensures WholeEpoch(c, full, k, Output(c, full, i).value.rollouts)
  {
    EpochBatch(c, full, i);
    NoMoreOfEpoch(c, full, i + 1, k);
  }

  /** No epoch is ever returned twice. */
  lemma NeverTwice(c: EvalConfig, full: seq<Rollout>, k: Key, i: nat, j: nat)
    requires i < |full| && j < |full| && Fits(c, full) && Returns(c, full, k, i) && Returns(c, full, k, j)
    ensures i == j
  {
    NeverEarly(c, full, k, i);
    NeverEarly(c, full, k, j);
    SameCountSamePlace(full, k, i, j);
  }

  lemma SameCountSamePlace(full: seq<Rollout>, k: Key, i: nat, j: nat)
    requires i < |full| && j < |full| && KeyOf(full[i]) == k == KeyOf(full[j])
    requires KeyCount(full[..i + 1], k) == KeyCount(full[..j + 1], k)
    ensures i == j
  {
    if i < j {
      PrefixCounts(full, i + 1, j + 1, 0, k);
    } else if j < i {
      PrefixCounts(full, j + 1, i + 1, 0, k);
    }
  }

  /** Whatever the order of arrivals across groups, environments and overlapping epochs, and whatever is still
      missing of other epochs: an epoch all of whose rollouts have arrived was returned by exactly one arrival,
      with exactly `group_size` rollouts of one group for each example; and nothing of it is left in the sink. */
  lemma OneBatchPerEpoch(c: EvalConfig, full: seq<Rollout>, k: Key) returns (i: nat)
    requires Fits(c, full) && Configured(c, k.0) && KeyCount(full, k) == BatchSize(c, k.0) > 0
    ensures i < |full| && Returns(c, full, k, i) && WholeEpoch(c, full, k, Output(c, full, i).value.rollouts)
    ensures forall j :: 0 <= j < |full| && Returns(c, full, k, j) ==> j == i
    ensures NothingLeft(c, full, k)
  {
    assert full[..|full|] == full;
    i := ArrivalNumber(full, |full|, k, BatchSize(c, k.0));
    EpochBatch(c, full, i);
    forall j | 0 <= j < |full| && Returns(c, full, k, j) ensures j == i {
      NeverTwice(c, full, k, i, j);
    }
    EpochLeavesNothing(c, full, k);
  }

  /** Neither the epoch's bucket nor any of its groups holds anything. */
  ghost predicate NothingLeft(c: EvalConfig, full: seq<Rollout>, k: Key)
    requires forall j :: 0 <= j < |full| ==> Configured(c, full[j].env)
  {
    var s := After(c, full, |full|);
    Bucket(s, k) == [] && forall g :: g in Gids(full, k) ==> Waiting(s, g) == []
  }

  lemma EpochLeavesNothing(c: EvalConfig, full: seq<Rollout>, k: Key)
    requires Fits(c, full) && Configured(c, k.0) && KeyCount(full, k) == BatchSize(c, k.0) > 0
    ensures NothingLeft(c, full, k)
  {
    var s := After(c, full, |full|);
    assert full[..|full|] == full;
    SinkAlwaysOk(c, full, |full|);
    assert BucketOk(c, full, full, s, k);
    SameSizes(Bucket(s, k), multiset{});
    FullEpoch(c, full, |full|, k);
    GidsAre(full, k);
    forall g | g in Gids(full, k) ensures Waiting(s, g) == [] {
      assert WaitingOk(c, full, full, s, g);
      var i :| 0 <= i < |full| && KeyOf(full[i]) == k && full[i].gid == g;
      StillToCome(c, full, i);
    }
  }
}

/** No rollout is lost or shipped twice between the groups and the cohorts
    (src/prime_rl/orchestrator/train_sink.py:220-245, 269-368, 385-405). */
module TrainCohorts {
  import opened Sequences
  import opened Wrappers
  import opened DispatchProtocol
  import opened TrainSink
  import EvalEpochs

  /** No group is larger than configured, and every group is of one environment; this holds of the arrivals of
      every run of the dispatcher (`TrainPipeline.TrainArrivalsFit`). */
  ghost predicate Fits(c: TrainConfig, full: seq<Rollout>) {
    && (forall i :: 0 <= i < |full| ==> Configured(c, full[i].env) && PutOf(full, full[i].gid) <= c.groupSize[full[i].env])
    && (forall i, j :: 0 <= i < |full| && 0 <= j < |full| && full[i].gid == full[j].gid ==> full[i].env == full[j].env)
  }

  predicate CanArrive(c: TrainConfig, p: Pending, r: Rollout) {
    Configured(c, r.env) && (Waiting(p, r.gid) != [] ==> Waiting(p, r.gid)[0].env == r.env)
  }

  /** The sink between the arrivals, and what each arrival shipped. */
  ghost predicate Steps(c: TrainConfig, full: seq<Rollout>, states: seq<Pending>, outs: seq<Option<seq<Rollout>>>) {
    && |states| == |full| + 1 && |outs| == |full| && states[0] == Pending(map[], [], 0)
    && forall i :: 0 <= i < |full| ==> CanArrive(c, states[i], full[i]) ==>
         (states[i + 1], outs[i]) == Arrive(c, states[i], full[i])
  }

  /** Arrival `i` is the last of its group. */
  predicate Completes(c: TrainConfig, full: seq<Rollout>, i: nat)
    requires i < |full| && Configured(c, full[i].env)
  {
    PutOf(full[..i + 1], full[i].gid) >= c.groupSize[full[i].env]
  }

  /** What arrival `i` adds: the survivors of its group, if it is the group's last. */
  function Added(c: TrainConfig, full: seq<Rollout>, i: nat): seq<Rollout>
    requires i < |full| && Configured(c, full[i].env)
  {
    var group := EvalEpochs.OfGid(full[..i + 1], full[i].gid);
    if Completes(c, full, i) && (group != [] ==> Configured(c, group[0].env)) then Survivors(c, group) else []
  }

  function AllAdded(c: TrainConfig, full: seq<Rollout>, n: nat): seq<Rollout>
    requires n <= |full| && forall i :: 0 <= i < |full| ==> Configured(c, full[i].env)
  {
    if n == 0 then [] else AllAdded(c, full, n - 1) + Added(c, full, n - 1)
  }

  function Shipped(outs: seq<Option<seq<Rollout>>>, n: nat): seq<Rollout>
    requires n <= |outs|
  {
    if n == 0 then [] else Shipped(outs, n - 1) + if outs[n - 1].Some? then outs[n - 1].value else []
  }

  /** Exactly the batch size, or the shortest non-empty stretch with enough tokens. */
  predicate CohortOk(c: TrainConfig, cohort: seq<Rollout>) {
    match c.cut
    case Rollouts(size) => |cohort| == size
    case Tokens(target) =>
      TokensOf(c, cohort) >= target && forall k :: 0 < k < |cohort| ==> TokensOf(c, cohort[..k]) < target
  }

  // ---- Tokens ----

  lemma {:induction false} TokensConcat(c: TrainConfig, a: seq<Rollout>, b: seq<Rollout>)
    ensures TokensOf(c, a + b) == TokensOf(c, a) + TokensOf(c, b)
  {
    if b == [] {
      assert a + b == a;
    } else {
      assert (a + b)[..|a + b| - 1] == a + b[..|b| - 1];
      TokensConcat(c, a, b[..|b| - 1]);
    }
  }

  lemma TokensSplit(c: TrainConfig, a: seq<Rollout>, n: nat)
    requires n <= |a|
    ensures TokensOf(c, a) == TokensOf(c, a[..n]) + TokensOf(c, a[n..])
  {
    assert a == a[..n] + a[n..];
    TokensConcat(c, a[..n], a[n..]);
  }

  lemma {:induction false} CutIsShortest(c: TrainConfig, batch: seq<Rollout>, target: nat, n: nat)
    requires n <= |batch| && TokensOf(c, batch) >= target
    requires forall k :: 0 < k <= n ==> TokensOf(c, batch[..k]) < target
    ensures var cut := TokenCut(c, batch, target, n);
      TokensOf(c, batch[..cut]) >= target && forall k :: 0 < k < cut ==> TokensOf(c, batch[..k]) < target
    decreases |batch| - n
  {
    if n == |batch| {
      assert batch[..n] == batch;
    } else if TokensOf(c, batch[..n + 1]) < target {
      CutIsShortest(c, batch, target, n + 1);
    }
  }

  lemma ReadyCohort(c: TrainConfig, p: Pending)
    requires p.tokens == CountedTokens(c, p.batch) && Ready(c, p)
    ensures CohortOk(c, ProcessBatch(c, p).1)
  {
    if c.cut.Tokens? {
      CutIsShortest(c, p.batch, c.cut.target, 0);
      var cut := TokenCut(c, p.batch, c.cut.target, 0);
      forall k | 0 < k < cut ensures TokensOf(c, p.batch[..cut][..k]) < c.cut.target {
        assert p.batch[..cut][..k] == p.batch[..k];
      }
    }
  }

  lemma ShippingKeeps(c: TrainConfig, p: Pending)
    requires p.tokens == CountedTokens(c, p.batch)
    ensures var (q, cohort) := ProcessBatch(c, p);
      cohort + q.batch == p.batch && q.tokens == CountedTokens(c, q.batch) && q.groups == p.groups
  {
    TokensSplit(c, p.batch, CutPoint(c, p.batch));
  }

  // ---- Groups ----

  /** A group still waiting holds exactly its arrivals so far; a completed one holds nothing. */
  ghost predicate GroupsOk(c: TrainConfig, p: seq<Rollout>, s: Pending) {
    && (forall g :: PutOf(p, g) == 0 ==> Waiting(s, g) == [])
    && (forall i :: 0 <= i < |p| ==> WaitingOk(c, p, s, p[i]))
  }

  predicate WaitingOk(c: TrainConfig, p: seq<Rollout>, s: Pending, r: Rollout) {
    Configured(c, r.env) ==>
      Waiting(s, r.gid) == if PutOf(p, r.gid) >= c.groupSize[r.env] then [] else EvalEpochs.OfGid(p, r.gid)
  }

  lemma {:induction false} CountZero(p: seq<Rollout>, g: GroupId)
    ensures PutOf(p, g) == 0 <==> forall i :: 0 <= i < |p| ==> p[i].gid != g
    ensures PutOf(p, g) == 0 ==> EvalEpochs.OfGid(p, g) == []
  {
    if p != [] {
      CountZero(p[..|p| - 1], g);
    }
  }

  /** Before an arrival, its group holds exactly the group's earlier arrivals. */
  lemma OwnGroup(c: TrainConfig, full: seq<Rollout>, n: nat, s: Pending)
    requires n < |full| && Fits(c, full) && GroupsOk(c, full[..n], s)
    ensures Waiting(s, full[n].gid) == EvalEpochs.OfGid(full[..n], full[n].gid)
    ensures CanArrive(c, s, full[n])
  {
    var p, r := full[..n], full[n];
    assert full[..|full|] == full;
    EvalEpochs.PrefixCounts(full, n, |full|, r.gid, ("", None));
    CountZero(p, r.gid);
    if PutOf(p, r.gid) > 0 {
      var i :| 0 <= i < n && p[i].gid == r.gid;
      assert WaitingOk(c, p, s, p[i]) && full[i].env == r.env;
    }
    EvalEpochs.SizesAre(p, r.gid, ("", None));
    if EvalEpochs.OfGid(p, r.gid) != [] {
      var first := EvalEpochs.OfGid(p, r.gid)[0];
      var i :| 0 <= i < |p| && p[i] == first;
      assert full[i].gid == r.gid;
    }
  }

  /** The arrival's group is finished exactly when it is complete, with all its rollouts. */
  lemma FilledIs(c: TrainConfig, full: seq<Rollout>, n: nat, s: Pending)
    requires n < |full| && Fits(c, full) && CanArrive(c, s, full[n])
    requires Waiting(s, full[n].gid) == EvalEpochs.OfGid(full[..n], full[n].gid)
    ensures var t := Filled(c, s, full[n]);
      && t.batch == s.batch + Added(c, full, n)
      && t.tokens == s.tokens + CountedTokens(c, Added(c, full, n))
      && Waiting(t, full[n].gid) == (if Completes(c, full, n) then [] else EvalEpochs.OfGid(full[..n + 1], full[n].gid))
      && forall g :: g != full[n].gid ==> Waiting(t, g) == Waiting(s, g)
  {
    var p, r := full[..n], full[n];
    EvalEpochs.PrefixSnoc(full, n);
    EvalEpochs.Snoc(p, r, r.gid, ("", None));
    EvalEpochs.SizesAre(p + [r], r.gid, ("", None));
    var group := EvalEpochs.OfGid(p + [r], r.gid);
    assert Waiting(Append(s, r), r.gid) == group;
    assert group[0].env == r.env;
  }

  lemma GroupsKept(c: TrainConfig, full: seq<Rollout>, n: nat, s: Pending, t: Pending)
    requires n < |full| && Fits(c, full) && GroupsOk(c, full[..n], s)
    requires Waiting(t, full[n].gid) == (if Completes(c, full, n) then [] else EvalEpochs.OfGid(full[..n + 1], full[n].gid))
    requires forall g :: g != full[n].gid ==> Waiting(t, g) == Waiting(s, g)
    ensures GroupsOk(c, full[..n + 1], t)
  {
    var p, q, r := full[..n], full[..n + 1], full[n];
    EvalEpochs.PrefixSnoc(full, n);
    forall g | PutOf(q, g) == 0 ensures Waiting(t, g) == [] {
      EvalEpochs.Snoc(p, r, g, ("", None));
    }
    forall i | 0 <= i < |q| ensures WaitingOk(c, q, t, q[i]) {
      EvalEpochs.Snoc(p, r, q[i].gid, ("", None));
      if q[i].gid == r.gid {
        assert full[i].env == r.env;
      } else {
        assert q[i] == p[i] && WaitingOk(c, p, s, p[i]);
      }
    }
  }

  // ---- A whole run ----

  ghost predicate Conserved(c: TrainConfig, full: seq<Rollout>, states: seq<Pending>, outs: seq<Option<seq<Rollout>>>, n: nat)
    requires n <= |full| && |states| == |full| + 1 && |outs| == |full| && Fits(c, full)
  {
    && GroupsOk(c, full[..n], states[n])
    && AllAdded(c, full, n) == Shipped(outs, n) + states[n].batch
    && states[n].tokens == CountedTokens(c, states[n].batch)
  }

  lemma FilledConserves(c: TrainConfig, before: seq<Rollout>, shipped: seq<Rollout>, s: Pending, t: Pending, added: seq<Rollout>)
    requires before == shipped + s.batch && s.tokens == CountedTokens(c, s.batch)
    requires t.batch == s.batch + added && t.tokens == s.tokens + CountedTokens(c, added)
    ensures before + added == shipped + t.batch && t.tokens == CountedTokens(c, t.batch)
  {
    TokensConcat(c, s.batch, added);
    assert (shipped + s.batch) + added == shipped + (s.batch + added);
  }

  /** What the arrival leaves pending and ships, once the group is taken in. */
  lemma ShipOrKeep(c: TrainConfig, all: seq<Rollout>, shipped: seq<Rollout>, t: Pending, u: Pending, out: Option<seq<Rollout>>)
    requires all == shipped + t.batch && t.tokens == CountedTokens(c, t.batch)
    requires (u, out) == if Ready(c, t) then (ProcessBatch(c, t).0, Some(ProcessBatch(c, t).1)) else (t, None)
    ensures all == shipped + (if out.Some? then out.value else []) + u.batch
    ensures u.tokens == CountedTokens(c, u.batch) && u.groups == t.groups
    ensures out.Some? ==> CohortOk(c, out.value)
  {
    if Ready(c, t) {
      ReadyCohort(c, t);
      ShippingKeeps(c, t);
      assert shipped + (out.value + u.batch) == shipped + out.value + u.batch;
    } else {
      assert shipped + [] == shipped;
    }
  }

  lemma ArrivalConserves(c: TrainConfig, full: seq<Rollout>, states: seq<Pending>, outs: seq<Option<seq<Rollout>>>, n: nat)
    requires n < |full| && Fits(c, full) && Steps(c, full, states, outs) && Conserved(c, full, states, outs, n)
    ensures Conserved(c, full, states, outs, n + 1)
    ensures outs[n].Some? ==> CohortOk(c, outs[n].value)
  {
    var s, r := states[n], full[n];
    OwnGroup(c, full, n, s);
    FilledIs(c, full, n, s);
    var t := Filled(c, s, r);
    FilledConserves(c, AllAdded(c, full, n), Shipped(outs, n), s, t, Added(c, full, n));
    assert (states[n + 1], outs[n]) == Arrive(c, s, r);
    ShipOrKeep(c, AllAdded(c, full, n + 1), Shipped(outs, n), t, states[n + 1], outs[n]);
    GroupsKept(c, full, n, s, states[n + 1]);
  }

  /** At any point of any run: the survivors of the groups completed so far, in the order of completion,
      are exactly the shipped cohorts one after another followed by the pending batch; the token counter
      is the pending batch's token sum; and every cohort is of the right size. */
  lemma {:induction false} CohortsConserved(c: TrainConfig, full: seq<Rollout>, states: seq<Pending>,
                                            outs: seq<Option<seq<Rollout>>>, n: nat)
    requires n <= |full| && Fits(c, full) && Steps(c, full, states, outs)
    ensures Conserved(c, full, states, outs, n)
    ensures forall i :: 0 <= i < n && outs[i].Some? ==> CohortOk(c, outs[i].value)
  {
    if n == 0 {
      assert full[..0] == [];
    } else {
      CohortsConserved(c, full, states, outs, n - 1);
      ArrivalConserves(c, full, states, outs, n - 1);
    }
  }

  // ---- Which rollouts survive ----

  lemma {:induction false} ErrorlessHolds(group: seq<Rollout>)
    ensures forall r :: r in Errorless(group) <==> r in group && !HasError(r)
  {
    if group != [] {
      ErrorlessHolds(group[..|group| - 1]);
      assert group == group[..|group| - 1] + [group[|group| - 1]];
    }
  }

  lemma {:induction false} UnlimitedHolds(c: TrainConfig, group: seq<Rollout>)
    ensures forall r :: r in Unlimited(c, group) <==> r in group && !c.limited(r)
  {
    if group != [] {
      UnlimitedHolds(c, group[..|group| - 1]);
      assert group == group[..|group| - 1] + [group[|group| - 1]];
    }
  }

  lemma {:induction false} PassingHolds(c: TrainConfig, survivors: seq<Rollout>, n: nat)
    requires n <= |survivors|
    ensures forall r :: r in Passing(c, survivors, n) <==> exists i :: 0 <= i < n && survivors[i] == r && c.passes(survivors, i)
  {
    if n > 0 {
      PassingHolds(c, survivors, n - 1);
    }
  }

  /** A group scored as a whole with any error contributes nothing, likewise with any context limit when
      those are dropped; otherwise nothing with an error, and if so configured nothing that ran out of
      context, is ever among the survivors. */
  lemma SurvivorsAreClean(c: TrainConfig, group: seq<Rollout>)
    requires group != [] && Configured(c, group[0].env)
    ensures AnyError(group) && c.scored[group[0].env] ==> Survivors(c, group) == []
    ensures AnyLimited(c, group) && c.scored[group[0].env] && c.dropLimited ==> Survivors(c, group) == []
    ensures forall r :: r in Survivors(c, group) ==> r in group && !HasError(r) && (c.dropLimited ==> !c.limited(r))
  {
    ErrorlessHolds(group);
    var clean := Errorless(group);
    UnlimitedHolds(c, clean);
    PassingHolds(c, clean, |clean|);
    var kept := Unlimited(c, clean);
    PassingHolds(c, kept, |kept|);
  }

  // ---- Exactly which ----

  /** `out` is `all` at the positions `chosen`, in order. */
  predicate Selected(all: seq<Rollout>, chosen: seq<nat>, out: seq<Rollout>) {
    && |chosen| == |out|
    && (forall i, j :: 0 <= i < j < |chosen| ==> chosen[i] < chosen[j])
    && forall i :: 0 <= i < |chosen| ==> chosen[i] < |all| && out[i] == all[chosen[i]]
  }

  /** A rollout that may be trained on: it finished, and did not run out of context if such rollouts are dropped. */
  predicate Good(c: TrainConfig, r: Rollout) { r.outcome == Finished && (c.dropLimited ==> !c.limited(r)) }

  /** The group is scored as a whole and some rollout of it is not good. */
  ghost predicate Spoiled(c: TrainConfig, group: seq<Rollout>)
    requires group != [] ==> Configured(c, group[0].env)
  {
    group != [] && c.scored[group[0].env] && exists i :: 0 <= i < |group| && !Good(c, group[i])
  }

  /** `pool` are all good rollouts of the group, and `out` all of those that pass the filters, in order. */
  ghost predicate GoodBy(c: TrainConfig, group: seq<Rollout>, good: seq<nat>, pool: seq<Rollout>, passed: seq<nat>, out: seq<Rollout>) {
    && Selected(group, good, pool) && (forall i: nat :: i in good <==> i < |group| && Good(c, group[i]))
    && Selected(pool, passed, out) && (forall j: nat :: j in passed <==> j < |pool| && c.passes(pool, j))
  }

  /** `out` is all that may go on of the group. */
  ghost predicate ExactlyGood(c: TrainConfig, group: seq<Rollout>, out: seq<Rollout>)
    requires group != [] ==> Configured(c, group[0].env)
  {
    if Spoiled(c, group) then out == [] else exists good, pool, passed :: GoodBy(c, group, good, pool, passed, out)
  }

  lemma SelectedMore(all: seq<Rollout>, chosen: seq<nat>, out: seq<Rollout>, r: Rollout)
    requires Selected(all, chosen, out)
    ensures Selected(all + [r], chosen, out) && Selected(all + [r], chosen + [|all|], out + [r])
  {
  }

  /** What passes both tests, one after the other. */
  function Usable(c: TrainConfig, group: seq<Rollout>): seq<Rollout> {
    if c.dropLimited then Unlimited(c, Errorless(group)) else Errorless(group)
  }

  lemma UsableMore(c: TrainConfig, group: seq<Rollout>, r: Rollout)
    ensures Usable(c, group + [r]) == if Good(c, r) then Usable(c, group) + [r] else Usable(c, group)
  {
    assert (group + [r])[..|group|] == group;
    var clean := Errorless(group);
    assert (clean + [r])[..|clean|] == clean;
    assert clean + [] == clean;
  }

  lemma {:induction false} UsableIsSelected(c: TrainConfig, group: seq<Rollout>) returns (good: seq<nat>)
    ensures Selected(group, good, Usable(c, group)) && forall i: nat :: i in good <==> i < |group| && Good(c, group[i])
  {
    good := [];
    if group != [] {
      var n := |group| - 1;
      good := UsableIsSelected(c, group[..n]);
      UsableMore(c, group[..n], group[n]);
      SelectedMore(group[..n], good, Usable(c, group[..n]), group[n]);
      assert group[..n] + [group[n]] == group;
      if Good(c, group[n]) {
        good := good + [n];
      }
    }
  }

  lemma {:induction false} PassingIsSelected(c: TrainConfig, pool: seq<Rollout>, n: nat) returns (passed: seq<nat>)
    requires n <= |pool|
    ensures Selected(pool, passed, Passing(c, pool, n)) && forall j: nat :: j in passed <==> j < n && c.passes(pool, j)
    ensures forall j :: j in passed ==> j < n
  {
    passed := [];
    if n > 0 {
      passed := PassingIsSelected(c, pool, n - 1);
      forall i | 0 <= i < |passed| ensures passed[i] < n - 1 {
        assert passed[i] in passed;
      }
      if c.passes(pool, n - 1) {
        passed := passed + [n - 1];
      }
    }
  }

  lemma SurvivorsByUsable(c: TrainConfig, group: seq<Rollout>)
    requires group != [] ==> Configured(c, group[0].env)
    ensures Survivors(c, group) == if Spoiled(c, group) then [] else Passing(c, Usable(c, group), |Usable(c, group)|)
  {
    ErrorlessHolds(group);
    if Errorless(group) == [] {
      assert Unlimited(c, []) == [];
    }
    if group != [] && c.scored[group[0].env] {
      assert Spoiled(c, group) <==> AnyError(group) || (c.dropLimited && AnyLimited(c, group)) by {
        if i :| 0 <= i < |group| && !Good(c, group[i]) {
          assert HasError(group[i]) || (c.dropLimited && c.limited(group[i]));
        }
        if i :| 0 <= i < |group| && HasError(group[i]) {
          assert !Good(c, group[i]);
        }
        if c.dropLimited {
          if i :| 0 <= i < |group| && c.limited(group[i]) {
            assert !Good(c, group[i]);
          }
        }
      }
    }
  }

  /** The survivors of a group are exactly, in order and each as often as it is there, the rollouts that finished, did
      not run out of context if such are dropped, and pass the filters; except that a group scored as a whole has no
      survivors unless all its rollouts are good. */
  lemma SurvivorsAreExact(c: TrainConfig, group: seq<Rollout>)
    requires group != [] ==> Configured(c, group[0].env)
    ensures ExactlyGood(c, group, Survivors(c, group))
  {
    SurvivorsByUsable(c, group);
    if !Spoiled(c, group) {
      var pool := Usable(c, group);
      var good := UsableIsSelected(c, group);
      var passed := PassingIsSelected(c, pool, |pool|);
      assert GoodBy(c, group, good, pool, passed, Survivors(c, group));
    }
  }

  /** What arrival `i` contributes: if it makes its group as large as configured, all of the group that may go on. */
  ghost predicate ArrivalGives(c: TrainConfig, full: seq<Rollout>, i: nat, part: seq<Rollout>)
    requires i < |full| && Fits(c, full)
  {
    var r := full[i];
    var group := EvalEpochs.OfGid(full[..i + 1], r.gid);
    if PutOf(full[..i + 1], r.gid) >= c.groupSize[r.env]
    then (group != [] ==> Configured(c, group[0].env)) && ExactlyGood(c, group, part)
    else part == []
  }

  lemma AddedIsExact(c: TrainConfig, full: seq<Rollout>, i: nat)
    requires i < |full| && Fits(c, full)
    ensures ArrivalGives(c, full, i, Added(c, full, i))
  {
    var group := EvalEpochs.OfGid(full[..i + 1], full[i].gid);
    EvalEpochs.SizesAre(full[..i + 1], full[i].gid, ("", None));
    if group != [] {
      assert group[0] in full[..i + 1];
      SurvivorsAreExact(c, group);
    } else {
      SurvivorsAreExact(c, []);
    }
  }

  /** `all` is what the first arrivals contribute, one after another. */
  ghost predicate MadeOf(c: TrainConfig, full: seq<Rollout>, all: seq<Rollout>, parts: seq<seq<Rollout>>)
    requires Fits(c, full) && |parts| <= |full|
  {
    all == Flat(parts) && forall i :: 0 <= i < |parts| ==> ArrivalGives(c, full, i, parts[i])
  }

  lemma {:induction false} AddedIsMadeOf(c: TrainConfig, full: seq<Rollout>, n: nat) returns (parts: seq<seq<Rollout>>)
    requires n <= |full| && Fits(c, full)
    ensures |parts| == n && MadeOf(c, full, AllAdded(c, full, n), parts)
  {
    parts := [];
    if n > 0 {
      parts := AddedIsMadeOf(c, full, n - 1);
      AddedIsExact(c, full, n - 1);
      FlatConcat(parts, [Added(c, full, n - 1)]);
      FlatOfOne(Added(c, full, n - 1));
      parts := parts + [Added(c, full, n - 1)];
    }
  }

  lemma FlatOfOne<T>(part: seq<T>)
    ensures Flat([part]) == part
  {
    assert [part][1..] == [] && Flat([part][1..]) == [];
  }

  /** No good rollout is lost: the shipped cohorts and the pending batch, one after another, are exactly what the
      arrivals so far contribute. */
  lemma NoGoodRolloutLost(c: TrainConfig, full: seq<Rollout>, states: seq<Pending>, outs: seq<Option<seq<Rollout>>>, n: nat)
    returns (parts: seq<seq<Rollout>>)
    requires n <= |full| && Fits(c, full) && Steps(c, full, states, outs)
    ensures |parts| == n && MadeOf(c, full, Shipped(outs, n) + states[n].batch, parts)
  {
    CohortsConserved(c, full, states, outs, n);
    parts := AddedIsMadeOf(c, full, n);
  }

  // ---- When a cohort is shipped ----

  /** A single rollout counts its own tokens. */
  lemma TokensOfOne(c: TrainConfig, r: Rollout)
    ensures TokensOf(c, [r]) == c.tokens(r)
  {
    assert [r][..0] == [];
  }

  /** An arrival ships a cohort exactly when the pending batch, with what the arrival contributes, has the batch size or
      the token target. */
  lemma ShipsWhenFull(c: TrainConfig, full: seq<Rollout>, states: seq<Pending>, outs: seq<Option<seq<Rollout>>>, n: nat)
    requires n < |full| && Fits(c, full) && Steps(c, full, states, outs)
    ensures outs[n].Some? <==>
      match c.cut
      case Rollouts(size) => |states[n].batch| + |Added(c, full, n)| >= size
      case Tokens(target) => TokensOf(c, states[n].batch + Added(c, full, n)) >= target
  {
    CohortsConserved(c, full, states, outs, n);
    OwnGroup(c, full, n, states[n]);
    FilledIs(c, full, n, states[n]);
    TokensConcat(c, states[n].batch, Added(c, full, n));
    assert (states[n + 1], outs[n]) == Arrive(c, states[n], full[n]);
  }

  lemma {:induction false} AddedFrom(c: TrainConfig, full: seq<Rollout>, n: nat, r: Rollout)
    requires n <= |full| && Fits(c, full) && r in AllAdded(c, full, n)
    ensures exists i :: 0 <= i < n && r in Added(c, full, i)
  {
    if r !in Added(c, full, n - 1) {
      AddedFrom(c, full, n - 1, r);
    }
  }

  /** Arrival `i` completed the group of `r`, without an error if such groups are scored as a whole. */
  predicate CleanOrigin(c: TrainConfig, full: seq<Rollout>, r: Rollout, i: nat) {
    && i < |full| && full[i].gid == r.gid && Configured(c, full[i].env) && Configured(c, r.env) && Completes(c, full, i)
    && (c.scored[r.env] ==> !AnyError(EvalEpochs.OfGid(full[..i + 1], r.gid)))
  }

  /** Nothing shipped comes from a group that is scored as a whole and had an error in it. */
  lemma ShippedIsClean(c: TrainConfig, full: seq<Rollout>, states: seq<Pending>, outs: seq<Option<seq<Rollout>>>, n: nat, r: Rollout)
    requires n <= |full| && Fits(c, full) && Steps(c, full, states, outs) && r in Shipped(outs, n)
    ensures !HasError(r) && Configured(c, r.env)
    ensures exists i :: 0 <= i < n && CleanOrigin(c, full, r, i)
  {
    CohortsConserved(c, full, states, outs, n);
    assert r in Shipped(outs, n) + states[n].batch;
    AddedFrom(c, full, n, r);
    var i :| 0 <= i < n && r in Added(c, full, i);
    var group := EvalEpochs.OfGid(full[..i + 1], full[i].gid);
    SurvivorsAreClean(c, group);
    EvalEpochs.SizesAre(full[..i + 1], full[i].gid, ("", None));
    var j :| 0 <= j < |group| && group[j] == r;
    assert group[0] in full[..i + 1] && group[j] in full[..i + 1];
    assert CleanOrigin(c, full, r, i);
  }
}

/** From the dispatcher to the train sink: in any run the arrivals are what the sink expects, so the cohorts lose
    nothing (src/prime_rl/orchestrator/dispatcher.py:339-396; src/prime_rl/orchestrator/orchestrator.py:594-609;
    src/prime_rl/orchestrator/train_sink.py:220-245). */
module TrainPipeline {
  import opened Sequences
  import opened Wrappers
  import opened DispatchProtocol
  import DispatchInvariant
  import DispatchPolicy
  import opened DispatchTheorems
  import Sink = TrainSink
  import TrainCohorts

  /** What the main loop hands to the train sink. */
  function TrainOnly(log: seq<Rollout>): seq<Rollout> {
    if log == [] then []
    else
      var before, last := TrainOnly(log[..|log| - 1]), log[|log| - 1];
      if last.kind == Train then before + [last] else before
  }

  lemma {:induction false} TrainOnlyHolds(log: seq<Rollout>)
    ensures forall i :: 0 <= i < |TrainOnly(log)| ==> TrainOnly(log)[i] in log && TrainOnly(log)[i].kind == Train
  {
    if log != [] {
      TrainOnlyHolds(log[..|log| - 1]);
    }
  }

  lemma {:induction false} TrainOnlyCounts(log: seq<Rollout>, g: GroupId)
    ensures PutOf(TrainOnly(log), g) <= PutOf(log, g)
  {
    if log != [] {
      var before, last := TrainOnly(log[..|log| - 1]), log[|log| - 1];
      TrainOnlyCounts(log[..|log| - 1], g);
      DispatchInvariant.PutOfAppend(before, last, g);
    }
  }

  lemma {:induction false} FewerEarlier(log: seq<Rollout>, m: nat, g: GroupId)
    requires m <= |log|
    ensures PutOf(log[..m], g) <= PutOf(log, g)
  {
    if m < |log| {
      FewerEarlier(log[..|log| - 1], m, g);
      assert log[..|log| - 1][..m] == log[..m];
    } else {
      assert log[..m] == log;
    }
  }

  // ---- Every train group is of a train environment and of its size ----

  predicate TrainGroupOk(c: Config, s: State, g: GroupId) {
    g in s.store && s.store[g].kind == Train ==>
      s.store[g].example.env in c.trainEnvs && s.store[g].target == c.trainEnvs[s.store[g].example.env].groupSize
  }

  /** In every reachable state each train group is of a configured train environment, with its group size as target. */
  lemma TrainGroupsAreSized(c: Config, version: int, states: seq<State>, actions: seq<Action>, n: nat, g: GroupId)
    requires ValidConfig(c) && Run(c, version, states, actions) && n < |states|
    ensures TrainGroupOk(c, states[n], g)
  {
    if g in states[n].store {
      var m := DispatchPolicy.GroupOrigin(c, version, states, actions, n, g);
    }
  }

  // ---- The arrivals fit the sink ----

  /** Dispatcher and sink are configured with the same train environments. */
  ghost predicate SameEnvs(c: Config, d: Sink.TrainConfig) {
    forall e :: e in c.trainEnvs ==> Sink.Configured(d, e) && d.groupSize[e] == c.trainEnvs[e].groupSize
  }

  lemma ArrivalFits(c: Config, d: Sink.TrainConfig, version: int, states: seq<State>, actions: seq<Action>, n: nat, m: nat, r: Rollout)
    requires ValidConfig(c) && Run(c, version, states, actions) && n < |states| && m <= |states[n].log|
    requires SameEnvs(c, d) && r in states[n].log && r.kind == Train
    ensures Sink.Configured(d, r.env) && PutOf(TrainOnly(states[n].log[..m]), r.gid) <= d.groupSize[r.env]
  {
    var s := states[n];
    var i :| 0 <= i < |s.log| && s.log[i] == r;
    RunKeepsInv(c, version, states, actions, n);
    assert DispatchInvariant.RolloutOk(s, s.log[i]) && DispatchInvariant.Balanced(s, r.gid);
    TrainGroupsAreSized(c, version, states, actions, n, r.gid);
    TrainOnlyCounts(s.log[..m], r.gid);
    FewerEarlier(s.log, m, r.gid);
  }

  /** What the sink has been given at any moment of any run, draining or not: no group is larger than configured,
      and every group is of one environment. */
  lemma TrainArrivalsFit(c: Config, d: Sink.TrainConfig, version: int, states: seq<State>, actions: seq<Action>, n: nat, m: nat)
    requires ValidConfig(c) && Run(c, version, states, actions) && n < |states| && m <= |states[n].log|
    requires SameEnvs(c, d)
    ensures TrainCohorts.Fits(d, TrainOnly(states[n].log[..m]))
  {
    var s := states[n];
    var full := TrainOnly(s.log[..m]);
    TrainOnlyHolds(s.log[..m]);
    forall i | 0 <= i < |full| ensures Sink.Configured(d, full[i].env) && PutOf(full, full[i].gid) <= d.groupSize[full[i].env] {
      ArrivalFits(c, d, version, states, actions, n, m, full[i]);
    }
    forall i, j | 0 <= i < |full| && 0 <= j < |full| && full[i].gid == full[j].gid ensures full[i].env == full[j].env {
      RunKeepsInv(c, version, states, actions, n);
      OneEnvironment(c, s, full[i], full[j]);
    }
  }

  lemma OneEnvironment(c: Config, s: State, q: Rollout, r: Rollout)
    requires DispatchInvariant.Inv(c, s) && q in s.log && r in s.log && q.gid == r.gid
    ensures q.env == r.env
  {
    var i :| 0 <= i < |s.log| && s.log[i] == q;
    var j :| 0 <= j < |s.log| && s.log[j] == r;
    assert DispatchInvariant.RolloutOk(s, s.log[i]) && DispatchInvariant.RolloutOk(s, s.log[j]);
  }

  /** Dispatcher and train sink together: after the first `m` rollouts of any run have been read, the shipped cohorts
      followed by the pending batch are exactly what the arrivals contribute, one after another: the arrival that
      completes a group contributes all good rollouts of it that pass the filters, unless the group is spoiled, and
      any other contributes nothing. Every cohort is of the right size, and nothing shipped has an error. */
  lemma RolloutsReachCohorts(c: Config, d: Sink.TrainConfig, version: int, states: seq<State>, actions: seq<Action>, n: nat, m: nat,
                             pending: seq<Sink.Pending>, outs: seq<Option<seq<Rollout>>>)
    returns (parts: seq<seq<Rollout>>)
    requires ValidConfig(c) && Run(c, version, states, actions) && n < |states| && m <= |states[n].log|
    requires SameEnvs(c, d) && TrainCohorts.Steps(d, TrainOnly(states[n].log[..m]), pending, outs)
    ensures var full := TrainOnly(states[n].log[..m]);
      && TrainCohorts.Fits(d, full) && |parts| == |full|
      && TrainCohorts.MadeOf(d, full, TrainCohorts.Shipped(outs, |full|) + pending[|full|].batch, parts)
      && (forall i :: 0 <= i < |full| && outs[i].Some? ==> TrainCohorts.CohortOk(d, outs[i].value))
      && (forall r :: r in TrainCohorts.Shipped(outs, |full|) ==> r.outcome == Finished)
  {
    var full := TrainOnly(states[n].log[..m]);
    TrainArrivalsFit(c, d, version, states, actions, n, m);
    TrainCohorts.CohortsConserved(d, full, pending, outs, |full|);
    parts := TrainCohorts.NoGoodRolloutLost(d, full, pending, outs, |full|);
    forall r | r in TrainCohorts.Shipped(outs, |full|) ensures r.outcome == Finished {
      TrainCohorts.ShippedIsClean(d, full, pending, outs, |full|, r);
    }
  }
}

/** What a run of the dispatcher has done, told from its actions
    (src/prime_rl/orchestrator/dispatcher.py:265-292, 337-396, 456-547). */
module DispatchHistory {
  import opened Sequences
  import opened Wrappers
  import opened DispatchProtocol
  import opened DispatchInvariant
  import DispatchSteps
  import opened DispatchTheorems

  // ---- How many version updates a task has seen ----

  /** The version updates announced from action `m` up to action `n`. */
  function Updates(actions: seq<Action>, m: nat, n: nat): nat
    requires m <= n <= |actions|
  {
    if m == n then 0 else Updates(actions, m, n - 1) + if actions[n - 1] == Age then 1 else 0
  }

  /** Action `m` started the task: it is of the group that had acquired its permits then, and carries what that group
      was. */
  predicate StartedBy(states: seq<State>, actions: seq<Action>, e: Entry, m: nat) {
    && m < |actions| && m < |states| && actions[m] == Launch
    && var s := states[m];
    && s.scheduler.Acquiring? && s.scheduler.gid == e.gid && s.scheduler.wanted == e.count && e.gid in s.store
    && e.kind == s.store[e.gid].kind && e.env == s.store[e.gid].example.env
    && e.evalStep == s.store[e.gid].example.evalStep && e.version == s.store[e.gid].version
  }

  /** Before action `n`, the task started by action `m` has the age of the updates since. */
  predicate AgedSince(states: seq<State>, actions: seq<Action>, n: nat, e: Entry, m: nat)
    requires n <= |actions|
  {
    && m < n && StartedBy(states, actions, e, m)
    && e.offPolicy == if e.kind == Train then Updates(actions, m, n) else 0
  }

  /** Each task of `es` was started by an action of its own, in their order. */
  ghost predicate Tracked(states: seq<State>, actions: seq<Action>, n: nat, es: seq<Entry>, started: seq<nat>)
    requires n <= |actions|
  {
    && |started| == |es|
    && (forall i, j :: 0 <= i < j < |started| ==> started[i] < started[j])
    && forall i :: 0 <= i < |es| ==> AgedSince(states, actions, n, es[i], started[i])
  }

  lemma TrackedParts(states: seq<State>, actions: seq<Action>, n: nat, es: seq<Entry>, started: seq<nat>)
    requires n <= |actions| && Tracked(states, actions, n, es, started) && es != []
    ensures Tracked(states, actions, n, es[1..], started[1..])
    ensures forall m :: m in started[1..] ==> started[0] < m
  {
  }

  lemma TrackedJoined(states: seq<State>, actions: seq<Action>, n: nat, e: Entry, m: nat, es: seq<Entry>, started: seq<nat>)
    requires n <= |actions| && AgedSince(states, actions, n, e, m) && Tracked(states, actions, n, es, started)
    requires forall k :: k in started ==> m < k
    ensures Tracked(states, actions, n, [e] + es, [m] + started)
  {
    var all := [m] + started;
    forall i, j | 0 <= i < j < |all| ensures all[i] < all[j] {
      assert all[j] == started[j - 1] && started[j - 1] in started;
    }
  }

  lemma {:induction false} TrackedOthers(states: seq<State>, actions: seq<Action>, n: nat, es: seq<Entry>, started: seq<nat>, gid: GroupId)
    returns (rest: seq<nat>)
    requires n <= |actions| && Tracked(states, actions, n, es, started)
    ensures Tracked(states, actions, n, NotOfGroup(es, gid), rest) && forall m :: m in rest ==> m in started
  {
    if es == [] {
      rest := [];
    } else {
      TrackedParts(states, actions, n, es, started);
      rest := TrackedOthers(states, actions, n, es[1..], started[1..], gid);
      if es[0].gid == gid {
        assert [] + NotOfGroup(es[1..], gid) == NotOfGroup(es[1..], gid);
      } else {
        TrackedJoined(states, actions, n, es[0], started[0], NotOfGroup(es[1..], gid), rest);
        rest := [started[0]] + rest;
      }
    }
  }

  lemma {:induction false} TrackedOfKind(states: seq<State>, actions: seq<Action>, n: nat, es: seq<Entry>, started: seq<nat>, kind: Kind)
    returns (rest: seq<nat>)
    requires n <= |actions| && Tracked(states, actions, n, es, started)
    ensures Tracked(states, actions, n, OfKind(es, kind), rest) && forall m :: m in rest ==> m in started
  {
    if es == [] {
      rest := [];
    } else {
      TrackedParts(states, actions, n, es, started);
      rest := TrackedOfKind(states, actions, n, es[1..], started[1..], kind);
      if es[0].kind == kind {
        TrackedJoined(states, actions, n, es[0], started[0], OfKind(es[1..], kind), rest);
        rest := [started[0]] + rest;
      } else {
        assert [] + OfKind(es[1..], kind) == OfKind(es[1..], kind);
      }
    }
  }

  lemma TrackedWithout(states: seq<State>, actions: seq<Action>, n: nat, es: seq<Entry>, started: seq<nat>, i: nat)
    requires n <= |actions| && i < |es| && Tracked(states, actions, n, es, started)
    ensures Tracked(states, actions, n, Without(es, i), Without(started, i))
  {
  }

  /** One more action that is no update leaves the ages as they are. */
  lemma TrackedLater(states: seq<State>, actions: seq<Action>, n: nat, es: seq<Entry>, started: seq<nat>)
    requires n < |actions| && actions[n] != Age && Tracked(states, actions, n, es, started)
    ensures Tracked(states, actions, n + 1, es, started)
  {
    forall i | 0 <= i < |es| ensures AgedSince(states, actions, n + 1, es[i], started[i]) {
      assert AgedSince(states, actions, n, es[i], started[i]);
    }
  }

  lemma TrackedAged(states: seq<State>, actions: seq<Action>, n: nat, es: seq<Entry>, started: seq<nat>)
    requires n < |actions| && actions[n] == Age && Tracked(states, actions, n, es, started)
    ensures Tracked(states, actions, n + 1, Aged(es), started)
  {
    forall i | 0 <= i < |es| ensures AgedSince(states, actions, n + 1, Aged(es)[i], started[i]) {
      assert AgedSince(states, actions, n, es[i], started[i]);
    }
  }

  lemma TrackedStarted(states: seq<State>, actions: seq<Action>, n: nat, es: seq<Entry>, started: seq<nat>)
    requires n < |actions| && n < |states| && actions[n] == Launch && Tracked(states, actions, n, es, started)
    requires states[n].scheduler.Acquiring? && states[n].scheduler.gid in states[n].store
    ensures Tracked(states, actions, n + 1, es + [LaunchedEntry(states[n])], started + [n])
  {
    TrackedLater(states, actions, n, es, started);
    assert Updates(actions, n, n + 1) == 0;
    assert AgedSince(states, actions, n + 1, LaunchedEntry(states[n]), n);
  }

  lemma TrackedStep(c: Config, version: int, states: seq<State>, actions: seq<Action>, n: nat, started: seq<nat>) returns (next: seq<nat>)
    requires ValidConfig(c) && Run(c, version, states, actions) && n < |actions|
    requires Tracked(states, actions, n, states[n].inflight, started)
    ensures Tracked(states, actions, n + 1, states[n + 1].inflight, next)
  {
    RunKeepsInv(c, version, states, actions, n);
    var s, a := states[n], actions[n];
    assert states[n + 1] == Apply(c, s, a);
    match a {
      case Launch =>
        next := started + [n];
        TrackedStarted(states, actions, n, s.inflight, started);
      case Complete(i, _) =>
        next := Without(started, i);
        TrackedWithout(states, actions, n, s.inflight, started, i);
        TrackedLater(states, actions, n, Without(s.inflight, i), next);
      case Claim(gid) =>
        next := TrackedOthers(states, actions, n, s.inflight, started, gid);
        TrackedLater(states, actions, n, NotOfGroup(s.inflight, gid), next);
      case BeginDraining =>
        next := TrackedOfKind(states, actions, n, s.inflight, started, Eval);
        TrackedLater(states, actions, n, OfKind(s.inflight, Eval), next);
      case Age =>
        next := started;
        TrackedAged(states, actions, n, s.inflight, started);
      case _ =>
        next := started;
        OthersLeaveTasks(c, s, a);
        TrackedLater(states, actions, n, s.inflight, started);
    }
  }

  lemma OthersLeaveTasks(c: Config, s: State, a: Action)
    requires Structure(s) && Enabled(c, s, a)
    requires a != Launch && !a.Complete? && !a.Claim? && a != BeginDraining && a != Age
    ensures Apply(c, s, a).inflight == s.inflight
  {
    if OfLoop(a) {
      LoopLeavesTasks(c, s, a);
    } else if a.Stage? {
      DispatchSteps.CountEmissionFrame(s, EmissionOf(s, a.who).value);
    }
  }

  lemma LoopLeavesTasks(c: Config, s: State, a: Action)
    requires OfLoop(a) && Structure(s) && Enabled(c, s, a) && a != Launch && !a.Complete?
    ensures Apply(c, s, a).inflight == s.inflight
  {
  }

  /** In every reachable state, each task in flight was started by an action of its own, and a train task is exactly
      as old as the version updates announced since; eval tasks are never aged. */
  lemma {:induction false} TaskAges(c: Config, version: int, states: seq<State>, actions: seq<Action>, n: nat) returns (started: seq<nat>)
    requires ValidConfig(c) && Run(c, version, states, actions) && n < |states|
    ensures Tracked(states, actions, n, states[n].inflight, started)
  {
    if n == 0 {
      started := [];
    } else {
      started := TaskAges(c, version, states, actions, n - 1);
      started := TrackedStep(c, version, states, actions, n - 1, started);
    }
  }

  /** Between two runs of the version hook, no train task in flight has seen more than the allowed number of updates
      since it was started. */
  lemma NoStaleTask(c: Config, version: int, states: seq<State>, actions: seq<Action>, n: nat) returns (started: seq<nat>)
    requires ValidConfig(c) && Run(c, version, states, actions) && n < |states| && states[n].watcher == Resting
    ensures Tracked(states, actions, n, states[n].inflight, started)
    ensures forall i :: 0 <= i < |started| && states[n].inflight[i].kind == Train ==>
      Updates(actions, started[i], n) <= c.maxOffPolicy
  {
    started := TaskAges(c, version, states, actions, n);
    forall i | 0 <= i < |started| && states[n].inflight[i].kind == Train
      ensures Updates(actions, started[i], n) <= c.maxOffPolicy
    {
      StalenessBounded(c, version, states, actions, n, i);
      assert AgedSince(states, actions, n, states[n].inflight[i], started[i]);
    }
  }

  /** Group `g` has a train task in flight that has seen more updates than allowed. */
  ghost predicate HasStaleTask(c: Config, actions: seq<Action>, n: nat, s: State, started: seq<nat>, g: GroupId)
    requires n <= |actions| && |started| == |s.inflight| && forall i :: 0 <= i < |started| ==> started[i] <= n
  {
    exists i :: 0 <= i < |started| && s.inflight[i].kind == Train && s.inflight[i].gid == g &&
      Updates(actions, started[i], n) > c.maxOffPolicy
  }

  /** An update marks for dropping exactly the groups with a train task that has seen more updates than allowed,
      this one included: none is spared, and none is dropped early. */
  lemma UpdateDropsExactly(c: Config, version: int, states: seq<State>, actions: seq<Action>, n: nat, g: GroupId)
    returns (started: seq<nat>)
    requires ValidConfig(c) && Run(c, version, states, actions) && n < |actions| && actions[n] == Age
    ensures Tracked(states, actions, n + 1, states[n + 1].inflight, started) && states[n + 1].watcher.Dropping?
    ensures g in states[n + 1].watcher.stale <==> HasStaleTask(c, actions, n + 1, states[n + 1], started, g)
  {
    RunKeepsInv(c, version, states, actions, n);
    started := TaskAges(c, version, states, actions, n + 1);
    var t := states[n + 1];
    assert t == Apply(c, states[n], Age);
    forall i | 0 <= i < |started| && t.inflight[i].kind == Train
      ensures t.inflight[i].offPolicy == Updates(actions, started[i], n + 1)
    {
      assert AgedSince(states, actions, n + 1, t.inflight[i], started[i]);
    }
  }

  // ---- What becomes of every result ----

  predicate IsResult(r: Rollout, g: GroupId, o: Outcome, p: nat) { r.gid == g && r.outcome == o && r.offPolicy == p }

  /** Rollouts of group `g` put on the queue with outcome `o`, as old as `p` updates. */
  function ResultsPut(log: seq<Rollout>, g: GroupId, o: Outcome, p: nat): nat {
    if log == [] then 0
    else
      var before := ResultsPut(log[..|log| - 1], g, o, p);
      if IsResult(log[|log| - 1], g, o, p) then before + 1 else before
  }

  function ResultsOwed(owed: seq<Marker>, g: GroupId, o: Outcome, p: nat): nat {
    if owed == [] then 0
    else
      var rest := ResultsOwed(owed[1..], g, o, p);
      if owed[0].entry.gid == g && owed[0].outcome == o && owed[0].entry.offPolicy == p then rest + 1 else rest
  }

  /** Of an emission: not yet put on the queue. */
  function ResultsHeld(e: Option<Emission>, g: GroupId, o: Outcome, p: nat): nat {
    if e == None then 0
    else
      var owed := ResultsOwed(e.value.owed, g, o, p);
      if e.value.staged.Some? && IsResult(e.value.staged.value, g, o, p) then owed + 1 else owed
  }

  function ResultsOf(s: State, g: GroupId, o: Outcome, p: nat): nat {
    ResultsPut(s.log, g, o, p) + ResultsHeld(EmissionOf(s, Loop), g, o, p) + ResultsHeld(EmissionOf(s, Observer), g, o, p)
  }

  /** Rollouts of the tasks of group `g` in flight that are as old as `p`. */
  function InFlight(es: seq<Entry>, g: GroupId, p: nat): nat {
    if es == [] then 0
    else
      var rest := InFlight(es[1..], g, p);
      if es[0].gid == g && es[0].offPolicy == p then es[0].count + rest else rest
  }

  /** What action `a` reports of the rollouts of group `g` as old as `p`: a task that completes, its outcomes; dropping
      the group, a cancellation for each rollout in flight and, after those, for each one never scheduled, which counts
      as old as the last task dropped. */
  function Reports(s: State, a: Action, g: GroupId, o: Outcome, p: nat): nat {
    match a
    case Complete(i, outcomes) =>
      if i < |s.inflight| && s.inflight[i].gid == g && s.inflight[i].offPolicy == p then multiset(outcomes)[o] else 0
    case Claim(gid) => if gid == g && o == Cancelled then InFlight(s.inflight, g, p) else 0
    case Sweep =>
      if o == Cancelled && s.watcher.Flushing? && s.watcher.e.gid == g && s.watcher.e.known && g in s.store &&
         p == (if s.watcher.last.Some? then s.watcher.last.value.offPolicy else 0)
      then s.store[g].toSchedule else 0
    case _ => 0
  }

  /** All that was reported of them by action `n`. */
  function Reported(states: seq<State>, actions: seq<Action>, n: nat, g: GroupId, o: Outcome, p: nat): nat
    requires n <= |actions| && n <= |states|
  {
    if n == 0 then 0 else Reported(states, actions, n - 1, g, o, p) + Reports(states[n - 1], actions[n - 1], g, o, p)
  }

  lemma ResultsPutMore(log: seq<Rollout>, r: Rollout, g: GroupId, o: Outcome, p: nat)
    ensures ResultsPut(log + [r], g, o, p) == if IsResult(r, g, o, p) then ResultsPut(log, g, o, p) + 1 else ResultsPut(log, g, o, p)
  {
    assert (log + [r])[..|log|] == log;
  }

  lemma {:induction false} MarkersOfTask(entry: Entry, outcomes: seq<Outcome>, owed: seq<Marker>, g: GroupId, o: Outcome, p: nat)
    requires |owed| == |outcomes| && forall i :: 0 <= i < |owed| ==> owed[i] == Marker(entry, outcomes[i])
    ensures ResultsOwed(owed, g, o, p) == if entry.gid == g && entry.offPolicy == p then multiset(outcomes)[o] else 0
  {
    if outcomes != [] {
      MarkersOfTask(entry, outcomes[1..], owed[1..], g, o, p);
      assert outcomes == [outcomes[0]] + outcomes[1..];
    }
  }

  lemma {:induction false} OwedConcat(a: seq<Marker>, b: seq<Marker>, g: GroupId, o: Outcome, p: nat)
    ensures ResultsOwed(a + b, g, o, p) == ResultsOwed(a, g, o, p) + ResultsOwed(b, g, o, p)
  {
    if a == [] {
      assert a + b == b;
    } else {
      assert (a + b)[1..] == a[1..] + b;
      OwedConcat(a[1..], b, g, o, p);
    }
  }

  lemma {:induction false} OneCancellation(owed: seq<Marker>, e: Entry, g: GroupId, o: Outcome, p: nat)
    requires forall i :: 0 <= i < |owed| ==> owed[i] == Marker(e, Cancelled)
    ensures ResultsOwed(owed, g, o, p) == if o == Cancelled && e.gid == g && e.offPolicy == p then |owed| else 0
  {
    if owed != [] {
      OneCancellation(owed[1..], e, g, o, p);
    }
  }

  lemma {:induction false} CancellationsOwed(es: seq<Entry>, g: GroupId, o: Outcome, p: nat)
    ensures ResultsOwed(Cancellations(es), g, o, p) == if o == Cancelled then InFlight(es, g, p) else 0
  {
    if es != [] {
      CancellationsOwed(es[1..], g, o, p);
      var first := seq(es[0].count, i => Marker(es[0], Cancelled));
      OneCancellation(first, es[0], g, o, p);
      OwedConcat(first, Cancellations(es[1..]), g, o, p);
    }
  }

  lemma {:induction false} OfItsGroup(es: seq<Entry>, gid: GroupId, g: GroupId, p: nat)
    ensures InFlight(OfGroup(es, gid), g, p) == if gid == g then InFlight(es, g, p) else 0
  {
    if es != [] {
      OfItsGroup(es[1..], gid, g, p);
      var rest := OfGroup(es[1..], gid);
      if es[0].gid == gid {
        assert ([es[0]] + rest)[1..] == rest;
      } else {
        assert [] + rest == rest;
      }
    }
  }

  lemma StageMovesResult(s: State, who: Who, g: GroupId, o: Outcome, p: nat)
    requires Structure(s) && CanStage(s, who)
    ensures ResultsOf(StageNext(s, who), g, o, p) == ResultsOf(s, g, o, p)
  {
    var e := EmissionOf(s, who).value;
    DispatchSteps.CountEmissionFrame(s, e);
    assert EmissionOf(CountEmission(s, e), Loop) == EmissionOf(s, Loop);
    assert EmissionOf(CountEmission(s, e), Observer) == EmissionOf(s, Observer);
  }

  lemma PutMovesResult(s: State, who: Who, g: GroupId, o: Outcome, p: nat)
    requires EmissionOf(s, who).Some? && EmissionOf(s, who).value.staged.Some?
    ensures ResultsOf(PutStaged(s, who), g, o, p) == ResultsOf(s, g, o, p)
  {
    ResultsPutMore(s.log, EmissionOf(s, who).value.staged.value, g, o, p);
  }

  lemma CompleteAddsResults(s: State, i: nat, outcomes: seq<Outcome>, g: GroupId, o: Outcome, p: nat)
    requires s.scheduler == Idle && i < |s.inflight|
    ensures ResultsOf(CompleteTask(s, i, outcomes), g, o, p) == ResultsOf(s, g, o, p) +
      if s.inflight[i].gid == g && s.inflight[i].offPolicy == p then multiset(outcomes)[o] else 0
  {
    MarkersOfTask(s.inflight[i], outcomes, CompleteTask(s, i, outcomes).scheduler.e.owed, g, o, p);
  }

  lemma ClaimAddsCancellations(s: State, gid: GroupId, g: GroupId, o: Outcome, p: nat)
    requires s.watcher.Dropping?
    ensures ResultsOf(ClaimGroup(s, gid), g, o, p) == ResultsOf(s, g, o, p) + Reports(s, Claim(gid), g, o, p)
  {
    CancellationsOwed(OfGroup(s.inflight, gid), g, o, p);
    OfItsGroup(s.inflight, gid, g, p);
  }

  lemma SweepAddsCancellations(s: State, g: GroupId, o: Outcome, p: nat)
    requires Structure(s) && s.watcher.Flushing? && Emitted(s.watcher.e)
    ensures ResultsOf(SweepUnscheduled(s), g, o, p) == ResultsOf(s, g, o, p) + Reports(s, Sweep, g, o, p)
  {
    var w := s.watcher;
    var fallback := if w.last.Some? then w.last.value else DropStand(s, w.e.gid);
    assert fallback.gid == w.e.gid;
    OneCancellation(SweepUnscheduled(s).watcher.e.owed, fallback, g, o, p);
  }

  lemma LoopKeepsResults(c: Config, s: State, a: Action)
    requires OfLoop(a) && Structure(s) && Enabled(c, s, a) && !a.Complete?
    ensures var t := Apply(c, s, a);
      t.log == s.log && EmissionOf(t, Loop) == EmissionOf(s, Loop) && EmissionOf(t, Observer) == EmissionOf(s, Observer)
  {
  }

  lemma OthersKeepResults(c: Config, s: State, a: Action, g: GroupId, o: Outcome, p: nat)
    requires Structure(s) && Enabled(c, s, a) && !a.Complete? && !a.Stage? && !a.Put? && !a.Claim? && a != Sweep
    ensures ResultsOf(Apply(c, s, a), g, o, p) == ResultsOf(s, g, o, p)
  {
    if OfLoop(a) {
      LoopKeepsResults(c, s, a);
    } else {
      var t := Apply(c, s, a);
      assert t.log == s.log;
      assert EmissionOf(t, Loop) == EmissionOf(s, Loop) || (a == LoopDone && Emitted(s.scheduler.e));
      assert EmissionOf(t, Observer) == EmissionOf(s, Observer) || (a == FlushDone && Emitted(s.watcher.e));
    }
  }

  lemma ResultsStep(c: Config, s: State, a: Action, g: GroupId, o: Outcome, p: nat)
    requires Structure(s) && Enabled(c, s, a)
    ensures ResultsOf(Apply(c, s, a), g, o, p) == ResultsOf(s, g, o, p) + Reports(s, a, g, o, p)
  {
    match a
    case Complete(i, outcomes) => CompleteAddsResults(s, i, outcomes, g, o, p);
    case Stage(who) => StageMovesResult(s, who, g, o, p);
    case Put(who) => PutMovesResult(s, who, g, o, p);
    case Claim(gid) => ClaimAddsCancellations(s, gid, g, o, p);
    case Sweep => SweepAddsCancellations(s, g, o, p);
    case _ => OthersKeepResults(c, s, a, g, o, p);
  }

  /** Every result reaches the queue once, with its outcome and with the age its task had when it completed or was
      dropped, or is held by the coroutine about to put it; and the queue has no other results. */
  lemma {:induction false} ResultsConserved(c: Config, version: int, states: seq<State>, actions: seq<Action>, n: nat,
                                            g: GroupId, o: Outcome, p: nat)
    requires ValidConfig(c) && Run(c, version, states, actions) && n < |states|
    ensures ResultsPut(states[n].log, g, o, p) + ResultsHeld(EmissionOf(states[n], Loop), g, o, p) +
      ResultsHeld(EmissionOf(states[n], Observer), g, o, p) == Reported(states, actions, n, g, o, p)
  {
    if n > 0 {
      ResultsConserved(c, version, states, actions, n - 1, g, o, p);
      RunKeepsInv(c, version, states, actions, n - 1);
      ResultsStep(c, states[n - 1], actions[n - 1], g, o, p);
      assert states[n] == Apply(c, states[n - 1], actions[n - 1]);
    }
  }
}

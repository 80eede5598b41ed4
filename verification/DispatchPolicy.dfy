/** What the dispatcher starts, and when: the origin of every group, the size of every task, and the rules for train
    and eval work (src/prime_rl/orchestrator/dispatcher.py:204-264, 294-454, 640-667). */
module DispatchPolicy {
  import opened Sequences
  import opened Wrappers
  import opened DispatchProtocol
  import opened DispatchInvariant
  import DispatchSteps
  import opened DispatchTheorems

  // ---- Settings, from the actions alone ----

  /** The policy version last announced before action `n`. */
  function VersionAt(version: int, actions: seq<Action>, n: nat): int
    requires n <= |actions|
  {
    if n == 0 then version
    else match actions[n - 1]
      case NewVersion(v) => v
      case _ => VersionAt(version, actions, n - 1)
  }

  /** Whether the dispatch gate was left open before action `n`. */
  function GateAt(actions: seq<Action>, n: nat): bool
    requires n <= |actions|
  {
    if n == 0 then true
    else match actions[n - 1]
      case SetGate(open) => open
      case _ => GateAt(actions, n - 1)
  }

  predicate DrainingAt(actions: seq<Action>, n: nat)
    requires n <= |actions|
  {
    exists k :: 0 <= k < n && actions[k] == BeginDraining
  }

  lemma StepSettings(c: Config, s: State, a: Action)
    requires Structure(s) && Enabled(c, s, a)
    ensures var t := Apply(c, s, a);
      && t.version == (if a.NewVersion? then a.v else s.version)
      && t.gateOpen == (if a.SetGate? then a.open else s.gateOpen)
      && t.trainDisabled == (a == BeginDraining || s.trainDisabled)
  {
    if OfLoop(a) {
      LoopKeepsSettings(c, s, a);
    } else if a.Stage? {
      DispatchSteps.CountEmissionFrame(s, EmissionOf(s, a.who).value);
    }
  }

  lemma LoopKeepsSettings(c: Config, s: State, a: Action)
    requires OfLoop(a) && Structure(s) && Enabled(c, s, a)
    ensures var t := Apply(c, s, a);
      && t.version == s.version && t.gateOpen == s.gateOpen && t.trainDisabled == s.trainDisabled
      && t.mode == s.mode && t.triggered == s.triggered
  {
  }

  lemma {:induction false} SettingsAre(c: Config, version: int, states: seq<State>, actions: seq<Action>, n: nat)
    requires ValidConfig(c) && Run(c, version, states, actions) && n < |states|
    ensures states[n].version == VersionAt(version, actions, n) && states[n].gateOpen == GateAt(actions, n)
    ensures states[n].trainDisabled == DrainingAt(actions, n)
  {
    if n > 0 {
      SettingsAre(c, version, states, actions, n - 1);
      RunKeepsInv(c, version, states, actions, n - 1);
      StepSettings(c, states[n - 1], actions[n - 1]);
      assert states[n] == Apply(c, states[n - 1], actions[n - 1]);
    }
  }

  // ---- Where a group comes from ----

  /** `g` is made as `env`'s specification says, for the example, under the given version. */
  predicate MadeAs(g: Group, kind: Kind, example: Example, spec: EnvSpec, version: int) {
    && g.kind == kind && g.example == example && g.version == version
    && g.target == spec.groupSize && g.scored == spec.groupScored
  }

  /** Action `m` opened group `g`: for the example it offered, or for the eval row then first in the queue, under the
      policy version in force. */
  predicate OpenedBy(c: Config, version: int, states: seq<State>, actions: seq<Action>, s: State, g: GroupId, m: nat) {
    && m < |actions| && m < |states| && states[m].nextGroup == g && g in s.store
    && match actions[m]
       case OpenTrain(env, taskIdx) =>
         && env in c.trainEnvs
         && MadeAs(s.store[g], Train, Example(env, taskIdx, None), c.trainEnvs[env], VersionAt(version, actions, m))
       case OpenEval =>
         && states[m].evalQueue != [] && states[m].evalQueue[0].env in c.evalEnvs
         && MadeAs(s.store[g], Eval, states[m].evalQueue[0], c.evalEnvs[states[m].evalQueue[0].env],
                   VersionAt(version, actions, m))
       case _ => false
  }

  predicate SameGroup(s: State, t: State, g: GroupId) {
    g in s.store ==> g in t.store && DispatchSteps.Identity(t.store[g]) == DispatchSteps.Identity(s.store[g])
  }

  lemma LoopKeepsGroup(c: Config, s: State, a: Action, g: GroupId)
    requires OfLoop(a) && Structure(s) && Enabled(c, s, a)
    ensures SameGroup(s, Apply(c, s, a), g)
  {
  }

  lemma StepKeepsGroup(c: Config, s: State, a: Action, g: GroupId)
    requires Structure(s) && Enabled(c, s, a)
    ensures SameGroup(s, Apply(c, s, a), g)
  {
    if OfLoop(a) {
      LoopKeepsGroup(c, s, a, g);
    } else if a.Stage? {
      DispatchSteps.CountEmissionFrame(s, EmissionOf(s, a.who).value);
    }
  }

  lemma NewGroup(c: Config, version: int, states: seq<State>, actions: seq<Action>, n: nat, g: GroupId)
    requires ValidConfig(c) && Run(c, version, states, actions) && n < |actions|
    requires g !in states[n].store && g in states[n + 1].store
    ensures OpenedBy(c, version, states, actions, states[n + 1], g, n)
  {
    RunKeepsInv(c, version, states, actions, n);
    SettingsAre(c, version, states, actions, n);
    var s, a := states[n], actions[n];
    assert states[n + 1] == Apply(c, s, a);
    if !a.OpenTrain? && !a.OpenEval? {
      OnlyOpeningAdds(c, s, a, g);
    }
  }

  /** Every group was opened by an action of the run, under the version in force at that moment, and keeps what it
      was made for. */
  lemma {:induction false} GroupOrigin(c: Config, version: int, states: seq<State>, actions: seq<Action>, n: nat, g: GroupId)
    returns (m: nat)
    requires ValidConfig(c) && Run(c, version, states, actions) && n < |states| && g in states[n].store
    ensures m < n && OpenedBy(c, version, states, actions, states[n], g, m)
    decreases n
  {
    if g in states[n - 1].store {
      m := GroupOrigin(c, version, states, actions, n - 1, g);
      RunKeepsInv(c, version, states, actions, n - 1);
      StepKeepsGroup(c, states[n - 1], actions[n - 1], g);
      assert states[n] == Apply(c, states[n - 1], actions[n - 1]);
    } else {
      m := n - 1;
      NewGroup(c, version, states, actions, m, g);
    }
  }

  // ---- What a task is ----

  /** A group that is scored as a whole is one task of all its rollouts; any other has one task for each. */
  predicate TaskSize(g: Group, count: nat) { count == if g.scored then g.target else 1 }

  /** A group scored as a whole is either not scheduled at all or entirely. */
  predicate WholeOrNot(g: Group) { g.scored ==> g.toSchedule == 0 || g.toSchedule == g.target }

  ghost predicate SizesOk(s: State) {
    && (forall g :: g in s.store ==> WholeOrNot(s.store[g]))
    && (forall i :: 0 <= i < |s.inflight| ==> s.inflight[i].gid in s.store && TaskSize(s.store[s.inflight[i].gid], s.inflight[i].count))
    && (s.scheduler.Acquiring? ==> s.scheduler.gid in s.store && TaskSize(s.store[s.scheduler.gid], s.scheduler.wanted))
  }

  predicate SizedAs(s: State, e: Entry) { e.gid in s.store && TaskSize(s.store[e.gid], e.count) }

  lemma SizesKept(s: State, t: State)
    requires SizesOk(s) && DispatchSteps.SameGroups(s, t)
    requires forall g :: g in s.store ==> t.store[g].toSchedule == s.store[g].toSchedule
    requires forall i :: 0 <= i < |t.inflight| ==> SizedAs(s, t.inflight[i])
    requires t.scheduler.Acquiring? ==> s.scheduler.Acquiring? && t.scheduler.gid == s.scheduler.gid && t.scheduler.wanted == s.scheduler.wanted
    ensures SizesOk(t)
  {
    forall g | g in t.store ensures WholeOrNot(t.store[g]) {
      assert DispatchSteps.Identity(t.store[g]) == DispatchSteps.Identity(s.store[g]);
    }
    forall i | 0 <= i < |t.inflight| ensures SizedAs(t, t.inflight[i]) {
      assert SizedAs(s, t.inflight[i]);
      assert DispatchSteps.Identity(t.store[t.inflight[i].gid]) == DispatchSteps.Identity(s.store[t.inflight[i].gid]);
    }
    if t.scheduler.Acquiring? {
      assert DispatchSteps.Identity(t.store[t.scheduler.gid]) == DispatchSteps.Identity(s.store[t.scheduler.gid]);
    }
  }

  lemma ReserveKeepsSizes(s: State, gid: GroupId)
    requires SizesOk(s) && gid in s.store && 0 < s.store[gid].toSchedule && Cost(s.store[gid]) <= s.store[gid].toSchedule
    ensures SizesOk(Reserve(s, gid))
  {
  }

  lemma LoopKeepsSizes(c: Config, s: State, a: Action)
    requires OfLoop(a) && Structure(s) && Enabled(c, s, a) && SizesOk(s)
    ensures SizesOk(Apply(c, s, a))
  {
    match a
    case Continue(gid) =>
      if s.store[gid].pinned { ReserveKeepsSizes(s, gid); }
    case ClientReady =>
      if s.scheduler.gid in s.live { ReserveKeepsSizes(s, s.scheduler.gid); }
    case _ => StartsKeepSizes(c, s, a);
  }

  lemma StartsKeepSizes(c: Config, s: State, a: Action)
    requires OfLoop(a) && !a.Continue? && a != ClientReady && Structure(s) && Enabled(c, s, a) && SizesOk(s)
    ensures SizesOk(Apply(c, s, a))
  {
  }

  lemma OthersKeepSizes(c: Config, s: State, a: Action)
    requires !OfLoop(a) && Structure(s) && Enabled(c, s, a) && SizesOk(s)
    ensures SizesOk(Apply(c, s, a))
  {
    var t := Apply(c, s, a);
    if a.Stage? {
      DispatchSteps.CountEmissionFrame(s, EmissionOf(s, a.who).value);
    } else if a.Claim? {
      FilterMembers(s.inflight, a.gid);
    } else if a == BeginDraining {
      KindMembers(s.inflight, Eval);
    }
    forall i | 0 <= i < |t.inflight| ensures SizedAs(s, t.inflight[i]) {
      if a == Age {
        assert SizedAs(s, s.inflight[i]);
      } else {
        assert t.inflight[i] in s.inflight;
      }
    }
    SizesKept(s, t);
  }

  /** In every reachable state a task in flight is of the whole group if the group is scored as one, and otherwise of
      a single rollout. */
  lemma {:induction false} TaskSizes(c: Config, version: int, states: seq<State>, actions: seq<Action>, n: nat)
    requires ValidConfig(c) && Run(c, version, states, actions) && n < |states|
    ensures SizesOk(states[n])
  {
    if n > 0 {
      TaskSizes(c, version, states, actions, n - 1);
      RunKeepsInv(c, version, states, actions, n - 1);
      if OfLoop(actions[n - 1]) {
        LoopKeepsSizes(c, states[n - 1], actions[n - 1]);
      } else {
        OthersKeepSizes(c, states[n - 1], actions[n - 1]);
      }
      assert states[n] == Apply(c, states[n - 1], actions[n - 1]);
    }
  }

  // ---- Train or eval ----

  /** Eval work still to be scheduled: rows in the queue, or an open eval group with rollouts left. */
  ghost predicate EvalWaiting(s: State) {
    s.evalQueue != [] || exists g :: g in s.live && g in s.store && s.store[g].kind == Eval && s.store[g].toSchedule > 0
  }

  /** The loop begins to schedule a task of group `g`. */
  predicate Begins(s: State, t: State, g: GroupId) {
    && s.scheduler == Idle && g in t.store
    && ((t.scheduler.AwaitClient? && t.scheduler.gid == g) || (t.scheduler.Acquiring? && t.scheduler.gid == g))
  }

  ghost predicate EvalFirst(s: State) { s.mode == PreferTrain ==> !EvalWaiting(s) }

  lemma LoopKeepsEvalFirst(c: Config, s: State, a: Action)
    requires OfLoop(a) && Structure(s) && Enabled(c, s, a) && EvalFirst(s)
    ensures EvalFirst(Apply(c, s, a))
  {
  }

  lemma OthersKeepEvalFirst(c: Config, s: State, a: Action)
    requires !OfLoop(a) && Structure(s) && Enabled(c, s, a) && EvalFirst(s)
    ensures EvalFirst(Apply(c, s, a))
  {
    if a.Stage? {
      DispatchSteps.CountEmissionFrame(s, EmissionOf(s, a.who).value);
    }
  }

  lemma {:induction false} AlwaysEvalFirst(c: Config, version: int, states: seq<State>, actions: seq<Action>, n: nat)
    requires ValidConfig(c) && Run(c, version, states, actions) && n < |states|
    ensures EvalFirst(states[n])
  {
    if n > 0 {
      AlwaysEvalFirst(c, version, states, actions, n - 1);
      RunKeepsInv(c, version, states, actions, n - 1);
      if OfLoop(actions[n - 1]) {
        LoopKeepsEvalFirst(c, states[n - 1], actions[n - 1]);
      } else {
        OthersKeepEvalFirst(c, states[n - 1], actions[n - 1]);
      }
      assert states[n] == Apply(c, states[n - 1], actions[n - 1]);
    }
  }

  lemma BeginsOnlyIfAllowed(c: Config, s: State, a: Action, g: GroupId)
    requires Structure(s) && Enabled(c, s, a) && Begins(s, Apply(c, s, a), g)
    ensures var t := Apply(c, s, a);
      && (t.store[g].kind == Train ==> s.mode == PreferTrain && s.gateOpen && !s.trainDisabled)
      && (t.store[g].kind == Eval ==> s.mode == PreferEval)
  {
    if a.Stage? {
      DispatchSteps.CountEmissionFrame(s, EmissionOf(s, a.who).value);
    }
  }

  /** Scheduling of a train task begins only while the gate was last left open, draining has not begun, and no eval
      work is waiting. */
  lemma TrainHoldsBack(c: Config, version: int, states: seq<State>, actions: seq<Action>, n: nat, g: GroupId)
    requires ValidConfig(c) && Run(c, version, states, actions) && n < |actions|
    requires Begins(states[n], states[n + 1], g) && states[n + 1].store[g].kind == Train
    ensures GateAt(actions, n) && !DrainingAt(actions, n) && !EvalWaiting(states[n])
  {
    RunKeepsInv(c, version, states, actions, n);
    SettingsAre(c, version, states, actions, n);
    AlwaysEvalFirst(c, version, states, actions, n);
    assert states[n + 1] == Apply(c, states[n], actions[n]);
    BeginsOnlyIfAllowed(c, states[n], actions[n], g);
  }

  // ---- Order ----

  predicate Rising(ids: seq<GroupId>) { forall i, j :: 0 <= i < j < |ids| ==> ids[i] < ids[j] }

  lemma {:induction false} ExcludingRises(ids: seq<GroupId>, out: set<GroupId>)
    requires Rising(ids)
    ensures Rising(Excluding(ids, out))
  {
    if ids != [] {
      ExcludingRises(ids[1..], out);
      var rest := Excluding(ids[1..], out);
      forall j | 0 <= j < |rest| ensures ids[0] < rest[j] {
        assert rest[j] in rest;
      }
    }
  }

  lemma LoopKeepsOrder(c: Config, s: State, a: Action)
    requires OfLoop(a) && Structure(s) && Enabled(c, s, a) && Rising(s.live)
    ensures Rising(Apply(c, s, a).live)
  {
    forall i | 0 <= i < |s.live| ensures s.live[i] < s.nextGroup {
      assert s.live[i] in s.live;
    }
  }

  lemma OthersKeepOrder(c: Config, s: State, a: Action)
    requires !OfLoop(a) && Structure(s) && Enabled(c, s, a) && Rising(s.live)
    ensures Rising(Apply(c, s, a).live)
  {
    match a
    case Stage(who) => ExcludingRises(s.live, {EmissionOf(s, who).value.gid});
    case Claim(gid) => ExcludingRises(s.live, {gid});
    case BeginDraining => ExcludingRises(s.live, TrainGroups(s.inflight));
    case _ =>
  }

  /** The open groups are kept, each once, in the order in which they were opened. */
  lemma {:induction false} OpenGroupsInOrder(c: Config, version: int, states: seq<State>, actions: seq<Action>, n: nat)
    requires ValidConfig(c) && Run(c, version, states, actions) && n < |states|
    ensures Rising(states[n].live)
  {
    if n > 0 {
      OpenGroupsInOrder(c, version, states, actions, n - 1);
      RunKeepsInv(c, version, states, actions, n - 1);
      if OfLoop(actions[n - 1]) {
        LoopKeepsOrder(c, states[n - 1], actions[n - 1]);
      } else {
        OthersKeepOrder(c, states[n - 1], actions[n - 1]);
      }
      assert states[n] == Apply(c, states[n - 1], actions[n - 1]);
    }
  }

  // ---- Draining ----

  lemma {:induction false} KindContents(es: seq<Entry>, kind: Kind, e: Entry)
    ensures multiset(OfKind(es, kind))[e] == if e.kind == kind then multiset(es)[e] else 0
  {
    if es != [] {
      KindContents(es[1..], kind, e);
      assert es == [es[0]] + es[1..];
    }
  }

  ghost predicate HasTrainTask(s: State, g: GroupId) {
    exists i :: 0 <= i < |s.inflight| && s.inflight[i].kind == Train && s.inflight[i].gid == g
  }

  /** When draining begins, every train task in flight is gone and every eval task stays; the groups closed are
      exactly those that had a train task in flight. */
  lemma DrainDropsTrain(c: Config, version: int, states: seq<State>, actions: seq<Action>, n: nat)
    requires ValidConfig(c) && Run(c, version, states, actions) && n < |actions| && actions[n] == BeginDraining
    ensures forall e: Entry :: multiset(states[n + 1].inflight)[e] == if e.kind == Eval then multiset(states[n].inflight)[e] else 0
    ensures forall g :: g in states[n + 1].live <==> g in states[n].live && !HasTrainTask(states[n], g)
  {
    RunKeepsInv(c, version, states, actions, n);
    assert states[n + 1] == Apply(c, states[n], actions[n]);
    forall e: Entry ensures multiset(states[n + 1].inflight)[e] == if e.kind == Eval then multiset(states[n].inflight)[e] else 0 {
      KindContents(states[n].inflight, Eval, e);
    }
  }

  // ---- Waiting for a client, and dropping ----

  lemma LoopPins(c: Config, s: State, a: Action, g: GroupId)
    requires OfLoop(a) && Structure(s) && Enabled(c, s, a) && g in s.store
    ensures g in Apply(c, s, a).store
    ensures Apply(c, s, a).store[g].pinned && !s.store[g].pinned ==> a == ClientReady && s.scheduler.gid == g
  {
    match a
    case Continue(_) =>
    case ClientReady =>
    case _ => StartsDoNotPin(c, s, a, g);
  }

  lemma StartsDoNotPin(c: Config, s: State, a: Action, g: GroupId)
    requires OfLoop(a) && !a.Continue? && a != ClientReady && Structure(s) && Enabled(c, s, a) && g in s.store
    ensures g in Apply(c, s, a).store && Apply(c, s, a).store[g].pinned == s.store[g].pinned
  {
  }

  lemma OthersDoNotPin(c: Config, s: State, a: Action, g: GroupId)
    requires !OfLoop(a) && Structure(s) && Enabled(c, s, a) && g in s.store
    ensures g in Apply(c, s, a).store && Apply(c, s, a).store[g].pinned == s.store[g].pinned
  {
    if a.Stage? {
      DispatchSteps.GroupCounted(s, EmissionOf(s, a.who).value, g);
    }
  }

  /** A group gets its client, and with it its first task charged, only by the wait for that client. */
  lemma PinnedByClient(c: Config, version: int, states: seq<State>, actions: seq<Action>, n: nat, g: GroupId)
    requires ValidConfig(c) && Run(c, version, states, actions) && n < |actions|
    requires g in states[n].store && !states[n].store[g].pinned && g in states[n + 1].store && states[n + 1].store[g].pinned
    ensures actions[n] == ClientReady && states[n].scheduler == AwaitClient(g)
  {
    RunKeepsInv(c, version, states, actions, n);
    var s, a := states[n], actions[n];
    assert states[n + 1] == Apply(c, s, a);
    if OfLoop(a) {
      LoopPins(c, s, a, g);
    } else {
      OthersDoNotPin(c, s, a, g);
    }
  }

  /** When the client is there, the loop goes on to acquire the permits of the group's next task, or, if the group was
      dropped meanwhile, charges nothing and is free again. */
  lemma ClientArrives(c: Config, version: int, states: seq<State>, actions: seq<Action>, n: nat)
    requires ValidConfig(c) && Run(c, version, states, actions) && n < |actions| && actions[n] == ClientReady
    ensures states[n].scheduler.AwaitClient? && states[n].scheduler.gid in states[n].store
    ensures var (s, t, g) := (states[n], states[n + 1], states[n].scheduler.gid);
      if g in s.live
      then t.scheduler.Acquiring? && t.scheduler.gid == g && t.scheduler.got == 0 && TaskSize(s.store[g], t.scheduler.wanted) &&
           t.scheduler.wanted <= s.store[g].toSchedule &&
           t.store == s.store[g := s.store[g].(pinned := true, toSchedule := s.store[g].toSchedule - t.scheduler.wanted)]
      else t == s.(scheduler := Idle)
  {
    RunKeepsInv(c, version, states, actions, n);
    TaskSizes(c, version, states, actions, n);
    assert states[n + 1] == Apply(c, states[n], ClientReady);
  }

  /** Task `i` of the list is the last one of group `g`. */
  predicate LastTask(es: seq<Entry>, g: GroupId, i: nat) {
    i < |es| && es[i].gid == g && forall j :: i < j < |es| ==> es[j].gid != g
  }

  /** `e` is that last task. */
  ghost predicate IsLastTask(es: seq<Entry>, g: GroupId, e: Entry) {
    exists i: nat :: LastTask(es, g, i) && es[i] == e
  }

  lemma LastTaskLater(es: seq<Entry>, g: GroupId, e: Entry)
    requires es != [] && IsLastTask(es[1..], g, e)
    ensures IsLastTask(es, g, e)
  {
    var i: nat :| LastTask(es[1..], g, i) && es[1..][i] == e;
    forall j | i + 1 < j < |es| ensures es[j].gid != g {
      assert es[1..][j - 1] == es[j];
    }
    assert LastTask(es, g, i + 1) && es[i + 1] == e;
  }

  lemma {:induction false} NoneOfGroup(es: seq<Entry>, g: GroupId, i: nat)
    requires OfGroup(es, g) == [] && i < |es|
    ensures es[i].gid != g
  {
    if i > 0 {
      NoneOfGroup(es[1..], g, i - 1);
    }
  }

  lemma LastAppended(head: seq<Entry>, rest: seq<Entry>)
    requires rest != []
    ensures LastOf(head + rest) == LastOf(rest)
  {
  }

  lemma {:induction false} LastOfGroup(es: seq<Entry>, g: GroupId)
    requires OfGroup(es, g) != []
    ensures LastOf(OfGroup(es, g)).Some? && IsLastTask(es, g, LastOf(OfGroup(es, g)).value)
  {
    var rest := OfGroup(es[1..], g);
    if rest != [] {
      LastOfGroup(es[1..], g);
      LastTaskLater(es, g, LastOf(rest).value);
      LastAppended(if es[0].gid == g then [es[0]] else [], rest);
    } else {
      forall j | 0 < j < |es| ensures es[j].gid != g {
        NoneOfGroup(es[1..], g, j - 1);
      }
      assert LastTask(es, g, 0);
    }
  }

  /** Dropping a group remembers its last task in flight, whose data the cancellations of its unscheduled rollouts
      carry. */
  lemma DropRemembersLast(c: Config, version: int, states: seq<State>, actions: seq<Action>, n: nat, g: GroupId)
    requires ValidConfig(c) && Run(c, version, states, actions) && n < |actions| && actions[n] == Claim(g)
    ensures states[n + 1].watcher.Flushing?
    ensures match states[n + 1].watcher.last
      case None => forall i :: 0 <= i < |states[n].inflight| ==> states[n].inflight[i].gid != g
      case Some(e) => IsLastTask(states[n].inflight, g, e)
  {
    RunKeepsInv(c, version, states, actions, n);
    assert states[n + 1] == Apply(c, states[n], Claim(g));
    if OfGroup(states[n].inflight, g) == [] {
      forall i: nat | i < |states[n].inflight| ensures states[n].inflight[i].gid != g {
        NoneOfGroup(states[n].inflight, g, i);
      }
    } else {
      LastOfGroup(states[n].inflight, g);
    }
  }
}

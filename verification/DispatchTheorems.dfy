/** The dispatcher's guarantees over all runs: every interleaving, of any length. */
module DispatchTheorems {
  import opened Sequences
  import opened Wrappers
  import opened DispatchProtocol
  import opened DispatchInvariant
  import opened DispatchSteps

  // ---- One step ----

  /** Steps that touch neither groups, tasks nor permits. */
  predicate Quiet(a: Action) {
    a.FlipToTrain? || a.LoopDone? || a.FlushDone? || a.AgeDone? || a.NewVersion? || a.Take? || a.SetGate? || a.Trigger?
  }

  /** What a quiet step leaves alone. */
  ghost predicate QuietFrame(s: State, t: State) {
    && t.store == s.store && t.live == s.live && t.inflight == s.inflight && t.permits == s.permits
    && t.log == s.log && t.lost == s.lost && t.nextGroup == s.nextGroup
    && (t.scheduler == s.scheduler || (t.scheduler.Idle? && s.scheduler.Emitting? && Emitted(s.scheduler.e)))
    && (t.watcher == s.watcher
        || (!t.watcher.Flushing? && StaleIds(t.watcher) == StaleIds(s.watcher)
            && (s.watcher.Flushing? ==> s.watcher.swept && Emitted(s.watcher.e))))
  }

  lemma QuietIsFrame(c: Config, s: State, a: Action)
    requires Quiet(a) && WellFormed(s) && Enabled(c, s, a)
    ensures QuietFrame(s, Apply(c, s, a))
  {
  }

  lemma FrameKeepsStructure(s: State, t: State)
    requires Structure(s) && QuietFrame(s, t)
    ensures Structure(t)
  {
    SameGroupsKeep(s, t);
  }

  lemma FrameKeepsLimits(c: Config, s: State, t: State)
    requires WellFormed(s) && Permits(c, s) && Staleness(c, s) && QuietFrame(s, t)
    ensures Permits(c, t) && Staleness(c, t)
  {
  }

  lemma FrameKeepsLedger(s: State, t: State, g: GroupId)
    requires WellFormed(s) && Balanced(s, g) && Counted(s, g) && QuietFrame(s, t)
    ensures Balanced(t, g) && Counted(t, g)
  {
  }

  lemma QuietKeepsStructure(c: Config, s: State, a: Action)
    requires Quiet(a) && Structure(s) && Enabled(c, s, a)
    ensures Structure(Apply(c, s, a))
  {
    QuietIsFrame(c, s, a);
    FrameKeepsStructure(s, Apply(c, s, a));
  }

  lemma QuietKeepsLimits(c: Config, s: State, a: Action)
    requires Quiet(a) && WellFormed(s) && Permits(c, s) && Staleness(c, s) && Enabled(c, s, a)
    ensures Permits(c, Apply(c, s, a)) && Staleness(c, Apply(c, s, a))
  {
    QuietIsFrame(c, s, a);
    FrameKeepsLimits(c, s, Apply(c, s, a));
  }

  lemma QuietKeepsRows(c: Config, s: State, a: Action)
    requires Quiet(a) && WellFormed(s) && EvalRows(c, s) && Enabled(c, s, a)
    ensures EvalRows(c, Apply(c, s, a))
  {
    var t := Apply(c, s, a);
    forall i | 0 <= i < |s.evalGroups|
      ensures EvalGroupOk(c, t, s.evalGroups[i], t.triggered[i])
    {
      assert EvalGroupOk(c, s, s.evalGroups[i], s.triggered[i]);
    }
  }

  lemma QuietKeepsLedger(c: Config, s: State, a: Action, g: GroupId)
    requires Quiet(a) && Structure(s) && Balanced(s, g) && Counted(s, g) && g in s.store && Enabled(c, s, a)
    ensures Balanced(Apply(c, s, a), g) && Counted(Apply(c, s, a), g)
  {
    QuietIsFrame(c, s, a);
    FrameKeepsLedger(s, Apply(c, s, a), g);
  }

  lemma ContinueKeepsStructure(c: Config, s: State, gid: GroupId)
    requires Structure(s) && CanContinue(c, s, gid)
    ensures Structure(ContinueGroup(s, gid))
  {
    if s.store[gid].pinned { ReserveKeepsStructure(c, s, gid); } else { SameGroupsKeep(s, ContinueGroup(s, gid)); }
  }

  lemma AcquireKeepsStructure(s: State)
    requires Structure(s) && s.scheduler.Acquiring?
    ensures Structure(TakePermit(s))
  {
    SameGroupsKeep(s, TakePermit(s));
  }

  lemma StructureKept(c: Config, s: State, a: Action)
    requires ValidConfig(c) && Structure(s) && Enabled(c, s, a)
    ensures Structure(Apply(c, s, a))
  {
    match a
    case Continue(gid) => ContinueKeepsStructure(c, s, gid);
    case OpenTrain(env, i) => OpenKeepsStructure(c, s, Train, Example(env, i, None), c.trainEnvs[env]);
    case OpenEval => OpenEvalKeepsStructure(c, s);
    case ClientReady => UseClientKeepsStructure(s);
    case AcquireOne => AcquireKeepsStructure(s);
    case Launch => LaunchKeepsStructure(s);
    case Complete(i, os) => CompleteKeepsStructure(s, i, os);
    case _ => OthersKeepStructure(c, s, a);
  }

  /** Steps of the dispatcher's own loop. */
  predicate OfLoop(a: Action) {
    a.Continue? || a.OpenTrain? || a.OpenEval? || a.ClientReady? || a.AcquireOne? || a.Launch? || a.Complete?
  }

  lemma OthersKeepStructure(c: Config, s: State, a: Action)
    requires !OfLoop(a) && Structure(s) && Enabled(c, s, a)
    ensures Structure(Apply(c, s, a))
  {
    match a
    case Stage(who) => StageKeepsStructure(s, who);
    case Put(who) => PutKeepsStructure(s, who);
    case Age => AgeKeepsStructure(c, s);
    case Claim(gid) => ClaimKeepsStructure(s, gid);
    case Sweep => SweepKeepsStructure(s);
    case BeginDraining => DrainKeepsStructure(s);
    case _ => QuietKeepsStructure(c, s, a);
  }

  lemma OpenEvalKeepsStructure(c: Config, s: State)
    requires ValidConfig(c) && Structure(s) && CanOpenEval(c, s)
    ensures Structure(OpenEvalGroup(c, s))
  {
    var row := s.evalQueue[0];
    OpenKeepsStructure(c, s, Eval, row, c.evalEnvs[row.env]);
    SameGroupsKeep(Open(s, Eval, row, c.evalEnvs[row.env]), OpenEvalGroup(c, s));
  }

  lemma UseClientKeepsStructure(s: State)
    requires Structure(s) && s.scheduler.AwaitClient?
    ensures Structure(UseClient(s))
  {
    if s.scheduler.gid in s.live {
      ReserveKeepsGroups(s, s.scheduler.gid);
    }
    SameGroupsKeep(s, UseClient(s));
  }

  lemma ContinueKeepsLimits(c: Config, s: State, gid: GroupId)
    requires WellFormed(s) && Permits(c, s) && Staleness(c, s) && EvalRows(c, s) && CanContinue(c, s, gid)
    ensures Permits(c, ContinueGroup(s, gid)) && Staleness(c, ContinueGroup(s, gid))
  {
    if s.store[gid].pinned { ReserveKeepsLimits(c, s, gid); }
  }

  lemma UseClientKeepsLimits(c: Config, s: State)
    requires WellFormed(s) && Permits(c, s) && Staleness(c, s) && EvalRows(c, s) && s.scheduler.AwaitClient?
    ensures Permits(c, UseClient(s)) && Staleness(c, UseClient(s))
  {
    if s.scheduler.gid in s.live { ReserveKeepsLimits(c, s, s.scheduler.gid); }
  }

  lemma AcquireKeepsLimits(c: Config, s: State)
    requires Permits(c, s) && Staleness(c, s) && s.scheduler.Acquiring? && s.scheduler.got < s.scheduler.wanted
    ensures Permits(c, TakePermit(s)) && Staleness(c, TakePermit(s))
  {
  }

  lemma ContinueKeepsLedger(c: Config, s: State, gid: GroupId, g: GroupId)
    requires WellFormed(s) && Balanced(s, g) && Counted(s, g) && g in s.store && CanContinue(c, s, gid)
    ensures Balanced(ContinueGroup(s, gid), g) && Counted(ContinueGroup(s, gid), g)
  {
    if s.store[gid].pinned { ReserveKeepsLedger(c, s, gid, g); }
  }

  lemma UseClientKeepsLedger(c: Config, s: State, g: GroupId)
    requires WellFormed(s) && Permits(c, s) && Balanced(s, g) && Counted(s, g) && g in s.store && s.scheduler.AwaitClient?
    ensures Balanced(UseClient(s), g) && Counted(UseClient(s), g)
  {
    if s.scheduler.gid in s.live { ReserveKeepsLedger(c, s, s.scheduler.gid, g); }
  }

  lemma AcquireKeepsLedger(s: State, g: GroupId)
    requires WellFormed(s) && Balanced(s, g) && Counted(s, g) && g in s.store && s.scheduler.Acquiring?
    ensures Balanced(TakePermit(s), g) && Counted(TakePermit(s), g)
  {
  }

  lemma LimitsKept(c: Config, s: State, a: Action)
    requires ValidConfig(c) && Structure(s) && Enabled(c, s, a)
    requires Permits(c, s) && Staleness(c, s) && EvalRows(c, s)
    ensures Permits(c, Apply(c, s, a)) && Staleness(c, Apply(c, s, a))
  {
    if a.Continue? || a.OpenTrain? || a.OpenEval? {
      SchedulingKeepsLimits(c, s, a);
    } else if OfLoop(a) {
      RunningKeepsLimits(c, s, a);
    } else {
      OthersKeepLimits(c, s, a);
    }
  }

  lemma SchedulingKeepsLimits(c: Config, s: State, a: Action)
    requires (a.Continue? || a.OpenTrain? || a.OpenEval?) && ValidConfig(c) && Structure(s) && Enabled(c, s, a)
    requires Permits(c, s) && Staleness(c, s) && EvalRows(c, s)
    ensures Permits(c, Apply(c, s, a)) && Staleness(c, Apply(c, s, a))
  {
    match a
    case Continue(gid) => ContinueKeepsLimits(c, s, gid);
    case OpenTrain(env, i) => OpenKeepsLimits(c, s, Train, Example(env, i, None), c.trainEnvs[env]);
    case OpenEval => OpenKeepsLimits(c, s, Eval, s.evalQueue[0], c.evalEnvs[s.evalQueue[0].env]);
  }

  lemma RunningKeepsLimits(c: Config, s: State, a: Action)
    requires (a.ClientReady? || a.AcquireOne? || a.Launch? || a.Complete?) && Structure(s) && Enabled(c, s, a)
    requires Permits(c, s) && Staleness(c, s) && EvalRows(c, s)
    ensures Permits(c, Apply(c, s, a)) && Staleness(c, Apply(c, s, a))
  {
    match a
    case ClientReady => UseClientKeepsLimits(c, s);
    case AcquireOne => AcquireKeepsLimits(c, s);
    case Launch => LaunchKeepsLimits(c, s);
    case Complete(i, os) => CompleteKeepsLimits(c, s, i, os);
  }

  lemma OthersKeepLimits(c: Config, s: State, a: Action)
    requires !OfLoop(a) && Structure(s) && Enabled(c, s, a)
    requires Permits(c, s) && Staleness(c, s) && EvalRows(c, s)
    ensures Permits(c, Apply(c, s, a)) && Staleness(c, Apply(c, s, a))
  {
    match a
    case Stage(who) => StageKeepsLimits(c, s, who);
    case Put(who) => PutKeepsLimits(c, s, who);
    case Age => AgeKeepsLimits(c, s);
    case Claim(gid) =>
      ClaimKeepsPermits(c, s, gid);
      ClaimKeepsStaleness(c, s, gid);
    case Sweep => SweepKeepsLimits(c, s);
    case BeginDraining =>
      DrainKeepsPermits(c, s);
      DrainKeepsStaleness(c, s);
    case _ => QuietKeepsLimits(c, s, a);
  }

  lemma ReserveKeepsRows(c: Config, s: State, gid: GroupId)
    requires WellFormed(s) && EvalRows(c, s) && gid in s.store && Cost(s.store[gid]) <= s.store[gid].toSchedule
    ensures EvalRows(c, Reserve(s, gid))
  {
    ReserveKeepsGroups(s, gid);
    SameGroupsKeepRows(c, s, Reserve(s, gid));
  }

  lemma ContinueKeepsRows(c: Config, s: State, gid: GroupId)
    requires WellFormed(s) && CanContinue(c, s, gid) && EvalRows(c, s)
    ensures EvalRows(c, ContinueGroup(s, gid))
  {
    if s.store[gid].pinned {
      ReserveKeepsRows(c, s, gid);
    } else {
      SameGroupsKeepRows(c, s, ContinueGroup(s, gid));
    }
  }

  lemma UseClientKeepsRows(c: Config, s: State)
    requires WellFormed(s) && s.scheduler.AwaitClient? && EvalRows(c, s)
    ensures EvalRows(c, UseClient(s))
  {
    if s.scheduler.gid in s.live {
      ReserveKeepsRows(c, s, s.scheduler.gid);
    } else {
      SameGroupsKeepRows(c, s, UseClient(s));
    }
  }

  lemma RunningKeepsRows(c: Config, s: State, a: Action)
    requires (a.AcquireOne? || a.Launch? || a.Complete?) && WellFormed(s) && Enabled(c, s, a) && EvalRows(c, s)
    ensures EvalRows(c, Apply(c, s, a))
  {
    SameGroupsKeepRows(c, s, Apply(c, s, a));
  }

  lemma DroppingKeepsRows(c: Config, s: State, a: Action)
    requires (a.Age? || a.Claim? || a.Sweep?) && WellFormed(s) && Enabled(c, s, a) && EvalRows(c, s)
    ensures EvalRows(c, Apply(c, s, a))
  {
    SameGroupsKeepRows(c, s, Apply(c, s, a));
  }

  lemma RowsKept(c: Config, s: State, a: Action)
    requires Structure(s) && Enabled(c, s, a)
    requires Permits(c, s) && Staleness(c, s) && EvalRows(c, s)
    ensures EvalRows(c, Apply(c, s, a))
  {
    if a.Continue? { ContinueKeepsRows(c, s, a.gid); }
    else if a.ClientReady? { UseClientKeepsRows(c, s); }
    else if a.OpenTrain? { OpenTrainKeepsRows(c, s, Example(a.env, a.taskIdx, None), c.trainEnvs[a.env]); }
    else if a.OpenEval? { OpenEvalKeepsRows(c, s); }
    else if a.AcquireOne? || a.Launch? || a.Complete? { RunningKeepsRows(c, s, a); }
    else if a.Stage? { StageKeepsLimits(c, s, a.who); }
    else if a.Put? { PutKeepsLimits(c, s, a.who); }
    else if a.Age? || a.Claim? || a.Sweep? { DroppingKeepsRows(c, s, a); }
    else if a.BeginDraining? { DrainKeepsRows(c, s); }
    else { QuietKeepsRows(c, s, a); }
  }

  lemma LedgerKept(c: Config, s: State, a: Action, g: GroupId)
    requires Structure(s) && Enabled(c, s, a)
    requires Permits(c, s) && Balanced(s, g) && Counted(s, g) && g in s.store
    ensures Balanced(Apply(c, s, a), g) && Counted(Apply(c, s, a), g)
  {
    if a.OpenTrain? || a.OpenEval? {
      OpeningKeepsLedger(c, s, a, g);
    } else if OfLoop(a) {
      RunningKeepsLedger(c, s, a, g);
    } else {
      OthersKeepLedger(c, s, a, g);
    }
  }

  lemma OpeningKeepsLedger(c: Config, s: State, a: Action, g: GroupId)
    requires (a.OpenTrain? || a.OpenEval?) && Structure(s) && Enabled(c, s, a)
    requires Balanced(s, g) && Counted(s, g) && g in s.store
    ensures Balanced(Apply(c, s, a), g) && Counted(Apply(c, s, a), g)
  {
    if a.OpenTrain? {
      OpenKeepsLedger(s, Train, Example(a.env, a.taskIdx, None), c.trainEnvs[a.env], g);
    } else {
      OpenKeepsLedger(s, Eval, s.evalQueue[0], c.evalEnvs[s.evalQueue[0].env], g);
    }
  }

  lemma RunningKeepsLedger(c: Config, s: State, a: Action, g: GroupId)
    requires OfLoop(a) && !a.OpenTrain? && !a.OpenEval? && Structure(s) && Enabled(c, s, a)
    requires Permits(c, s) && Balanced(s, g) && Counted(s, g) && g in s.store
    ensures Balanced(Apply(c, s, a), g) && Counted(Apply(c, s, a), g)
  {
    match a
    case Continue(gid) => ContinueKeepsLedger(c, s, gid, g);
    case ClientReady => UseClientKeepsLedger(c, s, g);
    case AcquireOne => AcquireKeepsLedger(s, g);
    case Launch => LaunchKeepsLedger(s, g);
    case Complete(i, os) => CompleteKeepsLedger(s, i, os, g);
  }

  lemma OthersKeepLedger(c: Config, s: State, a: Action, g: GroupId)
    requires !OfLoop(a) && Structure(s) && Enabled(c, s, a)
    requires Permits(c, s) && Balanced(s, g) && Counted(s, g) && g in s.store
    ensures Balanced(Apply(c, s, a), g) && Counted(Apply(c, s, a), g)
  {
    match a
    case Stage(who) => StageKeepsLedger(s, who, g);
    case Put(who) => PutKeepsLedger(s, who, g);
    case Age => AgeKeepsLedger(c, s, g);
    case Claim(gid) => ClaimKeepsLedger(s, gid, g);
    case Sweep => SweepKeepsLedger(s, g);
    case BeginDraining => DrainKeepsLedger(s, g);
    case _ => QuietKeepsLedger(c, s, a, g);
  }

  lemma OnlyOpeningAdds(c: Config, s: State, a: Action, g: GroupId)
    requires Structure(s) && Enabled(c, s, a) && !a.OpenTrain? && !a.OpenEval?
    ensures g in Apply(c, s, a).store <==> g in s.store
  {
    if a.Stage? { CountEmissionFrame(s, EmissionOf(s, a.who).value); }
  }

  lemma NewGroupLedger(c: Config, s: State, a: Action, g: GroupId)
    requires Structure(s) && Enabled(c, s, a) && Structure(Apply(c, s, a)) && g !in s.store
    ensures Balanced(Apply(c, s, a), g) && Counted(Apply(c, s, a), g)
  {
    if a.OpenTrain? {
      OpenedLedger(s, Train, Example(a.env, a.taskIdx, None), c.trainEnvs[a.env]);
    } else if a.OpenEval? {
      OpenedLedger(s, Eval, s.evalQueue[0], c.evalEnvs[s.evalQueue[0].env]);
    } else {
      OnlyOpeningAdds(c, s, a, g);
    }
  }

  lemma QueueKept(c: Config, s: State, a: Action)
    requires Structure(s) && Enabled(c, s, a) && s.taken <= |s.log| <= s.taken + c.queueSize
    ensures Apply(c, s, a).taken <= |Apply(c, s, a).log| <= Apply(c, s, a).taken + c.queueSize
  {
    if a.Stage? {
      CountEmissionFrame(s, EmissionOf(s, a.who).value);
    } else if !a.Put? && !a.Take? {
      assert Apply(c, s, a).log == s.log && Apply(c, s, a).taken == s.taken;
    }
  }

  /** Every step of every coroutine keeps the whole invariant. */
  lemma StepKeepsInv(c: Config, s: State, a: Action)
    requires ValidConfig(c) && Inv(c, s) && Enabled(c, s, a)
    ensures Inv(c, Apply(c, s, a))
  {
    StructureKept(c, s, a);
    LimitsKept(c, s, a);
    RowsKept(c, s, a);
    QueueKept(c, s, a);
    forall g
      ensures Balanced(Apply(c, s, a), g) && Counted(Apply(c, s, a), g)
    {
      assert Balanced(s, g) && Counted(s, g);
      if g in s.store { LedgerKept(c, s, a, g); } else { NewGroupLedger(c, s, a, g); }
    }
  }

  // ---- Runs ----

  ghost predicate Run(c: Config, version: int, states: seq<State>, actions: seq<Action>) {
    && |states| == |actions| + 1 && states[0] == Init(c, version)
    && forall i :: 0 <= i < |actions| ==>
      Enabled(c, states[i], actions[i]) && (WellFormed(states[i]) ==> states[i + 1] == Apply(c, states[i], actions[i]))
  }

  lemma {:induction false} RunKeepsInv(c: Config, version: int, states: seq<State>, actions: seq<Action>, n: nat)
    requires ValidConfig(c) && Run(c, version, states, actions) && n < |states|
    ensures Inv(c, states[n])
  {
    if n > 0 {
      RunKeepsInv(c, version, states, actions, n - 1);
      StepKeepsInv(c, states[n - 1], actions[n - 1]);
      assert states[n] == Apply(c, states[n - 1], actions[n - 1]);
    }
  }

  /** Nothing is dropped without a marker until draining begins. */
  lemma {:induction false} NothingLost(c: Config, version: int, states: seq<State>, actions: seq<Action>, n: nat, g: GroupId)
    requires ValidConfig(c) && Run(c, version, states, actions) && n < |states|
    requires g in states[n].lost
    requires forall i :: 0 <= i < n ==> !actions[i].BeginDraining?
    ensures states[n].lost[g] == 0
    decreases n
  {
    if n > 0 {
      RunKeepsInv(c, version, states, actions, n - 1);
      var s, a := states[n - 1], actions[n - 1];
      assert !a.BeginDraining? && states[n] == Apply(c, s, a);
      LossKept(c, s, a, g);
      if g in s.lost { NothingLost(c, version, states, actions, n - 1, g); }
    }
  }

  lemma LossKept(c: Config, s: State, a: Action, g: GroupId)
    requires Structure(s) && Enabled(c, s, a) && !a.BeginDraining?
    requires g in Apply(c, s, a).lost
    ensures Apply(c, s, a).lost[g] == if g in s.lost then s.lost[g] else 0
  {
    if a.Stage? {
      CountEmissionFrame(s, EmissionOf(s, a.who).value);
    } else if OfLoop(a) {
      LossKeptByLoop(c, s, a, g);
    } else {
      LossKeptByOthers(c, s, a, g);
    }
  }

  lemma LossKeptByLoop(c: Config, s: State, a: Action, g: GroupId)
    requires OfLoop(a) && Structure(s) && Enabled(c, s, a) && g in Apply(c, s, a).lost
    ensures Apply(c, s, a).lost[g] == if g in s.lost then s.lost[g] else 0
  {
  }

  lemma LossKeptByOthers(c: Config, s: State, a: Action, g: GroupId)
    requires !OfLoop(a) && !a.Stage? && !a.BeginDraining? && WellFormed(s) && Enabled(c, s, a) && g in Apply(c, s, a).lost
    ensures g in s.lost && Apply(c, s, a).lost[g] == s.lost[g]
  {
  }

  /** In every reachable state, before draining, a group's rollouts are each in exactly one place:
      on the queue, claimed, in flight, reserved, or unscheduled. In particular no more than the
      target is ever put on the queue. */
  lemma EveryRolloutAccounted(c: Config, version: int, states: seq<State>, actions: seq<Action>, n: nat, g: GroupId)
    requires ValidConfig(c) && Run(c, version, states, actions) && n < |states|
    requires g in states[n].store
    requires forall i :: 0 <= i < n ==> !actions[i].BeginDraining?
    ensures var s := states[n];
      PutOf(s.log, g) + Owed(s, g) + CountFor(s.inflight, g) + Reserved(s, g) + Unscheduled(s, g) == s.store[g].target
  {
    RunKeepsInv(c, version, states, actions, n);
    assert Balanced(states[n], g);
    NothingLost(c, version, states, actions, n, g);
  }

  /** A group is settled once it is closed and no coroutine holds any of its rollouts. */
  predicate Settled(s: State, g: GroupId) {
    g !in s.live && Owed(s, g) == 0 && CountFor(s.inflight, g) == 0 && Reserved(s, g) == 0 && !BeingDropped(s, g)
  }

  /** A settled group, finished or dropped, has put exactly its target on the queue, every rollout
      stamped with the group's own kind, environment, eval step and start version; with draining, it
      has put exactly what draining did not cancel. */
  lemma SettledGroupComplete(c: Config, version: int, states: seq<State>, actions: seq<Action>, n: nat, g: GroupId)
    requires ValidConfig(c) && Run(c, version, states, actions) && n < |states|
    requires g in states[n].store && Settled(states[n], g)
    ensures g in states[n].lost && PutOf(states[n].log, g) + states[n].lost[g] == states[n].store[g].target
    ensures (forall i :: 0 <= i < n ==> !actions[i].BeginDraining?) ==> PutOf(states[n].log, g) == states[n].store[g].target
    ensures forall i :: 0 <= i < |states[n].log| ==> RolloutOk(states[n], states[n].log[i])
  {
    RunKeepsInv(c, version, states, actions, n);
    assert Balanced(states[n], g);
    if forall i :: 0 <= i < n ==> !actions[i].BeginDraining? {
      NothingLost(c, version, states, actions, n, g);
    }
  }

  /** Permits in use stay within 0 and the cap, and are exactly the rollouts in flight plus what the
      one pending acquire has taken. */
  lemma PermitsExact(c: Config, version: int, states: seq<State>, actions: seq<Action>, n: nat)
    requires ValidConfig(c) && Run(c, version, states, actions) && n < |states|
    ensures var s := states[n];
      && 0 <= s.permits <= c.maxInflight
      && s.permits == Total(s.inflight) + (if s.scheduler.Acquiring? then s.scheduler.got else 0)
      && (s.scheduler.Acquiring? ==> s.permits - s.scheduler.got + s.scheduler.wanted <= c.maxInflight)
  {
    RunKeepsInv(c, version, states, actions, n);
  }

  /** Between two runs of `on_version_pending` no train task is past the limit; eval tasks are never
      aged at all, and the groups being dropped are train groups. */
  lemma StalenessBounded(c: Config, version: int, states: seq<State>, actions: seq<Action>, n: nat, i: nat)
    requires ValidConfig(c) && Run(c, version, states, actions) && n < |states|
    requires i < |states[n].inflight|
    ensures states[n].watcher == Resting ==> states[n].inflight[i].offPolicy <= c.maxOffPolicy
    ensures states[n].inflight[i].kind == Eval ==> states[n].inflight[i].offPolicy == 0
    ensures states[n].inflight[i].kind == Eval ==> states[n].inflight[i].gid !in StaleIds(states[n].watcher)
  {
    RunKeepsInv(c, version, states, actions, n);
    var s := states[n];
    assert EntryOk(s, s.inflight[i]);
  }

  /** The rollout comes from the group of the `i`-th triggered row and carries its metadata. */
  predicate BelongsTo(s: State, r: Rollout, i: nat) {
    && i < |s.evalGroups| && i < |s.triggered|
    && r.gid == s.evalGroups[i] && r.env == s.triggered[i].env && r.evalStep == s.triggered[i].evalStep
  }

  ghost predicate EvalDone(s: State) {
    s.evalQueue == [] && forall g :: g in s.evalGroups ==> Settled(s, g)
  }

  /** Once the eval queue is empty and the eval groups have settled, every row ever triggered has a
      group of its own which has put exactly `group_size` rollouts on the queue, draining or not,
      all stamped with the row's environment and step. */
  lemma EvalRowsDelivered(c: Config, version: int, states: seq<State>, actions: seq<Action>, n: nat)
    requires ValidConfig(c) && Run(c, version, states, actions) && n < |states| && EvalDone(states[n])
    ensures var s := states[n];
      && |s.evalGroups| == |s.triggered|
      && (forall i, j :: 0 <= i < j < |s.evalGroups| ==> s.evalGroups[i] != s.evalGroups[j])
      && (forall i :: 0 <= i < |s.triggered| ==>
        && s.triggered[i].env in c.evalEnvs
        && PutOf(s.log, s.evalGroups[i]) == c.evalEnvs[s.triggered[i].env].groupSize)
    ensures var s := states[n];
      forall k :: 0 <= k < |s.log| && s.log[k].kind == Eval ==>
        exists i :: 0 <= i < |s.triggered| && BelongsTo(s, s.log[k], i)
  {
    RunKeepsInv(c, version, states, actions, n);
    var s := states[n];
    assert s.triggered[|s.evalGroups|..] == [];
    forall i | 0 <= i < |s.triggered|
      ensures s.triggered[i].env in c.evalEnvs
      ensures PutOf(s.log, s.evalGroups[i]) == c.evalEnvs[s.triggered[i].env].groupSize
    {
      assert EvalGroupOk(c, s, s.evalGroups[i], s.triggered[i]) && Settled(s, s.evalGroups[i]);
      assert Balanced(s, s.evalGroups[i]);
    }
    forall k | 0 <= k < |s.log| && s.log[k].kind == Eval
      ensures exists i :: 0 <= i < |s.triggered| && BelongsTo(s, s.log[k], i)
    {
      assert RolloutOk(s, s.log[k]);
      assert s.log[k].gid in s.evalGroups;
      var i :| 0 <= i < |s.evalGroups| && s.evalGroups[i] == s.log[k].gid;
      assert EvalGroupOk(c, s, s.evalGroups[i], s.triggered[i]);
      assert BelongsTo(s, s.log[k], i);
    }
  }
}

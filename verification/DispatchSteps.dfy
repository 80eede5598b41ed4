/** Every atomic step keeps the dispatcher's invariant. */
module DispatchSteps {
  import opened Sequences
  import opened Wrappers
  import opened DispatchProtocol
  import opened DispatchInvariant

  // ---- Facts that only depend on what a group is, not on its counters ----

  function Identity(g: Group): Group {
    g.(toSchedule := 0, emitted := 0, pinned := false)
  }

  ghost predicate SameGroups(s: State, t: State) {
    t.store.Keys == s.store.Keys && forall g :: g in s.store ==> Identity(t.store[g]) == Identity(s.store[g])
  }

  lemma SameGroupsKeep(s: State, t: State)
    requires SameGroups(s, t)
    ensures forall e :: EntryOk(s, e) ==> EntryOk(t, e)
    ensures forall r :: RolloutOk(s, r) ==> RolloutOk(t, r)
  {
    forall e | EntryOk(s, e) ensures EntryOk(t, e) { assert Identity(t.store[e.gid]) == Identity(s.store[e.gid]); }
    forall r | RolloutOk(s, r) ensures RolloutOk(t, r) { assert Identity(t.store[r.gid]) == Identity(s.store[r.gid]); }
  }

  lemma SameGroupsKeepRows(c: Config, s: State, t: State)
    requires SameGroups(s, t) && EvalRows(c, s)
    requires t.evalQueue == s.evalQueue && t.triggered == s.triggered && t.evalGroups == s.evalGroups && t.lost == s.lost
    ensures EvalRows(c, t)
  {
    forall i | 0 <= i < |s.evalGroups|
      ensures EvalGroupOk(c, t, s.evalGroups[i], s.triggered[i])
    {
      assert EvalGroupOk(c, s, s.evalGroups[i], s.triggered[i]);
      assert Identity(t.store[s.evalGroups[i]]) == Identity(s.store[s.evalGroups[i]]);
    }
    forall g | g in t.store && t.store[g].kind == Eval
      ensures g in t.evalGroups
    {
      assert Identity(t.store[g]) == Identity(s.store[g]);
    }
  }

  lemma SameGroupsKeepStaleness(c: Config, s: State, t: State)
    requires SameGroups(s, t) && Staleness(c, s) && WellFormed(s)
    requires t.inflight == s.inflight && StaleIds(t.watcher) == StaleIds(s.watcher)
    requires t.watcher.Flushing? ==> s.watcher.Flushing? && t.watcher.e.gid == s.watcher.e.gid
    ensures Staleness(c, t)
  {
    forall g | g in StaleIds(t.watcher)
      ensures t.store[g].kind == Train
    {
      assert Identity(t.store[g]) == Identity(s.store[g]);
    }
    if t.watcher.Flushing? {
      assert Identity(t.store[s.watcher.e.gid]) == Identity(s.store[s.watcher.e.gid]);
    }
  }

  // ---- Charging a group ----

  lemma ReserveKeepsGroups(s: State, gid: GroupId)
    requires gid in s.store && Cost(s.store[gid]) <= s.store[gid].toSchedule
    ensures SameGroups(s, Reserve(s, gid))
  {
  }

  predicate CanReserve(c: Config, s: State, gid: GroupId) {
    && gid in s.live && gid in s.store && s.store[gid].toSchedule > 0 && Cost(s.store[gid]) <= Available(c, s)
    && (s.scheduler.Idle? || s.scheduler.AwaitClient?)
  }

  lemma ReserveKeepsStructure(c: Config, s: State, gid: GroupId)
    requires Structure(s) && CanReserve(c, s, gid)
    ensures Structure(Reserve(s, gid))
  {
    ReserveKeepsGroups(s, gid);
    SameGroupsKeep(s, Reserve(s, gid));
  }

  lemma ReserveKeepsLimits(c: Config, s: State, gid: GroupId)
    requires WellFormed(s) && Permits(c, s) && Staleness(c, s) && EvalRows(c, s) && CanReserve(c, s, gid)
    ensures Permits(c, Reserve(s, gid)) && Staleness(c, Reserve(s, gid)) && EvalRows(c, Reserve(s, gid))
  {
    ReserveKeepsGroups(s, gid);
    SameGroupsKeepStaleness(c, s, Reserve(s, gid));
    SameGroupsKeepRows(c, s, Reserve(s, gid));
  }

  /** What leaves the group's `rollouts_to_schedule` is what the acquire reserves. */
  lemma ReserveKeepsLedger(c: Config, s: State, gid: GroupId, g: GroupId)
    requires WellFormed(s) && CanReserve(c, s, gid) && Balanced(s, g) && Counted(s, g) && g in s.store
    ensures Balanced(Reserve(s, gid), g) && Counted(Reserve(s, gid), g)
  {
  }

  // ---- Opening a group ----

  lemma OpenKeepsStructure(c: Config, s: State, kind: Kind, example: Example, spec: EnvSpec)
    requires Structure(s) && s.scheduler.Idle? && spec.groupSize >= 1
    ensures Structure(Open(s, kind, example, spec))
  {
    var t := Open(s, kind, example, spec);
    forall e | EntryOk(s, e) ensures EntryOk(t, e) { assert t.store[e.gid] == s.store[e.gid]; }
    forall r | RolloutOk(s, r) ensures RolloutOk(t, r) { assert t.store[r.gid] == s.store[r.gid]; }
  }

  lemma OpenKeepsLimits(c: Config, s: State, kind: Kind, example: Example, spec: EnvSpec)
    requires Structure(s) && Permits(c, s) && Staleness(c, s)
    requires s.scheduler.Idle? && FreshCost(spec) <= Available(c, s)
    ensures Permits(c, Open(s, kind, example, spec)) && Staleness(c, Open(s, kind, example, spec))
  {
  }

  lemma OpenKeepsLedger(s: State, kind: Kind, example: Example, spec: EnvSpec, g: GroupId)
    requires Structure(s) && s.scheduler.Idle? && Balanced(s, g) && Counted(s, g) && g in s.store
    ensures Balanced(Open(s, kind, example, spec), g) && Counted(Open(s, kind, example, spec), g)
  {
  }

  /** A freshly opened group owes everything and has emitted nothing. */
  lemma OpenedLedger(s: State, kind: Kind, example: Example, spec: EnvSpec)
    requires Structure(s) && s.scheduler.Idle?
    ensures var t := Open(s, kind, example, spec); Balanced(t, s.nextGroup) && Counted(t, s.nextGroup)
  {
    NoneInLog(s.log, s.nextGroup);
    NoneInFlight(s.inflight, s.nextGroup);
  }

  lemma {:induction false} NoneInLog(log: seq<Rollout>, g: GroupId)
    requires forall i :: 0 <= i < |log| ==> log[i].gid != g
    ensures PutOf(log, g) == 0
  {
    if log != [] { NoneInLog(log[..|log| - 1], g); }
  }

  lemma {:induction false} NoneInFlight(es: seq<Entry>, g: GroupId)
    requires forall i :: 0 <= i < |es| ==> es[i].gid != g
    ensures CountFor(es, g) == 0
  {
    if es != [] { NoneInFlight(es[1..], g); }
  }

  lemma OpenTrainKeepsRows(c: Config, s: State, example: Example, spec: EnvSpec)
    requires Structure(s) && EvalRows(c, s)
    ensures EvalRows(c, Open(s, Train, example, spec))
  {
    var t := Open(s, Train, example, spec);
    forall i | 0 <= i < |s.evalGroups|
      ensures EvalGroupOk(c, t, s.evalGroups[i], s.triggered[i])
    {
      assert EvalGroupOk(c, s, s.evalGroups[i], s.triggered[i]);
    }
  }

  lemma OpenEvalKeepsRows(c: Config, s: State)
    requires Structure(s) && EvalRows(c, s) && CanOpenEval(c, s)
    ensures EvalRows(c, OpenEvalGroup(c, s))
  {
    var t := OpenEvalGroup(c, s);
    forall i | 0 <= i < |t.evalGroups|
      ensures EvalGroupOk(c, t, t.evalGroups[i], s.triggered[i])
    {
      if i < |s.evalGroups| { assert EvalGroupOk(c, s, s.evalGroups[i], s.triggered[i]); }
    }
    forall g | g in t.store && t.store[g].kind == Eval
      ensures g in t.evalGroups
    {
      if g == s.nextGroup { assert t.evalGroups[|s.evalGroups|] == g; }
    }
  }

  // ---- Permits, launching, completing ----

  lemma LaunchKeepsStructure(s: State)
    requires Structure(s) && s.scheduler.Acquiring?
    ensures Structure(LaunchTask(s))
  {
    assert EntryOk(s, LaunchedEntry(s));
    SameGroupsKeep(s, LaunchTask(s));
  }

  lemma LaunchKeepsLimits(c: Config, s: State)
    requires WellFormed(s) && Permits(c, s) && Staleness(c, s) && s.scheduler.Acquiring? && s.scheduler.got == s.scheduler.wanted
    ensures Permits(c, LaunchTask(s)) && Staleness(c, LaunchTask(s))
  {
    CountConcat(s.inflight, [LaunchedEntry(s)], 0);
  }

  lemma LaunchKeepsLedger(s: State, g: GroupId)
    requires WellFormed(s) && s.scheduler.Acquiring? && Balanced(s, g) && Counted(s, g) && g in s.store
    ensures Balanced(LaunchTask(s), g) && Counted(LaunchTask(s), g)
  {
    CountConcat(s.inflight, [LaunchedEntry(s)], g);
  }

  predicate CanComplete(s: State, index: nat, outcomes: seq<Outcome>) {
    s.scheduler == Idle && index < |s.inflight| && |outcomes| == s.inflight[index].count
  }

  lemma CompleteKeepsStructure(s: State, index: nat, outcomes: seq<Outcome>)
    requires Structure(s) && CanComplete(s, index, outcomes)
    ensures Structure(CompleteTask(s, index, outcomes))
  {
    assert EntryOk(s, s.inflight[index]);
    SameGroupsKeep(s, CompleteTask(s, index, outcomes));
  }

  lemma CompleteKeepsLimits(c: Config, s: State, index: nat, outcomes: seq<Outcome>)
    requires WellFormed(s) && Permits(c, s) && Staleness(c, s) && CanComplete(s, index, outcomes)
    ensures Permits(c, CompleteTask(s, index, outcomes)) && Staleness(c, CompleteTask(s, index, outcomes))
  {
    CountWithout(s.inflight, index, 0);
  }

  lemma CompleteKeepsLedger(s: State, index: nat, outcomes: seq<Outcome>, g: GroupId)
    requires WellFormed(s) && CanComplete(s, index, outcomes) && Balanced(s, g) && Counted(s, g) && g in s.store
    ensures Balanced(CompleteTask(s, index, outcomes), g) && Counted(CompleteTask(s, index, outcomes), g)
  {
    CountWithout(s.inflight, index, g);
  }

  // ---- Emitting ----

  lemma GroupCounted(s: State, e: Emission, g: GroupId)
    requires g in s.store && e.gid in s.store
    ensures CountEmission(s, e).store.Keys == s.store.Keys
    ensures CountEmission(s, e).store[g] ==
      (if e.known && g == e.gid then s.store[g].(emitted := s.store[g].emitted + 1) else s.store[g])
    ensures g in CountEmission(s, e).live <==>
      g in s.live && !(e.known && g == e.gid && s.store[g].emitted + 1 >= s.store[g].target)
  {
  }

  /** Counting an emission changes the counters of one group and may close it; nothing else. */
  lemma CountEmissionFrame(s: State, e: Emission)
    requires e.gid in s.store
    ensures var t := CountEmission(s, e);
      && t == s.(store := t.store, live := t.live) && SameGroups(s, t)
      && (forall g :: g in t.live ==> g in s.live)
      && (forall g :: g in s.store ==> t.store[g].toSchedule == s.store[g].toSchedule && t.store[g].scored == s.store[g].scored)
  {
    var t := CountEmission(s, e);
    forall g | g in s.store
      ensures t.store[g].(emitted := s.store[g].emitted) == s.store[g]
    {
      GroupCounted(s, e, g);
    }
  }

  lemma StagedOk(s: State, who: Who)
    requires WellFormed(s) && EmissionOk(s, EmissionOf(s, who)) && CanStage(s, who)
    ensures var e := EmissionOf(s, who).value;
      var r := Stamped(s, e, e.owed[0]); r.gid == e.gid && RolloutOk(s, r)
  {
    assert EntryOk(s, EmissionOf(s, who).value.owed[0].entry);
  }

  /** Replacing one emission by another one of the same group. */
  lemma WithEmissionKeepsStructure(s: State, who: Who, e: Emission)
    requires Structure(s) && EmissionOf(s, who).Some? && e.gid == EmissionOf(s, who).value.gid
    requires EmissionOk(s, Some(e))
    ensures Structure(WithEmission(s, who, e))
  {
    SameGroupsKeep(s, WithEmission(s, who, e));
  }

  lemma CountEmissionKeepsStructure(s: State, who: Who)
    requires Structure(s) && EmissionOf(s, who).Some?
    ensures Structure(CountEmission(s, EmissionOf(s, who).value))
  {
    CountEmissionFrame(s, EmissionOf(s, who).value);
    SameGroupsKeep(s, CountEmission(s, EmissionOf(s, who).value));
  }

  lemma StageKeepsStructure(s: State, who: Who)
    requires Structure(s) && CanStage(s, who)
    ensures Structure(StageNext(s, who))
  {
    var e := EmissionOf(s, who).value;
    var u := CountEmission(s, e);
    StagedOk(s, who);
    CountEmissionFrame(s, e);
    SameGroupsKeep(s, u);
    CountEmissionKeepsStructure(s, who);
    WithEmissionKeepsStructure(u, who, e.(owed := e.owed[1..], staged := Some(Stamped(s, e, e.owed[0]))));
  }

  lemma CountEmissionKeepsLimits(c: Config, s: State, e: Emission)
    requires e.gid in s.store && WellFormed(s) && Permits(c, s) && Staleness(c, s) && EvalRows(c, s)
    ensures var t := CountEmission(s, e); Permits(c, t) && Staleness(c, t) && EvalRows(c, t)
  {
    CountEmissionFrame(s, e);
    SameGroupsKeepStaleness(c, s, CountEmission(s, e));
    SameGroupsKeepRows(c, s, CountEmission(s, e));
  }

  lemma WithEmissionKeepsLimits(c: Config, s: State, who: Who, e: Emission)
    requires EmissionOf(s, who).Some? && e.gid == EmissionOf(s, who).value.gid
    requires WellFormed(s) && Permits(c, s) && Staleness(c, s) && EvalRows(c, s)
    ensures var t := WithEmission(s, who, e); Permits(c, t) && Staleness(c, t) && EvalRows(c, t)
  {
    SameGroupsKeepStaleness(c, s, WithEmission(s, who, e));
    SameGroupsKeepRows(c, s, WithEmission(s, who, e));
  }

  lemma StageKeepsLimits(c: Config, s: State, who: Who)
    requires Structure(s) && CanStage(s, who) && Permits(c, s) && Staleness(c, s) && EvalRows(c, s)
    ensures var t := StageNext(s, who); Permits(c, t) && Staleness(c, t) && EvalRows(c, t)
  {
    var e := EmissionOf(s, who).value;
    CountEmissionFrame(s, e);
    CountEmissionKeepsStructure(s, who);
    CountEmissionKeepsLimits(c, s, e);
    WithEmissionKeepsLimits(c, CountEmission(s, e), who,
                            e.(owed := e.owed[1..], staged := Some(Stamped(s, e, e.owed[0]))));
  }

  lemma StageMovesOwed(s: State, who: Who, g: GroupId)
    requires WellFormed(s) && CanStage(s, who)
    ensures Owed(StageNext(s, who), g) == Owed(s, g)
    ensures StagedFor(StageNext(s, who), g) == StagedFor(s, g) + if EmissionOf(s, who).value.gid == g then 1 else 0
  {
  }

  lemma StageKeepsRest(s: State, who: Who, g: GroupId)
    requires WellFormed(s) && CanStage(s, who) && g in s.store
    ensures var t, u := StageNext(s, who), CountEmission(s, EmissionOf(s, who).value);
      && t.log == s.log && t.lost == s.lost && t.inflight == s.inflight && t.store == u.store && t.live == u.live
      && Reserved(t, g) == Reserved(s, g) && (BeingDropped(t, g) <==> BeingDropped(s, g))
      && t.scheduler.Emitting? == s.scheduler.Emitting?
      && (t.scheduler.Emitting? ==> t.scheduler.e.gid == s.scheduler.e.gid && t.scheduler.e.known == s.scheduler.e.known)
  {
  }

  /** The step that may close the group: it does so only when nothing else of it is outstanding. */
  lemma StageKeepsLedger(s: State, who: Who, g: GroupId)
    requires Structure(s) && Balanced(s, g) && Counted(s, g) && g in s.store && CanStage(s, who)
    ensures Balanced(StageNext(s, who), g) && Counted(StageNext(s, who), g)
  {
    StageMovesOwed(s, who, g);
    StageKeepsRest(s, who, g);
    GroupCounted(s, EmissionOf(s, who).value, g);
  }

  lemma PutKeepsStructure(s: State, who: Who)
    requires Structure(s) && EmissionOf(s, who).Some? && EmissionOf(s, who).value.staged.Some?
    ensures Structure(PutStaged(s, who))
  {
    var e := EmissionOf(s, who).value;
    var u := s.(log := s.log + [e.staged.value]);
    SameGroupsKeep(s, u);
    assert RolloutOk(s, e.staged.value);
    assert EmissionOf(u, who) == EmissionOf(s, who);
    WithEmissionKeepsStructure(u, who, e.(staged := None));
  }

  lemma PutKeepsLimits(c: Config, s: State, who: Who)
    requires Structure(s) && EmissionOf(s, who).Some? && EmissionOf(s, who).value.staged.Some?
    requires Permits(c, s) && Staleness(c, s) && EvalRows(c, s)
    ensures var t := PutStaged(s, who); Permits(c, t) && Staleness(c, t) && EvalRows(c, t)
  {
    var e := EmissionOf(s, who).value;
    var u := s.(log := s.log + [e.staged.value]);
    assert EmissionOf(u, who) == EmissionOf(s, who);
    SameGroupsKeepRows(c, s, u);
    WithEmissionKeepsLimits(c, u, who, e.(staged := None));
  }

  lemma PutMovesOwed(s: State, who: Who, g: GroupId)
    requires EmissionOf(s, who).Some? && EmissionOf(s, who).value.staged.Some?
    ensures Owed(PutStaged(s, who), g) == Owed(s, g) - if EmissionOf(s, who).value.gid == g then 1 else 0
    ensures StagedFor(PutStaged(s, who), g) == StagedFor(s, g) - if EmissionOf(s, who).value.gid == g then 1 else 0
  {
  }

  lemma PutGrowsLog(s: State, who: Who, g: GroupId)
    requires EmissionOf(s, who).Some? && EmissionOf(s, who).value.staged.Some? && EmissionOk(s, EmissionOf(s, who))
    ensures PutOf(PutStaged(s, who).log, g) == PutOf(s.log, g) + if EmissionOf(s, who).value.gid == g then 1 else 0
  {
    PutOfAppend(s.log, EmissionOf(s, who).value.staged.value, g);
  }

  lemma PutKeepsRest(s: State, who: Who, g: GroupId)
    requires EmissionOf(s, who).Some? && EmissionOf(s, who).value.staged.Some?
    ensures var t := PutStaged(s, who);
      && t.lost == s.lost && t.inflight == s.inflight && t.store == s.store && t.live == s.live
      && Reserved(t, g) == Reserved(s, g) && (BeingDropped(t, g) <==> BeingDropped(s, g))
      && t.scheduler.Emitting? == s.scheduler.Emitting?
      && (t.scheduler.Emitting? ==> t.scheduler.e.gid == s.scheduler.e.gid && t.scheduler.e.known == s.scheduler.e.known)
  {
  }

  lemma PutKeepsLedger(s: State, who: Who, g: GroupId)
    requires Structure(s) && EmissionOf(s, who).Some? && EmissionOf(s, who).value.staged.Some?
    requires Balanced(s, g) && Counted(s, g) && g in s.store
    ensures Balanced(PutStaged(s, who), g) && Counted(PutStaged(s, who), g)
  {
    PutMovesOwed(s, who, g);
    PutGrowsLog(s, who, g);
    PutKeepsRest(s, who, g);
  }

  // ---- Aging and dropping ----

  lemma AgeKeepsStructure(c: Config, s: State)
    requires Structure(s) && s.watcher == Resting
    ensures Structure(AgeTasks(c, s))
  {
    SameGroupsKeep(s, AgeTasks(c, s));
    forall i | 0 <= i < |s.inflight|
      ensures EntryOk(s, Aged(s.inflight)[i])
    {
      assert EntryOk(s, s.inflight[i]);
    }
  }

  lemma AgeKeepsLimits(c: Config, s: State)
    requires Structure(s) && s.watcher == Resting && Permits(c, s) && Staleness(c, s)
    ensures Permits(c, AgeTasks(c, s)) && Staleness(c, AgeTasks(c, s))
  {
    CountAged(s.inflight, 0);
    AgeKeepsStructure(c, s);
  }

  lemma AgeKeepsLedger(c: Config, s: State, g: GroupId)
    requires WellFormed(s) && s.watcher == Resting && Balanced(s, g) && Counted(s, g) && g in s.store
    ensures Balanced(AgeTasks(c, s), g) && Counted(AgeTasks(c, s), g)
  {
    CountAged(s.inflight, g);
  }

  lemma ClaimedMarkers(s: State, gid: GroupId, claimed: seq<Entry>, owed: seq<Marker>)
    requires Entries(s) && claimed == OfGroup(s.inflight, gid) && owed == Cancellations(claimed)
    ensures forall i :: 0 <= i < |owed| ==> owed[i].entry.gid == gid && EntryOk(s, owed[i].entry)
    ensures claimed != [] ==> claimed[|claimed| - 1].gid == gid && EntryOk(s, claimed[|claimed| - 1])
  {
    FilterMembers(s.inflight, gid);
    forall i | 0 <= i < |owed|
      ensures owed[i].entry in claimed
    {
      CancellationMembers(claimed, i);
    }
  }

  lemma ClaimKeepsStructure(s: State, gid: GroupId)
    requires Structure(s) && s.watcher.Dropping? && gid in s.watcher.stale
    ensures Structure(ClaimGroup(s, gid))
  {
    FilterMembers(s.inflight, gid);
    var t := ClaimGroup(s, gid);
    ClaimedMarkers(s, gid, OfGroup(s.inflight, gid), t.watcher.e.owed);
    SameGroupsKeep(s, t);
  }

  lemma ClaimKeepsPermits(c: Config, s: State, gid: GroupId)
    requires WellFormed(s) && s.watcher.Dropping? && Permits(c, s)
    ensures Permits(c, ClaimGroup(s, gid))
  {
    CountClaimed(s.inflight, gid, 0);
  }

  lemma ClaimKeepsStaleness(c: Config, s: State, gid: GroupId)
    requires WellFormed(s) && s.watcher.Dropping? && gid in s.watcher.stale && Staleness(c, s)
    ensures Staleness(c, ClaimGroup(s, gid))
  {
    FilterMembers(s.inflight, gid);
    var t := ClaimGroup(s, gid);
    forall i | 0 <= i < |t.inflight|
      ensures t.inflight[i] in s.inflight && t.inflight[i].gid != gid
    {
    }
  }

  lemma ClaimKeepsLedger(s: State, gid: GroupId, g: GroupId)
    requires WellFormed(s) && s.watcher.Dropping? && Balanced(s, g) && Counted(s, g) && g in s.store
    ensures Balanced(ClaimGroup(s, gid), g) && Counted(ClaimGroup(s, gid), g)
  {
    CountClaimed(s.inflight, gid, g);
  }

  lemma SweepKeepsStructure(s: State)
    requires Structure(s) && s.watcher.Flushing? && Emitted(s.watcher.e)
    ensures Structure(SweepUnscheduled(s))
  {
    assert EntryOk(s, DropStand(s, s.watcher.e.gid));
    SameGroupsKeep(s, SweepUnscheduled(s));
  }

  lemma SweepKeepsLimits(c: Config, s: State)
    requires WellFormed(s) && s.watcher.Flushing? && Permits(c, s) && Staleness(c, s)
    ensures Permits(c, SweepUnscheduled(s)) && Staleness(c, SweepUnscheduled(s))
  {
  }

  lemma SweepKeepsLedger(s: State, g: GroupId)
    requires Structure(s) && s.watcher.Flushing? && !s.watcher.swept && Emitted(s.watcher.e)
    requires Balanced(s, g) && Counted(s, g) && g in s.store
    ensures Balanced(SweepUnscheduled(s), g) && Counted(SweepUnscheduled(s), g)
  {
  }

  // ---- Draining ----

  lemma DrainKeepsStructure(s: State)
    requires Structure(s)
    ensures Structure(Drain(s))
  {
    KindMembers(s.inflight, Eval);
    SameGroupsKeep(s, Drain(s));
  }

  lemma DrainKeepsPermits(c: Config, s: State)
    requires WellFormed(s) && Permits(c, s)
    ensures Permits(c, Drain(s))
  {
    CountKinds(s.inflight, 0);
  }

  lemma DrainKeepsStaleness(c: Config, s: State)
    requires WellFormed(s) && Staleness(c, s)
    ensures Staleness(c, Drain(s))
  {
    KindMembers(s.inflight, Eval);
    var t := Drain(s);
    forall i | 0 <= i < |t.inflight|
      ensures t.inflight[i] in s.inflight
    {
    }
  }

  lemma DrainKeepsLedger(s: State, g: GroupId)
    requires Structure(s) && Balanced(s, g) && Counted(s, g) && g in s.store
    ensures Balanced(Drain(s), g) && Counted(Drain(s), g)
  {
    CountKinds(s.inflight, g);
  }

  lemma EvalNotDropped(s: State, es: seq<Entry>, g: GroupId)
    requires forall i :: 0 <= i < |es| ==> EntryOk(s, es[i])
    requires g in s.store && s.store[g].kind == Eval
    ensures CountFor(OfKind(es, Train), g) == 0 && g !in TrainGroups(es)
  {
    KindMembers(es, Train);
    NoneInFlight(OfKind(es, Train), g);
  }

  lemma DrainKeepsRows(c: Config, s: State)
    requires Structure(s) && EvalRows(c, s)
    ensures EvalRows(c, Drain(s))
  {
    forall i | 0 <= i < |s.evalGroups|
      ensures EvalGroupOk(c, Drain(s), s.evalGroups[i], s.triggered[i])
    {
      assert EvalGroupOk(c, s, s.evalGroups[i], s.triggered[i]);
      EvalNotDropped(s, s.inflight, s.evalGroups[i]);
    }
  }
}

/** The rollout dispatcher as a protocol of atomic steps (src/prime_rl/orchestrator/dispatcher.py).

    Three coroutines share the dispatcher: its own loop, the weight watcher running
    `on_version_pending`, and the orchestrator's main loop. They interleave only where one of them
    awaits, so each stretch of code between two awaits is one action here. */
module DispatchProtocol {
  import opened Sequences
  import opened Wrappers

  type GroupId = nat

  datatype Kind = Train | Eval

  datatype EnvSpec = EnvSpec(groupSize: nat, groupScored: bool)

  /** One dataset row; `evalStep` is set on rows queued by an eval trigger. */
  datatype Example = Example(env: string, taskIdx: int, evalStep: Option<int>)

  datatype Group = Group(kind: Kind, example: Example, scored: bool, target: nat, toSchedule: nat,
                         emitted: nat, pinned: bool, version: int)

  /** One task in flight, with its `InflightRollout`; `inflight` lists them in the order they started. */
  datatype Entry = Entry(gid: GroupId, kind: Kind, env: string, evalStep: Option<int>,
                         count: nat, offPolicy: nat, version: int)

  datatype Outcome = Finished | Failed | Cancelled

  datatype Rollout = Rollout(gid: GroupId, kind: Kind, env: string, evalStep: Option<int>, version: int,
                             offPolicy: nat, outcome: Outcome)

  datatype Marker = Marker(entry: Entry, outcome: Outcome)

  /** A loop over `emit_rollout` for one group: what it still has to emit, and the rollout it has
      stamped and counted but not yet put on the queue. `known` says that it holds the group. */
  datatype Emission = Emission(gid: GroupId, known: bool, owed: seq<Marker>, staged: Option<Rollout>)

  datatype Scheduler =
    | Idle
    | AwaitClient(gid: GroupId)
    | Acquiring(gid: GroupId, wanted: nat, got: nat)
    | Emitting(e: Emission)

  datatype Watcher =
    | Resting
    | Dropping(stale: set<GroupId>)
    | Flushing(stale: set<GroupId>, e: Emission, last: Option<Entry>, swept: bool)

  datatype Mode = PreferTrain | PreferEval

  datatype Config = Config(maxInflight: nat, queueSize: nat, maxOffPolicy: nat,
                           trainEnvs: map<string, EnvSpec>, evalEnvs: map<string, EnvSpec>)

  /** Configured group sizes are at least one. */
  ghost predicate ValidConfig(c: Config) {
    && (forall e :: e in c.trainEnvs ==> c.trainEnvs[e].groupSize >= 1)
    && (forall e :: e in c.evalEnvs ==> c.evalEnvs[e].groupSize >= 1)
  }

  /** `store` holds every group ever made, `live` the keys of the `groups` dictionary in order.
      `log` is everything ever put on the queue, of which the first `taken` have been read.
      `lost` (rollouts dropped without a marker when draining starts), `triggered` (eval rows ever
      queued) and `evalGroups` (the groups made for them) are history only. */
  datatype State = State(
    store: map<GroupId, Group>, live: seq<GroupId>, inflight: seq<Entry>, permits: int,
    log: seq<Rollout>, taken: nat,
    mode: Mode, gateOpen: bool, trainDisabled: bool, evalQueue: seq<Example>, version: int,
    nextGroup: GroupId,
    scheduler: Scheduler, watcher: Watcher,
    lost: map<GroupId, nat>, triggered: seq<Example>, evalGroups: seq<GroupId>)

  datatype Who = Loop | Observer

  datatype Action =
    | FlipToTrain
    | Continue(gid: GroupId)
    | OpenTrain(env: string, taskIdx: int)
    | OpenEval
    | ClientReady
    | AcquireOne
    | Launch
    | Complete(index: nat, outcomes: seq<Outcome>)
    | Stage(who: Who)
    | Put(who: Who)
    | LoopDone
    | Age
    | Claim(gid: GroupId)
    | Sweep
    | FlushDone
    | AgeDone
    | NewVersion(v: int)
    | Take
    | Trigger(rows: seq<Example>, fired: bool)
    | SetGate(open: bool)
    | BeginDraining

  // ---- Sums over the shared structures ----

  function CountFor(es: seq<Entry>, gid: GroupId): nat {
    if es == [] then 0 else (if es[0].gid == gid then es[0].count else 0) + CountFor(es[1..], gid)
  }

  function Total(es: seq<Entry>): nat {
    if es == [] then 0 else es[0].count + Total(es[1..])
  }

  function PutOf(log: seq<Rollout>, gid: GroupId): nat {
    if log == [] then 0
    else PutOf(log[..|log| - 1], gid) + if log[|log| - 1].gid == gid then 1 else 0
  }

  function OfGroup(es: seq<Entry>, gid: GroupId): seq<Entry> {
    if es == [] then []
    else (if es[0].gid == gid then [es[0]] else []) + OfGroup(es[1..], gid)
  }

  function NotOfGroup(es: seq<Entry>, gid: GroupId): seq<Entry> {
    if es == [] then []
    else (if es[0].gid == gid then [] else [es[0]]) + NotOfGroup(es[1..], gid)
  }

  function OfKind(es: seq<Entry>, kind: Kind): seq<Entry> {
    if es == [] then []
    else (if es[0].kind == kind then [es[0]] else []) + OfKind(es[1..], kind)
  }

  function Excluding(ids: seq<GroupId>, out: set<GroupId>): (r: seq<GroupId>)
    ensures forall g :: g in r <==> g in ids && g !in out
  {
    if ids == [] then [] else (if ids[0] in out then [] else [ids[0]]) + Excluding(ids[1..], out)
  }

  function LastOf(es: seq<Entry>): Option<Entry> { if es == [] then None else Some(es[|es| - 1]) }

  /** One `Cancelled` marker for every rollout of the claimed tasks. */
  function Cancellations(es: seq<Entry>): seq<Marker> {
    if es == [] then [] else seq(es[0].count, i => Marker(es[0], Cancelled)) + Cancellations(es[1..])
  }

  function Aged(es: seq<Entry>): (r: seq<Entry>)
    ensures |r| == |es|
  {
    seq(|es|, i requires 0 <= i < |es| =>
      if es[i].kind == Train then es[i].(offPolicy := es[i].offPolicy + 1) else es[i])
  }

  function StaleGroups(es: seq<Entry>, maxOffPolicy: nat): set<GroupId> {
    set i | 0 <= i < |es| && es[i].kind == Train && es[i].offPolicy > maxOffPolicy :: es[i].gid
  }

  function TrainGroups(es: seq<Entry>): set<GroupId> {
    set i | 0 <= i < |es| && es[i].kind == Train :: es[i].gid
  }

  // ---- Steps ----

  /** Permits the next task of a group takes. */
  function Cost(g: Group): nat {
    if g.scored then g.toSchedule else 1
  }

  function Available(c: Config, s: State): int { c.maxInflight - s.permits }

  predicate MaySchedule(c: Config, s: State, kind: Kind) {
    && s.scheduler == Idle && Available(c, s) > 0
    && (kind == Train ==> s.mode == PreferTrain && s.gateOpen && !s.trainDisabled)
    && (kind == Eval ==> s.mode == PreferEval)
  }

  /** The group's task is charged to the group; its permits are acquired next. */
  function Reserve(s: State, gid: GroupId): State
    requires gid in s.store && Cost(s.store[gid]) <= s.store[gid].toSchedule
  {
    var g := s.store[gid];
    s.(store := s.store[gid := g.(pinned := true, toSchedule := g.toSchedule - Cost(g))],
       scheduler := Acquiring(gid, Cost(g), 0))
  }

  function Open(s: State, kind: Kind, example: Example, spec: EnvSpec): State {
    var g := Group(kind, example, spec.groupScored, spec.groupSize, spec.groupSize, 0, false, s.version);
    s.(store := s.store[s.nextGroup := g], lost := s.lost[s.nextGroup := 0],
       live := s.live + [s.nextGroup], nextGroup := s.nextGroup + 1, scheduler := AwaitClient(s.nextGroup))
  }

  function LaunchedEntry(s: State): Entry
    requires s.scheduler.Acquiring? && s.scheduler.gid in s.store
  {
    var g := s.store[s.scheduler.gid];
    Entry(s.scheduler.gid, g.kind, g.example.env, g.example.evalStep, s.scheduler.wanted, 0, g.version)
  }

  function EmissionOf(s: State, who: Who): Option<Emission> {
    match who
    case Loop => if s.scheduler.Emitting? then Some(s.scheduler.e) else None
    case Observer => if s.watcher.Flushing? then Some(s.watcher.e) else None
  }

  function WithEmission(s: State, who: Who, e: Emission): State
    requires EmissionOf(s, who).Some?
  {
    match who
    case Loop => s.(scheduler := Emitting(e))
    case Observer => s.(watcher := s.watcher.(e := e))
  }

  /** `emit_rollout` up to its await: stamps the rollout from the group when it is known and from the
      task otherwise, counts it, and closes the group once everything has been emitted. */
  function Stamped(s: State, e: Emission, m: Marker): Rollout
    requires e.known ==> e.gid in s.store
  {
    var group := if e.known then Some(s.store[e.gid]) else None;
    Rollout(m.entry.gid, m.entry.kind, m.entry.env,
            if group.Some? then group.value.example.evalStep else m.entry.evalStep,
            if group.Some? then group.value.version else m.entry.version,
            m.entry.offPolicy, m.outcome)
  }

  function CountEmission(s: State, e: Emission): State
    requires e.known ==> e.gid in s.store
  {
    if !e.known then s
    else
      var g := s.store[e.gid];
      var counted := s.(store := s.store[e.gid := g.(emitted := g.emitted + 1)]);
      if g.emitted + 1 >= g.target then counted.(live := Excluding(s.live, {e.gid})) else counted
  }

  function DropStand(s: State, gid: GroupId): Entry
    requires gid in s.store
  {
    var g := s.store[gid];
    Entry(gid, g.kind, g.example.env, g.example.evalStep, 1, 0, g.version)
  }

  // The steps, one function each. The first group belongs to the dispatcher's loop.

  predicate CanContinue(c: Config, s: State, gid: GroupId) {
    && gid in s.live && gid in s.store && MaySchedule(c, s, s.store[gid].kind)
    && s.store[gid].toSchedule > 0 && Cost(s.store[gid]) <= Available(c, s)
  }

  function ContinueGroup(s: State, gid: GroupId): State
    requires gid in s.store && s.store[gid].toSchedule > 0
  {
    if s.store[gid].pinned then Reserve(s, gid) else s.(scheduler := AwaitClient(gid))
  }

  function FreshCost(spec: EnvSpec): nat {
    if spec.groupScored then spec.groupSize else 1
  }

  predicate CanOpenTrain(c: Config, s: State, env: string) {
    MaySchedule(c, s, Train) && env in c.trainEnvs && FreshCost(c.trainEnvs[env]) <= Available(c, s)
  }

  predicate CanOpenEval(c: Config, s: State) {
    && MaySchedule(c, s, Eval) && s.evalQueue != [] && s.evalQueue[0].env in c.evalEnvs
    && FreshCost(c.evalEnvs[s.evalQueue[0].env]) <= Available(c, s)
  }

  function OpenEvalGroup(c: Config, s: State): State
    requires s.evalQueue != [] && s.evalQueue[0].env in c.evalEnvs
  {
    var row := s.evalQueue[0];
    Open(s, Eval, row, c.evalEnvs[row.env]).(evalQueue := s.evalQueue[1..], evalGroups := s.evalGroups + [s.nextGroup])
  }

  /** The client is there; if the group was dropped meanwhile, nothing is scheduled. */
  function UseClient(s: State): State
    requires s.scheduler.AwaitClient? && s.scheduler.gid in s.store
    requires s.scheduler.gid in s.live ==> s.store[s.scheduler.gid].toSchedule > 0
  {
    if s.scheduler.gid in s.live then Reserve(s, s.scheduler.gid) else s.(scheduler := Idle)
  }

  function TakePermit(s: State): State
    requires s.scheduler.Acquiring?
  {
    s.(permits := s.permits + 1, scheduler := s.scheduler.(got := s.scheduler.got + 1))
  }

  function LaunchTask(s: State): State
    requires s.scheduler.Acquiring? && s.scheduler.gid in s.store
  {
    s.(inflight := s.inflight + [LaunchedEntry(s)], scheduler := Idle)
  }

  function CompleteTask(s: State, index: nat, outcomes: seq<Outcome>): State
    requires index < |s.inflight|
  {
    var entry := s.inflight[index];
    var markers := seq(|outcomes|, i requires 0 <= i < |outcomes| => Marker(entry, outcomes[i]));
    s.(inflight := Without(s.inflight, index), permits := s.permits - entry.count,
       scheduler := Emitting(Emission(entry.gid, entry.gid in s.live, markers, None)))
  }

  // Emission, by the loop or by the observer.

  predicate CanStage(s: State, who: Who) {
    EmissionOf(s, who).Some? && var e := EmissionOf(s, who).value; e.owed != [] && e.staged == None
  }

  function StageNext(s: State, who: Who): State
    requires CanStage(s, who) && (EmissionOf(s, who).value.known ==> EmissionOf(s, who).value.gid in s.store)
  {
    var e := EmissionOf(s, who).value;
    WithEmission(CountEmission(s, e), who, e.(owed := e.owed[1..], staged := Some(Stamped(s, e, e.owed[0]))))
  }

  predicate CanPut(c: Config, s: State, who: Who) {
    && EmissionOf(s, who).Some? && EmissionOf(s, who).value.staged.Some?
    && |s.log| - s.taken < c.queueSize
  }

  function PutStaged(s: State, who: Who): State
    requires EmissionOf(s, who).Some? && EmissionOf(s, who).value.staged.Some?
  {
    var e := EmissionOf(s, who).value;
    WithEmission(s.(log := s.log + [e.staged.value]), who, e.(staged := None))
  }

  predicate Emitted(e: Emission) { e.owed == [] && e.staged == None }

  // The observer: `on_version_pending` and `drop_group`.

  function AgeTasks(c: Config, s: State): State {
    s.(inflight := Aged(s.inflight), watcher := Dropping(StaleGroups(Aged(s.inflight), c.maxOffPolicy)))
  }

  function ClaimGroup(s: State, gid: GroupId): State
    requires s.watcher.Dropping?
  {
    var claimed := OfGroup(s.inflight, gid);
    s.(inflight := NotOfGroup(s.inflight, gid), live := Excluding(s.live, {gid}),
       permits := s.permits - Total(claimed),
       watcher := Flushing(s.watcher.stale - {gid},
                           Emission(gid, gid in s.live, Cancellations(claimed), None),
                           LastOf(claimed), false))
  }

  /** Once the claimed tasks are emitted: markers for what was never scheduled. */
  function SweepUnscheduled(s: State): State
    requires s.watcher.Flushing? && s.watcher.e.gid in s.store
  {
    var w := s.watcher;
    var fallback := if w.last.Some? then w.last.value else DropStand(s, w.e.gid);
    var rest := if w.e.known then s.store[w.e.gid].toSchedule else 0;
    s.(watcher := w.(swept := true, e := w.e.(owed := seq(rest, i => Marker(fallback, Cancelled)))))
  }

  // The orchestrator's main loop.

  function TriggerEval(s: State, rows: seq<Example>, fired: bool): State {
    s.(evalQueue := s.evalQueue + rows, triggered := s.triggered + rows, mode := if fired then PreferEval else s.mode)
  }

  function Drain(s: State): State {
    var dropped, gone := OfKind(s.inflight, Train), TrainGroups(s.inflight);
    s.(trainDisabled := true, inflight := OfKind(s.inflight, Eval), live := Excluding(s.live, gone),
       permits := s.permits - Total(dropped),
       lost := map g | g in s.lost :: s.lost[g] + CountFor(dropped, g) +
         if g in gone && g in s.live && g in s.store then s.store[g].toSchedule else 0)
  }

  predicate Enabled(c: Config, s: State, a: Action) {
    match a
    case FlipToTrain =>
      && s.scheduler == Idle && Available(c, s) > 0 && s.mode == PreferEval && s.evalQueue == []
      && forall g :: g in s.live && g in s.store && s.store[g].kind == Eval ==> s.store[g].toSchedule == 0
    case Continue(gid) => CanContinue(c, s, gid)
    case OpenTrain(env, taskIdx) => CanOpenTrain(c, s, env)
    case OpenEval => CanOpenEval(c, s)
    case ClientReady => s.scheduler.AwaitClient?
    case AcquireOne => s.scheduler.Acquiring? && s.scheduler.got < s.scheduler.wanted
    case Launch => s.scheduler.Acquiring? && s.scheduler.got == s.scheduler.wanted
    // `run_group` returns as many rollouts as were asked for, and a task that is still in flight
    // is never found cancelled.
    case Complete(index, outcomes) =>
      && s.scheduler == Idle && index < |s.inflight| && |outcomes| == s.inflight[index].count
      && Cancelled !in outcomes
    case Stage(who) => CanStage(s, who)
    case Put(who) => CanPut(c, s, who)
    case LoopDone => s.scheduler.Emitting? && Emitted(s.scheduler.e)
    case Age => s.watcher == Resting
    case Claim(gid) => s.watcher.Dropping? && gid in s.watcher.stale
    case Sweep => s.watcher.Flushing? && !s.watcher.swept && Emitted(s.watcher.e)
    case FlushDone => s.watcher.Flushing? && s.watcher.swept && Emitted(s.watcher.e)
    case AgeDone => s.watcher.Dropping? && s.watcher.stale == {}
    case NewVersion(v) => s.watcher == Resting && v > s.version
    case Take => s.taken < |s.log|
    case Trigger(rows, fired) => (rows != [] ==> fired) && forall i :: 0 <= i < |rows| ==> rows[i].env in c.evalEnvs
    case SetGate(open) => true
    case BeginDraining => !s.trainDisabled
  }

  /** Groups that the running `on_version_pending` still has to drop. */
  function StaleIds(w: Watcher): set<GroupId> {
    if w.Resting? then {} else w.stale
  }

  /** Facts that make a step well defined; part of the invariant below. */
  predicate WellFormed(s: State) {
    && (forall g :: g in s.live ==> g in s.store)
    && (s.scheduler.AwaitClient? || s.scheduler.Acquiring? ==> s.scheduler.gid in s.store)
    && (s.scheduler.AwaitClient? && s.scheduler.gid in s.live ==> s.store[s.scheduler.gid].toSchedule > 0)
    && (s.scheduler.Emitting? ==> s.scheduler.e.gid in s.store)
    && (s.watcher.Flushing? ==> s.watcher.e.gid in s.store)
    && StaleIds(s.watcher) <= s.store.Keys
    && s.lost.Keys == s.store.Keys
  }

  function Apply(c: Config, s: State, a: Action): State
    requires WellFormed(s) && Enabled(c, s, a)
  {
    match a
    case FlipToTrain => s.(mode := PreferTrain)
    case Continue(gid) => ContinueGroup(s, gid)
    case OpenTrain(env, taskIdx) => Open(s, Train, Example(env, taskIdx, None), c.trainEnvs[env])
    case OpenEval => OpenEvalGroup(c, s)
    case ClientReady => UseClient(s)
    case AcquireOne => TakePermit(s)
    case Launch => LaunchTask(s)
    case Complete(index, outcomes) => CompleteTask(s, index, outcomes)
    case Stage(who) => StageNext(s, who)
    case Put(who) => PutStaged(s, who)
    case LoopDone => s.(scheduler := Idle)
    case Age => AgeTasks(c, s)
    case Claim(gid) => ClaimGroup(s, gid)
    case Sweep => SweepUnscheduled(s)
    case FlushDone => s.(watcher := Dropping(s.watcher.stale))
    case AgeDone => s.(watcher := Resting)
    case NewVersion(v) => s.(version := v)
    case Take => s.(taken := s.taken + 1)
    case Trigger(rows, fired) => TriggerEval(s, rows, fired)
    case SetGate(open) => s.(gateOpen := open)
    case BeginDraining => Drain(s)
  }

  // ---- Runs ----

  function Init(c: Config, version: int): State {
    State(map[], [], [], 0, [], 0, PreferTrain, true, false, [], version, 0, Idle, Resting, map[], [], [])
  }
}

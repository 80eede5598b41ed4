/** `RolloutDispatcher` itself: each method is one stretch of its code between two awaits, and does
    exactly the protocol step of the same name (src/prime_rl/orchestrator/dispatcher.py). */
module Dispatcher {
  import opened Sequences
  import opened Wrappers
  import opened DispatchProtocol
  import opened DispatchInvariant
  import opened DispatchSteps
  import opened DispatchTheorems
  import opened DispatchPolicy

  /** The first open group, in dictionary order, that wants another task and whose cost fits. */
  function FirstFit(c: Config, s: State, kind: Kind, from: nat): Option<GroupId>
    requires from <= |s.live|
    decreases |s.live| - from
  {
    if from == |s.live| then None
    else if Fits(c, s, kind, s.live[from]) then Some(s.live[from])
    else FirstFit(c, s, kind, from + 1)
  }

  predicate Fits(c: Config, s: State, kind: Kind, gid: GroupId) {
    gid in s.store && s.store[gid].kind == kind && s.store[gid].toSchedule > 0 && Cost(s.store[gid]) <= Available(c, s)
  }

  /** An open group that can continue is always preferred to a fresh one: the first in dictionary order with rollouts
      left and a free permit for each of them, if it is scored as a whole, or otherwise for one. */
  lemma {:induction false} FirstFitIsComplete(c: Config, s: State, kind: Kind, from: nat)
    requires from <= |s.live| && forall g :: g in s.live ==> g in s.store
    ensures FirstFit(c, s, kind, from) == None ==>
      forall i :: from <= i < |s.live| ==>
        var g := s.store[s.live[i]];
        !(g.kind == kind && g.toSchedule > 0 && (if g.scored then g.toSchedule else 1) <= c.maxInflight - s.permits)
    ensures FirstFit(c, s, kind, from).Some? ==>
      exists i :: from <= i < |s.live| && s.live[i] == FirstFit(c, s, kind, from).value &&
        (var g := s.store[s.live[i]];
         g.kind == kind && g.toSchedule > 0 && (if g.scored then g.toSchedule else 1) <= c.maxInflight - s.permits) &&
        forall j :: from <= j < i ==>
          var g := s.store[s.live[j]];
          !(g.kind == kind && g.toSchedule > 0 && (if g.scored then g.toSchedule else 1) <= c.maxInflight - s.permits)
    decreases |s.live| - from
  {
    if from < |s.live| && !Fits(c, s, kind, s.live[from]) {
      FirstFitIsComplete(c, s, kind, from + 1);
    }
  }

  // ---- One pass of `fill_inflight` ----

  datatype Pass = Stopped | Turned | Began

  /** Permits the first task of a new group takes. */
  function Fresh(spec: EnvSpec): nat { if spec.groupScored then spec.groupSize else 1 }

  /** Some open group of the kind has rollouts left and its next task fits. */
  ghost predicate SomeFits(c: Config, s: State, kind: Kind) {
    exists g :: g in s.live && g in s.store && s.store[g].kind == kind && s.store[g].toSchedule > 0 &&
      (if s.store[g].scored then s.store[g].toSchedule else 1) <= c.maxInflight - s.permits
  }

  /** A pass may begin nothing only for lack of permits, or because train work is held back or there is none that
      fits, or because none of the eval work fits. */
  ghost predicate NothingToBegin(c: Config, s: State, offered: Option<(string, int)>) {
    || s.permits >= c.maxInflight
    || (s.mode == PreferTrain && (!s.gateOpen || s.trainDisabled || (!SomeFits(c, s, Train) && offered == None)))
    || (&& s.mode == PreferEval && EvalWaiting(s) && !SomeFits(c, s, Eval)
        && (s.evalQueue != [] ==> s.evalQueue[0].env !in c.evalEnvs || Fresh(c.evalEnvs[s.evalQueue[0].env]) > c.maxInflight - s.permits))
  }

  /** One step of the protocol that begins a task: of the preferred kind, and of an open group if one fits. */
  ghost predicate BeginsOne(c: Config, s: State, t: State, offered: Option<(string, int)>)
    requires WellFormed(s)
  {
    var kind := if s.mode == PreferEval then Eval else Train;
    || (exists gid :: Enabled(c, s, Continue(gid)) && t == Apply(c, s, Continue(gid)) && s.store[gid].kind == kind)
    || (!SomeFits(c, s, kind) && kind == Eval && Enabled(c, s, OpenEval) && t == Apply(c, s, OpenEval))
    || (&& !SomeFits(c, s, kind) && kind == Train && offered.Some?
        && Enabled(c, s, OpenTrain(offered.value.0, offered.value.1)) && t == Apply(c, s, OpenTrain(offered.value.0, offered.value.1)))
  }

  lemma NoneFits(c: Config, s: State, kind: Kind)
    requires forall g :: g in s.live ==> g in s.store
    ensures FirstFit(c, s, kind, 0) == None <==> !SomeFits(c, s, kind)
  {
    FirstFitIsComplete(c, s, kind, 0);
  }

  lemma EvalPass(c: Config, s: State, t: State, scheduled: bool)
    requires WellFormed(s) && s.mode == PreferEval && EvalWaiting(s) && MaySchedule(c, s, Eval)
    requires match FirstFit(c, s, Eval, 0)
      case Some(gid) => scheduled && CanContinue(c, s, gid) && t == ContinueGroup(s, gid)
      case None => (scheduled <==> CanOpenEval(c, s)) && t == if scheduled then OpenEvalGroup(c, s) else s
    ensures if scheduled then BeginsOne(c, s, t, None) else t == s && NothingToBegin(c, s, None)
  {
    NoneFits(c, s, Eval);
    FirstFitIsComplete(c, s, Eval, 0);
    if FirstFit(c, s, Eval, 0).Some? {
      assert Enabled(c, s, Continue(FirstFit(c, s, Eval, 0).value));
    } else if scheduled {
      assert Enabled(c, s, OpenEval);
    }
  }

  lemma TrainPass(c: Config, s: State, t: State, offered: Option<(string, int)>, scheduled: bool)
    requires WellFormed(s) && s.mode == PreferTrain && MaySchedule(c, s, Train)
    requires offered.Some? ==> CanOpenTrain(c, s, offered.value.0)
    requires match FirstFit(c, s, Train, 0)
      case Some(gid) => scheduled && CanContinue(c, s, gid) && t == ContinueGroup(s, gid)
      case None =>
        && (scheduled <==> offered.Some?)
        && (scheduled ==> t == Open(s, Train, Example(offered.value.0, offered.value.1, None), c.trainEnvs[offered.value.0]))
        && (!scheduled ==> t == s)
    ensures if scheduled then BeginsOne(c, s, t, offered) else t == s && NothingToBegin(c, s, offered)
  {
    NoneFits(c, s, Train);
    FirstFitIsComplete(c, s, Train, 0);
    if FirstFit(c, s, Train, 0).Some? {
      assert Enabled(c, s, Continue(FirstFit(c, s, Train, 0).value));
    } else if scheduled {
      assert Enabled(c, s, OpenTrain(offered.value.0, offered.value.1));
    }
  }

  class RolloutDispatcher {
    const c: Config
    var store: map<GroupId, Group>
    var live: seq<GroupId>
    var inflight: seq<Entry>
    var permits: int
    var log: seq<Rollout>
    var taken: nat
    var mode: Mode
    var gateOpen: bool
    var trainDisabled: bool
    var evalQueue: seq<Example>
    var version: int
    var nextGroup: GroupId
    var scheduler: Scheduler
    var watcher: Watcher
    ghost var lost: map<GroupId, nat>
    ghost var triggered: seq<Example>
    ghost var evalGroups: seq<GroupId>

    ghost function Snapshot(): State
      reads this
    {
      State(store, live, inflight, permits, log, taken, mode, gateOpen, trainDisabled, evalQueue, version, nextGroup,
            scheduler, watcher, lost, triggered, evalGroups)
    }

    constructor (c: Config, version: int)
      ensures this.c == c && Snapshot() == Init(c, version)
      ensures Inv(c, Snapshot())
    {
      this.c := c;
      store, live, inflight, permits, log, taken := map[], [], [], 0, [], 0;
      mode, gateOpen, trainDisabled, evalQueue := PreferTrain, true, false, [];
      this.version, nextGroup, scheduler, watcher := version, 0, Idle, Resting;
      lost, triggered, evalGroups := map[], [], [];
    }

    /** Charges the group and starts acquiring its permits. */
    method Charge(gid: GroupId)
      requires gid in store && Cost(store[gid]) <= store[gid].toSchedule
      modifies this`store, this`scheduler
      ensures Snapshot() == Reserve(old(Snapshot()), gid)
    {
      var group := store[gid];
      var wanted := 1;
      if group.scored {
        wanted := group.toSchedule;
        group := group.(toSchedule := 0);
      } else {
        group := group.(toSchedule := group.toSchedule - 1);
      }
      store := store[gid := group.(pinned := true)];
      scheduler := Acquiring(gid, wanted, 0);
    }

    /** `schedule_group_rollout` once the client is there: gives up if the group was dropped meanwhile. */
    method PinClient()
      requires WellFormed(Snapshot()) && scheduler.AwaitClient?
      requires scheduler.gid in live ==> Cost(store[scheduler.gid]) <= store[scheduler.gid].toSchedule
      modifies this`store, this`scheduler
      ensures Snapshot() == UseClient(old(Snapshot()))
    {
      if scheduler.gid in live {
        Charge(scheduler.gid);
      } else {
        scheduler := Idle;
      }
    }

    /** One turn of the loop in `acquire`. */
    method AcquirePermit()
      requires scheduler.Acquiring? && scheduler.got < scheduler.wanted
      modifies this`permits, this`scheduler
      ensures Snapshot() == TakePermit(old(Snapshot()))
    {
      permits := permits + 1;
      scheduler := scheduler.(got := scheduler.got + 1);
    }

    /** `schedule_group_rollout` once all permits are acquired: the task starts. */
    method StartTask()
      requires scheduler.Acquiring? && scheduler.got == scheduler.wanted && scheduler.gid in store
      modifies this`inflight, this`scheduler
      ensures Snapshot() == LaunchTask(old(Snapshot()))
    {
      var group := store[scheduler.gid];
      inflight := inflight + [Entry(scheduler.gid, group.kind, group.example.env, group.example.evalStep,
                                    scheduler.wanted, 0, group.version)];
      scheduler := Idle;
    }

    /** `try_schedule`: continue an open group if one fits, else open one from the source. The train
        source offers at most one example, already checked against the available permits. */
    method TrySchedule(kind: Kind, offered: Option<(string, int)>) returns (scheduled: bool)
      requires WellFormed(Snapshot()) && MaySchedule(c, Snapshot(), kind)
      requires offered.Some? ==> CanOpenTrain(c, Snapshot(), offered.value.0) || kind == Eval
      modifies this
      ensures var s := old(Snapshot());
        match FirstFit(c, s, kind, 0)
        case Some(gid) => scheduled && CanContinue(c, s, gid) && Snapshot() == ContinueGroup(s, gid)
        case None =>
          if kind == Eval then
            (scheduled <==> CanOpenEval(c, s)) && Snapshot() == if scheduled then OpenEvalGroup(c, s) else s
          else
            && (scheduled <==> offered.Some?)
            && (scheduled ==>
                  Snapshot() == Open(s, Train, Example(offered.value.0, offered.value.1, None), c.trainEnvs[offered.value.0]))
            && (!scheduled ==> Snapshot() == s)
    {
      ghost var s := Snapshot();
      assert WellFormed(s);
      var i := 0;
      while i < |live|
        invariant 0 <= i <= |live| && Snapshot() == s
        invariant FirstFit(c, s, kind, i) == FirstFit(c, s, kind, 0)
      {
        var gid := live[i];
        var group := store[gid];
        if group.kind == kind && group.toSchedule > 0 {
          var cost := if group.scored then group.toSchedule else 1;
          if cost <= c.maxInflight - permits {
            if group.pinned {
              Charge(gid);
            } else {
              scheduler := AwaitClient(gid);
            }
            return true;
          }
        }
        i := i + 1;
      }
      if kind == Eval {
        if evalQueue == [] {
          return false;
        }
        var head := evalQueue[0];
        if head.env !in c.evalEnvs {
          return false;
        }
        var spec := c.evalEnvs[head.env];
        var cost := if spec.groupScored then spec.groupSize else 1;
        if cost > c.maxInflight - permits {
          return false;
        }
        evalQueue := evalQueue[1..];
        evalGroups := evalGroups + [nextGroup];
        OpenGroup(Eval, head, spec);
        return true;
      } else {
        if offered == None {
          return false;
        }
        var (env, taskIdx) := offered.value;
        OpenGroup(Train, Example(env, taskIdx, None), c.trainEnvs[env]);
        return true;
      }
    }

    /** Whether eval work is waiting to be scheduled. */
    method EvalHasWork() returns (work: bool)
      requires WellFormed(Snapshot())
      ensures work <==> EvalWaiting(Snapshot())
    {
      if evalQueue != [] {
        return true;
      }
      var i := 0;
      while i < |live|
        invariant 0 <= i <= |live|
        invariant forall j :: 0 <= j < i ==> !(store[live[j]].kind == Eval && store[live[j]].toSchedule > 0)
      {
        if store[live[i]].kind == Eval && store[live[i]].toSchedule > 0 {
          return true;
        }
        i := i + 1;
      }
      work := false;
    }

    /** One pass of the loop in `fill_inflight`: it stops, or turns to train work once all eval work is scheduled, or
        begins one task of the preferred kind. The train source offers an example that fits, or none. */
    method FillOnce(offered: Option<(string, int)>) returns (pass: Pass)
      requires WellFormed(Snapshot()) && scheduler == Idle
      requires offered.Some? ==> offered.value.0 in c.trainEnvs && Fresh(c.trainEnvs[offered.value.0]) <= c.maxInflight - permits
      modifies this
      ensures pass == Stopped ==> Snapshot() == old(Snapshot()) && NothingToBegin(c, old(Snapshot()), offered)
      ensures pass == Turned ==>
        && old(mode) == PreferEval && !EvalWaiting(old(Snapshot())) && old(permits) < c.maxInflight
        && Snapshot() == old(Snapshot()).(mode := PreferTrain)
      ensures pass == Began ==> BeginsOne(c, old(Snapshot()), Snapshot(), offered)
    {
      ghost var s := Snapshot();
      if c.maxInflight - permits <= 0 {
        return Stopped;
      }
      if mode == PreferEval {
        var work := EvalHasWork();
        if !work {
          mode := PreferTrain;
          return Turned;
        }
        var scheduled := TrySchedule(Eval, None);
        EvalPass(c, s, Snapshot(), scheduled);
        return if scheduled then Began else Stopped;
      }
      if !gateOpen || trainDisabled {
        return Stopped;
      }
      var scheduled := TrySchedule(Train, offered);
      TrainPass(c, s, Snapshot(), offered, scheduled);
      pass := if scheduled then Began else Stopped;
    }

    method OpenGroup(kind: Kind, example: Example, spec: EnvSpec)
      modifies this`store, this`live, this`nextGroup, this`scheduler, this`lost
      ensures Snapshot() == Open(old(Snapshot()), kind, example, spec)
    {
      var gid := nextGroup;
      store := store[gid := Group(kind, example, spec.groupScored, spec.groupSize, spec.groupSize, 0, false, version)];
      live := live + [gid];
      lost := lost[gid := 0];
      nextGroup := nextGroup + 1;
      scheduler := AwaitClient(gid);
    }

    /** `handle_completed_rollout` up to its first emission. */
    method PopCompleted(index: nat, outcomes: seq<Outcome>)
      requires CanComplete(Snapshot(), index, outcomes)
      modifies this`inflight, this`permits, this`scheduler
      ensures Snapshot() == CompleteTask(old(Snapshot()), index, outcomes)
    {
      var meta := inflight[index];
      inflight := inflight[..index] + inflight[index + 1..];
      permits := permits - meta.count;
      var markers := seq(|outcomes|, i requires 0 <= i < |outcomes| => Marker(meta, outcomes[i]));
      scheduler := Emitting(Emission(meta.gid, meta.gid in live, markers, None));
    }

    /** `on_version_pending` up to its first `drop_group`: ages every train task in flight and
        collects the groups past the limit. */
    method BumpOffPolicy()
      requires watcher == Resting
      modifies this`inflight, this`watcher
      ensures Snapshot() == AgeTasks(c, old(Snapshot()))
      ensures |inflight| == |old(inflight)|
      ensures forall i :: 0 <= i < |inflight| ==>
        var before := old(inflight)[i];
        inflight[i] == if before.kind == Train then before.(offPolicy := before.offPolicy + 1) else before
      ensures watcher.Dropping?
      ensures forall g :: g in watcher.stale <==>
        exists i :: 0 <= i < |inflight| && inflight[i].kind == Train && inflight[i].gid == g && inflight[i].offPolicy > c.maxOffPolicy
    {
      var before := inflight;
      var stale: set<GroupId> := {};
      var i := 0;
      while i < |inflight|
        invariant 0 <= i <= |inflight| == |before|
        invariant forall j :: 0 <= j < i ==> inflight[j] == Aged(before)[j]
        invariant forall j :: i <= j < |before| ==> inflight[j] == before[j]
        invariant stale == StaleGroups(Aged(before)[..i], c.maxOffPolicy)
      {
        if inflight[i].kind == Train {
          inflight := inflight[i := inflight[i].(offPolicy := inflight[i].offPolicy + 1)];
          if inflight[i].offPolicy > c.maxOffPolicy {
            stale := stale + {inflight[i].gid};
          }
        }
        assert inflight[i] == Aged(before)[i];
        StaleGrows(Aged(before), c.maxOffPolicy, i);
        i := i + 1;
      }
      assert inflight == Aged(before) && Aged(before)[..i] == Aged(before);
      watcher := Dropping(stale);
    }

    /** The claim phase of `drop_group`: takes the group's tasks out of `inflight` and releases their
        permits in one sweep. */
    method TakeTasks(gid: GroupId) returns (claimed: seq<Entry>)
      modifies this`inflight, this`permits
      ensures claimed == OfGroup(old(inflight), gid)
      ensures Snapshot() == old(Snapshot()).(inflight := NotOfGroup(old(inflight), gid), permits := old(permits) - Total(claimed))
    {
      var items := inflight;
      var kept: seq<Entry> := [];
      claimed := [];
      var i := 0;
      while i < |items|
        invariant 0 <= i <= |items|
        invariant kept + NotOfGroup(items[i..], gid) == NotOfGroup(items, gid)
        invariant claimed + OfGroup(items[i..], gid) == OfGroup(items, gid)
        invariant permits == old(permits) - Total(claimed)
      {
        GroupStep(items, i, claimed, kept, gid);
        if items[i].gid == gid {
          CountConcat(claimed, [items[i]], 0);
          permits := permits - items[i].count;
          claimed := claimed + [items[i]];
        } else {
          kept := kept + [items[i]];
        }
        i := i + 1;
      }
      assert items[i..] == [];
      assert kept == kept + NotOfGroup([], gid) && claimed == claimed + OfGroup([], gid);
      inflight := kept;
    }

    /** Removes groups from the `groups` dictionary. */
    method Close(out: set<GroupId>)
      modifies this`live
      ensures Snapshot() == old(Snapshot()).(live := Excluding(old(live), out))
    {
      live := Excluding(live, out);
    }

    /** `drop_group` up to its first emission. */
    method ClaimForDrop(gid: GroupId)
      requires watcher.Dropping? && gid in watcher.stale
      modifies this`inflight, this`permits, this`live, this`watcher
      ensures Snapshot() == ClaimGroup(old(Snapshot()), gid)
    {
      ghost var s := Snapshot();
      var known := gid in live;
      Close({gid});
      var claimed := TakeTasks(gid);
      watcher := Flushing(watcher.stale - {gid}, Emission(gid, known, Cancellations(claimed), None), LastOf(claimed), false);
      ClaimFields(s, Snapshot(), gid, claimed);
    }

    /** Counts an emission, and closes the group once all of it has been emitted. */
    method CountEmitted(e: Emission)
      requires e.known ==> e.gid in store
      modifies this`store, this`live
      ensures Snapshot() == CountEmission(old(Snapshot()), e)
    {
      if e.known {
        var group := store[e.gid];
        group := group.(emitted := group.emitted + 1);
        store := store[e.gid := group];
        if group.emitted >= group.target {
          live := Excluding(live, {e.gid});
        }
      }
    }

    /** `emit_rollout` up to its `put`. */
    method StampNext(who: Who)
      requires CanStage(Snapshot(), who) && EmissionOf(Snapshot(), who).value.gid in store
      modifies this`store, this`live, this`scheduler, this`watcher
      ensures Snapshot() == StageNext(old(Snapshot()), who)
    {
      var e := if who == Loop then scheduler.e else watcher.e;
      var marker := e.owed[0];
      var evalStep, startVersion := marker.entry.evalStep, marker.entry.version;
      if e.known {
        evalStep, startVersion := store[e.gid].example.evalStep, store[e.gid].version;
      }
      var rollout := Rollout(marker.entry.gid, marker.entry.kind, marker.entry.env, evalStep, startVersion,
                             marker.entry.offPolicy, marker.outcome);
      CountEmitted(e);
      var next := e.(owed := e.owed[1..], staged := Some(rollout));
      if who == Loop {
        scheduler := Emitting(next);
      } else {
        watcher := watcher.(e := next);
      }
    }

    /** `emit_rollout` once there is room on the queue. */
    method PutNext(who: Who)
      requires CanPut(c, Snapshot(), who)
      modifies this`log, this`scheduler, this`watcher
      ensures Snapshot() == PutStaged(old(Snapshot()), who)
    {
      var e := if who == Loop then scheduler.e else watcher.e;
      log := log + [e.staged.value];
      if who == Loop {
        scheduler := Emitting(e.(staged := None));
      } else {
        watcher := watcher.(e := e.(staged := None));
      }
    }

    /** `drop_group` after the markers of its tasks: one more for each rollout never scheduled. */
    method ClaimUnscheduled()
      requires watcher.Flushing? && Emitted(watcher.e) && watcher.e.gid in store
      modifies this`watcher
      ensures Snapshot() == SweepUnscheduled(old(Snapshot()))
    {
      var gid := watcher.e.gid;
      var group := store[gid];
      var fallback := if watcher.last.Some? then watcher.last.value
                      else Entry(gid, group.kind, group.example.env, group.example.evalStep, 1, 0, group.version);
      var rest := if watcher.e.known then group.toSchedule else 0;
      watcher := watcher.(swept := true, e := watcher.e.(owed := seq(rest, i => Marker(fallback, Cancelled))));
    }

    /** `cancel_inflight_train_rollouts`: drops the train tasks in flight. */
    method DropTrainTasks() returns (gone: set<GroupId>)
      modifies this`inflight, this`permits
      ensures gone == TrainGroups(old(inflight))
      ensures Snapshot() == old(Snapshot()).(inflight := OfKind(old(inflight), Eval),
                                             permits := old(permits) - Total(OfKind(old(inflight), Train)))
    {
      var items := inflight;
      var kept: seq<Entry> := [];
      gone := {};
      ghost var dropped: seq<Entry> := [];
      var i := 0;
      while i < |items|
        invariant 0 <= i <= |items|
        invariant kept + OfKind(items[i..], Eval) == OfKind(items, Eval)
        invariant dropped + OfKind(items[i..], Train) == OfKind(items, Train)
        invariant permits == old(permits) - Total(dropped)
        invariant gone == TrainGroups(items[..i])
      {
        SplitStep(items, i, kept, dropped);
        if items[i].kind == Train {
          dropped := dropped + [items[i]];
          permits := permits - items[i].count;
          gone := gone + {items[i].gid};
        } else {
          kept := kept + [items[i]];
        }
        i := i + 1;
      }
      SplitDone(items, i, kept, dropped);
      inflight := kept;
    }

    /** `begin_draining`: no more train scheduling, and the train tasks in flight are dropped. */
    method CancelTrain()
      requires !trainDisabled
      modifies this`inflight, this`permits, this`live, this`trainDisabled, this`lost
      ensures Snapshot() == Drain(old(Snapshot()))
    {
      ghost var s := Snapshot();
      lost := Drain(s).lost;
      trainDisabled := true;
      var gone := DropTrainTasks();
      Close(gone);
      DrainFields(s, Snapshot());
    }
  }

  /** A state that differs from `s` exactly as the claim says is the claimed state. */
  lemma ClaimFields(s: State, t: State, gid: GroupId, claimed: seq<Entry>)
    requires s.watcher.Dropping? && claimed == OfGroup(s.inflight, gid)
    requires t == s.(inflight := NotOfGroup(s.inflight, gid), live := Excluding(s.live, {gid}),
                     permits := s.permits - Total(claimed), watcher := t.watcher)
    requires t.watcher == Flushing(s.watcher.stale - {gid}, Emission(gid, gid in s.live, Cancellations(claimed), None),
                                   LastOf(claimed), false)
    ensures t == ClaimGroup(s, gid)
  {
  }

  lemma DrainFields(s: State, t: State)
    requires t == s.(trainDisabled := true, inflight := OfKind(s.inflight, Eval),
                     live := Excluding(s.live, TrainGroups(s.inflight)),
                     permits := s.permits - Total(OfKind(s.inflight, Train)), lost := Drain(s).lost)
    ensures t == Drain(s)
  {
  }

  /** Moving the next task of the wanted kind onto the list keeps list and remainder complete. */
  lemma KindStep(es: seq<Entry>, i: nat, taken: seq<Entry>, kind: Kind)
    requires i < |es|
    ensures taken + OfKind(es[i..], kind) ==
      (if es[i].kind == kind then taken + [es[i]] else taken) + OfKind(es[i + 1..], kind)
  {
    assert es[i..][1..] == es[i + 1..];
  }

  lemma SplitStep(es: seq<Entry>, i: nat, kept: seq<Entry>, dropped: seq<Entry>)
    requires i < |es|
    ensures kept + OfKind(es[i..], Eval) == (if es[i].kind == Train then kept else kept + [es[i]]) + OfKind(es[i + 1..], Eval)
    ensures dropped + OfKind(es[i..], Train) ==
      (if es[i].kind == Train then dropped + [es[i]] else dropped) + OfKind(es[i + 1..], Train)
    ensures Total(dropped + [es[i]]) == Total(dropped) + es[i].count
    ensures TrainGroups(es[..i + 1]) == TrainGroups(es[..i]) + if es[i].kind == Train then {es[i].gid} else {}
  {
    KindStep(es, i, kept, Eval);
    KindStep(es, i, dropped, Train);
    TrainGrows(es, i);
    CountConcat(dropped, [es[i]], 0);
  }

  lemma SplitDone(es: seq<Entry>, i: nat, kept: seq<Entry>, dropped: seq<Entry>)
    requires i == |es|
    ensures kept + OfKind(es[i..], Eval) == kept && dropped + OfKind(es[i..], Train) == dropped
    ensures TrainGroups(es[..i]) == TrainGroups(es)
  {
    assert es[i..] == [] && es[..i] == es;
    assert kept + [] == kept && dropped + [] == dropped;
  }

  lemma GroupStep(es: seq<Entry>, i: nat, taken: seq<Entry>, kept: seq<Entry>, gid: GroupId)
    requires i < |es|
    ensures taken + OfGroup(es[i..], gid) ==
      (if es[i].gid == gid then taken + [es[i]] else taken) + OfGroup(es[i + 1..], gid)
    ensures kept + NotOfGroup(es[i..], gid) ==
      (if es[i].gid == gid then kept else kept + [es[i]]) + NotOfGroup(es[i + 1..], gid)
  {
    assert es[i..][1..] == es[i + 1..];
  }

  lemma StaleGrows(es: seq<Entry>, limit: nat, i: nat)
    requires i < |es|
    ensures StaleGroups(es[..i + 1], limit) ==
      StaleGroups(es[..i], limit) + if es[i].kind == Train && es[i].offPolicy > limit then {es[i].gid} else {}
  {
    var a, b := es[..i], es[..i + 1];
    forall j | 0 <= j < i ensures a[j] == b[j] {}
    forall g | g in StaleGroups(a, limit) ensures g in StaleGroups(b, limit) {
      var j :| 0 <= j < |a| && a[j].kind == Train && a[j].offPolicy > limit && a[j].gid == g;
      assert b[j].gid == g;
    }
    if es[i].kind == Train && es[i].offPolicy > limit { assert b[i].gid in StaleGroups(b, limit); }
    forall g | g in StaleGroups(b, limit) && !(es[i].kind == Train && es[i].offPolicy > limit && es[i].gid == g)
      ensures g in StaleGroups(a, limit)
    {
      var j :| 0 <= j < |b| && b[j].kind == Train && b[j].offPolicy > limit && b[j].gid == g;
      assert j < i && a[j].gid == g;
    }
  }

  lemma TrainGrows(es: seq<Entry>, i: nat)
    requires i < |es|
    ensures TrainGroups(es[..i + 1]) == TrainGroups(es[..i]) + if es[i].kind == Train then {es[i].gid} else {}
  {
    var a, b := es[..i], es[..i + 1];
    forall g | g in TrainGroups(a) ensures g in TrainGroups(b) {
      var j :| 0 <= j < |a| && a[j].kind == Train && a[j].gid == g;
      assert b[j].gid == g;
    }
    if es[i].kind == Train { assert b[i].gid in TrainGroups(b); }
    forall g | g in TrainGroups(b) && !(es[i].kind == Train && es[i].gid == g)
      ensures g in TrainGroups(a)
    {
      var j :| 0 <= j < |b| && b[j].kind == Train && b[j].gid == g;
      assert j < i && a[j].gid == g;
    }
  }
}

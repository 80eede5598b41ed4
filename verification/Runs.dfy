/** The run registry kept on every rank (src/prime_rl/trainer/runs.py:273-318, 354-459).

    The master scans for runs and edits its table; the other ranks see only the master's table of run
    names at each synchronization, and replay the difference of the key sets. */
module Runs {
  import opened Sequences
  import opened Wrappers

  type RunId = string
  type Slot = int

  /** A parsed orchestrator configuration: the step to resume from, if any, and everything else. */
  datatype Config = Config(resume: Option<int>, rest: int)

  /** The factor written for a deleted run. */
  const BIG := 1000000.0

  /** The data of one rank. */
  datatype Table = Table(max: nat, idxOf: map<RunId, Slot>, idOf: map<Slot, RunId>, unused: set<Slot>,
                         progress: map<Slot, int>, config: map<Slot, Config>, scaling: seq<real>, ready: seq<bool>)

  /** The two maps are inverse, unused slots are the exact complement, and configurations are kept for
      exactly the used slots. */
  ghost predicate Consistent(t: Table) {
    && (forall r :: r in t.idxOf ==> 0 <= t.idxOf[r] < t.max && t.idxOf[r] in t.idOf && t.idOf[t.idxOf[r]] == r)
    && (forall i :: i in t.idOf ==> t.idOf[i] in t.idxOf && t.idxOf[t.idOf[i]] == i)
    && (forall i :: i in t.unused <==> 0 <= i < t.max && i !in t.idOf)
    && t.config.Keys == t.idOf.Keys && |t.scaling| == t.max
  }

  ghost predicate Valid(t: Table) { Consistent(t) && t.progress.Keys == t.idOf.Keys }

  predicate IsSlot(i: int, max: nat) { 0 <= i < max }

  /** What `synchronize_state` sends. */
  datatype Message = Message(idxOf: map<RunId, Slot>, ready: seq<bool>, scaling: seq<real>,
                             newConfigs: map<RunId, Config>, progress: map<Slot, int>)

  datatype HookCall =
    | Forgotten(slot: Slot, run: RunId)
    | Discovered(slot: Slot, run: RunId, config: Config)
    | Deletion(slot: Slot, run: RunId)
    | Creation(slot: Slot, run: RunId)

  /** `s` lists the elements of `all`, each once, in some order. */
  ghost predicate Lists<T>(s: seq<T>, all: set<T>) { multiset(s) == multiset(all) }

  /** `_create_run_data`: the step a new run starts at; `latest` is the newest checkpoint on disk. */
  function FirstStep(c: Config, latest: Option<int>): int {
    match c.resume
    case None => 0
    case Some(step) => if step != -1 then step else if latest.Some? then latest.value else 0
  }

  // ---- One run in or out ----

  function Created(t: Table, run: RunId, slot: Slot, c: Config, latest: Option<int>): Table {
    t.(idxOf := t.idxOf[run := slot], idOf := t.idOf[slot := run], unused := t.unused - {slot},
       progress := t.progress[slot := FirstStep(c, latest)], config := t.config[slot := c])
  }

  function Removed(t: Table, run: RunId): Table
    requires run in t.idxOf && 0 <= t.idxOf[run] < |t.scaling|
  {
    var slot := t.idxOf[run];
    t.(idxOf := t.idxOf - {run}, idOf := t.idOf - {slot}, unused := t.unused + {slot},
       progress := t.progress - {slot}, config := t.config - {slot}, scaling := t.scaling[slot := BIG])
  }

  lemma CreatedKeeps(t: Table, run: RunId, slot: Slot, c: Config, latest: Option<int>)
    requires Consistent(t) && run !in t.idxOf && slot in t.unused
    ensures Consistent(Created(t, run, slot, c, latest))
    ensures Valid(t) ==> Valid(Created(t, run, slot, c, latest))
  {
  }

  lemma RemovedKeeps(t: Table, run: RunId)
    requires Consistent(t) && run in t.idxOf
    ensures Consistent(Removed(t, run))
    ensures Valid(t) ==> Valid(Removed(t, run))
  {
  }

  // ---- The relation of a table to the one it was before ----

  ghost predicate Full(t: Table) { forall i :: 0 <= i < t.max ==> i in t.idOf }

  /** Run `r` has the slot, the configuration and the progress it had. */
  ghost predicate Stays(t: Table, u: Table, r: RunId)
    requires Valid(u) && r in t.idxOf
  {
    && r in u.idxOf && u.idxOf[r] == t.idxOf[r]
    && t.idxOf[r] in t.config && u.config[u.idxOf[r]] == t.config[t.idxOf[r]]
    && t.idxOf[r] in t.progress && u.progress[u.idxOf[r]] == t.progress[t.idxOf[r]]
  }

  /** Run `r` starts at step 0 without a step to resume from, at that step if it is not -1, and otherwise at its newest
      checkpoint, or at 0 if it has none. */
  ghost predicate StartsAt(c: Config, r: RunId, latest: map<RunId, int>, step: int) {
    && (c.resume == None ==> step == 0)
    && (c.resume.Some? && c.resume.value != -1 ==> step == c.resume.value)
    && (c.resume == Some(-1) && r in latest ==> step == latest[r])
    && (c.resume == Some(-1) && r !in latest ==> step == 0)
  }

  /** Run `r` is new in `u`, with its configuration and the step it starts at. */
  ghost predicate IsNew(u: Table, r: RunId, configs: map<RunId, Config>, latest: map<RunId, int>)
    requires Valid(u) && r in u.idxOf
  {
    r in configs && u.config[u.idxOf[r]] == configs[r] && StartsAt(configs[r], r, latest, u.progress[u.idxOf[r]])
  }

  lemma FirstStepStarts(c: Config, r: RunId, latest: map<RunId, int>)
    ensures StartsAt(c, r, latest, FirstStep(c, if r in latest then Some(latest[r]) else None))
  {
  }

  /** One scan by the master: runs that are gone are dropped and their scaling factors blown up, runs that stay keep
      slot, configuration and progress, a new run starts at its step, and one is left out only if it has no
      configuration or no slot is free. */
  ghost predicate Scanned(t: Table, u: Table, present: set<RunId>, configs: map<RunId, Config>, latest: map<RunId, int>) {
    && Valid(u) && u.max == t.max && u.ready == t.ready && |t.scaling| == t.max
    && (forall i :: 0 <= i < t.max ==>
          u.scaling[i] == if i in t.idOf && t.idOf[i] !in present then 1000000.0 else t.scaling[i])
    && (forall r :: r in t.idxOf && r in present ==> Stays(t, u, r))
    && (forall r :: r in u.idxOf && r !in t.idxOf ==> IsNew(u, r, configs, latest))
    && (forall r :: r in u.idxOf ==> r in present)
    && (forall r :: r in present && r in configs && r !in u.idxOf ==> Full(u))
  }

  function DeletedRuns(before: map<RunId, Slot>, after: map<RunId, Slot>): set<RunId> { before.Keys - after.Keys }

  function NewRuns(before: map<RunId, Slot>, after: map<RunId, Slot>): set<RunId> { after.Keys - before.Keys }

  function Freed(before: map<RunId, Slot>, after: map<RunId, Slot>): set<Slot> {
    SlotsOf(before, DeletedRuns(before, after))
  }

  function DeletionCalls(before: map<RunId, Slot>, after: map<RunId, Slot>): set<HookCall> {
    set r | r in DeletedRuns(before, after) :: Deletion(before[r], r)
  }

  function CreationCalls(before: map<RunId, Slot>, after: map<RunId, Slot>): set<HookCall> {
    set r | r in NewRuns(before, after) :: Creation(after[r], r)
  }

  /** All deletion hooks run, once for each run that is gone, and then all creation hooks, once for each new run. */
  ghost predicate Called(calls: seq<HookCall>, before: map<RunId, Slot>, after: map<RunId, Slot>) {
    var n := |DeletionCalls(before, after)|;
    n <= |calls| && Lists(calls[..n], DeletionCalls(before, after)) && Lists(calls[n..], CreationCalls(before, after))
  }

  /** What `Called` means for each run: a run that went has its one deletion call, with the slot it had, among the
      first; a run that came has its one creation call, with its slot, among the rest; and there are no others. */
  lemma CalledForEach(calls: seq<HookCall>, before: map<RunId, Slot>, after: map<RunId, Slot>) returns (n: nat)
    requires Called(calls, before, after)
    ensures n <= |calls|
    ensures forall call :: multiset(calls[..n])[call] == if call.Deletion? && GoneFrom(call.slot, call.run, before, after) then 1 else 0
    ensures forall call :: multiset(calls[n..])[call] == if call.Creation? && GoneFrom(call.slot, call.run, after, before) then 1 else 0
  {
    n := |DeletionCalls(before, after)|;
    forall call ensures call in DeletionCalls(before, after) <==> call.Deletion? && GoneFrom(call.slot, call.run, before, after) {
      if call.Deletion? && GoneFrom(call.slot, call.run, before, after) {
        assert call.run in DeletedRuns(before, after) && call == Deletion(before[call.run], call.run);
      }
    }
    forall call ensures call in CreationCalls(before, after) <==> call.Creation? && GoneFrom(call.slot, call.run, after, before) {
      if call.Creation? && GoneFrom(call.slot, call.run, after, before) {
        assert call.run in NewRuns(before, after) && call == Creation(after[call.run], call.run);
      }
    }
  }

  /** The run has the slot in `a` and is not in `b`. */
  predicate GoneFrom(slot: Slot, run: RunId, a: map<RunId, Slot>, b: map<RunId, Slot>) {
    run in a && run !in b && a[run] == slot
  }

  lemma CalledInOrder(deletions: seq<HookCall>, creations: seq<HookCall>, before: map<RunId, Slot>, after: map<RunId, Slot>)
    requires Lists(deletions, DeletionCalls(before, after)) && Lists(creations, CreationCalls(before, after))
    ensures Called(deletions + creations, before, after)
  {
    assert |multiset(deletions)| == |multiset(DeletionCalls(before, after))|;
    assert (deletions + creations)[..|deletions|] == deletions && (deletions + creations)[|deletions|..] == creations;
  }

  /** The table of names after replaying the difference: a run known on both sides keeps its OLD slot. */
  function Replayed(before: map<RunId, Slot>, after: map<RunId, Slot>): map<RunId, Slot> {
    map r | r in after :: if r in before then before[r] else after[r]
  }

  /** The replay runs through: every new run has a configuration, and its slot is free once the deleted
      runs are gone, and not given to two new runs. */
  ghost predicate Applicable(t: Table, msg: Message) {
    && (forall r :: r in NewRuns(t.idxOf, msg.idxOf) ==>
          r in msg.newConfigs && msg.idxOf[r] in t.unused + Freed(t.idxOf, msg.idxOf))
    && (forall q, r :: q in NewRuns(t.idxOf, msg.idxOf) && r in NewRuns(t.idxOf, msg.idxOf) && msg.idxOf[q] == msg.idxOf[r] ==> q == r)
  }

  /** A rank other than the master after `synchronize_state`. */
  ghost predicate Replays(t: Table, msg: Message, u: Table) {
    && Consistent(u) && u.max == t.max && u.idxOf == Replayed(t.idxOf, msg.idxOf)
    && (forall r :: r in u.idxOf && r in t.idxOf ==> t.idxOf[r] in t.config && u.config[u.idxOf[r]] == t.config[t.idxOf[r]])
    && (forall r :: r in u.idxOf && r !in t.idxOf ==> r in msg.newConfigs && u.config[u.idxOf[r]] == msg.newConfigs[r])
    && u.progress == msg.progress && u.ready == msg.ready
    && |msg.scaling| == t.max
    && (forall i :: 0 <= i < t.max ==> u.scaling[i] == if i in Freed(t.idxOf, msg.idxOf) then 1000000.0 else msg.scaling[i])
  }

  function MessageOf(m: Table, synced: map<RunId, Slot>): Message
    requires forall r :: r in m.idxOf ==> m.idxOf[r] in m.config
  {
    Message(m.idxOf, m.ready, m.scaling, map r | r in NewRuns(synced, m.idxOf) :: m.config[m.idxOf[r]], m.progress)
  }

  // ---- The class ----

  class MultiRunManager {
    const max: nat
    var idxOf: map<RunId, Slot>
    var idOf: map<Slot, RunId>
    var unused: set<Slot>
    var progress: map<Slot, int>
    var config: map<Slot, Config>
    var scaling: seq<real>
    var ready: seq<bool>
    var lastSynced: map<RunId, Slot>

    ghost function Data(): Table
      reads this
    {
      Table(max, idxOf, idOf, unused, progress, config, scaling, ready)
    }

    constructor (max: nat, scaling: seq<real>)
      requires |scaling| == max
      ensures this.max == max && Valid(Data()) && idxOf == map[] && lastSynced == map[]
    {
      this.max, this.scaling := max, scaling;
      idxOf, idOf, unused := map[], map[], set i | 0 <= i < max && IsSlot(i, max);
      progress, config, ready, lastSynced := map[], map[], seq(max, i => false), map[];
    }

    method CreateRunData(run: RunId, slot: Slot, c: Config, latest: Option<int>)
      modifies this`idxOf, this`idOf, this`unused, this`progress, this`config
      requires slot in unused
      ensures Data() == Created(old(Data()), run, slot, c, latest)
      ensures slot in progress && progress[slot] ==
        if c.resume == None then 0 else if c.resume.value != -1 then c.resume.value else if latest.Some? then latest.value else 0
    {
      idxOf := idxOf[run := slot];
      unused := unused - {slot};
      idOf := idOf[slot := run];
      progress := progress[slot := FirstStep(c, latest)];
      config := config[slot := c];
    }

    method DeleteRunData(run: RunId)
      requires run in idxOf && idxOf[run] in progress && 0 <= idxOf[run] < |scaling| && idxOf[run] in idOf
      modifies this`idxOf, this`idOf, this`unused, this`progress, this`config, this`scaling
      ensures Data() == Removed(old(Data()), run)
    {
      var slot := idxOf[run];
      progress := progress - {slot};
      if slot in config {
        config := config - {slot};
      }
      scaling := scaling[slot := BIG];
      unused := unused + {slot};
      idOf := idOf - {slot};
      idxOf := idxOf - {run};
    }

    /** The first loop of `discover_runs`: forgotten hooks, then the data goes. */
    method ForgetRuns(gone: set<RunId>) returns (calls: seq<HookCall>)
      requires Valid(Data()) && gone <= idxOf.Keys
      modifies this`idxOf, this`idOf, this`unused, this`progress, this`config, this`scaling
      ensures Dropped(old(Data()), Data(), gone)
      ensures Lists(calls, ForgottenCalls(old(idxOf), gone))
    {
      ghost var t := Data();
      calls := [];
      var todo := gone;
      assert gone - todo == {};
      while todo != {}
        invariant todo <= gone && Dropped(t, Data(), gone - todo)
        invariant Lists(calls, ForgottenCalls(t.idxOf, gone - todo))
        decreases |todo|
      {
        var run :| run in todo;
        ForgetStep(t, Data(), gone, todo, run, calls);
        calls := calls + [Forgotten(idxOf[run], run)];
        DeleteRunData(run);
        todo := todo - {run};
      }
      assert gone - todo == gone;
    }

    /** One pass of the second loop of `discover_runs`: the run takes a free slot, if one is left and it has a
        configuration. */
    method AdoptRun(run: RunId, configs: map<RunId, Config>, latest: map<RunId, int>) returns (taken: Option<Slot>)
      requires Valid(Data())
      modifies this`idxOf, this`idOf, this`unused, this`progress, this`config
      ensures taken.Some? ==> run in configs && taken.value in old(unused)
      ensures taken == None ==> run !in configs || forall slot :: slot !in old(unused)
      ensures Data() == if taken == None then old(Data())
                        else Created(old(Data()), run, taken.value, configs[run], if run in latest then Some(latest[run]) else None)
    {
      if slot :| slot in unused {
        if run in configs {
          CreateRunData(run, slot, configs[run], if run in latest then Some(latest[run]) else None);
          return Some(slot);
        }
      }
      taken := None;
    }

    /** The second loop of `discover_runs`, with the discovered hooks. */
    method AdoptRuns(arrivals: set<RunId>, configs: map<RunId, Config>, latest: map<RunId, int>) returns (calls: seq<HookCall>)
      requires Valid(Data()) && arrivals !! idxOf.Keys
      modifies this`idxOf, this`idOf, this`unused, this`progress, this`config
      ensures Adopted(old(Data()), Data(), arrivals, configs, latest)
      ensures Lists(calls, DiscoveredCalls(old(idxOf), idxOf, configs))
    {
      ghost var t := Data();
      calls := [];
      var todo := arrivals;
      while todo != {}
        invariant todo <= arrivals && todo !! idxOf.Keys && Adopted(t, Data(), arrivals - todo, configs, latest)
        invariant Lists(calls, DiscoveredCalls(t.idxOf, idxOf, configs))
        decreases |todo|
      {
        var run :| run in todo;
        ghost var before, seen := Data(), arrivals - todo;
        todo := todo - {run};
        assert arrivals - todo == seen + {run};
        var taken := AdoptRun(run, configs, latest);
        if taken.Some? {
          AdoptStep(t, before, seen, configs, latest, run, taken.value, calls);
          calls := calls + [Discovered(taken.value, run, configs[run])];
        } else {
          AdoptNone(t, before, seen, configs, latest, run);
        }
      }
      assert arrivals - todo == arrivals;
    }

    /** `discover_runs`, on the master: `present` are the runs on disk that are not evicted, `configs`
        those of them with a usable configuration. */
    method DiscoverRuns(present: set<RunId>, configs: map<RunId, Config>, latest: map<RunId, int>)
      returns (forgotten: seq<HookCall>, discovered: seq<HookCall>)
      requires Valid(Data())
      modifies this`idxOf, this`idOf, this`unused, this`progress, this`config, this`scaling
      ensures Scanned(old(Data()), Data(), present, configs, latest)
      ensures Lists(forgotten, ForgottenCalls(old(idxOf), old(idxOf).Keys - present))
      ensures Lists(discovered, DiscoveredCalls(old(idxOf) - (old(idxOf).Keys - present), idxOf, configs))
    {
      ghost var t := Data();
      var gone, arrivals := idxOf.Keys - present, present - idxOf.Keys;
      forgotten := ForgetRuns(gone);
      ghost var mid := Data();
      discovered := AdoptRuns(arrivals, configs, latest);
      ScanInTwo(t, mid, Data(), present, configs, latest);
    }

    /** The deletion hooks, then the creation hooks, for a change of the table of names. */
    method CallHooks(before: map<RunId, Slot>, after: map<RunId, Slot>) returns (calls: seq<HookCall>)
      ensures Called(calls, before, after)
    {
      var deletions := ListDeletions(before, DeletedRuns(before, after));
      var creations := ListCreations(after, NewRuns(before, after));
      CalledInOrder(deletions, creations, before, after);
      calls := deletions + creations;
    }

    method ListDeletions(slots: map<RunId, Slot>, runs: set<RunId>) returns (calls: seq<HookCall>)
      requires runs <= slots.Keys
      ensures Lists(calls, set r | r in runs :: Deletion(slots[r], r))
    {
      calls := [];
      var todo := runs;
      while todo != {}
        invariant todo <= runs && Lists(calls, set r | r in runs - todo :: Deletion(slots[r], r))
        decreases |todo|
      {
        var run :| run in todo;
        var all := set r | r in runs - todo :: Deletion(slots[r], r);
        OneMoreCall(calls, all, Deletion(slots[run], run));
        calls, todo := calls + [Deletion(slots[run], run)], todo - {run};
        assert (set r | r in runs - todo :: Deletion(slots[r], r)) == all + {Deletion(slots[run], run)};
      }
      assert runs - todo == runs;
    }

    method ListCreations(slots: map<RunId, Slot>, runs: set<RunId>) returns (calls: seq<HookCall>)
      requires runs <= slots.Keys
      ensures Lists(calls, set r | r in runs :: Creation(slots[r], r))
    {
      calls := [];
      var todo := runs;
      while todo != {}
        invariant todo <= runs && Lists(calls, set r | r in runs - todo :: Creation(slots[r], r))
        decreases |todo|
      {
        var run :| run in todo;
        var all := set r | r in runs - todo :: Creation(slots[r], r);
        OneMoreCall(calls, all, Creation(slots[run], run));
        calls, todo := calls + [Creation(slots[run], run)], todo - {run};
        assert (set r | r in runs - todo :: Creation(slots[r], r)) == all + {Creation(slots[run], run)};
      }
      assert runs - todo == runs;
    }

    /** `synchronize_state` on the master. */
    method SyncMaster() returns (msg: Message, calls: seq<HookCall>)
      requires Valid(Data())
      modifies this`lastSynced
      ensures msg == MessageOf(Data(), old(lastSynced)) && lastSynced == idxOf
      ensures Called(calls, old(lastSynced), idxOf)
    {
      msg := Message(idxOf, ready, scaling, map r | r in NewRuns(lastSynced, idxOf) :: config[idxOf[r]], progress);
      calls := CallHooks(lastSynced, idxOf);
      lastSynced := idxOf;
    }

    /** `synchronize_state` on any other rank; an error is the `KeyError` of a slot that is not free. */
    method SyncReplica(msg: Message) returns (r: Result<seq<HookCall>>)
      requires Valid(Data()) && |msg.scaling| == max
      modifies this`idxOf, this`idOf, this`unused, this`progress, this`config, this`scaling, this`ready
      ensures r.Ok? <==> Applicable(old(Data()), msg)
      ensures r.Ok? ==> Replays(old(Data()), msg, Data())
      ensures r.Ok? ==> Called(r.value, old(idxOf), msg.idxOf)
    {
      ghost var t := Data();
      var mine := idxOf;
      ready, scaling := msg.ready, msg.scaling;
      ghost var start := Data();
      DropDeleted(DeletedRuns(mine, msg.idxOf));
      ghost var base := Data();
      var placed := PlaceNew(msg, NewRuns(mine, msg.idxOf));
      PlacedIffApplicable(t, start, base, Data(), msg, placed);
      if !placed {
        return Err("KeyError");
      }
      ReplayDone(t, start, base, Data(), msg);
      progress := msg.progress;
      var calls := CallHooks(mine, msg.idxOf);
      r := Ok(calls);
    }

    method DropDeleted(gone: set<RunId>)
      requires Valid(Data()) && gone <= idxOf.Keys
      modifies this`idxOf, this`idOf, this`unused, this`progress, this`config, this`scaling
      ensures Dropped(old(Data()), Data(), gone)
    {
      ghost var t := Data();
      var todo := gone;
      assert gone - todo == {};
      while todo != {}
        invariant todo <= gone && Dropped(t, Data(), gone - todo)
        decreases |todo|
      {
        var run :| run in todo;
        DropStep(t, Data(), gone, todo, run);
        DeleteRunData(run);
        todo := todo - {run};
      }
      assert gone - todo == gone;
    }

    method PlaceNew(msg: Message, arrivals: set<RunId>) returns (ok: bool)
      requires Consistent(Data()) && arrivals <= msg.idxOf.Keys && arrivals !! idxOf.Keys
      modifies this`idxOf, this`idOf, this`unused, this`progress, this`config
      ensures ok ==> Placed(old(Data()), Data(), arrivals, msg)
      ensures !ok ==> Stuck(old(Data()), msg, arrivals)
    {
      ghost var t := Data();
      var todo := arrivals;
      while todo != {}
        invariant todo <= arrivals && Placed(t, Data(), arrivals - todo, msg)
        decreases |todo|
      {
        var run :| run in todo;
        ghost var u := Data();
        if run !in msg.newConfigs || msg.idxOf[run] !in unused {
          StuckHere(t, u, arrivals, arrivals - todo, msg, run);
          return false;
        }
        CreateRunData(run, msg.idxOf[run], msg.newConfigs[run], None);
        PlaceStep(t, u, arrivals, todo, msg, run);
        todo := todo - {run};
      }
      assert arrivals - todo == arrivals;
      ok := true;
    }
  }

  // ---- One run at a time ----

  /** `u` is `t` without the runs `gone`. */
  ghost predicate Dropped(t: Table, u: Table, gone: set<RunId>) {
    && Valid(u) && u.max == t.max && u.ready == t.ready && u.idxOf == t.idxOf - gone
    && (forall r :: r in u.idxOf ==> Stays(t, u, r))
    && |t.scaling| == t.max
    && (forall i :: 0 <= i < t.max ==> u.scaling[i] == if i in SlotsOf(t.idxOf, gone) then 1000000.0 else t.scaling[i])
  }

  function SlotsOf(m: map<RunId, Slot>, runs: set<RunId>): set<Slot> { set r | r in runs && r in m :: m[r] }

  /** `u` is `t` with the runs of `seen` that could be taken in. */
  ghost predicate Adopted(t: Table, u: Table, seen: set<RunId>, configs: map<RunId, Config>, latest: map<RunId, int>) {
    && Valid(u) && u.max == t.max && u.ready == t.ready && u.scaling == t.scaling
    && (forall r :: r in t.idxOf ==> Stays(t, u, r))
    && (forall r :: r in u.idxOf && r !in t.idxOf ==> r in seen && IsNew(u, r, configs, latest))
    && (forall r :: r in seen && r in configs && r !in u.idxOf ==> Full(u))
  }

  ghost function ForgottenCalls(before: map<RunId, Slot>, runs: set<RunId>): set<HookCall>
    requires runs <= before.Keys
  {
    set r | r in runs :: Forgotten(before[r], r)
  }

  ghost function DiscoveredCalls(before: map<RunId, Slot>, after: map<RunId, Slot>, configs: map<RunId, Config>): set<HookCall> {
    set r | r in after && r !in before && r in configs :: Discovered(after[r], r, configs[r])
  }

  lemma OneMoreCall(calls: seq<HookCall>, all: set<HookCall>, call: HookCall)
    requires Lists(calls, all) && call !in all
    ensures Lists(calls + [call], all + {call})
  {
  }

  lemma ForgottenGrows(calls: seq<HookCall>, before: map<RunId, Slot>, done: set<RunId>, run: RunId)
    requires done <= before.Keys && run in before && run !in done && Lists(calls, ForgottenCalls(before, done))
    ensures Lists(calls + [Forgotten(before[run], run)], ForgottenCalls(before, done + {run}))
  {
    OneMoreCall(calls, ForgottenCalls(before, done), Forgotten(before[run], run));
    assert ForgottenCalls(before, done + {run}) == ForgottenCalls(before, done) + {Forgotten(before[run], run)};
  }

  lemma DiscoveredGrows(calls: seq<HookCall>, before: map<RunId, Slot>, now: map<RunId, Slot>, configs: map<RunId, Config>,
                        run: RunId, slot: Slot)
    requires run !in now && run !in before && run in configs && Lists(calls, DiscoveredCalls(before, now, configs))
    ensures Lists(calls + [Discovered(slot, run, configs[run])], DiscoveredCalls(before, now[run := slot], configs))
  {
    var all := DiscoveredCalls(before, now, configs);
    OneMoreCall(calls, all, Discovered(slot, run, configs[run]));
    assert DiscoveredCalls(before, now[run := slot], configs) == all + {Discovered(slot, run, configs[run])};
  }

  lemma DropOne(t: Table, u: Table, done: set<RunId>, run: RunId)
    requires Dropped(t, u, done) && run in u.idxOf
    ensures Dropped(t, Removed(u, run), done + {run})
  {
    RemovedKeeps(u, run);
    SlotsGrow(t.idxOf, done, run);
  }

  lemma SlotsGrow(m: map<RunId, Slot>, runs: set<RunId>, run: RunId)
    requires run in m
    ensures SlotsOf(m, runs + {run}) == SlotsOf(m, runs) + {m[run]}
  {
  }

  lemma ForgetStep(t: Table, u: Table, gone: set<RunId>, todo: set<RunId>, run: RunId, calls: seq<HookCall>)
    requires todo <= gone <= t.idxOf.Keys && run in todo && Dropped(t, u, gone - todo)
    requires Lists(calls, ForgottenCalls(t.idxOf, gone - todo))
    ensures run in u.idxOf && u.idxOf[run] in u.progress && u.idxOf[run] in u.idOf && 0 <= u.idxOf[run] < |u.scaling|
    ensures Dropped(t, Removed(u, run), gone - (todo - {run}))
    ensures Lists(calls + [Forgotten(u.idxOf[run], run)], ForgottenCalls(t.idxOf, gone - (todo - {run})))
  {
    assert gone - (todo - {run}) == gone - todo + {run};
    DropOne(t, u, gone - todo, run);
    ForgottenGrows(calls, t.idxOf, gone - todo, run);
  }

  lemma AdoptOne(t: Table, u: Table, seen: set<RunId>, configs: map<RunId, Config>, latest: map<RunId, int>, run: RunId, slot: Slot)
    requires Adopted(t, u, seen, configs, latest) && run !in u.idxOf && run in configs && slot in u.unused
    ensures Adopted(t, Created(u, run, slot, configs[run], if run in latest then Some(latest[run]) else None), seen + {run}, configs, latest)
  {
    var from := if run in latest then Some(latest[run]) else None;
    var v := Created(u, run, slot, configs[run], from);
    CreatedKeeps(u, run, slot, configs[run], from);
    FirstStepStarts(configs[run], run, latest);
    forall r | r in u.idxOf ensures Stays(u, v, r) {
      CreatedLeaves(u, run, slot, configs[run], from, r);
    }
  }

  lemma CreatedLeaves(u: Table, run: RunId, slot: Slot, c: Config, latest: Option<int>, r: RunId)
    requires Valid(u) && run !in u.idxOf && slot in u.unused && r in u.idxOf
    ensures Valid(Created(u, run, slot, c, latest)) && Stays(u, Created(u, run, slot, c, latest), r)
  {
    CreatedKeeps(u, run, slot, c, latest);
  }

  lemma AdoptStep(t: Table, u: Table, seen: set<RunId>, configs: map<RunId, Config>, latest: map<RunId, int>, run: RunId, slot: Slot,
                  calls: seq<HookCall>)
    requires Adopted(t, u, seen, configs, latest) && run !in u.idxOf && run in configs && slot in u.unused
    requires Lists(calls, DiscoveredCalls(t.idxOf, u.idxOf, configs))
    ensures var v := Created(u, run, slot, configs[run], if run in latest then Some(latest[run]) else None);
      && Adopted(t, v, seen + {run}, configs, latest)
      && Lists(calls + [Discovered(slot, run, configs[run])], DiscoveredCalls(t.idxOf, v.idxOf, configs))
  {
    AdoptOne(t, u, seen, configs, latest, run, slot);
    assert run !in t.idxOf;
    DiscoveredGrows(calls, t.idxOf, u.idxOf, configs, run, slot);
  }

  lemma AdoptNone(t: Table, u: Table, seen: set<RunId>, configs: map<RunId, Config>, latest: map<RunId, int>, run: RunId)
    requires Adopted(t, u, seen, configs, latest) && (run !in configs || forall slot :: slot !in u.unused)
    ensures Adopted(t, u, seen + {run}, configs, latest)
  {
    assert run in configs ==> Full(u);
  }

  lemma ScanInTwo(t: Table, mid: Table, u: Table, present: set<RunId>, configs: map<RunId, Config>, latest: map<RunId, int>)
    requires Valid(t) && Dropped(t, mid, t.idxOf.Keys - present) && Adopted(mid, u, present - t.idxOf.Keys, configs, latest)
    ensures Scanned(t, u, present, configs, latest)
  {
    forall r | r in t.idxOf && r in present ensures Stays(t, u, r) {
      assert r in mid.idxOf && Stays(t, mid, r) && Stays(mid, u, r);
    }
    forall i | 0 <= i < t.max ensures u.scaling[i] == if i in t.idOf && t.idOf[i] !in present then 1000000.0 else t.scaling[i] {
      SlotOfGone(t, present, i);
    }
    forall r | r in u.idxOf && r !in t.idxOf ensures IsNew(u, r, configs, latest) {
      assert r !in mid.idxOf;
    }
  }

  lemma SlotOfGone(t: Table, present: set<RunId>, i: Slot)
    requires Consistent(t)
    ensures i in SlotsOf(t.idxOf, t.idxOf.Keys - present) <==> i in t.idOf && t.idOf[i] !in present
  {
    if i in t.idOf {
      assert t.idxOf[t.idOf[i]] == i;
    }
  }

  lemma DropStep(t: Table, u: Table, gone: set<RunId>, todo: set<RunId>, run: RunId)
    requires todo <= gone <= t.idxOf.Keys && run in todo && Dropped(t, u, gone - todo)
    ensures run in u.idxOf && u.idxOf[run] in u.progress && u.idxOf[run] in u.idOf && 0 <= u.idxOf[run] < |u.scaling|
    ensures Dropped(t, Removed(u, run), gone - (todo - {run}))
  {
    assert gone - (todo - {run}) == gone - todo + {run};
    DropOne(t, u, gone - todo, run);
  }

  /** `u` is `t` with the runs `seen` at the slots the message gives them. */
  ghost predicate Placed(t: Table, u: Table, seen: set<RunId>, msg: Message) {
    && Consistent(u) && u.max == t.max && u.scaling == t.scaling && u.ready == t.ready && seen <= msg.idxOf.Keys
    && (forall r :: r in u.idxOf <==> r in t.idxOf || r in seen)
    && (forall r :: r in t.idxOf ==> u.idxOf[r] == t.idxOf[r] && t.idxOf[r] in t.config && u.config[u.idxOf[r]] == t.config[t.idxOf[r]])
    && (forall r :: r in seen ==> r in msg.newConfigs && u.idxOf[r] == msg.idxOf[r] && u.config[u.idxOf[r]] == msg.newConfigs[r])
  }

  /** Some arrival has no configuration, or a slot that is taken, or shares its slot with another. */
  ghost predicate Stuck(t: Table, msg: Message, arrivals: set<RunId>) {
    exists r :: r in arrivals && r in msg.idxOf &&
      (r !in msg.newConfigs || msg.idxOf[r] !in t.unused ||
       exists q :: q in arrivals && q in msg.idxOf && q != r && msg.idxOf[q] == msg.idxOf[r])
  }

  lemma StuckHere(t: Table, u: Table, arrivals: set<RunId>, seen: set<RunId>, msg: Message, run: RunId)
    requires Consistent(t) && Placed(t, u, seen, msg) && seen <= arrivals <= msg.idxOf.Keys
    requires run in arrivals && run !in seen && (run !in msg.newConfigs || msg.idxOf[run] !in u.unused)
    ensures Stuck(t, msg, arrivals)
  {
    if run in msg.newConfigs && msg.idxOf[run] in t.unused {
      var i := msg.idxOf[run];
      assert 0 <= i < t.max && i !in t.idOf && i !in u.unused;
      assert i in u.idOf;
      var q := u.idOf[i];
      assert q in seen && q != run && msg.idxOf[q] == i;
    }
  }

  lemma PlaceStep(t: Table, u: Table, arrivals: set<RunId>, todo: set<RunId>, msg: Message, run: RunId)
    requires todo <= arrivals <= msg.idxOf.Keys && arrivals !! t.idxOf.Keys && Placed(t, u, arrivals - todo, msg)
    requires run in todo && run in msg.newConfigs && msg.idxOf[run] in u.unused
    ensures Placed(t, Created(u, run, msg.idxOf[run], msg.newConfigs[run], None), arrivals - (todo - {run}), msg)
  {
    assert arrivals - (todo - {run}) == arrivals - todo + {run};
    CreatedKeeps(u, run, msg.idxOf[run], msg.newConfigs[run], None);
  }

  /** After the deletions the free slots are the old free ones and the freed ones. */
  lemma FreeAfterDropping(t: Table, base: Table, gone: set<RunId>)
    requires Consistent(t) && Consistent(base) && base.max == t.max && gone <= t.idxOf.Keys && base.idxOf == t.idxOf - gone
    ensures base.unused == t.unused + SlotsOf(t.idxOf, gone)
  {
    forall i ensures i in base.unused <==> i in t.unused + SlotsOf(t.idxOf, gone) {
      if i in t.idOf && t.idOf[i] !in gone {
        assert t.idOf[i] in base.idxOf;
      }
      if i in base.idOf {
        assert base.idOf[i] in t.idxOf;
      }
    }
  }

  lemma PlacedIffApplicable(t: Table, start: Table, base: Table, u: Table, msg: Message, placed: bool)
    requires Consistent(t) && start == t.(ready := msg.ready, scaling := msg.scaling)
    requires Dropped(start, base, DeletedRuns(t.idxOf, msg.idxOf))
    requires placed ==> Placed(base, u, NewRuns(t.idxOf, msg.idxOf), msg)
    requires !placed ==> Stuck(base, msg, NewRuns(t.idxOf, msg.idxOf))
    ensures placed <==> Applicable(t, msg)
  {
    FreeAfterDropping(t, base, DeletedRuns(t.idxOf, msg.idxOf));
    if placed {
      forall r | r in NewRuns(t.idxOf, msg.idxOf) ensures msg.idxOf[r] in base.unused {
        var i := u.idxOf[r];
        assert u.idOf[i] == r && r !in base.idxOf;
      }
    }
  }

  lemma ReplayDone(t: Table, start: Table, base: Table, u: Table, msg: Message)
    requires Consistent(t) && start == t.(ready := msg.ready, scaling := msg.scaling) && |msg.scaling| == t.max
    requires Dropped(start, base, DeletedRuns(t.idxOf, msg.idxOf)) && Placed(base, u, NewRuns(t.idxOf, msg.idxOf), msg)
    ensures Replays(t, msg, u.(progress := msg.progress))
  {
    NamesReplayed(t.idxOf, msg.idxOf, base.idxOf, u.idxOf);
    ConfigsReplayed(t, start, base, u, msg);
    ProgressIsApart(u, msg.progress);
  }

  lemma ProgressIsApart(u: Table, progress: map<Slot, int>)
    ensures Consistent(u.(progress := progress)) <==> Consistent(u)
  {
  }

  lemma ConfigsReplayed(t: Table, start: Table, base: Table, u: Table, msg: Message)
    requires start == t.(ready := msg.ready, scaling := msg.scaling)
    requires Dropped(start, base, DeletedRuns(t.idxOf, msg.idxOf))
    requires Placed(base, u, NewRuns(t.idxOf, msg.idxOf), msg)
    ensures forall r :: r in u.idxOf && r in t.idxOf ==> t.idxOf[r] in t.config && u.config[u.idxOf[r]] == t.config[t.idxOf[r]]
    ensures forall r :: r in u.idxOf && r !in t.idxOf ==> r in msg.newConfigs && u.config[u.idxOf[r]] == msg.newConfigs[r]
  {
    forall r | r in u.idxOf && r in t.idxOf
      ensures t.idxOf[r] in t.config && u.config[u.idxOf[r]] == t.config[t.idxOf[r]]
    {
      assert r in base.idxOf && Stays(start, base, r);
    }
  }

  lemma NamesReplayed(before: map<RunId, Slot>, after: map<RunId, Slot>, mid: map<RunId, Slot>, u: map<RunId, Slot>)
    requires mid == before - DeletedRuns(before, after)
    requires forall r :: r in u <==> r in mid || r in NewRuns(before, after)
    requires forall r :: r in mid ==> u[r] == mid[r]
    requires forall r :: r in NewRuns(before, after) ==> u[r] == after[r]
    ensures u == Replayed(before, after)
  {
  }
}

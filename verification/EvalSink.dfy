/** Collecting eval rollouts into groups and epochs (src/prime_rl/orchestrator/eval_sink.py:90-110, 140-168). */
module EvalSink {
  import opened Sequences
  import opened Wrappers
  import opened DispatchProtocol

  /** Environment name and eval step: one epoch. */
  type Key = (string, Option<int>)

  datatype EvalConfig = EvalConfig(groupSize: map<string, nat>, examples: map<string, nat>)

  predicate Configured(c: EvalConfig, env: string) {
    env in c.groupSize && env in c.examples
  }

  function KeyOf(r: Rollout): Key { (r.env, r.evalStep) }

  function BatchSize(c: EvalConfig, env: string): nat
    requires Configured(c, env)
  {
    c.examples[env] * c.groupSize[env]
  }

  datatype EvalBatch = EvalBatch(key: Key, rollouts: seq<Rollout>)

  /** `pending_groups` and `pending_batches`; both are `defaultdict(list)`. */
  datatype Pending = Pending(groups: map<GroupId, seq<Rollout>>, batches: map<Key, seq<Rollout>>)

  function Waiting(p: Pending, g: GroupId): seq<Rollout> { if g in p.groups then p.groups[g] else [] }

  function Bucket(p: Pending, k: Key): seq<Rollout> { if k in p.batches then p.batches[k] else [] }

  function Append(p: Pending, r: Rollout): Pending {
    p.(groups := p.groups[r.gid := Waiting(p, r.gid) + [r]])
  }

  /** `process_group`: the whole group moves to the bucket of its first rollout. */
  function ProcessGroup(p: Pending, g: GroupId): Pending {
    var group := Waiting(p, g);
    var rest := p.(groups := p.groups - {g});
    if group == [] then rest
    else rest.(batches := p.batches[KeyOf(group[0]) := Bucket(p, KeyOf(group[0])) + group])
  }

  function Filled(c: EvalConfig, p: Pending, r: Rollout): Pending
    requires Configured(c, r.env)
  {
    var appended := Append(p, r);
    if |Waiting(appended, r.gid)| >= c.groupSize[r.env] then ProcessGroup(appended, r.gid) else appended
  }

  /** `add`: what stays pending, and the epoch that is complete, if any. */
  function Arrive(c: EvalConfig, p: Pending, r: Rollout): (Pending, Option<EvalBatch>)
    requires Configured(c, r.env)
  {
    var filled := Filled(c, p, r);
    var bucket := Bucket(filled, KeyOf(r));
    if |bucket| >= BatchSize(c, r.env) then
      (filled.(batches := filled.batches - {KeyOf(r)}), Some(EvalBatch(KeyOf(r), bucket)))
    else
      (filled.(batches := filled.batches[KeyOf(r) := bucket]), None)
  }

  class EvalSink {
    const c: EvalConfig
    var pendingGroups: map<GroupId, seq<Rollout>>
    var pendingBatches: map<Key, seq<Rollout>>

    ghost function Contents(): Pending
      reads this
    {
      Pending(pendingGroups, pendingBatches)
    }

    constructor (c: EvalConfig)
      ensures this.c == c && Contents() == Pending(map[], map[])
    {
      this.c, pendingGroups, pendingBatches := c, map[], map[];
    }

    method Add(r: Rollout) returns (batch: Option<EvalBatch>)
      requires Configured(c, r.env)
      modifies this
      ensures (Contents(), batch) == Arrive(c, old(Contents()), r)
    {
      var key := (r.env, r.evalStep);
      var group := (if r.gid in pendingGroups then pendingGroups[r.gid] else []) + [r];
      pendingGroups := pendingGroups[r.gid := group];
      if |group| >= c.groupSize[r.env] {
        MoveGroup(r.gid);
      }
      ghost var filled := Contents();
      assert filled == Filled(c, old(Contents()), r);
      if key !in pendingBatches {
        pendingBatches := pendingBatches[key := []];
      }
      assert pendingBatches == filled.batches[key := Bucket(filled, key)];
      if |pendingBatches[key]| >= c.examples[r.env] * c.groupSize[r.env] {
        batch := TakeBatch(key);
        assert pendingBatches == filled.batches - {key};
      } else {
        batch := None;
      }
    }

    /** `process_group`. */
    method MoveGroup(g: GroupId)
      modifies this
      ensures Contents() == ProcessGroup(old(Contents()), g)
    {
      var group := if g in pendingGroups then pendingGroups[g] else [];
      pendingGroups := pendingGroups - {g};
      if group == [] {
        return;
      }
      var key := (group[0].env, group[0].evalStep);
      pendingBatches := pendingBatches[key := (if key in pendingBatches then pendingBatches[key] else []) + group];
    }

    /** The popping part of `process_batch`. */
    method TakeBatch(key: Key) returns (batch: Option<EvalBatch>)
      requires key in pendingBatches
      modifies this`pendingBatches
      ensures batch == Some(EvalBatch(key, old(pendingBatches)[key])) && pendingBatches == old(pendingBatches) - {key}
    {
      batch := Some(EvalBatch(key, pendingBatches[key]));
      pendingBatches := pendingBatches - {key};
    }
  }
}

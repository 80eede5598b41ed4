/** Collecting train rollouts into groups and cohorts (src/prime_rl/orchestrator/train_sink.py:220-245,
    269-368, 385-405). */
module TrainSink {
  import opened Sequences
  import opened Wrappers
  import opened DispatchProtocol

  /** A cohort is cut by rollout count or by token count. */
  datatype Cut = Rollouts(size: nat) | Tokens(target: nat)

  /** Per environment, the group size and whether a group is scored as a whole. `tokens` and `limited`
      are a rollout's token count and whether it ran out of context; `passes` is the pre-batch filters'
      verdict on the i-th survivor, given all survivors of its group. */
  datatype TrainConfig = TrainConfig(groupSize: map<string, nat>, scored: map<string, bool>, dropLimited: bool, cut: Cut,
                                     tokens: Rollout -> nat, limited: Rollout -> bool, passes: (seq<Rollout>, nat) -> bool)

  predicate Configured(c: TrainConfig, env: string) { env in c.groupSize && env in c.scored }

  datatype Pending = Pending(groups: map<GroupId, seq<Rollout>>, batch: seq<Rollout>, tokens: int)

  predicate HasError(r: Rollout) { r.outcome != Finished }

  function Waiting(p: Pending, g: GroupId): seq<Rollout> { if g in p.groups then p.groups[g] else [] }

  function Errorless(group: seq<Rollout>): seq<Rollout> {
    if group == [] then []
    else Errorless(group[..|group| - 1]) + if HasError(group[|group| - 1]) then [] else [group[|group| - 1]]
  }

  function Unlimited(c: TrainConfig, group: seq<Rollout>): seq<Rollout> {
    if group == [] then []
    else Unlimited(c, group[..|group| - 1]) + if c.limited(group[|group| - 1]) then [] else [group[|group| - 1]]
  }

  /** Those of the first `n` survivors that pass the filters. */
  function Passing(c: TrainConfig, survivors: seq<Rollout>, n: nat): seq<Rollout>
    requires n <= |survivors|
  {
    if n == 0 then [] else Passing(c, survivors, n - 1) + if c.passes(survivors, n - 1) then [survivors[n - 1]] else []
  }

  predicate AnyError(group: seq<Rollout>) { exists i :: 0 <= i < |group| && HasError(group[i]) }

  predicate AnyLimited(c: TrainConfig, group: seq<Rollout>) { exists i :: 0 <= i < |group| && c.limited(group[i]) }

  /** What a finished group adds to the pending batch. */
  function Survivors(c: TrainConfig, group: seq<Rollout>): seq<Rollout>
    requires group != [] ==> Configured(c, group[0].env)
  {
    if group == [] || (AnyError(group) && c.scored[group[0].env]) then []
    else
      var clean := Errorless(group);
      if clean == [] || !c.dropLimited then Passing(c, clean, |clean|)
      else if AnyLimited(c, group) && c.scored[group[0].env] then []
      else
        var kept := Unlimited(c, clean);
        Passing(c, kept, |kept|)
  }

  function TokensOf(c: TrainConfig, batch: seq<Rollout>): nat {
    if batch == [] then 0 else TokensOf(c, batch[..|batch| - 1]) + c.tokens(batch[|batch| - 1])
  }

  function Append(p: Pending, r: Rollout): Pending { p.(groups := p.groups[r.gid := Waiting(p, r.gid) + [r]]) }

  function CountedTokens(c: TrainConfig, rollouts: seq<Rollout>): nat { if c.cut.Tokens? then TokensOf(c, rollouts) else 0 }

  /** `process_group`. */
  function ProcessGroup(c: TrainConfig, p: Pending, g: GroupId): Pending
    requires Waiting(p, g) != [] ==> Configured(c, Waiting(p, g)[0].env)
  {
    var added := Survivors(c, Waiting(p, g));
    Pending(p.groups - {g}, p.batch + added, p.tokens + CountedTokens(c, added))
  }

  predicate Ready(c: TrainConfig, p: Pending) {
    match c.cut
    case Rollouts(size) => |p.batch| >= size
    case Tokens(target) => p.tokens >= target
  }

  /** Where the token loop stops: after the rollout that reaches the target, or at the end. */
  function TokenCut(c: TrainConfig, batch: seq<Rollout>, target: nat, n: nat): (cut: nat)
    requires n <= |batch|
    ensures n <= cut <= |batch|
    decreases |batch| - n
  {
    if n == |batch| then n
    else if TokensOf(c, batch[..n + 1]) >= target then n + 1
    else TokenCut(c, batch, target, n + 1)
  }

  function CutPoint(c: TrainConfig, batch: seq<Rollout>): (cut: nat)
    ensures cut <= |batch|
  {
    match c.cut
    case Rollouts(size) => if size <= |batch| then size else |batch|
    case Tokens(target) => TokenCut(c, batch, target, 0)
  }

  /** The cohort part of `process_batch`. */
  function ProcessBatch(c: TrainConfig, p: Pending): (Pending, seq<Rollout>) {
    var cut := CutPoint(c, p.batch);
    (p.(batch := p.batch[cut..], tokens := p.tokens - CountedTokens(c, p.batch[..cut])), p.batch[..cut])
  }

  function Filled(c: TrainConfig, p: Pending, r: Rollout): Pending
    requires Configured(c, r.env) && (Waiting(p, r.gid) != [] ==> Waiting(p, r.gid)[0].env == r.env)
  {
    var appended := Append(p, r);
    if |Waiting(appended, r.gid)| >= c.groupSize[r.env] then ProcessGroup(c, appended, r.gid) else appended
  }

  /** `add`: what stays pending, and the cohort shipped, if any. */
  function Arrive(c: TrainConfig, p: Pending, r: Rollout): (Pending, Option<seq<Rollout>>)
    requires Configured(c, r.env) && (Waiting(p, r.gid) != [] ==> Waiting(p, r.gid)[0].env == r.env)
  {
    var filled := Filled(c, p, r);
    if Ready(c, filled) then (ProcessBatch(c, filled).0, Some(ProcessBatch(c, filled).1)) else (filled, None)
  }

  class TrainSink {
    const c: TrainConfig
    var pendingGroups: map<GroupId, seq<Rollout>>
    var pendingBatch: seq<Rollout>
    var pendingTokens: int

    ghost function Data(): Pending
      reads this
    {
      Pending(pendingGroups, pendingBatch, pendingTokens)
    }

    constructor (c: TrainConfig)
      ensures this.c == c && Data() == Pending(map[], [], 0)
    {
      this.c, pendingGroups, pendingBatch, pendingTokens := c, map[], [], 0;
    }

    method Add(r: Rollout) returns (cohort: Option<seq<Rollout>>)
      requires Configured(c, r.env) && (Waiting(Data(), r.gid) != [] ==> Waiting(Data(), r.gid)[0].env == r.env)
      modifies this
      ensures (Data(), cohort) == Arrive(c, old(Data()), r)
    {
      var group := (if r.gid in pendingGroups then pendingGroups[r.gid] else []) + [r];
      pendingGroups := pendingGroups[r.gid := group];
      if |group| >= c.groupSize[r.env] {
        FinishGroup(r.gid);
      }
      var ready := match c.cut
        case Rollouts(size) => |pendingBatch| >= size
        case Tokens(target) => pendingTokens >= target;
      if !ready {
        return None;
      }
      var shipped := Ship();
      cohort := Some(shipped);
    }

    /** `process_group`. */
    method FinishGroup(g: GroupId)
      requires Waiting(Data(), g) != [] ==> Configured(c, Waiting(Data(), g)[0].env)
      modifies this
      ensures Data() == ProcessGroup(c, old(Data()), g)
    {
      var group := if g in pendingGroups then pendingGroups[g] else [];
      pendingGroups := pendingGroups - {g};
      var survivors := Select(group);
      TakeIn(survivors);
    }

    /** Which rollouts of a group go on. */
    method Select(group: seq<Rollout>) returns (survivors: seq<Rollout>)
      requires group != [] ==> Configured(c, group[0].env)
      ensures survivors == Survivors(c, group)
    {
      if group == [] {
        return [];
      }
      var scored := c.scored[group[0].env];
      var clean := DropErrors(group);
      ErrorlessLength(group);
      if |clean| < |group| && scored {
        return [];
      }
      if clean == [] {
        return [];
      }
      if c.dropLimited {
        var kept := DropLimited(clean);
        if AnyLimited(c, group) && scored {
          return [];
        }
        clean := kept;
      }
      survivors := Filter(clean);
    }

    method DropErrors(group: seq<Rollout>) returns (clean: seq<Rollout>)
      ensures clean == Errorless(group)
    {
      clean := [];
      var i := 0;
      while i < |group|
        invariant 0 <= i <= |group| && clean == Errorless(group[..i])
      {
        assert group[..i + 1][..i] == group[..i];
        if !HasError(group[i]) {
          clean := clean + [group[i]];
        }
        i := i + 1;
      }
      assert group[..i] == group;
    }

    method DropLimited(clean: seq<Rollout>) returns (kept: seq<Rollout>)
      ensures kept == Unlimited(c, clean)
    {
      kept := [];
      var i := 0;
      while i < |clean|
        invariant 0 <= i <= |clean| && kept == Unlimited(c, clean[..i])
      {
        assert clean[..i + 1][..i] == clean[..i];
        if !c.limited(clean[i]) {
          kept := kept + [clean[i]];
        }
        i := i + 1;
      }
      assert clean[..i] == clean;
    }

    method Filter(clean: seq<Rollout>) returns (survivors: seq<Rollout>)
      ensures survivors == Passing(c, clean, |clean|)
    {
      survivors := [];
      var i := 0;
      while i < |clean|
        invariant 0 <= i <= |clean| && survivors == Passing(c, clean, i)
      {
        if c.passes(clean, i) {
          survivors := survivors + [clean[i]];
        }
        i := i + 1;
      }
    }

    method TakeIn(survivors: seq<Rollout>)
      modifies this`pendingBatch, this`pendingTokens
      ensures pendingBatch == old(pendingBatch) + survivors
      ensures pendingTokens == old(pendingTokens) + CountedTokens(c, survivors)
    {
      var i := 0;
      while i < |survivors|
        invariant 0 <= i <= |survivors| && pendingBatch == old(pendingBatch) + survivors[..i]
        invariant pendingTokens == old(pendingTokens) + CountedTokens(c, survivors[..i])
      {
        assert survivors[..i + 1][..i] == survivors[..i];
        pendingBatch := pendingBatch + [survivors[i]];
        if c.cut.Tokens? {
          pendingTokens := pendingTokens + c.tokens(survivors[i]);
        }
        i := i + 1;
      }
      assert survivors[..i] == survivors;
    }

    /** `process_batch`, up to the cohort. */
    method Ship() returns (cohort: seq<Rollout>)
      modifies this`pendingBatch, this`pendingTokens
      ensures (Data(), cohort) == ProcessBatch(c, old(Data()))
    {
      match c.cut {
        case Rollouts(size) =>
          var cut := if size <= |pendingBatch| then size else |pendingBatch|;
          cohort, pendingBatch := pendingBatch[..cut], pendingBatch[cut..];
        case Tokens(target) =>
          var cut, running := CountOff(target);
          cohort, pendingBatch := pendingBatch[..cut], pendingBatch[cut..];
          pendingTokens := pendingTokens - running;
      }
    }

    method CountOff(target: nat) returns (cut: nat, running: nat)
      ensures cut == TokenCut(c, pendingBatch, target, 0) && running == TokensOf(c, pendingBatch[..cut])
    {
      cut, running := 0, 0;
      while cut < |pendingBatch|
        invariant 0 <= cut <= |pendingBatch| && running == TokensOf(c, pendingBatch[..cut])
        invariant TokenCut(c, pendingBatch, target, cut) == TokenCut(c, pendingBatch, target, 0)
      {
        assert pendingBatch[..cut + 1][..cut] == pendingBatch[..cut];
        running := running + c.tokens(pendingBatch[cut]);
        cut := cut + 1;
        if running >= target {
          return;
        }
      }
    }
  }

  lemma {:induction false} ErrorlessLength(group: seq<Rollout>)
    ensures |Errorless(group)| <= |group|
    ensures |Errorless(group)| < |group| <==> AnyError(group)
  {
    if group != [] {
      var n := |group| - 1;
      ErrorlessLength(group[..n]);
      if AnyError(group[..n]) {
        var i :| 0 <= i < n && HasError(group[..n][i]);
        assert HasError(group[i]);
      }
      if AnyError(group) && !HasError(group[n]) {
        var i :| 0 <= i < |group| && HasError(group[i]);
        assert HasError(group[..n][i]);
      }
    }
  }
}

/** The queue of eval examples and its trigger (src/prime_rl/orchestrator/eval_source.py:29-81). */
module EvalSource {
  import opened Sequences
  import opened Wrappers
  import opened DispatchProtocol

  /** The eval environments in configuration order: name, interval, and task indices of the examples. */
  datatype EvalEnv = EvalEnv(name: string, interval: nat, tasks: seq<int>, spec: EnvSpec)

  predicate Fires(env: EvalEnv, first: bool, step: nat)
    requires env.interval > 0
  {
    first || step % env.interval == 0
  }

  /** Intervals are positive in any configuration. */
  predicate PositiveIntervals(envs: seq<EvalEnv>) { forall i :: 0 <= i < |envs| ==> envs[i].interval > 0 }

  function Fired(envs: seq<EvalEnv>, first: bool, step: nat): seq<EvalEnv>
    requires PositiveIntervals(envs)
  {
    if envs == [] then []
    else
      var before := Fired(envs[..|envs| - 1], first, step);
      if Fires(envs[|envs| - 1], first, step) then before + [envs[|envs| - 1]] else before
  }

  // ---- The round-robin order as positions (round, environment) ----

  type Position = (nat, nat)

  /** The positions of round `k` among the first `n` environments. */
  function RoundPositions(envs: seq<EvalEnv>, k: nat, n: nat): seq<Position>
    requires n <= |envs|
  {
    if n == 0 then []
    else if k < |envs[n - 1].tasks| then RoundPositions(envs, k, n - 1) + [(k, n - 1)]
    else RoundPositions(envs, k, n - 1)
  }

  /** The positions of the first `k` rounds. */
  function Positions(envs: seq<EvalEnv>, k: nat): seq<Position> {
    if k == 0 then [] else Positions(envs, k - 1) + RoundPositions(envs, k - 1, |envs|)
  }

  function Longest(envs: seq<EvalEnv>): (m: nat)
    ensures forall i :: 0 <= i < |envs| ==> |envs[i].tasks| <= m
  {
    if envs == [] then 0
    else
      var before := Longest(envs[..|envs| - 1]);
      if |envs[|envs| - 1].tasks| > before then |envs[|envs| - 1].tasks| else before
  }

  predicate InTable(envs: seq<EvalEnv>, p: Position) { p.1 < |envs| && p.0 < |envs[p.1].tasks| }

  predicate AllInTable(envs: seq<EvalEnv>, ps: seq<Position>) { forall i :: 0 <= i < |ps| ==> InTable(envs, ps[i]) }

  function RowAt(envs: seq<EvalEnv>, p: Position, step: nat): Example
    requires InTable(envs, p)
  {
    Example(envs[p.1].name, envs[p.1].tasks[p.0], Some(step))
  }

  function RowsAt(envs: seq<EvalEnv>, ps: seq<Position>, step: nat): (r: seq<Example>)
    requires AllInTable(envs, ps)
    ensures |r| == |ps|
  {
    seq(|ps|, i requires 0 <= i < |ps| => RowAt(envs, ps[i], step))
  }

  predicate OfRound(ps: seq<Position>, k: nat, n: nat) {
    forall i :: 0 <= i < |ps| ==> ps[i].0 == k && ps[i].1 < n
  }

  predicate Rising(ps: seq<Position>) { forall i, j :: 0 <= i < j < |ps| ==> ps[i].1 < ps[j].1 }

  lemma {:induction false} RoundInTable(envs: seq<EvalEnv>, k: nat, n: nat)
    requires n <= |envs|
    ensures AllInTable(envs, RoundPositions(envs, k, n))
    ensures OfRound(RoundPositions(envs, k, n), k, n) && Rising(RoundPositions(envs, k, n))
    ensures forall e :: 0 <= e < n && k < |envs[e].tasks| ==> (k, e) in RoundPositions(envs, k, n)
  {
    if n > 0 {
      RoundInTable(envs, k, n - 1);
    }
  }

  predicate Before(p: Position, q: Position) { p.0 < q.0 || (p.0 == q.0 && p.1 < q.1) }

  ghost predicate Ordered(ps: seq<Position>) { forall i, j :: 0 <= i < j < |ps| ==> Before(ps[i], ps[j]) }

  ghost predicate Holds(envs: seq<EvalEnv>, ps: seq<Position>, k: nat) {
    forall p: Position :: p in ps <==> InTable(envs, p) && p.0 < k
  }

  lemma NextRoundOrdered(before: seq<Position>, round: seq<Position>, k: nat)
    requires Ordered(before) && (forall i :: 0 <= i < |before| ==> before[i].0 < k)
    requires forall i :: 0 <= i < |round| ==> round[i].0 == k
    requires forall i, j :: 0 <= i < j < |round| ==> round[i].1 < round[j].1
    ensures Ordered(before + round)
  {
  }

  lemma NextRoundHolds(envs: seq<EvalEnv>, before: seq<Position>, round: seq<Position>, k: nat)
    requires Holds(envs, before, k) && AllInTable(envs, round)
    requires forall i :: 0 <= i < |round| ==> round[i].0 == k
    requires forall e :: 0 <= e < |envs| && k < |envs[e].tasks| ==> (k, e) in round
    ensures Holds(envs, before + round, k + 1)
  {
    forall p: Position ensures p in before + round <==> InTable(envs, p) && p.0 < k + 1 {
      if p in round {
        var i :| 0 <= i < |round| && round[i] == p;
      }
      if InTable(envs, p) && p.0 == k {
        assert p == (k, p.1);
      }
    }
  }

  /** The queueing order: every example of every environment exactly once, the first ones of all
      environments before all second ones, and so on (A1, B1, A2, B2, ...). */
  lemma {:induction false} RoundRobinOrder(envs: seq<EvalEnv>, k: nat)
    ensures AllInTable(envs, Positions(envs, k)) && Ordered(Positions(envs, k)) && Holds(envs, Positions(envs, k), k)
  {
    if k > 0 {
      RoundRobinOrder(envs, k - 1);
      RoundInTable(envs, k - 1, |envs|);
      var before, round := Positions(envs, k - 1), RoundPositions(envs, k - 1, |envs|);
      forall i | 0 <= i < |before| ensures before[i].0 < k - 1 {
        assert before[i] in before;
      }
      NextRoundOrdered(before, round, k - 1);
      NextRoundHolds(envs, before, round, k - 1);
    }
  }

  /** The rows of the first `k` rounds. */
  function RowsUpTo(envs: seq<EvalEnv>, k: nat, step: nat): seq<Example> {
    RoundRobinOrder(envs, k);
    RowsAt(envs, Positions(envs, k), step)
  }

  function RowsOfRound(envs: seq<EvalEnv>, k: nat, step: nat): seq<Example> {
    RoundInTable(envs, k, |envs|);
    RowsAt(envs, RoundPositions(envs, k, |envs|), step)
  }

  lemma RowsGrow(envs: seq<EvalEnv>, k: nat, step: nat)
    ensures RowsUpTo(envs, k + 1, step) == RowsUpTo(envs, k, step) + RowsOfRound(envs, k, step)
  {
    RoundRobinOrder(envs, k);
    RoundInTable(envs, k, |envs|);
    RowsConcat(envs, Positions(envs, k), RoundPositions(envs, k, |envs|), step);
  }

  function AllRows(envs: seq<EvalEnv>, step: nat): seq<Example> { RowsUpTo(envs, Longest(envs), step) }

  /** The rows a trigger queues. */
  function Triggered(envs: seq<EvalEnv>, first: bool, skipFirst: bool, step: nat): seq<Example>
    requires PositiveIntervals(envs)
  {
    if first && skipFirst then [] else AllRows(Fired(envs, first, step), step)
  }

  class EvalSource {
    const envs: seq<EvalEnv>
    const skipFirst: bool
    var queue: seq<Example>
    var firstTrigger: bool

    constructor (envs: seq<EvalEnv>, skipFirst: bool, resumed: bool)
      ensures this.envs == envs && this.skipFirst == skipFirst && queue == [] && firstTrigger == !resumed
    {
      this.envs, this.skipFirst, queue, firstTrigger := envs, skipFirst, [], !resumed;
    }

    method Trigger(step: nat) returns (fired: seq<EvalEnv>)
      requires PositiveIntervals(envs)
      modifies this
      ensures !firstTrigger
      ensures fired == if old(firstTrigger) && skipFirst then [] else Fired(envs, old(firstTrigger), step)
      ensures queue == old(queue) + Triggered(envs, old(firstTrigger), skipFirst, step)
    {
      var first := firstTrigger;
      firstTrigger := false;
      if first && skipFirst {
        return [];
      }
      fired := CollectFired(first, step);
      QueueRows(fired, step);
    }

    method CollectFired(first: bool, step: nat) returns (fired: seq<EvalEnv>)
      requires PositiveIntervals(envs)
      ensures fired == Fired(envs, first, step)
    {
      fired := [];
      var i := 0;
      while i < |envs|
        invariant 0 <= i <= |envs| && fired == Fired(envs[..i], first, step)
      {
        assert envs[..i + 1][..i] == envs[..i];
        if first || step % envs[i].interval == 0 {
          fired := fired + [envs[i]];
        }
        i := i + 1;
      }
      assert envs[..i] == envs;
    }

    method QueueRows(fired: seq<EvalEnv>, step: nat)
      modifies this`queue
      ensures queue == old(queue) + AllRows(fired, step)
    {
      var longest := Longest(fired);
      ghost var before := queue;
      var k := 0;
      while k < longest
        invariant 0 <= k <= longest && queue == before + RowsUpTo(fired, k, step)
      {
        QueueRound(fired, k, step);
        RowsGrow(fired, k, step);
        k := k + 1;
      }
    }

    method QueueRound(fired: seq<EvalEnv>, k: nat, step: nat)
      modifies this`queue
      ensures queue == old(queue) + RowsOfRound(fired, k, step)
    {
      RoundInTable(fired, k, 0);
      var e := 0;
      while e < |fired|
        invariant 0 <= e <= |fired| && AllInTable(fired, RoundPositions(fired, k, e))
        invariant queue == old(queue) + RowsAt(fired, RoundPositions(fired, k, e), step)
      {
        RoundInTable(fired, k, e + 1);
        if k < |fired[e].tasks| {
          RowsConcat(fired, RoundPositions(fired, k, e), [(k, e)], step);
          queue := queue + [Example(fired[e].name, fired[e].tasks[k], Some(step))];
        } else {
          assert RoundPositions(fired, k, e + 1) == RoundPositions(fired, k, e);
        }
        e := e + 1;
      }
    }

    /** `next_example`: the head of the queue, if its cost fits. */
    method NextExample(available: int, specs: map<string, EnvSpec>) returns (r: Option<Example>)
      requires queue != [] ==> queue[0].env in specs
      modifies this`queue
      ensures r.Some? ==> old(queue) != []
      ensures old(queue) != [] ==>
        var spec := specs[old(queue)[0].env];
        r.Some? == ((if spec.groupScored then spec.groupSize else 1) <= available)
      ensures if r.Some? then r.value == old(queue)[0] && queue == old(queue)[1..] else queue == old(queue)
    {
      if queue == [] {
        return None;
      }
      var head := queue[0];
      var spec := specs[head.env];
      var cost := if spec.groupScored then spec.groupSize else 1;
      if cost > available {
        return None;
      }
      queue := queue[1..];
      r := Some(head);
    }
  }

  lemma RowsConcat(envs: seq<EvalEnv>, p: seq<Position>, q: seq<Position>, step: nat)
    requires AllInTable(envs, p) && AllInTable(envs, q)
    ensures AllInTable(envs, p + q) && RowsAt(envs, p + q, step) == RowsAt(envs, p, step) + RowsAt(envs, q, step)
  {
  }
}

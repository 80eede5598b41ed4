/** From triggers through the dispatcher to the eval sink: every fired epoch becomes one batch
    (src/prime_rl/orchestrator/eval_source.py:47-69; src/prime_rl/orchestrator/dispatcher.py:371-396;
    src/prime_rl/orchestrator/eval_sink.py:90-110; src/prime_rl/orchestrator/orchestrator.py:596-606, 796). */
module EvalPipeline {
  import opened Sequences
  import opened Wrappers
  import opened DispatchProtocol
  import DispatchInvariant
  import DispatchTheorems
  import opened EvalSource
  import Sink = EvalSink
  import EvalEpochs

  type Key = Sink.Key

  function RowKey(row: Example): Key { (row.env, row.evalStep) }

  function RowCount(rows: seq<Example>, k: Key): nat {
    if rows == [] then 0 else RowCount(rows[..|rows| - 1], k) + if RowKey(rows[|rows| - 1]) == k then 1 else 0
  }

  /** All rows queued by triggers at the given steps; only a fresh run has a startup trigger. */
  function AllTriggered(envs: seq<EvalEnv>, skipFirst: bool, resumed: bool, steps: seq<nat>): seq<Example>
    requires PositiveIntervals(envs)
  {
    if steps == [] then []
    else
      AllTriggered(envs, skipFirst, resumed, steps[..|steps| - 1]) +
      Triggered(envs, |steps| == 1 && !resumed, skipFirst, steps[|steps| - 1])
  }

  predicate DistinctNames(envs: seq<EvalEnv>) {
    forall i, j :: 0 <= i < j < |envs| ==> envs[i].name != envs[j].name
  }

  predicate DistinctSteps(steps: seq<nat>) {
    forall i, j :: 0 <= i < j < |steps| ==> steps[i] != steps[j]
  }

  function EpochKey(env: string, step: int): Key { (env, Some(step)) }

  /** Task indices of the rows of epoch `k`, in order. */
  function RowTasks(rows: seq<Example>, k: Key): seq<int> {
    if rows == [] then []
    else
      var before, last := RowTasks(rows[..|rows| - 1], k), rows[|rows| - 1];
      if RowKey(last) == k then before + [last.taskIdx] else before
  }

  lemma {:induction false} RowsAreCounted(rows: seq<Example>, k: Key)
    ensures |RowTasks(rows, k)| == RowCount(rows, k)
    ensures RowCount(rows, k) > 0 <==> exists i :: 0 <= i < |rows| && RowKey(rows[i]) == k
  {
    if rows != [] {
      var n := |rows| - 1;
      RowsAreCounted(rows[..n], k);
      if RowCount(rows[..n], k) > 0 {
        var i :| 0 <= i < n && RowKey(rows[..n][i]) == k;
        assert RowKey(rows[i]) == k;
      }
      if i :| 0 <= i < |rows| && RowKey(rows[i]) == k {
        if i < n {
          assert RowKey(rows[..n][i]) == k;
        }
      }
    }
  }

  // ---- A trigger queues each example of a fired environment once ----

  /** Task indices at the positions of environment `e`, in order. */
  function EnvTasks(envs: seq<EvalEnv>, ps: seq<Position>, e: nat): seq<int>
    requires AllInTable(envs, ps)
  {
    if ps == [] then []
    else
      var before, last := EnvTasks(envs, ps[..|ps| - 1], e), ps[|ps| - 1];
      if last.1 == e then before + [envs[last.1].tasks[last.0]] else before
  }

  lemma EnvTasksSnoc(envs: seq<EvalEnv>, ps: seq<Position>, p: Position, e: nat)
    requires AllInTable(envs, ps) && InTable(envs, p) && AllInTable(envs, ps + [p])
    ensures EnvTasks(envs, ps + [p], e) ==
      if p.1 == e then EnvTasks(envs, ps, e) + [envs[p.1].tasks[p.0]] else EnvTasks(envs, ps, e)
  {
    assert (ps + [p])[..|ps|] == ps;
  }

  /** The rounds before `k`, and round `k` up to environment `n`. */
  function Upto(envs: seq<EvalEnv>, k: nat, n: nat): (ps: seq<Position>)
    requires n <= |envs|
    ensures AllInTable(envs, ps)
  {
    RoundRobinOrder(envs, k);
    RoundInTable(envs, k, n);
    Positions(envs, k) + RoundPositions(envs, k, n)
  }

  lemma UptoNext(envs: seq<EvalEnv>, k: nat, n: nat)
    requires n < |envs|
    ensures Upto(envs, k, n + 1) == if k < |envs[n].tasks| then Upto(envs, k, n) + [(k, n)] else Upto(envs, k, n)
  {
  }

  function TasksUpTo(env: EvalEnv, k: nat): seq<int> { if k <= |env.tasks| then env.tasks[..k] else env.tasks }

  lemma OneTaskMore(env: EvalEnv, k: nat)
    ensures TasksUpTo(env, k + 1) == if k < |env.tasks| then TasksUpTo(env, k) + [env.tasks[k]] else TasksUpTo(env, k)
  {
  }

  /** Position `(k, n)` adds the next example to environment `n` and none to others. */
  lemma NextTask(envs: seq<EvalEnv>, k: nat, n: nat, e: nat, before: seq<Position>, after: seq<Position>)
    requires n < |envs| && e < |envs| && AllInTable(envs, before) && AllInTable(envs, after)
    requires after == if k < |envs[n].tasks| then before + [(k, n)] else before
    requires EnvTasks(envs, before, e) == TasksUpTo(envs[e], if e < n then k + 1 else k)
    ensures EnvTasks(envs, after, e) == TasksUpTo(envs[e], if e <= n then k + 1 else k)
  {
    OneTaskMore(envs[n], k);
    if k < |envs[n].tasks| {
      EnvTasksSnoc(envs, before, (k, n), e);
    }
  }

  lemma {:induction false} UptoTasks(envs: seq<EvalEnv>, k: nat, n: nat, e: nat)
    requires n <= |envs| && e < |envs|
    requires EnvTasks(envs, Upto(envs, k, 0), e) == TasksUpTo(envs[e], k)
    ensures EnvTasks(envs, Upto(envs, k, n), e) == TasksUpTo(envs[e], if e < n then k + 1 else k)
  {
    if n > 0 {
      var m := n - 1;
      UptoTasks(envs, k, m, e);
      UptoNext(envs, k, m);
      NextTask(envs, k, m, e, Upto(envs, k, m), Upto(envs, k, n));
    }
  }

  lemma {:induction false} PositionTasks(envs: seq<EvalEnv>, k: nat, e: nat)
    requires e < |envs|
    ensures EnvTasks(envs, Upto(envs, k, 0), e) == TasksUpTo(envs[e], k)
  {
    if k == 0 {
      assert Upto(envs, 0, 0) == [];
    } else {
      PositionTasks(envs, k - 1, e);
      UptoTasks(envs, k - 1, |envs|, e);
      assert Upto(envs, k, 0) == Upto(envs, k - 1, |envs|);
    }
  }

  lemma {:induction false} RowsByEnv(envs: seq<EvalEnv>, ps: seq<Position>, step: nat, e: nat)
    requires AllInTable(envs, ps) && DistinctNames(envs) && e < |envs|
    ensures RowTasks(RowsAt(envs, ps, step), EpochKey(envs[e].name, step)) == EnvTasks(envs, ps, e)
  {
    if ps != [] {
      var n := |ps| - 1;
      RowsByEnv(envs, ps[..n], step, e);
      assert RowsAt(envs, ps, step)[..n] == RowsAt(envs, ps[..n], step);
      if ps[n].1 != e {
        assert envs[ps[n].1].name != envs[e].name;
      }
    }
  }

  lemma EpochRows(envs: seq<EvalEnv>, step: nat, e: nat)
    requires DistinctNames(envs) && e < |envs|
    ensures RowTasks(AllRows(envs, step), EpochKey(envs[e].name, step)) == envs[e].tasks
  {
    var ps := Upto(envs, Longest(envs), 0);
    assert Positions(envs, Longest(envs)) == ps;
    RowsByEnv(envs, ps, step, e);
    PositionTasks(envs, Longest(envs), e);
    assert envs[e].tasks[..|envs[e].tasks|] == envs[e].tasks;
  }

  lemma {:induction false} FiredAre(envs: seq<EvalEnv>, first: bool, step: nat)
    requires PositiveIntervals(envs) && DistinctNames(envs)
    ensures DistinctNames(Fired(envs, first, step))
    ensures forall env :: env in Fired(envs, first, step) <==> env in envs && Fires(env, first, step)
  {
    if envs != [] {
      var n := |envs| - 1;
      FiredAre(envs[..n], first, step);
      var before := Fired(envs[..n], first, step);
      assert envs == envs[..n] + [envs[n]];
      forall i | 0 <= i < |before| ensures before[i].name != envs[n].name {
        assert before[i] in envs[..n];
        var j :| 0 <= j < n && envs[..n][j] == before[i];
        assert envs[j].name != envs[n].name;
      }
    }
  }

  lemma {:induction false} NoSuchRow(rows: seq<Example>, k: Key)
    requires forall i :: 0 <= i < |rows| ==> RowKey(rows[i]) != k
    ensures RowTasks(rows, k) == []
  {
    if rows != [] {
      NoSuchRow(rows[..|rows| - 1], k);
    }
  }

  /** Every row of a trigger is of its step and of an environment that fires. */
  lemma TriggeredFrom(envs: seq<EvalEnv>, first: bool, skipFirst: bool, step: nat, k: nat) returns (e: nat)
    requires PositiveIntervals(envs) && DistinctNames(envs) && k < |Triggered(envs, first, skipFirst, step)|
    ensures e < |envs| && RowKey(Triggered(envs, first, skipFirst, step)[k]) == EpochKey(envs[e].name, step)
    ensures Fires(envs[e], first, step)
  {
    var fired := Fired(envs, first, step);
    FiredAre(envs, first, step);
    RoundRobinOrder(fired, Longest(fired));
    var p := Positions(fired, Longest(fired))[k];
    assert InTable(fired, p) && fired[p.1] in envs;
    e :| 0 <= e < |envs| && envs[e] == fired[p.1];
  }

  /** A trigger queues the examples of each environment that fires, each once and in order, and nothing else. */
  lemma TriggerTasks(envs: seq<EvalEnv>, first: bool, skipFirst: bool, step: nat, e: nat)
    requires PositiveIntervals(envs) && DistinctNames(envs) && e < |envs|
    ensures RowTasks(Triggered(envs, first, skipFirst, step), EpochKey(envs[e].name, step)) ==
      if !(first && skipFirst) && Fires(envs[e], first, step) then envs[e].tasks else []
  {
    var rows, k := Triggered(envs, first, skipFirst, step), EpochKey(envs[e].name, step);
    FiredAre(envs, first, step);
    if !(first && skipFirst) && Fires(envs[e], first, step) {
      var fired := Fired(envs, first, step);
      assert envs[e] in fired;
      var f :| 0 <= f < |fired| && fired[f] == envs[e];
      EpochRows(fired, step, f);
    } else {
      forall i | 0 <= i < |rows| ensures RowKey(rows[i]) != k {
        var x := TriggeredFrom(envs, first, skipFirst, step, i);
        assert x != e ==> envs[x].name != envs[e].name;
      }
      NoSuchRow(rows, k);
    }
  }

  lemma {:induction false} RowTasksConcat(a: seq<Example>, b: seq<Example>, k: Key)
    ensures RowTasks(a + b, k) == RowTasks(a, k) + RowTasks(b, k)
    ensures RowCount(a + b, k) == RowCount(a, k) + RowCount(b, k)
  {
    if b == [] {
      assert a + b == a;
    } else {
      assert (a + b)[..|a + b| - 1] == a + b[..|b| - 1];
      RowTasksConcat(a, b[..|b| - 1], k);
    }
  }

  /** Environment `e` fires at the `j`-th trigger: at the startup trigger of a fresh run unless it is to be skipped, and
      at any other when its interval divides the step. */
  predicate FiresAt(envs: seq<EvalEnv>, skipFirst: bool, resumed: bool, steps: seq<nat>, j: nat, e: nat)
    requires PositiveIntervals(envs) && j < |steps| && e < |envs|
  {
    if j == 0 && !resumed then !skipFirst else steps[j] % envs[e].interval == 0
  }

  lemma {:induction false} RowOrigin(envs: seq<EvalEnv>, skipFirst: bool, resumed: bool, steps: seq<nat>, k: nat)
    returns (j: nat, e: nat)
    requires PositiveIntervals(envs) && DistinctNames(envs) && k < |AllTriggered(envs, skipFirst, resumed, steps)|
    ensures j < |steps| && e < |envs|
    ensures RowKey(AllTriggered(envs, skipFirst, resumed, steps)[k]) == EpochKey(envs[e].name, steps[j])
    decreases |steps|
  {
    var n := |steps| - 1;
    var before := AllTriggered(envs, skipFirst, resumed, steps[..n]);
    if k < |before| {
      j, e := RowOrigin(envs, skipFirst, resumed, steps[..n], k);
    } else {
      j := n;
      e := TriggeredFrom(envs, |steps| == 1 && !resumed, skipFirst, steps[n], k - |before|);
    }
  }

  /** No earlier trigger queued a row of the last step. */
  lemma NoEarlierRow(envs: seq<EvalEnv>, skipFirst: bool, resumed: bool, steps: seq<nat>, step: nat, env: string)
    requires PositiveIntervals(envs) && DistinctNames(envs) && step !in steps
    ensures RowTasks(AllTriggered(envs, skipFirst, resumed, steps), EpochKey(env, step)) == []
  {
    var rows := AllTriggered(envs, skipFirst, resumed, steps);
    forall i | 0 <= i < |rows| ensures RowKey(rows[i]) != EpochKey(env, step) {
      var x, y := RowOrigin(envs, skipFirst, resumed, steps, i);
    }
    NoSuchRow(rows, EpochKey(env, step));
  }

  /** A trigger queues no row of another step. */
  lemma NoOtherRow(envs: seq<EvalEnv>, first: bool, skipFirst: bool, step: nat, k: Key)
    requires PositiveIntervals(envs) && DistinctNames(envs) && k.1 != Some(step)
    ensures RowTasks(Triggered(envs, first, skipFirst, step), k) == []
  {
    var rows := Triggered(envs, first, skipFirst, step);
    forall i | 0 <= i < |rows| ensures RowKey(rows[i]) != k {
      var x := TriggeredFrom(envs, first, skipFirst, step, i);
    }
    NoSuchRow(rows, k);
  }

  /** The rows of epoch `k` queued by the first `m + 1` triggers. */
  lemma MoreSteps(envs: seq<EvalEnv>, skipFirst: bool, resumed: bool, steps: seq<nat>, m: nat, k: Key)
    requires PositiveIntervals(envs) && m < |steps|
    ensures RowTasks(AllTriggered(envs, skipFirst, resumed, steps[..m + 1]), k) ==
      RowTasks(AllTriggered(envs, skipFirst, resumed, steps[..m]), k) +
      RowTasks(Triggered(envs, m == 0 && !resumed, skipFirst, steps[m]), k)
  {
    assert steps[..m + 1][..m] == steps[..m];
    RowTasksConcat(AllTriggered(envs, skipFirst, resumed, steps[..m]),
      Triggered(envs, m == 0 && !resumed, skipFirst, steps[m]), k);
  }

  lemma PlusNothing(joined: seq<int>, a: seq<int>, b: seq<int>)
    requires joined == a + b
    ensures (a == [] ==> joined == b) && (b == [] ==> joined == a)
  {
  }

  /** One trigger among others that queue nothing of epoch `k`. */
  lemma OneMoreTrigger(envs: seq<EvalEnv>, skipFirst: bool, resumed: bool, steps: seq<nat>, m: nat, k: Key)
    requires PositiveIntervals(envs) && m < |steps|
    ensures var before := RowTasks(AllTriggered(envs, skipFirst, resumed, steps[..m]), k);
      var latest := RowTasks(Triggered(envs, m == 0 && !resumed, skipFirst, steps[m]), k);
      var after := RowTasks(AllTriggered(envs, skipFirst, resumed, steps[..m + 1]), k);
      (before == [] ==> after == latest) && (latest == [] ==> after == before)
  {
    MoreSteps(envs, skipFirst, resumed, steps, m, k);
    PlusNothing(RowTasks(AllTriggered(envs, skipFirst, resumed, steps[..m + 1]), k),
      RowTasks(AllTriggered(envs, skipFirst, resumed, steps[..m]), k),
      RowTasks(Triggered(envs, m == 0 && !resumed, skipFirst, steps[m]), k));
  }

  lemma {:induction false} LaterTriggers(envs: seq<EvalEnv>, skipFirst: bool, resumed: bool, steps: seq<nat>, j: nat, m: nat, k: Key)
    requires PositiveIntervals(envs) && DistinctNames(envs) && DistinctSteps(steps)
    requires j < m <= |steps| && k.1 == Some(steps[j])
    ensures RowTasks(AllTriggered(envs, skipFirst, resumed, steps[..m]), k) ==
      RowTasks(AllTriggered(envs, skipFirst, resumed, steps[..j + 1]), k)
  {
    var i := m - 1;
    if j < i {
      LaterTriggers(envs, skipFirst, resumed, steps, j, i, k);
      OneMoreTrigger(envs, skipFirst, resumed, steps, i, k);
      NoOtherRow(envs, i == 0 && !resumed, skipFirst, steps[i], k);
    }
  }

  /** Triggers at distinct steps queue, for each environment and step, exactly one row for each example, in
      order, if the environment fires there, and no row if it does not. */
  lemma EpochTasks(envs: seq<EvalEnv>, skipFirst: bool, resumed: bool, steps: seq<nat>, j: nat, e: nat)
    requires PositiveIntervals(envs) && DistinctNames(envs) && DistinctSteps(steps) && j < |steps| && e < |envs|
    ensures RowTasks(AllTriggered(envs, skipFirst, resumed, steps), EpochKey(envs[e].name, steps[j])) ==
      if FiresAt(envs, skipFirst, resumed, steps, j, e) then envs[e].tasks else []
  {
    var k := EpochKey(envs[e].name, steps[j]);
    NoEarlierRow(envs, skipFirst, resumed, steps[..j], steps[j], envs[e].name);
    TriggerTasks(envs, j == 0 && !resumed, skipFirst, steps[j], e);
    OneMoreTrigger(envs, skipFirst, resumed, steps, j, k);
    LaterTriggers(envs, skipFirst, resumed, steps, j, |steps|, k);
    assert steps[..|steps|] == steps;
  }

  /** The rows of the epoch of row `k` are one for each example of the epoch's environment. */
  ghost predicate RowsOk(envs: seq<EvalEnv>, rows: seq<Example>, k: nat) {
    k < |rows| ==>
      exists e :: 0 <= e < |envs| && envs[e].name == rows[k].env && RowTasks(rows, RowKey(rows[k])) == envs[e].tasks
  }

  lemma TriggeredRows(envs: seq<EvalEnv>, skipFirst: bool, resumed: bool, steps: seq<nat>, k: nat)
    requires PositiveIntervals(envs) && DistinctNames(envs) && DistinctSteps(steps)
    ensures RowsOk(envs, AllTriggered(envs, skipFirst, resumed, steps), k)
  {
    var rows := AllTriggered(envs, skipFirst, resumed, steps);
    if k < |rows| {
      var j, e := RowOrigin(envs, skipFirst, resumed, steps, k);
      EpochTasks(envs, skipFirst, resumed, steps, j, e);
      RowsAreCounted(rows, RowKey(rows[k]));
      assert envs[e].name == rows[k].env;
    }
  }

  // ---- The dispatcher turns rows into rollouts ----

  /** What the main loop hands to the eval sink. */
  function EvalOnly(log: seq<Rollout>): seq<Rollout> {
    if log == [] then []
    else EvalOnly(log[..|log| - 1]) + if log[|log| - 1].kind == Eval then [log[|log| - 1]] else []
  }

  /** Rollouts of epoch `k` by the row they were made for. */
  function ByRow(rows: seq<Example>, groups: seq<GroupId>, a: seq<Rollout>, k: Key): nat
    requires |rows| == |groups|
  {
    if rows == [] then 0
    else
      var n := |rows| - 1;
      ByRow(rows[..n], groups[..n], a, k) + if RowKey(rows[n]) == k then PutOf(a, groups[n]) else 0
  }

  predicate MadeFor(rows: seq<Example>, groups: seq<GroupId>, r: Rollout, i: nat)
    requires |rows| == |groups|
  {
    i < |rows| && r.gid == groups[i] && Sink.KeyOf(r) == RowKey(rows[i])
  }

  ghost predicate HasRow(rows: seq<Example>, groups: seq<GroupId>, r: Rollout)
    requires |rows| == |groups|
  {
    exists i :: MadeFor(rows, groups, r, i)
  }

  predicate DistinctGroups(groups: seq<GroupId>) {
    forall i, j :: 0 <= i < j < |groups| ==> groups[i] != groups[j]
  }

  lemma {:induction false} ByRowSnoc(rows: seq<Example>, groups: seq<GroupId>, a: seq<Rollout>, r: Rollout, k: Key)
    requires |rows| == |groups| && DistinctGroups(groups)
    requires HasRow(rows, groups, r) || r.gid !in groups
    ensures ByRow(rows, groups, a + [r], k) == ByRow(rows, groups, a, k) + if r.gid in groups && Sink.KeyOf(r) == k then 1 else 0
  {
    if rows != [] {
      var n := |rows| - 1;
      assert (a + [r])[..|a|] == a;
      if r.gid == groups[n] {
        assert r.gid !in groups[..n];
        assert forall i :: MadeFor(rows, groups, r, i) ==> i == n;
      } else if r.gid in groups {
        var i :| MadeFor(rows, groups, r, i);
        assert MadeFor(rows[..n], groups[..n], r, i);
      }
      ByRowSnoc(rows[..n], groups[..n], a, r, k);
    }
  }

  lemma {:induction false} NothingByRow(rows: seq<Example>, groups: seq<GroupId>, k: Key)
    requires |rows| == |groups|
    ensures ByRow(rows, groups, [], k) == 0
  {
    if rows != [] {
      NothingByRow(rows[..|rows| - 1], groups[..|rows| - 1], k);
    }
  }

  lemma {:induction false} CountByRow(rows: seq<Example>, groups: seq<GroupId>, a: seq<Rollout>, k: Key)
    requires |rows| == |groups| && DistinctGroups(groups)
    requires forall j :: 0 <= j < |a| ==> HasRow(rows, groups, a[j])
    ensures EvalEpochs.KeyCount(a, k) == ByRow(rows, groups, a, k)
  {
    if a == [] {
      NothingByRow(rows, groups, k);
    } else {
      var n := |a| - 1;
      forall j | 0 <= j < n ensures HasRow(rows, groups, a[..n][j]) {
        assert HasRow(rows, groups, a[j]);
      }
      CountByRow(rows, groups, a[..n], k);
      ByRowSnoc(rows, groups, a[..n], a[n], k);
      assert a == a[..n] + [a[n]];
    }
  }

  lemma {:induction false} UniformByRow(rows: seq<Example>, groups: seq<GroupId>, a: seq<Rollout>, k: Key, size: nat)
    requires |rows| == |groups|
    requires forall i :: 0 <= i < |rows| && RowKey(rows[i]) == k ==> PutOf(a, groups[i]) == size
    ensures ByRow(rows, groups, a, k) == RowCount(rows, k) * size
  {
    if rows != [] {
      var n := |rows| - 1;
      UniformByRow(rows[..n], groups[..n], a, k, size);
      MoreRows(RowCount(rows[..n], k), size);
    }
  }

  lemma MoreRows(n: nat, size: nat)
    ensures (n + 1) * size == n * size + size
  {
  }

  lemma {:induction false} EvalOnlyCounts(log: seq<Rollout>, g: GroupId)
    requires forall i :: 0 <= i < |log| && log[i].gid == g ==> log[i].kind == Eval
    ensures PutOf(EvalOnly(log), g) == PutOf(log, g)
  {
    if log != [] {
      var n := |log| - 1;
      EvalOnlyCounts(log[..n], g);
      if log[n].kind == Eval {
        assert EvalOnly(log)[..|EvalOnly(log)| - 1] == EvalOnly(log[..n]);
      } else {
        assert EvalOnly(log) == EvalOnly(log[..n]);
      }
    }
  }

  lemma {:induction false} EvalOnlyHolds(log: seq<Rollout>)
    ensures forall i :: 0 <= i < |EvalOnly(log)| ==> EvalOnly(log)[i] in log && EvalOnly(log)[i].kind == Eval
  {
    if log != [] {
      EvalOnlyHolds(log[..|log| - 1]);
    }
  }

  // ---- The whole way ----

  /** Source, dispatcher and sink are configured with the same environments. */
  ghost predicate SameEnvs(envs: seq<EvalEnv>, c: Config, d: Sink.EvalConfig) {
    && PositiveIntervals(envs) && DistinctNames(envs)
    && forall e :: 0 <= e < |envs| ==>
         && envs[e].name in c.evalEnvs && c.evalEnvs[envs[e].name] == envs[e].spec
         && Sink.Configured(d, envs[e].name)
         && d.groupSize[envs[e].name] == envs[e].spec.groupSize && d.examples[envs[e].name] == |envs[e].tasks|
  }

  /** The rows that have been given a group. */
  function Opened(s: State): seq<Example> {
    if |s.evalGroups| <= |s.triggered| then s.triggered[..|s.evalGroups|] else []
  }

  /** What the dispatcher's invariant says about the rollouts for the sink: each belongs to one opened row, and
      no row's group has put more than its size; a settled one has put exactly that. */
  ghost predicate Delivered(c: Config, s: State) {
    && |s.evalGroups| <= |s.triggered| && DistinctGroups(s.evalGroups)
    && (forall i :: 0 <= i < |s.evalGroups| ==> RowDelivered(c, s, i))
    && (forall j :: 0 <= j < |EvalOnly(s.log)| ==> HasRow(Opened(s), s.evalGroups, EvalOnly(s.log)[j]))
  }

  predicate RowDelivered(c: Config, s: State, i: nat)
    requires i < |s.evalGroups| <= |s.triggered|
  {
    var g, env := s.evalGroups[i], s.triggered[i].env;
    && env in c.evalEnvs && g in s.store && s.store[g].example == s.triggered[i]
    && PutOf(EvalOnly(s.log), g) <= c.evalEnvs[env].groupSize
    && (DispatchTheorems.Settled(s, g) ==> PutOf(EvalOnly(s.log), g) == c.evalEnvs[env].groupSize)
  }

  lemma RunDelivers(c: Config, s: State)
    requires DispatchInvariant.Inv(c, s)
    ensures Delivered(c, s)
  {
    forall i | 0 <= i < |s.evalGroups| ensures RowDelivered(c, s, i) {
      assert DispatchInvariant.EvalGroupOk(c, s, s.evalGroups[i], s.triggered[i]);
      assert DispatchInvariant.Balanced(s, s.evalGroups[i]);
      GroupIsEval(c, s, i);
      EvalOnlyCounts(s.log, s.evalGroups[i]);
    }
    EvalOnlyHolds(s.log);
    forall j | 0 <= j < |EvalOnly(s.log)| ensures HasRow(Opened(s), s.evalGroups, EvalOnly(s.log)[j]) {
      ArrivalHasRow(c, s, EvalOnly(s.log)[j]);
    }
  }

  lemma ArrivalHasRow(c: Config, s: State, r: Rollout)
    requires DispatchInvariant.Inv(c, s) && r in s.log && r.kind == Eval
    ensures HasRow(Opened(s), s.evalGroups, r)
  {
    var m :| 0 <= m < |s.log| && s.log[m] == r;
    assert DispatchInvariant.RolloutOk(s, s.log[m]);
    assert r.gid in s.evalGroups;
    var i :| 0 <= i < |s.evalGroups| && s.evalGroups[i] == r.gid;
    assert DispatchInvariant.EvalGroupOk(c, s, s.evalGroups[i], s.triggered[i]);
    assert MadeFor(Opened(s), s.evalGroups, r, i);
  }

  lemma GroupIsEval(c: Config, s: State, i: nat)
    requires DispatchInvariant.Inv(c, s) && i < |s.evalGroups|
    ensures forall m :: 0 <= m < |s.log| && s.log[m].gid == s.evalGroups[i] ==> s.log[m].kind == Eval
  {
    assert DispatchInvariant.EvalGroupOk(c, s, s.evalGroups[i], s.triggered[i]);
    forall m | 0 <= m < |s.log| && s.log[m].gid == s.evalGroups[i] ensures s.log[m].kind == Eval {
      assert DispatchInvariant.RolloutOk(s, s.log[m]);
    }
  }

  // ---- At any moment of any run the arrivals fit the sink ----

  /** The groups of the rows of epoch `k`. */
  function RowGroups(rows: seq<Example>, groups: seq<GroupId>, k: Key): set<GroupId>
    requires |rows| == |groups|
  {
    if rows == [] then {}
    else
      var n := |rows| - 1;
      RowGroups(rows[..n], groups[..n], k) + if RowKey(rows[n]) == k then {groups[n]} else {}
  }

  lemma {:induction false} RowGroupsAre(rows: seq<Example>, groups: seq<GroupId>, k: Key)
    requires |rows| == |groups|
    ensures |RowGroups(rows, groups, k)| <= RowCount(rows, k)
    ensures forall i :: 0 <= i < |rows| && RowKey(rows[i]) == k ==> groups[i] in RowGroups(rows, groups, k)
  {
    if rows != [] {
      var n := |rows| - 1;
      RowGroupsAre(rows[..n], groups[..n], k);
      forall i | 0 <= i < n && RowKey(rows[i]) == k ensures groups[i] in RowGroups(rows[..n], groups[..n], k) {
        assert RowKey(rows[..n][i]) == k && groups[..n][i] == groups[i];
      }
    }
  }

  /** What holds of a reachable state with its triggers, for source, dispatcher and sink configured alike. */
  ghost predicate Pipeline(envs: seq<EvalEnv>, c: Config, d: Sink.EvalConfig, s: State) {
    && SameEnvs(envs, c, d) && Delivered(c, s) && forall i :: 0 <= i < |s.triggered| ==> RowsOk(envs, s.triggered, i)
  }

  lemma RowSizes(envs: seq<EvalEnv>, c: Config, d: Sink.EvalConfig, s: State, i: nat)
    requires Pipeline(envs, c, d, s) && i < |s.triggered|
    ensures Sink.Configured(d, s.triggered[i].env) && s.triggered[i].env in c.evalEnvs
    ensures c.evalEnvs[s.triggered[i].env].groupSize == d.groupSize[s.triggered[i].env]
    ensures RowCount(s.triggered, RowKey(s.triggered[i])) == d.examples[s.triggered[i].env]
  {
    assert RowsOk(envs, s.triggered, i);
    RowsAreCounted(s.triggered, RowKey(s.triggered[i]));
  }

  lemma OpenedCount(s: State, k: Key)
    requires |s.evalGroups| <= |s.triggered|
    ensures RowCount(s.triggered, k) == RowCount(Opened(s), k) + RowCount(s.triggered[|s.evalGroups|..], k)
  {
    assert s.triggered == Opened(s) + s.triggered[|s.evalGroups|..];
    RowTasksConcat(Opened(s), s.triggered[|s.evalGroups|..], k);
  }

  /** The groups that arrived of an epoch are groups of its opened rows. */
  lemma GroupsOfRows(c: Config, s: State, k: Key)
    requires Delivered(c, s)
    ensures EvalEpochs.Gids(EvalOnly(s.log), k) <= RowGroups(Opened(s), s.evalGroups, k)
    ensures |EvalEpochs.Gids(EvalOnly(s.log), k)| <= |RowGroups(Opened(s), s.evalGroups, k)| <= RowCount(Opened(s), k)
  {
    var a := EvalOnly(s.log);
    EvalEpochs.GidsAre(a, k);
    RowGroupsAre(Opened(s), s.evalGroups, k);
    forall g | g in EvalEpochs.Gids(a, k) ensures g in RowGroups(Opened(s), s.evalGroups, k) {
      var j :| 0 <= j < |a| && Sink.KeyOf(a[j]) == k && a[j].gid == g;
      assert HasRow(Opened(s), s.evalGroups, a[j]);
      var i :| MadeFor(Opened(s), s.evalGroups, a[j], i);
    }
    EvalEpochs.SubsetSize(EvalEpochs.Gids(a, k), RowGroups(Opened(s), s.evalGroups, k));
  }

  /** The arrivals so far fit: groups of one epoch and of at most their size, and at most one group for each
      example of an epoch. */
  lemma ArrivalsFit(envs: seq<EvalEnv>, c: Config, d: Sink.EvalConfig, s: State)
    requires Pipeline(envs, c, d, s)
    ensures EvalEpochs.Fits(d, EvalOnly(s.log))
  {
    var a := EvalOnly(s.log);
    forall j | 0 <= j < |a| ensures Sink.Configured(d, a[j].env) && PutOf(a, a[j].gid) <= d.groupSize[a[j].env] {
      ArrivalFits(envs, c, d, s, j);
    }
    forall i, j | 0 <= i < |a| && 0 <= j < |a| && a[i].gid == a[j].gid ensures Sink.KeyOf(a[i]) == Sink.KeyOf(a[j]) {
      assert HasRow(Opened(s), s.evalGroups, a[i]) && HasRow(Opened(s), s.evalGroups, a[j]);
      var p :| MadeFor(Opened(s), s.evalGroups, a[i], p);
      var q :| MadeFor(Opened(s), s.evalGroups, a[j], q);
      assert p == q;
    }
    forall k: Key | Sink.Configured(d, k.0) ensures |EvalEpochs.Gids(a, k)| <= d.examples[k.0] {
      FewGroups(envs, c, d, s, k);
    }
  }

  lemma ArrivalFits(envs: seq<EvalEnv>, c: Config, d: Sink.EvalConfig, s: State, j: nat)
    requires Pipeline(envs, c, d, s) && j < |EvalOnly(s.log)|
    ensures var r := EvalOnly(s.log)[j];
      Sink.Configured(d, r.env) && PutOf(EvalOnly(s.log), r.gid) <= d.groupSize[r.env]
  {
    assert HasRow(Opened(s), s.evalGroups, EvalOnly(s.log)[j]);
    var i :| MadeFor(Opened(s), s.evalGroups, EvalOnly(s.log)[j], i);
    assert RowDelivered(c, s, i);
    RowSizes(envs, c, d, s, i);
  }

  lemma FewGroups(envs: seq<EvalEnv>, c: Config, d: Sink.EvalConfig, s: State, k: Key)
    requires Pipeline(envs, c, d, s) && Sink.Configured(d, k.0)
    ensures |EvalEpochs.Gids(EvalOnly(s.log), k)| <= d.examples[k.0]
  {
    GroupsOfRows(c, s, k);
    OpenedCount(s, k);
    RowsAreCounted(s.triggered, k);
    if RowCount(s.triggered, k) > 0 {
      var i :| 0 <= i < |s.triggered| && RowKey(s.triggered[i]) == k;
      RowSizes(envs, c, d, s, i);
    }
  }

  // ---- The whole way ----

  /** Row `i` has its group, made for the row's own example, and the batch holds that whole group. */
  predicate Served(s: State, d: Sink.EvalConfig, i: nat, batch: seq<Rollout>)
    requires i < |s.triggered|
  {
    && i < |s.evalGroups| && s.evalGroups[i] in s.store && s.store[s.evalGroups[i]].example == s.triggered[i]
    && Sink.Configured(d, s.triggered[i].env) && PutOf(batch, s.evalGroups[i]) == d.groupSize[s.triggered[i].env]
  }

  lemma RowIsOpened(s: State, k: Key, i: nat)
    requires |s.evalGroups| <= |s.triggered| && i < |s.triggered| && RowKey(s.triggered[i]) == k
    requires RowCount(s.triggered[|s.evalGroups|..], k) == 0
    ensures i < |s.evalGroups|
  {
    var rest := s.triggered[|s.evalGroups|..];
    RowsAreCounted(rest, k);
    forall j | |s.evalGroups| <= j < |s.triggered| ensures RowKey(s.triggered[j]) != k {
      assert RowKey(rest[j - |s.evalGroups|]) != k;
    }
  }

  lemma BatchServesRow(envs: seq<EvalEnv>, c: Config, d: Sink.EvalConfig, s: State, k: Key, batch: seq<Rollout>, i: nat)
    requires Pipeline(envs, c, d, s) && EvalEpochs.WholeEpoch(d, EvalOnly(s.log), k, batch)
    requires i < |s.triggered| && RowKey(s.triggered[i]) == k
    ensures Served(s, d, i, batch)
  {
    var a := EvalOnly(s.log);
    RowSizes(envs, c, d, s, i);
    GroupsOfRows(c, s, k);
    OpenedCount(s, k);
    SameSet(EvalEpochs.Gids(a, k), RowGroups(Opened(s), s.evalGroups, k));
    RowGroupsAre(Opened(s), s.evalGroups, k);
    RowIsOpened(s, k, i);
    assert Opened(s)[i] == s.triggered[i] && RowDelivered(c, s, i);
  }

  lemma SameSet(a: set<GroupId>, b: set<GroupId>)
    requires a <= b && |a| >= |b|
    ensures a == b
  {
    assert b == a + (b - a);
    assert |b| == |a| + |b - a|;
  }

  /** What is known of a reachable state. */
  lemma ReachablePipeline(envs: seq<EvalEnv>, skipFirst: bool, resumed: bool, steps: seq<nat>, d: Sink.EvalConfig,
                          c: Config, version: int, states: seq<State>, actions: seq<Action>, n: nat)
    requires ValidConfig(c) && DispatchTheorems.Run(c, version, states, actions) && n < |states|
    requires SameEnvs(envs, c, d) && DistinctSteps(steps)
    requires states[n].triggered == AllTriggered(envs, skipFirst, resumed, steps)
    ensures Pipeline(envs, c, d, states[n]) && EvalEpochs.Fits(d, EvalOnly(states[n].log))
  {
    DispatchTheorems.RunKeepsInv(c, version, states, actions, n);
    RunDelivers(c, states[n]);
    forall i | 0 <= i < |states[n].triggered| ensures RowsOk(envs, states[n].triggered, i) {
      TriggeredRows(envs, skipFirst, resumed, steps, i);
    }
    ArrivalsFit(envs, c, d, states[n]);
  }

  /** At any moment of any run of the dispatcher, however its evals overlap and whatever is still missing: a
      batch the sink has returned holds exactly `group_size` rollouts of EVERY row of its epoch, all of which
      have their group by then, and no other arrival returns that epoch. */
  lemma BatchesAreWhole(envs: seq<EvalEnv>, skipFirst: bool, resumed: bool, steps: seq<nat>, d: Sink.EvalConfig,
                        c: Config, version: int, states: seq<State>, actions: seq<Action>, n: nat, i: nat)
    requires ValidConfig(c) && DispatchTheorems.Run(c, version, states, actions) && n < |states|
    requires SameEnvs(envs, c, d) && DistinctSteps(steps)
    requires states[n].triggered == AllTriggered(envs, skipFirst, resumed, steps)
    requires i < |EvalOnly(states[n].log)|
    ensures EvalEpochs.Fits(d, EvalOnly(states[n].log))
    ensures var s := states[n];
      var out := EvalEpochs.Output(d, EvalOnly(s.log), i);
      out.Some? ==>
        && out.value.key == Sink.KeyOf(EvalOnly(s.log)[i])
        && |out.value.rollouts| == Sink.BatchSize(d, EvalOnly(s.log)[i].env)
        && (forall r :: 0 <= r < |s.triggered| && RowKey(s.triggered[r]) == out.value.key ==> Served(s, d, r, out.value.rollouts))
        && (forall j :: 0 <= j < |EvalOnly(s.log)| && EvalEpochs.Returns(d, EvalOnly(s.log), out.value.key, j) ==> j == i)
  {
    var s := states[n];
    var a := EvalOnly(s.log);
    ReachablePipeline(envs, skipFirst, resumed, steps, d, c, version, states, actions, n);
    EvalEpochs.EpochBatch(d, a, i);
    var out := EvalEpochs.Output(d, a, i);
    if out.Some? {
      forall r | 0 <= r < |s.triggered| && RowKey(s.triggered[r]) == out.value.key ensures Served(s, d, r, out.value.rollouts) {
        BatchServesRow(envs, c, d, s, out.value.key, out.value.rollouts, r);
      }
      forall j | 0 <= j < |a| && EvalEpochs.Returns(d, a, out.value.key, j) ensures j == i {
        EvalEpochs.NeverTwice(d, a, out.value.key, i, j);
      }
    }
  }

  /** The epoch's own rows all have their groups, and these have settled; nothing is asked of other epochs. */
  ghost predicate EpochSettled(s: State, k: Key) {
    forall i :: 0 <= i < |s.triggered| && RowKey(s.triggered[i]) == k ==>
      i < |s.evalGroups| && DispatchTheorems.Settled(s, s.evalGroups[i])
  }

  lemma AllOpened(s: State, k: Key)
    requires |s.evalGroups| <= |s.triggered| && EpochSettled(s, k)
    ensures RowCount(Opened(s), k) == RowCount(s.triggered, k)
  {
    OpenedCount(s, k);
    var rest := s.triggered[|s.evalGroups|..];
    RowsAreCounted(rest, k);
    forall i | 0 <= i < |rest| ensures RowKey(rest[i]) != k {
      assert rest[i] == s.triggered[|s.evalGroups| + i];
    }
  }

  lemma SettledByRow(c: Config, s: State, k: Key, size: nat)
    requires Delivered(c, s) && EpochSettled(s, k) && k.0 in c.evalEnvs && c.evalEnvs[k.0].groupSize == size
    ensures EvalEpochs.KeyCount(EvalOnly(s.log), k) == RowCount(s.triggered, k) * size
  {
    AllOpened(s, k);
    CountByRow(Opened(s), s.evalGroups, EvalOnly(s.log), k);
    forall i | 0 <= i < |s.evalGroups| && RowKey(Opened(s)[i]) == k ensures PutOf(EvalOnly(s.log), s.evalGroups[i]) == size {
      assert Opened(s)[i] == s.triggered[i] && RowDelivered(c, s, i);
    }
    UniformByRow(Opened(s), s.evalGroups, EvalOnly(s.log), k, size);
  }

  lemma SettledCount(envs: seq<EvalEnv>, c: Config, d: Sink.EvalConfig, s: State, row: nat)
    requires ValidConfig(c) && Pipeline(envs, c, d, s) && row < |s.triggered| && EpochSettled(s, RowKey(s.triggered[row]))
    ensures Sink.Configured(d, s.triggered[row].env)
    ensures EvalEpochs.KeyCount(EvalOnly(s.log), RowKey(s.triggered[row])) == Sink.BatchSize(d, s.triggered[row].env) > 0
  {
    var k := RowKey(s.triggered[row]);
    RowSizes(envs, c, d, s, row);
    SettledByRow(c, s, k, d.groupSize[k.0]);
    RowsAreCounted(s.triggered, k);
    assert c.evalEnvs[k.0].groupSize >= 1;
    MoreRows(d.examples[k.0] - 1, d.groupSize[k.0]);
  }

  /** Every eval epoch once: in any run of the dispatcher, an epoch whose own groups have settled has been
      returned by one arrival at the sink, and only one, as a batch of exactly `group_size` rollouts for every
      row of the epoch; its rows are one for each example of its environment; and the sink keeps nothing of it.
      Other epochs may be in any state. */
  lemma EveryEpochOnce(envs: seq<EvalEnv>, skipFirst: bool, resumed: bool, steps: seq<nat>, d: Sink.EvalConfig,
                       c: Config, version: int, states: seq<State>, actions: seq<Action>, n: nat, row: nat)
    returns (i: nat)
    requires ValidConfig(c) && DispatchTheorems.Run(c, version, states, actions) && n < |states|
    requires SameEnvs(envs, c, d) && DistinctSteps(steps)
    requires states[n].triggered == AllTriggered(envs, skipFirst, resumed, steps)
    requires row < |states[n].triggered| && EpochSettled(states[n], RowKey(states[n].triggered[row]))
    ensures EvalEpochs.Fits(d, EvalOnly(states[n].log)) && RowsOk(envs, states[n].triggered, row)
    ensures var s := states[n];
      var a, k := EvalOnly(s.log), RowKey(s.triggered[row]);
      && i < |a| && EvalEpochs.Returns(d, a, k, i)
      && (forall j :: 0 <= j < |a| && EvalEpochs.Returns(d, a, k, j) ==> j == i)
      && |EvalEpochs.Output(d, a, i).value.rollouts| == Sink.BatchSize(d, k.0)
      && (forall r :: 0 <= r < |s.triggered| && RowKey(s.triggered[r]) == k ==>
            Served(s, d, r, EvalEpochs.Output(d, a, i).value.rollouts))
      && EvalEpochs.NothingLeft(d, a, k)
  {
    var s := states[n];
    var a, k := EvalOnly(s.log), RowKey(s.triggered[row]);
    ReachablePipeline(envs, skipFirst, resumed, steps, d, c, version, states, actions, n);
    SettledCount(envs, c, d, s, row);
    i := EvalEpochs.OneBatchPerEpoch(d, a, k);
    var batch := EvalEpochs.Output(d, a, i).value.rollouts;
    forall r | 0 <= r < |s.triggered| && RowKey(s.triggered[r]) == k ensures Served(s, d, r, batch) {
      BatchServesRow(envs, c, d, s, k, batch, r);
    }
  }
}

/** What every interleaving of the dispatcher's coroutines keeps. */
module DispatchInvariant {
  import opened Sequences
  import opened Wrappers
  import opened DispatchProtocol

  // ---- Where a group's rollouts are ----

  function OwedBy(e: Option<Emission>, g: GroupId): nat {
    if e.Some? && e.value.gid == g then |e.value.owed| + StagedBy(e, g) else 0
  }

  function StagedBy(e: Option<Emission>, g: GroupId): nat {
    if e.Some? && e.value.gid == g && e.value.staged.Some? then 1 else 0
  }

  /** Claimed by a completion handler or by `drop_group`, not yet on the queue. */
  function Owed(s: State, g: GroupId): nat {
    OwedBy(EmissionOf(s, Loop), g) + OwedBy(EmissionOf(s, Observer), g)
  }

  function StagedFor(s: State, g: GroupId): nat {
    StagedBy(EmissionOf(s, Loop), g) + StagedBy(EmissionOf(s, Observer), g)
  }

  /** Charged to the group by a pending `acquire`, not yet in flight. */
  function Reserved(s: State, g: GroupId): nat {
    if s.scheduler.Acquiring? && s.scheduler.gid == g then s.scheduler.wanted else 0
  }

  predicate BeingDropped(s: State, g: GroupId) {
    s.watcher.Flushing? && s.watcher.e.gid == g && s.watcher.e.known && !s.watcher.swept
  }

  function Unscheduled(s: State, g: GroupId): nat
    requires g in s.store
  {
    if g in s.live || BeingDropped(s, g) then s.store[g].toSchedule else 0
  }

  function Accounted(s: State, g: GroupId): nat
    requires g in s.store && g in s.lost
  {
    PutOf(s.log, g) + Owed(s, g) + CountFor(s.inflight, g) + Reserved(s, g) + Unscheduled(s, g) + s.lost[g]
  }

  // ---- The invariant ----

  /** The task carries the metadata of its group. */
  predicate EntryOk(s: State, e: Entry) {
    && e.gid in s.store
    && var g := s.store[e.gid];
    && e.kind == g.kind && e.env == g.example.env && e.evalStep == g.example.evalStep && e.version == g.version
  }

  predicate RolloutOk(s: State, r: Rollout) {
    && r.gid in s.store
    && var g := s.store[r.gid];
    && r.kind == g.kind && r.env == g.example.env && r.evalStep == g.example.evalStep && r.version == g.version
  }

  predicate EmissionOk(s: State, e: Option<Emission>) {
    e.Some? ==>
      && (forall i :: 0 <= i < |e.value.owed| ==>
            e.value.owed[i].entry.gid == e.value.gid && EntryOk(s, e.value.owed[i].entry))
      && (e.value.staged.Some? ==> e.value.staged.value.gid == e.value.gid && RolloutOk(s, e.value.staged.value))
  }

  ghost predicate Entries(s: State) {
    && (forall g :: g in s.store ==> g < s.nextGroup)
    && (forall i :: 0 <= i < |s.inflight| ==> EntryOk(s, s.inflight[i]))
    && (forall i :: 0 <= i < |s.log| ==> RolloutOk(s, s.log[i]))
  }

  ghost predicate Emissions(s: State) {
    && EmissionOk(s, EmissionOf(s, Loop)) && EmissionOk(s, EmissionOf(s, Observer))
    && (s.watcher.Flushing? ==> s.watcher.e.gid !in s.live)
    && (s.watcher.Flushing? && s.watcher.last.Some? ==>
          s.watcher.last.value.gid == s.watcher.e.gid && EntryOk(s, s.watcher.last.value))
  }

  ghost predicate Structure(s: State) {
    WellFormed(s) && Entries(s) && Emissions(s)
  }

  /** Permits in use are the tasks in flight plus what the one pending `acquire` has taken, and they
      fit even once that `acquire` is through. */
  predicate Permits(c: Config, s: State) {
    && s.permits == Total(s.inflight) + (if s.scheduler.Acquiring? then s.scheduler.got else 0)
    && s.permits + (if s.scheduler.Acquiring? then s.scheduler.wanted - s.scheduler.got else 0) <= c.maxInflight
    && (s.scheduler.Acquiring? ==> s.scheduler.got <= s.scheduler.wanted)
    && (s.scheduler.AwaitClient? && s.scheduler.gid in s.live && s.scheduler.gid in s.store ==>
          Cost(s.store[s.scheduler.gid]) <= Available(c, s))
  }

  /** Nothing of a group is ever missing or counted twice. */
  predicate Balanced(s: State, g: GroupId) {
    g in s.store && g in s.lost ==> Accounted(s, g) == s.store[g].target
  }

  /** A group still in the dictionary has counted exactly what it emitted. */
  predicate Counted(s: State, g: GroupId) {
    g in s.live && g in s.store ==>
      && s.store[g].emitted == PutOf(s.log, g) + StagedFor(s, g)
      && (s.scheduler.Emitting? && s.scheduler.e.gid == g ==> s.scheduler.e.known)
  }

  ghost predicate Ledger(s: State) {
    forall g :: Balanced(s, g) && Counted(s, g)
  }

  /** Train tasks past the limit belong to groups the running `on_version_pending` is about to drop;
      eval tasks are never aged and never among them. */
  ghost predicate Staleness(c: Config, s: State) {
    && (forall i :: 0 <= i < |s.inflight| && s.inflight[i].kind == Train && s.inflight[i].offPolicy > c.maxOffPolicy ==>
          s.inflight[i].gid in StaleIds(s.watcher))
    && (forall i :: 0 <= i < |s.inflight| && s.inflight[i].kind == Eval ==> s.inflight[i].offPolicy == 0)
    && (forall g :: g in StaleIds(s.watcher) && g in s.store ==> s.store[g].kind == Train)
    && (s.watcher.Flushing? && s.watcher.e.gid in s.store ==> s.store[s.watcher.e.gid].kind == Train)
  }

  /** Every triggered eval row is still queued or has been given exactly one group, in order, and
      draining never drops any of them. */
  ghost predicate EvalRows(c: Config, s: State) {
    && |s.evalGroups| <= |s.triggered| && s.triggered[|s.evalGroups|..] == s.evalQueue
    && (forall i :: 0 <= i < |s.triggered| ==> s.triggered[i].env in c.evalEnvs)
    && (forall i :: 0 <= i < |s.evalGroups| ==> EvalGroupOk(c, s, s.evalGroups[i], s.triggered[i]))
    && (forall i, j :: 0 <= i < j < |s.evalGroups| ==> s.evalGroups[i] < s.evalGroups[j])
    && (forall g :: g in s.store && s.store[g].kind == Eval ==> g in s.evalGroups)
  }

  predicate EvalGroupOk(c: Config, s: State, g: GroupId, row: Example) {
    && g in s.store && g in s.lost && s.lost[g] == 0
    && s.store[g].kind == Eval && s.store[g].example == row
    && row.env in c.evalEnvs && s.store[g].target == c.evalEnvs[row.env].groupSize
  }

  ghost predicate Inv(c: Config, s: State) {
    && Structure(s) && Permits(c, s) && Ledger(s) && Staleness(c, s) && EvalRows(c, s)
    && s.taken <= |s.log| <= s.taken + c.queueSize
  }

  // ---- Facts about the sums ----

  lemma {:induction false} CountConcat(a: seq<Entry>, b: seq<Entry>, g: GroupId)
    ensures CountFor(a + b, g) == CountFor(a, g) + CountFor(b, g)
    ensures Total(a + b) == Total(a) + Total(b)
  {
    if a == [] {
      assert a + b == b;
    } else {
      assert (a + b)[1..] == a[1..] + b;
      CountConcat(a[1..], b, g);
    }
  }

  lemma {:induction false} CountWithout(es: seq<Entry>, i: nat, g: GroupId)
    requires i < |es|
    ensures CountFor(es, g) == CountFor(Without(es, i), g) + (if es[i].gid == g then es[i].count else 0)
    ensures Total(es) == Total(Without(es, i)) + es[i].count
  {
    if i == 0 {
      assert Without(es, 0) == es[1..];
    } else {
      CountWithout(es[1..], i - 1, g);
      assert Without(es, i)[1..] == Without(es[1..], i - 1);
    }
  }

  lemma {:induction false} CountClaimed(es: seq<Entry>, gid: GroupId, g: GroupId)
    ensures CountFor(NotOfGroup(es, gid), g) == if g == gid then 0 else CountFor(es, g)
    ensures |Cancellations(OfGroup(es, gid))| == CountFor(es, gid)
    ensures Total(es) == Total(NotOfGroup(es, gid)) + Total(OfGroup(es, gid))
  {
    if es != [] {
      CountClaimed(es[1..], gid, g);
      var here := if es[0].gid == gid then [es[0]] else [];
      var left := if es[0].gid == gid then [] else [es[0]];
      CountConcat(left, NotOfGroup(es[1..], gid), g);
      CountConcat(here, OfGroup(es[1..], gid), g);
      assert here == [es[0]] ==> (here + OfGroup(es[1..], gid))[1..] == OfGroup(es[1..], gid);
      assert here == [] ==> here + OfGroup(es[1..], gid) == OfGroup(es[1..], gid);
    }
  }

  lemma {:induction false} CountKinds(es: seq<Entry>, g: GroupId)
    ensures CountFor(es, g) == CountFor(OfKind(es, Train), g) + CountFor(OfKind(es, Eval), g)
    ensures Total(es) == Total(OfKind(es, Train)) + Total(OfKind(es, Eval))
  {
    if es != [] {
      CountKinds(es[1..], g);
      CountConcat(if es[0].kind == Train then [es[0]] else [], OfKind(es[1..], Train), g);
      CountConcat(if es[0].kind == Eval then [es[0]] else [], OfKind(es[1..], Eval), g);
    }
  }

  lemma {:induction false} CountAged(es: seq<Entry>, g: GroupId)
    ensures CountFor(Aged(es), g) == CountFor(es, g) && Total(Aged(es)) == Total(es)
  {
    if es != [] {
      CountAged(es[1..], g);
      assert Aged(es)[1..] == Aged(es[1..]);
    }
  }

  lemma {:induction false} FilterMembers(es: seq<Entry>, gid: GroupId)
    ensures forall x :: x in NotOfGroup(es, gid) ==> x in es && x.gid != gid
    ensures forall x :: x in OfGroup(es, gid) ==> x in es && x.gid == gid
  {
    if es != [] { FilterMembers(es[1..], gid); }
  }

  lemma {:induction false} KindMembers(es: seq<Entry>, kind: Kind)
    ensures forall x :: x in OfKind(es, kind) ==> x in es && x.kind == kind
  {
    if es != [] { KindMembers(es[1..], kind); }
  }

  lemma {:induction false} CancellationMembers(es: seq<Entry>, i: nat)
    requires i < |Cancellations(es)|
    ensures Cancellations(es)[i].entry in es
  {
    if i >= es[0].count {
      CancellationMembers(es[1..], i - es[0].count);
    }
  }

  lemma PutOfAppend(log: seq<Rollout>, r: Rollout, g: GroupId)
    ensures PutOf(log + [r], g) == PutOf(log, g) + if r.gid == g then 1 else 0
  {
    assert (log + [r])[..|log|] == log;
  }
}

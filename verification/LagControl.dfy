/** How far the orchestrator runs ahead of the policy: the weight watcher, the main loop and the gate
    between them (src/prime_rl/orchestrator/watcher.py:49-132;
    src/prime_rl/orchestrator/orchestrator.py:596-632, 661-713, 740-741, 787, 991-1017). */
module LagControl {
  import opened Sequences
  import opened Wrappers

  /** Batches the orchestrator may run ahead of the trainer. */
  const TARGET_LAG := 1

  /** Between its awaits the watcher is waiting for the marker of a checkpoint, draining off-policy
      rollouts, or loading weights. */
  datatype Watcher = Polling | AwaitMarker(next: nat) | Draining(next: nat) | Loading(next: nat)

  /** Between its awaits the main loop is receiving rollouts, or saving before or sending a batch of the
      step it read at the start. */
  datatype MainLoop = Receiving | Saving(step: nat) | Sending(step: nat)

  /** `shipped`, `versions` and `drainedAt` (how much had been shipped when draining began) are history. */
  datatype State = State(step: nat, version: nat, ckptStep: nat, updates: nat, gateOpen: bool, draining: bool,
                         main: MainLoop, watcher: Watcher,
                         shipped: seq<nat>, versions: seq<nat>, drainedAt: Option<nat>)

  datatype Action =
    | Poll(latest: nat)
    | MarkerFound
    | Drained
    | Loaded
    | StartBatch
    | Saved(trainable: bool)
    | Sent
    | StopReached

  /** `update_dispatch_gate`. */
  function GateFor(step: nat, version: nat): bool { step + 1 - version <= TARGET_LAG }

  function NextCheckpoint(version: nat, latest: nat): nat { if version >= latest then version else latest }

  function Adopted(s: State, next: nat): State {
    s.(ckptStep := next, version := next, updates := s.updates + 1, gateOpen := GateFor(s.step, next),
       watcher := Polling, versions := s.versions + [next])
  }

  /** The tail of `finalize_train_batch`: the gate is set from the step BEFORE it is advanced. */
  function ShippedBatch(s: State, step: nat): State {
    s.(gateOpen := GateFor(s.step, s.version), step := s.step + 1, main := Receiving, shipped := s.shipped + [step])
  }

  function BeginDraining(s: State): State {
    if s.draining then s else s.(draining := true, drainedAt := Some(|s.shipped|))
  }

  function AfterSaving(max: Option<nat>, s: State, step: nat, trainable: bool): State {
    if max.Some? && step >= max.value then BeginDraining(s).(main := Receiving)
    else if !trainable then s.(main := Receiving)
    else s.(main := Sending(step))
  }

  predicate Enabled(s: State, a: Action) {
    match a
    case Poll(_) => s.watcher == Polling
    case MarkerFound => s.watcher.AwaitMarker?
    case Drained => s.watcher.Draining?
    case Loaded => s.watcher.Loading?
    case StartBatch => s.main == Receiving && !s.draining
    case Saved(_) => s.main.Saving?
    case Sent => s.main.Sending?
    case StopReached => s.main == Receiving && !s.draining
  }

  function Apply(max: Option<nat>, s: State, a: Action): State
    requires Enabled(s, a)
  {
    match a
    case Poll(latest) =>
      var next := NextCheckpoint(s.version, latest);
      if next > s.ckptStep then s.(watcher := AwaitMarker(next)) else s
    case MarkerFound => s.(watcher := Draining(s.watcher.next))
    case Drained => s.(watcher := Loading(s.watcher.next))
    case Loaded => Adopted(s, s.watcher.next)
    case StartBatch => s.(main := Saving(s.step))
    case Saved(trainable) => AfterSaving(max, s, s.main.step, trainable)
    case Sent => ShippedBatch(s, s.main.step)
    case StopReached => BeginDraining(s)
  }

  /** A run starts, fresh or resumed, with the policy at the current step. */
  function Init(start: nat): State {
    State(start, start, start, 0, true, false, Receiving, Polling, [], [], None)
  }

  ghost predicate Run(max: Option<nat>, start: nat, states: seq<State>, actions: seq<Action>) {
    && |states| == |actions| + 1 && states[0] == Init(start)
    && forall i :: 0 <= i < |actions| ==> Enabled(states[i], actions[i]) && states[i + 1] == Apply(max, states[i], actions[i])
  }

  // ---- Invariant ----

  /** An open gate means at most one step ahead; a closed one means the policy really is behind. */
  predicate GateOk(s: State) {
    && (s.gateOpen ==> s.step <= s.version + 1)
    && (!s.gateOpen ==> s.step > s.version)
  }

  predicate VersionsOk(start: nat, s: State) {
    && s.ckptStep == s.version && s.updates == |s.versions|
    && s.version == (if s.versions == [] then start else s.versions[|s.versions| - 1])
    && (s.versions != [] ==> s.versions[0] > start)
    && (forall i :: 0 < i < |s.versions| ==> s.versions[i - 1] < s.versions[i])
    && (!s.watcher.Polling? ==> s.watcher.next > s.version)
  }

  predicate StepsOk(max: Option<nat>, start: nat, s: State) {
    && s.step == start + |s.shipped| && (forall i :: 0 <= i < |s.shipped| ==> s.shipped[i] == start + i)
    && (max.Some? ==> forall i :: 0 <= i < |s.shipped| ==> s.shipped[i] < max.value)
    && (!s.main.Receiving? ==> s.main.step == s.step && !s.draining)
    && (s.main.Sending? && max.Some? ==> s.step < max.value)
    && (s.draining <==> s.drainedAt.Some?) && (s.draining ==> s.drainedAt == Some(|s.shipped|))
  }

  predicate Inv(max: Option<nat>, start: nat, s: State) { GateOk(s) && VersionsOk(start, s) && StepsOk(max, start, s) }

  lemma StepKeepsInv(max: Option<nat>, start: nat, s: State, a: Action)
    requires Inv(max, start, s) && Enabled(s, a)
    ensures Inv(max, start, Apply(max, s, a))
  {
  }

  /** In every reachable state: an open gate means at most one step ahead of the policy, a closed gate that
      the policy is behind; the watcher's checkpoint is the policy's version, and every update raised it;
      the steps shipped are consecutive from the start and below `max_steps`; and nothing has been shipped
      since draining began. */
  lemma {:induction false} RunKeepsInv(max: Option<nat>, start: nat, states: seq<State>, actions: seq<Action>, n: nat)
    requires Run(max, start, states, actions) && n < |states|
    ensures Inv(max, start, states[n])
  {
    if n > 0 {
      RunKeepsInv(max, start, states, actions, n - 1);
      StepKeepsInv(max, start, states[n - 1], actions[n - 1]);
    }
  }

  /** Once the policy reaches the orchestrator's step, the gate is open and stays open until the next
      batch is shipped: training can never wait for a policy that has already arrived. */
  lemma CaughtUpIsOpen(max: Option<nat>, start: nat, states: seq<State>, actions: seq<Action>, n: nat)
    requires Run(max, start, states, actions) && n < |states| && states[n].version >= states[n].step
    ensures states[n].gateOpen
  {
    RunKeepsInv(max, start, states, actions, n);
  }

  /** An update opens the gate if the orchestrator is no further than the new version, and otherwise closes it. */
  lemma UpdateSetsGate(max: Option<nat>, s: State)
    requires s.watcher.Loading?
    ensures var t := Apply(max, s, Loaded);
      t.version == s.watcher.next && t.step == s.step && (t.gateOpen <==> t.step <= t.version)
  {
  }

  /** A poll begins to wait for the checkpoint it sees if and only if that is newer than the policy. */
  lemma PollTakesNewer(max: Option<nat>, start: nat, s: State, latest: nat)
    requires Inv(max, start, s) && s.watcher == Polling
    ensures Apply(max, s, Poll(latest)) == s.(watcher := if latest > s.version then AwaitMarker(latest) else Polling)
  {
  }

  ghost predicate PolledBefore(actions: seq<Action>, n: nat, v: nat)
    requires n <= |actions|
  {
    exists m :: 0 <= m < n && actions[m] == Poll(v)
  }

  lemma StillPolled(actions: seq<Action>, n: nat, v: nat)
    requires n < |actions| && (PolledBefore(actions, n, v) || actions[n] == Poll(v))
    ensures PolledBefore(actions, n + 1, v)
  {
    if PolledBefore(actions, n, v) {
      var m :| 0 <= m < n && actions[m] == Poll(v);
    }
  }

  /** What the watcher is after, and every version it has adopted, has been seen by a poll. */
  ghost predicate Seen(s: State, actions: seq<Action>, n: nat)
    requires n <= |actions|
  {
    && (!s.watcher.Polling? ==> PolledBefore(actions, n, s.watcher.next))
    && forall i :: 0 <= i < |s.versions| ==> PolledBefore(actions, n, s.versions[i])
  }

  lemma SeenLater(s: State, t: State, actions: seq<Action>, n: nat)
    requires n < |actions| && Seen(s, actions, n)
    requires forall i :: 0 <= i < |t.versions| ==>
      t.versions[i] in s.versions || (!s.watcher.Polling? && t.versions[i] == s.watcher.next)
    requires !t.watcher.Polling? ==>
      (!s.watcher.Polling? && t.watcher.next == s.watcher.next) || actions[n] == Poll(t.watcher.next)
    ensures Seen(t, actions, n + 1)
  {
    forall i | 0 <= i < |t.versions| ensures PolledBefore(actions, n + 1, t.versions[i]) {
      StillPolled(actions, n, t.versions[i]);
    }
    if !t.watcher.Polling? {
      StillPolled(actions, n, t.watcher.next);
    }
  }

  /** Every version the policy ever had after the start is that of a checkpoint a poll had seen. */
  lemma {:induction false} VersionsArePolled(max: Option<nat>, start: nat, states: seq<State>, actions: seq<Action>, n: nat)
    requires Run(max, start, states, actions) && n < |states|
    ensures Seen(states[n], actions, n)
  {
    if n > 0 {
      VersionsArePolled(max, start, states, actions, n - 1);
      RunKeepsInv(max, start, states, actions, n - 1);
      var s, t, a := states[n - 1], states[n], actions[n - 1];
      assert t == Apply(max, s, a);
      SeenLater(s, t, actions, n - 1);
    }
  }

  /** Versions only grow along a run, by every update. */
  lemma {:induction false} VersionsGrow(max: Option<nat>, start: nat, states: seq<State>, actions: seq<Action>, m: nat, n: nat)
    requires Run(max, start, states, actions) && m <= n < |states|
    ensures states[m].version <= states[n].version
    ensures states[m].updates < states[n].updates ==> states[m].version < states[n].version
    ensures states[m].updates <= states[n].updates
    decreases n - m
  {
    if m < n {
      VersionsGrow(max, start, states, actions, m, n - 1);
      RunKeepsInv(max, start, states, actions, n - 1);
      assert states[n] == Apply(max, states[n - 1], actions[n - 1]);
    }
  }

  /** After draining has begun, nothing more is ever shipped. */
  lemma {:induction false} NothingAfterDraining(max: Option<nat>, start: nat, states: seq<State>, actions: seq<Action>, m: nat, n: nat)
    requires Run(max, start, states, actions) && m <= n < |states| && states[m].draining
    ensures states[n].draining && states[n].shipped == states[m].shipped && states[n].step == states[m].step
    decreases n - m
  {
    if m < n {
      NothingAfterDraining(max, start, states, actions, m, n - 1);
      RunKeepsInv(max, start, states, actions, n - 1);
      assert states[n] == Apply(max, states[n - 1], actions[n - 1]);
    }
  }

  // ---- One batch from start to end ----

  /** The watcher's turn while the main loop waits. */
  function Meanwhile(max: Option<nat>, s: State): State { if s.watcher.Loading? then Apply(max, s, Loaded) else s }

  /** `finalize_train_batch` with the watcher's turns at its two waits. */
  function Finalized(max: Option<nat>, s: State, trainable: bool, duringSave: bool, duringSend: bool): State
    requires Enabled(s, StartBatch)
  {
    var started := Apply(max, s, StartBatch);
    var saved := Apply(max, if duringSave then Meanwhile(max, started) else started, Saved(trainable));
    if saved.main.Sending? then Apply(max, if duringSend then Meanwhile(max, saved) else saved, Sent) else saved
  }

  /** Whenever it comes, the watcher leaves the main loop's part of the state alone. */
  lemma MeanwhileKeeps(max: Option<nat>, start: nat, s: State)
    requires Inv(max, start, s)
    ensures var t := Meanwhile(max, s);
      Inv(max, start, t) && t.main == s.main && t.step == s.step && t.shipped == s.shipped && t.draining == s.draining
  {
    if s.watcher.Loading? {
      StepKeepsInv(max, start, s, Loaded);
    }
  }

  lemma SavedNext(max: Option<nat>, start: nat, s: State, trainable: bool)
    requires Inv(max, start, s) && s.main.Saving?
    ensures var t, late := Apply(max, s, Saved(trainable)), max.Some? && s.step >= max.value;
      && Inv(max, start, t) && t.shipped == s.shipped && t.step == s.step && t.draining == late
      && t.main == if trainable && !late then Sending(s.step) else Receiving
  {
    StepKeepsInv(max, start, s, Saved(trainable));
  }

  lemma SentNext(max: Option<nat>, start: nat, s: State)
    requires Inv(max, start, s) && s.main == Sending(s.step)
    ensures var t := Apply(max, s, Sent);
      && Inv(max, start, t) && t.shipped == s.shipped + [s.step] && t.step == s.step + 1 && t.draining == s.draining
      && t.main == Receiving && (t.gateOpen <==> t.step <= t.version + 1)
  {
    StepKeepsInv(max, start, s, Sent);
  }

  /** Whenever the watcher comes in between: a batch ships, under the step read at its start, if and only if it is
      trainable and that step is below `max_steps`, and then the gate is as open as the version in force after the
      sending allows; draining begins exactly at `max_steps`; and the invariant is kept. */
  lemma BatchShipsOnce(max: Option<nat>, start: nat, s: State, trainable: bool, duringSave: bool, duringSend: bool)
    requires Inv(max, start, s) && Enabled(s, StartBatch)
    ensures var t := Finalized(max, s, trainable, duringSave, duringSend);
      var late := max.Some? && s.step >= max.value;
      && Inv(max, start, t) && t.main == Receiving && t.draining == late
      && (if trainable && !late then
            && t.shipped == s.shipped + [s.step] && t.step == s.step + 1
            && (t.gateOpen <==> t.step <= t.version + 1)
          else t.shipped == s.shipped && t.step == s.step)
  {
    var started := Apply(max, s, StartBatch);
    StepKeepsInv(max, start, s, StartBatch);
    MeanwhileKeeps(max, start, started);
    var waited := if duringSave then Meanwhile(max, started) else started;
    SavedNext(max, start, waited, trainable);
    var saved := Apply(max, waited, Saved(trainable));
    if saved.main.Sending? {
      MeanwhileKeeps(max, start, saved);
      SentNext(max, start, if duringSend then Meanwhile(max, saved) else saved);
    }
  }
}

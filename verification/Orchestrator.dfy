/** The objects behind the gate, each method one stretch of code between two awaits
    (src/prime_rl/orchestrator/watcher.py:66-132; src/prime_rl/orchestrator/orchestrator.py:661-713, 991-1017). */
module Orchestrator {
  import opened Wrappers
  import opened LagControl

  /** Shared by the watcher and the orchestrator. */
  class Policy {
    var version: nat

    constructor (version: nat)
      ensures this.version == version
    {
      this.version := version;
    }
  }

  class Orchestrator {
    const policy: Policy
    const maxSteps: Option<nat>
    var step: nat
    var draining: bool
    var gateOpen: bool
    var main: MainLoop
    ghost var shipped: seq<nat>
    ghost var drainedAt: Option<nat>

    constructor (policy: Policy, maxSteps: Option<nat>, step: nat)
      ensures this.policy == policy && this.maxSteps == maxSteps && this.step == step
      ensures !draining && gateOpen && main == Receiving && shipped == [] && drainedAt == None
    {
      this.policy, this.maxSteps, this.step := policy, maxSteps, step;
      draining, gateOpen, main, shipped, drainedAt := false, true, Receiving, [], None;
    }

    /** `update_dispatch_gate`. */
    method UpdateDispatchGate()
      modifies this`gateOpen
      ensures gateOpen == GateFor(step, policy.version)
    {
      var lead: int := step + 1 - policy.version;
      if lead > TARGET_LAG {
        gateOpen := false;
      } else {
        gateOpen := true;
      }
    }

    /** `begin_draining`. */
    method StartDraining()
      modifies this`draining, this`drainedAt
      ensures draining
      ensures drainedAt == if old(draining) then old(drainedAt) else Some(|shipped|)
    {
      if draining {
        return;
      }
      draining, drainedAt := true, Some(|shipped|);
    }

    /** `finalize_train_batch` up to the checkpoint: the step is read once, at the start. */
    method StartBatch()
      requires main == Receiving && !draining
      modifies this`main
      ensures main == Saving(step)
    {
      main := Saving(step);
    }

    /** `finalize_train_batch` after the checkpoint is saved, up to the send. */
    method CheckBatch(trainable: bool)
      requires main.Saving?
      modifies this
      ensures step == old(step) && gateOpen == old(gateOpen) && shipped == old(shipped)
      ensures var late := maxSteps.Some? && old(main).step >= maxSteps.value;
        && main == (if !late && trainable then Sending(old(main).step) else Receiving)
        && draining == (old(draining) || late)
        && drainedAt == (if late && !old(draining) then Some(|shipped|) else old(drainedAt))
    {
      var current := main.step;
      main := Receiving;
      if maxSteps.Some? && current >= maxSteps.value {
        StartDraining();
        return;
      }
      if trainable {
        main := Sending(current);
      }
    }

    /** `finalize_train_batch` after the send. */
    method AdvanceStep()
      requires main.Sending?
      modifies this
      ensures gateOpen == GateFor(old(step), policy.version) && step == old(step) + 1 && main == Receiving
      ensures shipped == old(shipped) + [old(main).step] && draining == old(draining) && drainedAt == old(drainedAt)
    {
      shipped := shipped + [main.step];
      UpdateDispatchGate();
      step, main := step + 1, Receiving;
    }
  }

  class WeightWatcher {
    const policy: Policy
    const observer: Orchestrator
    var ckptStep: nat
    var updateCount: nat
    var phase: Watcher
    ghost var versions: seq<nat>

    ghost predicate Wired()
      reads this, observer
    {
      observer.policy == policy
    }

    /** The state of the pipeline that the watcher and its observer share. */
    ghost function Snapshot(): State
      reads this, policy, observer
    {
      State(observer.step, policy.version, ckptStep, updateCount, observer.gateOpen, observer.draining, observer.main, phase,
            observer.shipped, versions, observer.drainedAt)
    }

    constructor (observer: Orchestrator)
      requires observer.step == observer.policy.version && observer.main == Receiving && observer.gateOpen
      requires !observer.draining && observer.shipped == [] && observer.drainedAt == None
      ensures Wired() && this.observer == observer && Snapshot() == Init(observer.step)
    {
      policy, this.observer, ckptStep, updateCount := observer.policy, observer, observer.step, 0;
      phase, versions := Polling, [];
    }

    /** One pass of the polling loop, up to the wait for the marker. */
    method PollOnce(latest: nat)
      requires phase == Polling
      modifies this`phase
      ensures Snapshot() == Apply(observer.maxSteps, old(Snapshot()), Poll(latest))
    {
      var next := if policy.version >= latest then policy.version else latest;
      if next > ckptStep {
        phase := AwaitMarker(next);
      }
    }

    /** `apply_policy_update` once the weights are loaded: the version is adopted and every observer told,
        all before anything else can run. */
    method AdoptLoaded()
      requires Wired() && phase.Loading?
      modifies this, policy, observer`gateOpen
      ensures Wired() && Snapshot() == Apply(observer.maxSteps, old(Snapshot()), Loaded)
    {
      var next := phase.next;
      updateCount := updateCount + 1;
      ckptStep := next;
      policy.version := next;
      observer.UpdateDispatchGate();
      phase, versions := Polling, versions + [next];
    }
  }

  // ---- `finalize_train_batch`, with what the watcher does while it waits ----

  /** The watcher's turn while the main loop waits: it may be there to adopt weights it has loaded. */
  method LetWatcherRun(w: WeightWatcher)
    requires w.Wired()
    modifies w, w.policy, w.observer`gateOpen
    ensures w.Wired() && w.Snapshot() == Meanwhile(w.observer.maxSteps, old(w.Snapshot()))
  {
    if w.phase.Loading? {
      w.AdoptLoaded();
    }
  }

  method FinishSaving(w: WeightWatcher, trainable: bool)
    requires w.Wired() && w.observer.main.Saving?
    modifies w.observer
    ensures w.Snapshot() == Apply(w.observer.maxSteps, old(w.Snapshot()), Saved(trainable))
  {
    w.observer.CheckBatch(trainable);
  }

  method FinishSending(w: WeightWatcher)
    requires w.Wired() && w.observer.main.Sending?
    modifies w.observer
    ensures w.Snapshot() == Apply(w.observer.maxSteps, old(w.Snapshot()), Sent)
  {
    w.observer.AdvanceStep();
  }

  /** The whole of `finalize_train_batch`; `duringSave` and `duringSend` tell whether the watcher gets its turn
      while the checkpoint is saved and while the batch is sent. */
  method FinalizeTrainBatch(w: WeightWatcher, trainable: bool, duringSave: bool, duringSend: bool)
    requires w.Wired() && w.observer.main == Receiving && !w.observer.draining
    modifies w, w.policy, w.observer
    ensures w.Wired()
    ensures w.Snapshot() == Finalized(w.observer.maxSteps, old(w.Snapshot()), trainable, duringSave, duringSend)
  {
    w.observer.StartBatch();
    if duringSave {
      LetWatcherRun(w);
    }
    FinishSaving(w, trainable);
    if w.observer.main.Sending? {
      if duringSend {
        LetWatcherRun(w);
      }
      FinishSending(w);
    }
  }
}

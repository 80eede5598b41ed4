/** What holds of every rollout, whatever the backend does
    (environments/vmvm_tb_v2/vmvm_tb_v2/env.py:557-733, 770-860). */
module RolloutTheorems {
  import opened Wrappers
  import opened CommandLoop

  function Restarts(calls: seq<Call>): nat {
    if calls == [] then 0 else Restarts(calls[..|calls| - 1]) + if calls[|calls| - 1] == RestartSession then 1 else 0
  }

  /** The commands sent to the box, in order. */
  function Sent(calls: seq<Call>): seq<string> {
    if calls == [] then []
    else
      var last := calls[|calls| - 1];
      Sent(calls[..|calls| - 1]) + if last.RunBash? then [last.command] else []
  }

  function DropEvents(events: seq<Event>): nat {
    if events == [] then 0 else DropEvents(events[..|events| - 1]) + if events[|events| - 1].Drop? then 1 else 0
  }

  lemma CallAdded(calls: seq<Call>, call: Call)
    ensures Restarts(calls + [call]) == Restarts(calls) + if call == RestartSession then 1 else 0
    ensures Sent(calls + [call]) == Sent(calls) + if call.RunBash? then [call.command] else []
  {
    assert (calls + [call])[..|calls|] == calls;
  }

  lemma EventAdded(events: seq<Event>, event: Event)
    ensures DropEvents(events + [event]) == DropEvents(events) + if event.Drop? then 1 else 0
  {
    assert (events + [event])[..|events|] == events;
  }

  /** Restarts stay within the budget, each reconnect attempt is recorded by one drop event, and the box
      is still there. */
  ghost predicate InBudget(env: Env, s: State) {
    && Restarts(s.calls) <= s.reconnects && Restarts(s.calls) <= env.cap
    && DropEvents(s.events) == s.reconnects
    && Destroy !in s.calls
  }

  /** Everything but the counters, the events and the calls is the same. */
  predicate SameRest(s: State, t: State) {
    t == s.(reconnects := t.reconnects, drops := t.drops, recovered := t.recovered, events := t.events, calls := t.calls)
  }

  lemma ReconnectFacts(env: Env, s: State)
    requires InBudget(env, s)
    ensures var (t, ok) := Reconnect(env, s);
      && Restarts(t.calls) <= t.reconnects == s.reconnects + 1 && Restarts(t.calls) <= env.cap
      && t.events == s.events && Destroy !in t.calls && Sent(t.calls) == Sent(s.calls)
      && SameRest(s, t) && t.drops == s.drops && t.recovered == s.recovered
  {
    CallAdded(s.calls, RestartSession);
  }

  /** The state after a reconnect attempt, an inquiry and the record of a drop. */
  lemma AttemptFacts(env: Env, s: State, reconnected: bool, recovered: bool, kind: DropClass)
    requires InBudget(env, s)
    ensures var t := Reconnect(env, s).0;
      var u := AskRecovery(env, t).0;
      && InBudget(env, WithDrop(t, reconnected, recovered, kind)) && SameRest(s, t) && SameRest(s, u)
      && InBudget(env, WithDrop(u, reconnected, recovered, kind))
      && Sent(t.calls) == Sent(s.calls) == Sent(u.calls)
      && t.drops == u.drops == s.drops && t.recovered == u.recovered == s.recovered && u.reconnects == s.reconnects + 1
  {
    ReconnectFacts(env, s);
    var t := Reconnect(env, s).0;
    CallAdded(t.calls, RecoverLast);
    EventAdded(t.events, Drop(t.turn, reconnected, recovered, kind));
  }

  ghost predicate Recovered(env: Env, s: State, t: State, recovery: Recovery) {
    && InBudget(env, t) && SameRest(s, t) && Sent(t.calls) == Sent(s.calls)
    && t.drops == s.drops && t.recovered == s.recovered + (if recovery.Finished? then 1 else 0)
    && (recovery.Finished? ==> !IsDrop(env, recovery.reply))
  }

  lemma RecoverOnceFacts(env: Env, s: State)
    requires InBudget(env, s)
    ensures var (t, done) := RecoverOnce(env, s);
      && InBudget(env, t) && SameRest(s, t) && Sent(t.calls) == Sent(s.calls) && t.drops == s.drops
      && t.recovered == s.recovered + (if done.Some? && done.value.Finished? then 1 else 0)
      && (done.Some? && done.value.Finished? ==> !IsDrop(env, done.value.reply))
  {
    var (t, ok) := Reconnect(env, s);
    if !ok {
      AttemptFacts(env, s, false, false, DropBoxGone);
    } else {
      var (u, reply) := AskRecovery(env, t);
      if reply == None {
        AttemptFacts(env, s, true, false, DropStateLost);
      } else if IsDrop(env, reply.value) {
        AttemptFacts(env, s, true, false, DropReconnect);
      } else {
        AttemptFacts(env, s, true, true, DropReconnect);
      }
    }
  }

  /** Recovering sends no command, and what it hands on is never another drop. */
  lemma {:induction false} RecoverFacts(env: Env, s: State)
    requires InBudget(env, s)
    ensures Recovered(env, s, Recover(env, s).0, Recover(env, s).1)
    decreases env.cap - s.reconnects
  {
    RecoverOnceFacts(env, s);
    var (next, done) := RecoverOnce(env, s);
    if done == None {
      RecoverFacts(env, next);
    }
  }

  lemma SendingFacts(env: Env, s: State, command: string)
    requires InBudget(env, s)
    ensures InBudget(env, CutOff(s, command)) && Sent(CutOff(s, command).calls) == Sent(s.calls) + [command]
  {
    CallAdded(s.calls, RunBash(command));
  }

  ghost predicate OneRan(env: Env, s: State, command: string, t: State, recovery: Recovery) {
    && InBudget(env, t) && SameRest(s, t) && Sent(t.calls) == Sent(s.calls) + [command]
    && t.drops - t.recovered == s.drops - s.recovered + (if recovery.Finished? then 0 else 1)
    && (recovery.Finished? ==> !IsDrop(env, recovery.reply))
  }

  lemma OneRecovered(env: Env, s: State, asked: State, command: string, t: State, recovery: Recovery)
    requires SameRest(s, asked) && Sent(asked.calls) == Sent(s.calls) + [command]
    requires asked.drops == s.drops + 1 && asked.recovered == s.recovered && Recovered(env, asked, t, recovery)
    ensures OneRan(env, s, command, t, recovery)
  {
  }

  lemma RanAtOnce(env: Env, s: State, command: string, reply: Reply)
    requires InBudget(env, s) && !IsDrop(env, reply)
    ensures OneRan(env, s, command, Asked(s, RunBash(command)), Finished(reply))
  {
    CallAdded(s.calls, RunBash(command));
  }

  lemma RanWithDrop(env: Env, s: State, command: string)
    requires InBudget(env, s)
    ensures OneRan(env, s, command, Recover(env, CutOff(s, command)).0, Recover(env, CutOff(s, command)).1)
  {
    var asked := CutOff(s, command);
    SendingFacts(env, s, command);
    RecoverFacts(env, asked);
    OneRecovered(env, s, asked, command, Recover(env, asked).0, Recover(env, asked).1);
  }

  /** A command is sent exactly once, however often its connection drops. */
  lemma ExecuteOneFacts(env: Env, s: State, command: string)
    requires InBudget(env, s)
    ensures OneRan(env, s, command, ExecuteOne(env, s, command).0, ExecuteOne(env, s, command).1)
  {
    if IsDrop(env, env.bash(|s.calls|)) {
      RanWithDrop(env, s, command);
    } else {
      RanAtOnce(env, s, command, env.bash(|s.calls|));
    }
  }

  /** How far the commands from `i` on got: all outputs, or all up to the command that was lost. */
  ghost predicate Ran(env: Env, s: State, commands: seq<string>, i: nat, outputs: seq<Reply>,
                      t: State, all: seq<Reply>, ending: Ending)
    requires i <= |commands|
  {
    && InBudget(env, t) && SameRest(s, t) && outputs <= all
    && (forall k :: |outputs| <= k < |all| ==> !IsDrop(env, all[k]))
    && t.drops - t.recovered == s.drops - s.recovered + (if ending == Survived then 0 else 1)
    && (if ending == Survived then
          |all| - |outputs| == |commands| - i && Sent(t.calls) == Sent(s.calls) + commands[i..]
        else
          && 0 <= |all| - |outputs| < |commands| - i
          && Sent(t.calls) == Sent(s.calls) + commands[i..i + (|all| - |outputs|) + 1])
  }

  lemma RanOneMore(env: Env, s: State, next: State, commands: seq<string>, i: nat, outputs: seq<Reply>, r: Reply,
                   t: State, all: seq<Reply>, ending: Ending)
    requires i < |commands| && SameRest(s, next) && !IsDrop(env, r) && Sent(next.calls) == Sent(s.calls) + [commands[i]]
    requires next.drops - next.recovered == s.drops - s.recovered
    requires Ran(env, next, commands, i + 1, outputs + [r], t, all, ending)
    ensures Ran(env, s, commands, i, outputs, t, all, ending)
  {
    var n := |all| - |outputs|;
    assert all[|outputs|] == (outputs + [r])[|outputs|] == r;
    if ending == Survived {
      assert [commands[i]] + commands[i + 1..] == commands[i..];
      assert Sent(t.calls) == Sent(s.calls) + ([commands[i]] + commands[i + 1..]);
    } else {
      assert [commands[i]] + commands[i + 1..i + n + 1] == commands[i..i + n + 1];
      assert Sent(t.calls) == Sent(s.calls) + ([commands[i]] + commands[i + 1..i + n + 1]);
    }
  }

  /** A turn that survives sends all its commands in order and has one output for each; one that does
      not sends them up to the one that was lost. No output is ever the sign of a drop. */
  lemma {:induction false} ExecuteFacts(env: Env, s: State, commands: seq<string>, i: nat, outputs: seq<Reply>)
    requires i <= |commands| && InBudget(env, s)
    ensures var (t, all, ending) := Execute(env, s, commands, i, outputs); Ran(env, s, commands, i, outputs, t, all, ending)
    decreases |commands| - i
  {
    if i == |commands| {
      assert commands[i..] == [];
    } else {
      ExecuteOneFacts(env, s, commands[i]);
      var (next, recovery) := ExecuteOne(env, s, commands[i]);
      if recovery.Finished? {
        ExecuteFacts(env, next, commands, i + 1, outputs + [recovery.reply]);
        var (t, all, ending) := Execute(env, next, commands, i + 1, outputs + [recovery.reply]);
        RanOneMore(env, s, next, commands, i, outputs, recovery.reply, t, all, ending);
      } else {
        assert commands[i..i + 1] == [commands[i]];
      }
    }
  }

  // ---- Which reply belongs to which command ----

  /** The output tells of a lost connection, and the error type is one of those of a dropped session. */
  predicate SignOfDrop(env: Env, r: Reply) {
    env.connLost(r.output) && r.errorType in {Some("broken_pipe"), Some("other")}
  }

  predicate Dropped(env: Env, k: nat) { env.recover(k).Some? && SignOfDrop(env, env.recover(k).value) }

  /** The calls from `from` to `to` send no command, and no inquiry among them has more than a drop for an answer. */
  ghost predicate OnlyDrops(env: Env, calls: seq<Call>, from: nat, to: nat) {
    && from <= to <= |calls|
    && forall k :: from <= k < to ==> !calls[k].RunBash? && (calls[k] == RecoverLast ==> Dropped(env, k))
  }

  /** The call before `to` is the first inquiry since `from` whose answer is no drop, and `reply` is that answer. */
  ghost predicate FirstAnswer(env: Env, calls: seq<Call>, from: nat, to: nat, reply: Reply) {
    && from < to && OnlyDrops(env, calls, from, to - 1) && to <= |calls|
    && calls[to - 1] == RecoverLast && env.recover(to - 1) == Some(reply) && !SignOfDrop(env, reply)
  }

  /** Call `start` sends `command`, and `reply` is what the box answered to it; or, if that answer was a drop, what
      the box answered to the first inquiry for the last command, before anything else was sent, that was none. */
  ghost predicate Answers(env: Env, calls: seq<Call>, start: nat, end: nat, command: string, reply: Reply) {
    && start < end <= |calls| && calls[start] == RunBash(command)
    && if SignOfDrop(env, env.bash(start)) then FirstAnswer(env, calls, start + 1, end, reply)
       else end == start + 1 && reply == env.bash(start)
  }

  lemma AnswersStay(env: Env, calls: seq<Call>, more: seq<Call>, start: nat, end: nat, command: string, reply: Reply)
    requires calls <= more && Answers(env, calls, start, end, command, reply)
    ensures Answers(env, more, start, end, command, reply)
  {
  }

  lemma RecoverOnceCalls(env: Env, s: State)
    ensures var (t, done) := RecoverOnce(env, s);
      && s.calls <= t.calls
      && (done == None ==> OnlyDrops(env, t.calls, |s.calls|, |t.calls|))
      && (done.Some? && done.value.Finished? ==> FirstAnswer(env, t.calls, |s.calls|, |t.calls|, done.value.reply))
  {
    var (t, ok) := Reconnect(env, s);
    if ok {
      var (u, reply) := AskRecovery(env, t);
      assert t.calls == s.calls + [RestartSession];
      if reply.Some? {
        assert u.calls == t.calls + [RecoverLast];
      }
    }
  }

  lemma {:induction false} RecoverCalls(env: Env, s: State)
    ensures var (t, recovery) := Recover(env, s);
      && s.calls <= t.calls
      && (recovery.Finished? ==> FirstAnswer(env, t.calls, |s.calls|, |t.calls|, recovery.reply))
    decreases env.cap - s.reconnects
  {
    RecoverOnceCalls(env, s);
    var (next, done) := RecoverOnce(env, s);
    if done == None {
      RecoverCalls(env, next);
    }
  }

  lemma ExecuteOneAnswers(env: Env, s: State, command: string)
    ensures var (t, recovery) := ExecuteOne(env, s, command);
      && s.calls <= t.calls
      && (recovery.Finished? ==> Answers(env, t.calls, |s.calls|, |t.calls|, command, recovery.reply))
  {
    if IsDrop(env, env.bash(|s.calls|)) {
      RecoverCalls(env, CutOff(s, command));
      assert CutOff(s, command).calls[|s.calls|] == RunBash(command);
    }
  }

  /** Each output from `outputs` on answers the command of its own place; command `i + k` was sent by call `starts[k]`. */
  ghost predicate Answered(env: Env, commands: seq<string>, i: nat, calls: seq<Call>, outputs: seq<Reply>, starts: seq<nat>) {
    && |starts| == |outputs| + 1 && i + |outputs| <= |commands|
    && forall k :: 0 <= k < |outputs| ==> Answers(env, calls, starts[k], starts[k + 1], commands[i + k], outputs[k])
  }

  lemma AnsweredOneMore(env: Env, commands: seq<string>, i: nat, calls: seq<Call>, reply: Reply, rest: seq<Reply>,
                        start: nat, starts: seq<nat>)
    requires Answered(env, commands, i + 1, calls, rest, starts) && i < |commands|
    requires Answers(env, calls, start, starts[0], commands[i], reply)
    ensures Answered(env, commands, i, calls, [reply] + rest, [start] + starts)
  {
    forall k | 0 <= k < |rest| + 1
      ensures Answers(env, calls, ([start] + starts)[k], ([start] + starts)[k + 1], commands[i + k], ([reply] + rest)[k])
    {
      if k > 0 {
        assert Answers(env, calls, starts[k - 1], starts[k - 1 + 1], commands[i + 1 + (k - 1)], rest[k - 1]);
      }
    }
  }

  /** Every output is the answer to the command of its own place, also those before a loss. */
  lemma {:induction false} ExecuteAnswers(env: Env, s: State, commands: seq<string>, i: nat, outputs: seq<Reply>)
    returns (starts: seq<nat>)
    requires i <= |commands|
    ensures var (t, all, ending) := Execute(env, s, commands, i, outputs);
      && s.calls <= t.calls && outputs <= all
      && Answered(env, commands, i, t.calls, all[|outputs|..], starts) && starts[0] == |s.calls|
      && (ending == Survived ==> i + |all| - |outputs| == |commands| && starts[|starts| - 1] == |t.calls|)
    decreases |commands| - i
  {
    starts := [|s.calls|];
    if i < |commands| {
      ExecuteOneAnswers(env, s, commands[i]);
      var (next, recovery) := ExecuteOne(env, s, commands[i]);
      if recovery.Finished? {
        var r := recovery.reply;
        var later := ExecuteAnswers(env, next, commands, i + 1, outputs + [r]);
        var (t, all, ending) := Execute(env, next, commands, i + 1, outputs + [r]);
        AnswersStay(env, next.calls, t.calls, |s.calls|, |next.calls|, commands[i], r);
        AnsweredOneMore(env, commands, i, t.calls, r, all[|outputs + [r]|..], |s.calls|, later);
        assert all[|outputs|] == (outputs + [r])[|outputs|];
        assert all[|outputs|..] == [r] + all[|outputs + [r]|..];
        starts := [|s.calls|] + later;
      }
    }
  }

  // ---- A whole rollout ----

  predicate Lost(s: State) { s.error == Some(BoxGone) || s.error == Some(StateLost) }

  /** The invariant of a rollout. A box that is destroyed is never asked for anything again. */
  ghost predicate Sound(env: Env, s: State) {
    && Restarts(s.calls) <= env.cap && Restarts(s.calls) <= s.reconnects
    && DropEvents(s.events) == s.reconnects
    && s.drops - s.recovered == (if Lost(s) then 1 else 0)
    && (Lost(s) ==> !s.hasBackend && s.complete && s.outcome == Some("env_error") && s.reward == Some(0.0))
    && (s.hasBackend ==> Destroy !in s.calls && !Lost(s))
    && (forall i :: 0 <= i < |s.calls| - 1 ==> s.calls[i] != Destroy)
  }

  lemma OneCommand(command: string)
    ensures Restarts([RunBash(command)]) == 0 && Sent([RunBash(command)]) == [command]
  {
    var calls := [RunBash(command)];
    assert calls[..0] == [];
    assert [] + [command] == [command];
  }

  lemma OneCommandThenGone(command: string)
    ensures Restarts([RunBash(command), Destroy]) == 0 && Sent([RunBash(command), Destroy]) == [command]
  {
    OneCommand(command);
    CallAdded([RunBash(command)], Destroy);
    assert [RunBash(command)] + [Destroy] == [RunBash(command), Destroy];
    assert [command] + [] == [command];
  }

  lemma OneEvent(event: Event)
    requires !event.Drop?
    ensures DropEvents([event]) == 0
  {
    assert [event][..0] == [];
  }

  lemma SetUpIsSound(env: Env, result: SetupResult)
    ensures Sound(env, SetUp(result))
    ensures Sent(SetUp(result).calls) == if result.NotLeased? then [] else [result.command]
  {
    match result
    case NotLeased(kind) => OneEvent(SetupFail(kind));
    case Up(command) => OneCommand(command);
    case Broken(command, kind) =>
      OneCommandThenGone(command);
      OneEvent(SetupFail(kind));
  }

  lemma GivingUpIsSound(env: Env, s: State, ending: Ending, commands: nat)
    requires InBudget(env, s) && s.drops == s.recovered + 1 && ending != Survived
    ensures Sound(env, GivenUp(s, ending, commands)) && Lost(GivenUp(s, ending, commands))
    ensures Sent(GivenUp(s, ending, commands).calls) == Sent(s.calls)
  {
    CallAdded(s.calls, Destroy);
  }

  lemma CommandsKeepSound(env: Env, s: State, commands: seq<string>)
    requires Sound(env, s) && s.hasBackend
    ensures var t := Turn(env, s, false, Commands(commands)).0;
      !s.setupFailed ==>
        && Sound(env, t) && Sent(t.calls) <= Sent(s.calls) + commands
        && (!Lost(t) ==> Sent(t.calls) == Sent(s.calls) + commands)
  {
    ExecuteFacts(env, s, commands, 0, []);
    assert commands[0..] == commands;
    var (t, all, ending) := Execute(env, s, commands, 0, []);
    if ending != Survived {
      GivingUpIsSound(env, t, ending, |all|);
      assert commands[0..|all| + 1] <= commands;
    }
  }

  datatype TurnInput = TurnInput(expired: bool, parsed: Parsed)

  /** The commands this turn asks for, if it gets to run them. */
  function Asking(s: State, input: TurnInput): seq<string> {
    if s.hasBackend && !s.setupFailed && !input.expired && input.parsed.Commands? then input.parsed.commands else []
  }

  /** Every turn keeps the invariant and sends a leading part of its commands, all of them unless the
      box or its shell is lost. */
  lemma TurnKeepsSound(env: Env, s: State, input: TurnInput)
    requires Sound(env, s)
    ensures var t := Turn(env, s, input.expired, input.parsed).0;
      && Sound(env, t) && Sent(t.calls) <= Sent(s.calls) + Asking(s, input)
      && (!Lost(t) || Lost(s) ==> Sent(t.calls) == Sent(s.calls) + Asking(s, input))
      && (Lost(s) ==> t == s)
  {
    assert Sent(s.calls) + [] == Sent(s.calls);
    if s.hasBackend && !s.setupFailed {
      if input.expired {
        EventAdded(s.events, WallTime);
      } else if input.parsed.Commands? {
        CommandsKeepSound(env, s, input.parsed.commands);
      }
    }
  }

  /** The agent is told the outputs of the commands of the turn in their order: output `k` is the box's answer to
      call `starts[k]`, which sent command `k`, or, if that was a drop, the first answer to an inquiry after it and
      before command `k + 1` that was none. The agent never sees a drop. */
  lemma TurnDelivers(env: Env, s: State, commands: seq<string>) returns (starts: seq<nat>)
    requires Sound(env, s) && s.hasBackend && !s.setupFailed
    ensures var (t, r) := Turn(env, s, false, Commands(commands));
      && (Lost(t) <==> !(r.Ok? && r.value.Terminal?))
      && (r.Err? ==> env.raiseOnInfra && Lost(t))
      && (!Lost(t) ==>
            && Sent(t.calls) == Sent(s.calls) + commands && |r.value.outputs| == |commands|
            && Answered(env, commands, 0, t.calls, r.value.outputs, starts)
            && starts[0] == |s.calls| && starts[|commands|] == |t.calls|
            && forall k :: 0 <= k < |commands| ==> !SignOfDrop(env, r.value.outputs[k]))
  {
    CommandsKeepSound(env, s, commands);
    ExecuteFacts(env, s, commands, 0, []);
    starts := ExecuteAnswers(env, s, commands, 0, []);
    var (t, all, ending) := Execute(env, s, commands, 0, []);
    assert all[0..] == all;
    if ending != Survived {
      GivingUpIsSound(env, t, ending, |all|);
    }
  }

  /** The stop conditions. */
  predicate Stopped(env: Env, s: State) { s.complete || s.parseErrors > env.maxParseRetries }

  function Drive(env: Env, s: State, inputs: seq<TurnInput>): State
    decreases |inputs|
  {
    if inputs == [] || Stopped(env, s) then s
    else Drive(env, Turn(env, s, inputs[0].expired, inputs[0].parsed).0, inputs[1..])
  }

  /** All commands asked for by the turns that took place. */
  function AllAsked(env: Env, s: State, inputs: seq<TurnInput>): seq<string>
    decreases |inputs|
  {
    if inputs == [] || Stopped(env, s) then []
    else Asking(s, inputs[0]) + AllAsked(env, Turn(env, s, inputs[0].expired, inputs[0].parsed).0, inputs[1..])
  }

  lemma {:induction false} DriveKeepsSound(env: Env, s: State, inputs: seq<TurnInput>)
    requires Sound(env, s) && !(Lost(s) && !s.complete)
    ensures var t := Drive(env, s, inputs);
      && Sound(env, t) && Sent(t.calls) <= Sent(s.calls) + AllAsked(env, s, inputs)
      && (!Lost(t) || Lost(s) ==> Sent(t.calls) == Sent(s.calls) + AllAsked(env, s, inputs))
    decreases |inputs|
  {
    if inputs == [] || Stopped(env, s) {
      assert Sent(s.calls) + [] == Sent(s.calls);
    } else {
      var next := Turn(env, s, inputs[0].expired, inputs[0].parsed).0;
      TurnKeepsSound(env, s, inputs[0]);
      if Lost(next) {
        assert AllAsked(env, next, inputs[1..]) == [];
        assert Drive(env, next, inputs[1..]) == next;
        assert Asking(s, inputs[0]) + [] == Asking(s, inputs[0]);
      } else {
        DriveKeepsSound(env, next, inputs[1..]);
        Regroup(Sent(s.calls), Asking(s, inputs[0]), AllAsked(env, next, inputs[1..]));
      }
    }
  }

  lemma Regroup(sent: seq<string>, a: seq<string>, b: seq<string>)
    ensures sent + (a + b) == (sent + a) + b
  {
  }

  lemma DestroyedIsSound(env: Env, s: State, t: State)
    requires Sound(env, s) && s.hasBackend
    requires t.calls == s.calls + [Destroy] && !t.hasBackend && !Lost(t)
    requires DropEvents(t.events) == DropEvents(s.events)
    requires t.reconnects == s.reconnects && t.drops == s.drops && t.recovered == s.recovered
    ensures Sound(env, t) && Sent(t.calls) == Sent(s.calls)
  {
    CallAdded(s.calls, Destroy);
  }

  lemma FinalizeKeepsSound(env: Env, s: State, grade: Grade)
    requires Sound(env, s)
    ensures Sound(env, Finalized(s, grade)) && Sent(Finalized(s, grade).calls) == Sent(s.calls)
    ensures Lost(Finalized(s, grade)) <==> Lost(s)
  {
    if s.hasBackend {
      if grade.GradeTimeout? {
        EventAdded(s.events, GradeFail("finalize_timeout"));
      } else if grade.GradeRaised? {
        EventAdded(s.events, GradeFail("reward_raise"));
      }
      DestroyedIsSound(env, s, Finalized(s, grade));
    }
  }

  /** For any backend, any turns and any grading: at most `cap` restarts over the whole rollout; one drop
      event for each reconnect attempt; every drop recovered, except one exactly when the rollout ended
      with the box or its shell lost, which then counts as an environment error with reward 0; the
      commands sent are those asked for, in order and each once, all of them unless it was lost; and
      nothing is asked of a box once it is destroyed. */
  lemma RolloutSound(env: Env, result: SetupResult, inputs: seq<TurnInput>, grade: Grade)
    ensures var start := SetUp(result);
      var end := Finalized(Drive(env, start, inputs), grade);
      var wanted := (if result.NotLeased? then [] else [result.command]) + AllAsked(env, start, inputs);
      && Restarts(end.calls) <= env.cap
      && DropEvents(end.events) == end.reconnects
      && end.drops - end.recovered == (if Lost(end) then 1 else 0)
      && (Lost(end) ==> end.outcome == Some("env_error") && end.reward == Some(0.0))
      && Sent(end.calls) <= wanted && (!Lost(end) ==> Sent(end.calls) == wanted)
      && (forall i :: 0 <= i < |end.calls| - 1 ==> end.calls[i] != Destroy)
  {
    SetUpIsSound(env, result);
    DriveKeepsSound(env, SetUp(result), inputs);
    FinalizeKeepsSound(env, Drive(env, SetUp(result), inputs), grade);
  }
}

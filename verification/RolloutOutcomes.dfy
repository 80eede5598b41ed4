/** Why a rollout ends, and what it has on record (environments/vmvm_tb_v2/vmvm_tb_v2/env.py:491-733, 770-860). */
module RolloutOutcomes {
  import opened Wrappers
  import opened CommandLoop
  import opened RolloutTheorems

  /** Restarts asked for after so many reconnect attempts: each one while the budget lasts, and none if the backend
      cannot restart. */
  function RestartsFor(env: Env, reconnects: nat): nat {
    if !env.canRestart then 0 else if reconnects <= env.cap then reconnects else env.cap
  }

  /** `calls[k]` is such that `failed`, and nothing but the destruction of the box came after it. */
  predicate LastOne(calls: seq<Call>, k: nat, call: Call) {
    k < |calls| && calls[k] == call && forall j :: k < j < |calls| ==> calls[j] == Destroy
  }

  /** There is no way back to the box: the backend cannot restart, or the budget is used up, or the last restart
      failed. */
  ghost predicate CannotReconnect(env: Env, reconnects: nat, calls: seq<Call>) {
    !env.canRestart || reconnects > env.cap || exists k :: LastOne(calls, k, RestartSession) && !env.restart(k)
  }

  /** The box is back within the budget, but not the command: the backend cannot recover it, or had nothing to tell. */
  ghost predicate CannotRecover(env: Env, reconnects: nat, calls: seq<Call>) {
    && env.canRestart && reconnects <= env.cap
    && (!env.canRecover || exists k :: LastOne(calls, k, RecoverLast) && env.recover(k) == None)
  }

  /** Drops that were recovered, by the events. */
  function RecoveredEvents(events: seq<Event>): nat {
    if events == [] then 0
    else
      var before, last := RecoveredEvents(events[..|events| - 1]), events[|events| - 1];
      if last.Drop? && last.recovered then before + 1 else before
  }

  lemma RecoveredEventAdded(events: seq<Event>, event: Event)
    ensures RecoveredEvents(events + [event]) ==
      if event.Drop? && event.recovered then RecoveredEvents(events) + 1 else RecoveredEvents(events)
  {
    assert (events + [event])[..|events|] == events;
  }

  /** Every drop event is of a turn up to this one, and says whether the session was back. */
  predicate EventsOk(events: seq<Event>, turn: nat) {
    forall i :: 0 <= i < |events| && events[i].Drop? ==>
      && events[i].turn <= turn && (events[i].recovered ==> events[i].reconnected)
      && (events[i].cause == DropBoxGone <==> !events[i].reconnected)
  }

  /** What holds between the calls of a turn. */
  ghost predicate Kept(env: Env, s: State) {
    && Restarts(s.calls) == RestartsFor(env, s.reconnects)
    && RecoveredEvents(s.events) == s.recovered && EventsOk(s.events, s.turn)
  }

  ghost predicate Explained(env: Env, s: State, ending: Recovery) {
    && (ending == Gone ==> CannotReconnect(env, s.reconnects, s.calls))
    && (ending == ShellLost ==> CannotRecover(env, s.reconnects, s.calls))
  }

  lemma ReconnectKeeps(env: Env, s: State)
    requires Kept(env, s)
    ensures var (t, ok) := Reconnect(env, s);
      && Kept(env, t) && t.events == s.events && t.turn == s.turn && t.recovered == s.recovered
      && (ok ==> env.canRestart && t.reconnects <= env.cap)
      && (!ok ==> CannotReconnect(env, t.reconnects, t.calls))
  {
    var (t, ok) := Reconnect(env, s);
    CallAdded(s.calls, RestartSession);
    if t.calls != s.calls && !ok {
      assert LastOne(t.calls, |s.calls|, RestartSession);
    }
  }

  lemma AskKeeps(env: Env, s: State)
    requires Kept(env, s) && env.canRestart && s.reconnects <= env.cap
    ensures var (t, reply) := AskRecovery(env, s);
      && Kept(env, t) && t.events == s.events && t.turn == s.turn && t.reconnects == s.reconnects && t.recovered == s.recovered
      && (reply == None ==> CannotRecover(env, t.reconnects, t.calls))
  {
    var (t, reply) := AskRecovery(env, s);
    CallAdded(s.calls, RecoverLast);
    if env.canRecover && reply == None {
      assert LastOne(t.calls, |s.calls|, RecoverLast);
    }
  }

  /** The state once a drop is recorded. */
  function AfterDrop(s: State, reconnected: bool, recovered: bool, kind: DropClass): State {
    s.(events := s.events + [Drop(s.turn, reconnected, recovered, kind)], recovered := if recovered then s.recovered + 1 else s.recovered)
  }

  lemma DropKeeps(env: Env, s: State, reconnected: bool, recovered: bool, kind: DropClass)
    requires Kept(env, s) && (recovered ==> reconnected) && (kind == DropBoxGone <==> !reconnected)
    ensures Kept(env, AfterDrop(s, reconnected, recovered, kind))
  {
    RecoveredEventAdded(s.events, Drop(s.turn, reconnected, recovered, kind));
  }

  lemma RecoverOnceIs(env: Env, s: State)
    ensures var (t, ok) := Reconnect(env, s);
      var (u, reply) := AskRecovery(env, t);
      RecoverOnce(env, s) ==
        if !ok then (AfterDrop(t, false, false, DropBoxGone), Some(Gone))
        else if reply == None then (AfterDrop(u, true, false, DropStateLost), Some(ShellLost))
        else if IsDrop(env, reply.value) then (AfterDrop(u, true, false, DropReconnect), None)
        else (AfterDrop(u, true, true, DropReconnect), Some(Finished(reply.value)))
  {
  }

  lemma RecoverOnceKeeps(env: Env, s: State)
    requires Kept(env, s)
    ensures var (t, done) := RecoverOnce(env, s);
      Kept(env, t) && t.turn == s.turn && (done.Some? ==> Explained(env, t, done.value))
  {
    RecoverOnceIs(env, s);
    ReconnectKeeps(env, s);
    var (t, ok) := Reconnect(env, s);
    if !ok {
      DropKeeps(env, t, false, false, DropBoxGone);
    } else {
      AskKeeps(env, t);
      var (u, reply) := AskRecovery(env, t);
      DropKeeps(env, u, true, false, DropStateLost);
      DropKeeps(env, u, true, false, DropReconnect);
      DropKeeps(env, u, true, true, DropReconnect);
    }
  }

  lemma {:induction false} RecoverKeeps(env: Env, s: State)
    requires Kept(env, s)
    ensures var (t, recovery) := Recover(env, s); Kept(env, t) && t.turn == s.turn && Explained(env, t, recovery)
    decreases env.cap - s.reconnects
  {
    RecoverOnceKeeps(env, s);
    var (next, done) := RecoverOnce(env, s);
    if done == None {
      RecoverKeeps(env, next);
    }
  }

  lemma ExecuteOneKeeps(env: Env, s: State, command: string)
    requires Kept(env, s)
    ensures var (t, recovery) := ExecuteOne(env, s, command); Kept(env, t) && t.turn == s.turn && Explained(env, t, recovery)
  {
    CallAdded(s.calls, RunBash(command));
    if IsDrop(env, env.bash(|s.calls|)) {
      RecoverKeeps(env, CutOff(s, command));
    }
  }

  lemma {:induction false} ExecuteKeeps(env: Env, s: State, commands: seq<string>, i: nat, outputs: seq<Reply>)
    requires i <= |commands| && Kept(env, s)
    ensures var (t, all, ending) := Execute(env, s, commands, i, outputs);
      && Kept(env, t) && t.turn == s.turn
      && (ending == EndedGone ==> CannotReconnect(env, t.reconnects, t.calls))
      && (ending == EndedLost ==> CannotRecover(env, t.reconnects, t.calls))
    decreases |commands| - i
  {
    if i < |commands| {
      ExecuteOneKeeps(env, s, commands[i]);
      var (next, recovery) := ExecuteOne(env, s, commands[i]);
      if recovery.Finished? {
        ExecuteKeeps(env, next, commands, i + 1, outputs + [recovery.reply]);
      }
    }
  }

  // ---- The record ----

  function RecordsOf(records: seq<Record>, kind: TurnKind): nat {
    if records == [] then 0
    else
      var before := RecordsOf(records[..|records| - 1], kind);
      if records[|records| - 1].kind == kind then before + 1 else before
  }

  /** Commands finished in all turns on record. */
  function CommandsDone(records: seq<Record>): nat {
    if records == [] then 0 else CommandsDone(records[..|records| - 1]) + records[|records| - 1].commands
  }

  lemma RecordAdded(records: seq<Record>, r: Record, kind: TurnKind)
    ensures RecordsOf(records + [r], kind) == if r.kind == kind then RecordsOf(records, kind) + 1 else RecordsOf(records, kind)
    ensures CommandsDone(records + [r]) == CommandsDone(records) + r.commands
  {
    assert (records + [r])[..|records|] == records;
  }

  /** Between turns: the box or shell was lost only for a reason; the turns on record are numbered; parse errors are
      those on record; the turn that lost the box or shell is on record as such; and the commands finished, with the
      one that was lost, are all that were sent after those of the setup. */
  ghost predicate OnRecord(env: Env, s: State, setup: nat) {
    && Kept(env, s)
    && (s.error == Some(BoxGone) ==> CannotReconnect(env, s.reconnects, s.calls))
    && (s.error == Some(StateLost) ==> CannotRecover(env, s.reconnects, s.calls))
    && |s.records| == s.turn && (forall i :: 0 <= i < |s.records| ==> s.records[i].turn == i)
    && s.parseErrors == RecordsOf(s.records, ParseError)
    && RecordsOf(s.records, LostBox) == (if s.error == Some(BoxGone) then 1 else 0)
    && RecordsOf(s.records, LostState) == (if s.error == Some(StateLost) then 1 else 0)
    && setup + CommandsDone(s.records) + (if Lost(s) then 1 else 0) == |Sent(s.calls)|
  }

  lemma AllRecordsAdded(records: seq<Record>, r: Record)
    ensures CommandsDone(records + [r]) == CommandsDone(records) + r.commands
    ensures RecordsOf(records + [r], ParseError) == RecordsOf(records, ParseError) + if r.kind == ParseError then 1 else 0
    ensures RecordsOf(records + [r], LostBox) == RecordsOf(records, LostBox) + if r.kind == LostBox then 1 else 0
    ensures RecordsOf(records + [r], LostState) == RecordsOf(records, LostState) + if r.kind == LostState then 1 else 0
  {
    RecordAdded(records, r, ParseError);
    RecordAdded(records, r, LostBox);
    RecordAdded(records, r, LostState);
  }

  /** A turn without commands is on record as what it was. */
  lemma IdleTurnOnRecord(env: Env, s: State, t: State, setup: nat, kind: TurnKind)
    requires OnRecord(env, s, setup) && (kind == ParseError || kind == Submitted)
    requires t.records == s.records + [Record(s.turn, kind, 0)] && t.turn == s.turn + 1
    requires t.parseErrors == s.parseErrors + if kind == ParseError then 1 else 0
    requires t.calls == s.calls && t.reconnects == s.reconnects && t.events == s.events && t.recovered == s.recovered
    requires t.error == s.error
    ensures OnRecord(env, t, setup)
  {
    AllRecordsAdded(s.records, Record(s.turn, kind, 0));
  }

  lemma StillLast(calls: seq<Call>, k: nat, call: Call)
    requires LastOne(calls, k, call)
    ensures LastOne(calls + [Destroy], k, call)
  {
  }

  lemma StillExplained(env: Env, reconnects: nat, calls: seq<Call>)
    ensures CannotReconnect(env, reconnects, calls) ==> CannotReconnect(env, reconnects, calls + [Destroy])
    ensures CannotRecover(env, reconnects, calls) ==> CannotRecover(env, reconnects, calls + [Destroy])
  {
    if k :| LastOne(calls, k, RestartSession) && !env.restart(k) {
      StillLast(calls, k, RestartSession);
    }
    if k :| LastOne(calls, k, RecoverLast) && env.recover(k) == None {
      StillLast(calls, k, RecoverLast);
    }
  }

  lemma GivingUpIsOnRecord(env: Env, s: State, t: State, setup: nat, ending: Ending, commands: nat)
    requires OnRecord(env, s, setup) && !Lost(s) && Kept(env, t) && ending != Survived
    requires t.records == s.records && t.turn == s.turn && t.parseErrors == s.parseErrors
    requires |Sent(t.calls)| == |Sent(s.calls)| + commands + 1
    requires ending == EndedGone ==> CannotReconnect(env, t.reconnects, t.calls)
    requires ending == EndedLost ==> CannotRecover(env, t.reconnects, t.calls)
    ensures OnRecord(env, GivenUp(t, ending, commands), setup)
  {
    AllRecordsAdded(s.records, Record(s.turn, if ending == EndedGone then LostBox else LostState, commands));
    CallAdded(t.calls, Destroy);
    StillExplained(env, t.reconnects, t.calls);
  }

  lemma ExecutedOnRecord(env: Env, s: State, t: State, setup: nat, commands: nat)
    requires OnRecord(env, s, setup) && !Lost(s) && Kept(env, t) && SameRest(s, t)
    requires |Sent(t.calls)| == |Sent(s.calls)| + commands
    ensures OnRecord(env, Recorded(t, Exec, commands), setup)
  {
    AllRecordsAdded(s.records, Record(s.turn, Exec, commands));
  }

  lemma CommandsStayOnRecord(env: Env, s: State, setup: nat, commands: seq<string>)
    requires Sound(env, s) && OnRecord(env, s, setup) && s.hasBackend && !s.setupFailed
    ensures OnRecord(env, Turn(env, s, false, Commands(commands)).0, setup)
  {
    ExecuteFacts(env, s, commands, 0, []);
    ExecuteKeeps(env, s, commands, 0, []);
    var (t, all, ending) := Execute(env, s, commands, 0, []);
    if ending == Survived {
      ExecutedOnRecord(env, s, t, setup, |all|);
    } else {
      GivingUpIsOnRecord(env, s, t, setup, ending, |all|);
    }
  }

  lemma TurnStaysOnRecord(env: Env, s: State, setup: nat, input: TurnInput)
    requires Sound(env, s) && OnRecord(env, s, setup)
    ensures OnRecord(env, Turn(env, s, input.expired, input.parsed).0, setup)
  {
    if s.hasBackend && !s.setupFailed {
      if input.expired {
        RecoveredEventAdded(s.events, WallTime);
      } else {
        match input.parsed
        case Unparsable => IdleTurnOnRecord(env, s, Turn(env, s, false, input.parsed).0, setup, ParseError);
        case Submit => IdleTurnOnRecord(env, s, Turn(env, s, false, input.parsed).0, setup, Submitted);
        case Commands(commands) => CommandsStayOnRecord(env, s, setup, commands);
      }
    }
  }

  lemma BlankIsOnRecord(env: Env, s: State, setup: nat)
    requires s.reconnects == 0 && s.recovered == 0 && s.records == [] && s.turn == 0 && s.parseErrors == 0 && !Lost(s)
    requires Restarts(s.calls) == 0 && |Sent(s.calls)| == setup
    requires s.events == [] || exists kind :: s.events == [SetupFail(kind)]
    ensures OnRecord(env, s, setup)
  {
    if s.events != [] {
      assert s.events[..0] == [] && RecoveredEvents(s.events[..0]) == 0;
    }
  }

  lemma SetUpIsOnRecord(env: Env, result: SetupResult)
    ensures OnRecord(env, SetUp(result), if result.NotLeased? then 0 else 1)
  {
    match result
    case Up(command) =>
      OneCommand(command);
      BlankIsOnRecord(env, SetUp(result), 1);
    case NotLeased(kind) =>
      assert SetUp(result).events == [SetupFail(kind)];
      BlankIsOnRecord(env, SetUp(result), 0);
    case Broken(command, kind) =>
      OneCommandThenGone(command);
      assert SetUp(result).events == [SetupFail(kind)];
      BlankIsOnRecord(env, SetUp(result), 1);
  }

  lemma {:induction false} DriveStaysOnRecord(env: Env, s: State, setup: nat, inputs: seq<TurnInput>)
    requires Sound(env, s) && OnRecord(env, s, setup)
    ensures Sound(env, Drive(env, s, inputs)) && OnRecord(env, Drive(env, s, inputs), setup)
    decreases |inputs|
  {
    if inputs != [] && !Stopped(env, s) {
      TurnKeepsSound(env, s, inputs[0]);
      TurnStaysOnRecord(env, s, setup, inputs[0]);
      DriveStaysOnRecord(env, Turn(env, s, inputs[0].expired, inputs[0].parsed).0, setup, inputs[1..]);
    }
  }

  lemma FinalizedStaysOnRecord(env: Env, s: State, setup: nat, grade: Grade)
    requires Sound(env, s) && OnRecord(env, s, setup)
    ensures OnRecord(env, Finalized(s, grade), setup)
  {
    if s.hasBackend {
      CallAdded(s.calls, Destroy);
      RecoveredEventAdded(s.events, GradeFail("finalize_timeout"));
      RecoveredEventAdded(s.events, GradeFail("reward_raise"));
    }
  }

  /** Every rollout, whatever the backend does, has its ending explained and its turns on record: restarts are asked for
      at every drop while the budget lasts; the box counts as gone only if the backend cannot restart, the budget is
      used up or the last restart failed; its shell as lost only if the box was back but the command was not; and the
      finished and lost commands on record are all that were sent. */
  lemma RolloutExplained(env: Env, result: SetupResult, inputs: seq<TurnInput>, grade: Grade)
    ensures OnRecord(env, Finalized(Drive(env, SetUp(result), inputs), grade), if result.NotLeased? then 0 else 1)
  {
    SetUpIsSound(env, result);
    SetUpIsOnRecord(env, result);
    var setup := if result.NotLeased? then 0 else 1;
    DriveStaysOnRecord(env, SetUp(result), setup, inputs);
    FinalizedStaysOnRecord(env, Drive(env, SetUp(result), inputs), setup, grade);
  }

  // ---- When a turn survives ----

  /** The backend can always be reached again and always has the command's result. */
  ghost predicate Recoverable(env: Env) {
    && env.canRestart && env.canRecover && (forall k: nat :: env.restart(k))
    && forall k: nat :: env.recover(k).Some? && !SignOfDrop(env, env.recover(k).value)
  }

  lemma OneSurvives(env: Env, s: State, command: string)
    requires Recoverable(env) && s.reconnects < env.cap
    ensures var (t, recovery) := ExecuteOne(env, s, command);
      && recovery.Finished? && s.reconnects <= t.reconnects <= s.reconnects + 1
      && t.reconnects - s.reconnects == t.drops - s.drops == (if SignOfDrop(env, env.bash(|s.calls|)) then 1 else 0)
  {
    assert env.restart(|s.calls|) && env.restart(|s.calls| + 1);
    if SignOfDrop(env, env.bash(|s.calls|)) {
      assert !SignOfDrop(env, env.recover(|s.calls| + 2).value);
    }
  }

  lemma {:induction false} AllSurvive(env: Env, s: State, commands: seq<string>, i: nat, outputs: seq<Reply>)
    requires Recoverable(env) && i <= |commands| && s.reconnects + (|commands| - i) <= env.cap
    ensures var (t, all, ending) := Execute(env, s, commands, i, outputs);
      && ending == Survived && t.reconnects - s.reconnects == t.drops - s.drops <= |commands| - i
    decreases |commands| - i
  {
    if i < |commands| {
      OneSurvives(env, s, commands[i]);
      var (next, recovery) := ExecuteOne(env, s, commands[i]);
      AllSurvive(env, next, commands, i + 1, outputs + [recovery.reply]);
    }
  }

  /** With budget left for a drop of every command, and a backend that can be reached again and has the results, a turn
      survives whatever drops, and uses one reconnect for each drop. */
  lemma TurnSurvives(env: Env, s: State, commands: seq<string>)
    requires Recoverable(env) && Sound(env, s) && s.hasBackend && !s.setupFailed && s.reconnects + |commands| <= env.cap
    ensures var (t, r) := Turn(env, s, false, Commands(commands));
      && !Lost(t) && t.complete == s.complete && r.Ok? && r.value.Terminal? && |r.value.outputs| == |commands|
      && t.reconnects - s.reconnects == t.drops - s.drops
  {
    AllSurvive(env, s, commands, 0, []);
    ExecuteFacts(env, s, commands, 0, []);
  }

  // ---- What a turn tells, when a rollout stops, and what it is worth ----

  /** What the agent is told, and whether the rollout goes on: a rollout without a box, one past its time and one that
      submits are complete; one that could not be parsed goes on; one that loses its box or shell is complete and raises
      if it is configured to. */
  lemma WhatATurnTells(env: Env, s: State, expired: bool, parsed: Parsed)
    requires Sound(env, s)
    ensures var (t, r) := Turn(env, s, expired, parsed);
      var alive := s.hasBackend && !s.setupFailed;
      && (!alive ==> r == Ok(SetupFailed) && t == s.(complete := true))
      && (alive && expired ==> r == Ok(TimeIsUp) && t.complete && t.events == s.events + [WallTime] && t.calls == s.calls)
      && (alive && !expired && parsed.Unparsable? ==>
            r == Ok(NotParsed) && t.complete == s.complete && t.parseErrors == s.parseErrors + 1 && t.calls == s.calls)
      && (alive && !expired && parsed.Submit? ==> r == Ok(MarkedComplete) && t.complete && t.calls == s.calls)
      && (alive && !expired && parsed.Commands? && !Lost(t) ==> t.complete == s.complete && t.hasBackend && r.Ok? && r.value.Terminal?)
      && (alive && !expired && parsed.Commands? && Lost(t) ==>
            t.complete && !t.hasBackend && r == if env.raiseOnInfra then Err("SandboxError") else Ok(EnvironmentError))
  {
    if s.hasBackend && !s.setupFailed && !expired && parsed.Commands? {
      ExecuteFacts(env, s, parsed.commands, 0, []);
    }
  }


  /** Another turn is taken exactly until the task is complete or there are more parse errors than may be retried. */
  lemma DriveStops(env: Env, s: State, inputs: seq<TurnInput>)
    requires inputs != []
    ensures s.complete || s.parseErrors >= env.maxParseRetries + 1 ==> Drive(env, s, inputs) == s
    ensures !s.complete && s.parseErrors <= env.maxParseRetries ==>
      Drive(env, s, inputs) == Drive(env, Turn(env, s, inputs[0].expired, inputs[0].parsed).0, inputs[1..])
  {
  }

  /** A failed setup ends the rollout as an environment error worth 0, without a box: one that was leased is destroyed;
      a setup that succeeds has run its command and leaves the rollout open. */
  lemma HowItStarts(result: SetupResult)
    ensures var t := SetUp(result);
      && (!result.Up? ==>
            && t.complete && t.setupFailed && !t.hasBackend && t.outcome == Some("env_error") && t.reward == Some(0.0)
            && t.error == Some(Setup(result.kind)) && t.events == [SetupFail(result.kind)])
      && (result.NotLeased? ==> t.calls == [])
      && (result.Broken? ==> t.calls == [RunBash(result.command), Destroy])
      && (result.Up? ==>
            && !t.complete && !t.setupFailed && t.hasBackend && t.outcome == None && t.reward == None && t.error == None
            && t.events == [] && t.calls == [RunBash(result.command)])
  {
  }

  /** A graded pass is worth 1 and anything else 0, less the penalty; grading that fails is worth 0 and an environment
      error, unless an outcome was already known when it raised; without a box nothing is graded. */
  lemma WhatItIsWorth(env: Env, s: State, grade: Grade)
    ensures var t := Finalized(s, grade);
      && (!s.hasBackend ==> t == s)
      && (s.hasBackend && grade.Graded? && grade.outcome == "pass" ==>
            t.outcome == Some("pass") && t.reward.Some? && t.reward.value + grade.penalty == 1.0)
      && (s.hasBackend && grade.Graded? && grade.outcome != "pass" ==>
            t.outcome == Some(grade.outcome) && t.reward.Some? && t.reward.value + grade.penalty == 0.0)
      && (s.hasBackend && grade.Graded? ==>
            && t.events == s.events && (t.error.Some? <==> grade.kind.Some?)
            && (grade.kind.Some? ==> t.error == Some(Grading(grade.kind.value))))
      && (s.hasBackend && !grade.Graded? ==>
            && t.reward == Some(0.0) && t.error.Some? && t.error.value.Grading?
            && |t.events| == |s.events| + 1 && t.events[|s.events|] == GradeFail(t.error.value.kind))
      && (s.hasBackend && grade.GradeTimeout? ==> t.outcome == Some("env_error"))
      && (s.hasBackend && grade.GradeRaised? ==> t.outcome == if s.outcome.Some? then s.outcome else Some("env_error"))
  {
  }
}

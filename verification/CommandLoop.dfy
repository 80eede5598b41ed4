/** The agent loop of the terminal environment: running the commands of a turn on a box whose
    connection may drop at any time (environments/vmvm_tb_v2/vmvm_tb_v2/env.py:381-475, 491-733, 770-860). */
module CommandLoop {
  import opened Wrappers

  datatype Reply = Reply(output: string, errorType: Option<string>)

  /** The backend is any backend: what it answers may depend on everything it was asked before, so each
      answer is a function of the number of the call. `connLost` stands for `_is_conn_lost`. */
  datatype Env = Env(cap: nat, canRestart: bool, canRecover: bool, raiseOnInfra: bool, maxParseRetries: nat,
                     connLost: string -> bool, bash: nat -> Reply, restart: nat -> bool, recover: nat -> Option<Reply>)

  datatype Call = RunBash(command: string) | RestartSession | RecoverLast | Destroy

  datatype ErrorClass = Setup(kind: string) | BoxGone | StateLost | Grading(kind: string)

  datatype DropClass = DropBoxGone | DropStateLost | DropReconnect

  datatype Event =
    | Drop(turn: nat, reconnected: bool, recovered: bool, cause: DropClass)
    | WallTime
    | SetupFail(kind: string)
    | GradeFail(kind: string)

  datatype TurnKind = Exec | ParseError | Submitted | LostBox | LostState

  datatype Record = Record(turn: nat, kind: TurnKind, commands: nat)

  /** The `state` dictionary of a rollout; `calls` is everything ever asked of the backend. */
  datatype State = State(
    reconnects: nat, drops: nat, recovered: nat, events: seq<Event>, calls: seq<Call>,
    complete: bool, setupFailed: bool, hasBackend: bool, parseErrors: nat, turn: nat, records: seq<Record>,
    outcome: Option<string>, reward: Option<real>, error: Option<ErrorClass>)

  datatype Parsed = Unparsable | Submit | Commands(commands: seq<string>)

  datatype Observation = SetupFailed | TimeIsUp | NotParsed | MarkedComplete | EnvironmentError | Terminal(outputs: seq<Reply>)

  /** How a command that was cut off ended. */
  datatype Recovery = Finished(reply: Reply) | Gone | ShellLost

  datatype Ending = Survived | EndedGone | EndedLost

  // ---- One turn as a function ----

  predicate IsDrop(env: Env, r: Reply) {
    env.connLost(r.output) && (r.errorType == Some("broken_pipe") || r.errorType == Some("other"))
  }

  function Asked(s: State, call: Call): State { s.(calls := s.calls + [call]) }

  function WithDrop(s: State, reconnected: bool, recovered: bool, kind: DropClass): State {
    s.(events := s.events + [Drop(s.turn, reconnected, recovered, kind)])
  }

  /** One reconnect attempt, within the budget for the whole rollout. */
  function Reconnect(env: Env, s: State): (State, bool) {
    var counted := s.(reconnects := s.reconnects + 1);
    if counted.reconnects <= env.cap && env.canRestart then (Asked(counted, RestartSession), env.restart(|s.calls|))
    else (counted, false)
  }

  function AskRecovery(env: Env, s: State): (State, Option<Reply>) {
    if env.canRecover then (Asked(s, RecoverLast), env.recover(|s.calls|)) else (s, None)
  }

  /** One pass of the inner loop; it goes on, within the budget, only after another drop. */
  function RecoverOnce(env: Env, s: State): (r: (State, Option<Recovery>))
    ensures r.1 == None ==> r.0.reconnects == s.reconnects + 1 <= env.cap
  {
    var (s1, ok) := Reconnect(env, s);
    if !ok then (WithDrop(s1, false, false, DropBoxGone), Some(Gone))
    else
      var (s2, reply) := AskRecovery(env, s1);
      if reply == None then (WithDrop(s2, true, false, DropStateLost), Some(ShellLost))
      else if IsDrop(env, reply.value) then (WithDrop(s2, true, false, DropReconnect), None)
      else (WithDrop(s2, true, true, DropReconnect).(recovered := s2.recovered + 1), Some(Finished(reply.value)))
  }

  function Recover(env: Env, s: State): (State, Recovery)
    decreases env.cap - s.reconnects
  {
    var (next, recovery) := RecoverOnce(env, s);
    if recovery.Some? then (next, recovery.value) else Recover(env, next)
  }

  /** One command: run once, and recovered if its connection drops. */
  function ExecuteOne(env: Env, s: State, command: string): (State, Recovery) {
    if IsDrop(env, env.bash(|s.calls|)) then Recover(env, CutOff(s, command))
    else (Asked(s, RunBash(command)), Finished(env.bash(|s.calls|)))
  }

  /** The command was sent and its connection dropped. */
  function CutOff(s: State, command: string): State { Asked(s, RunBash(command)).(drops := s.drops + 1) }

  function Execute(env: Env, s: State, commands: seq<string>, i: nat, outputs: seq<Reply>): (State, seq<Reply>, Ending)
    requires i <= |commands|
    decreases |commands| - i
  {
    if i == |commands| then (s, outputs, Survived)
    else
      var (next, recovery) := ExecuteOne(env, s, commands[i]);
      match recovery
      case Finished(r) => Execute(env, next, commands, i + 1, outputs + [r])
      case Gone => (next, outputs, EndedGone)
      case ShellLost => (next, outputs, EndedLost)
  }

  function Recorded(s: State, kind: TurnKind, commands: nat): State {
    s.(records := s.records + [Record(s.turn, kind, commands)], turn := s.turn + 1)
  }

  /** The box or its shell is lost: the rollout ends as an infrastructure error. */
  function GivenUp(s: State, ending: Ending, commands: nat): State {
    var kind := if ending == EndedGone then LostBox else LostState;
    Asked(Recorded(s, kind, commands), Destroy)
      .(complete := true, outcome := Some("env_error"), reward := Some(0.0), hasBackend := false,
        error := Some(if ending == EndedGone then BoxGone else StateLost))
  }

  /** `env_response`; an error is the exception raised for an infrastructure failure. */
  function Turn(env: Env, s: State, expired: bool, parsed: Parsed): (State, Result<Observation>) {
    if s.setupFailed || !s.hasBackend then (s.(complete := true), Ok(SetupFailed))
    else if expired then (s.(complete := true, events := s.events + [WallTime]), Ok(TimeIsUp))
    else
      match parsed
      case Unparsable => (Recorded(s.(parseErrors := s.parseErrors + 1), ParseError, 0), Ok(NotParsed))
      case Submit => (Recorded(s.(complete := true), Submitted, 0), Ok(MarkedComplete))
      case Commands(commands) =>
        var (after, outputs, ending) := Execute(env, s, commands, 0, []);
        if ending == Survived then (Recorded(after, Exec, |outputs|), Ok(Terminal(outputs)))
        else (GivenUp(after, ending, |outputs|), if env.raiseOnInfra then Err("SandboxError") else Ok(EnvironmentError))
  }

  /** A rollout before its first turn: the setup succeeded, or failed before or after the box was leased. */
  datatype SetupResult = Up(command: string) | NotLeased(kind: string) | Broken(command: string, kind: string)

  function SetUp(result: SetupResult): State {
    var blank := State(0, 0, 0, [], [], false, false, true, 0, 0, [], None, None, None);
    match result
    case Up(command) => blank.(calls := [RunBash(command)])
    case NotLeased(kind) => FailedSetup(blank, kind)
    case Broken(command, kind) => FailedSetup(blank.(calls := [RunBash(command), Destroy]), kind)
  }

  function FailedSetup(s: State, kind: string): State {
    s.(events := [SetupFail(kind)], complete := true, setupFailed := true, hasBackend := false,
       outcome := Some("env_error"), reward := Some(0.0), error := Some(Setup(kind)))
  }

  // ---- The same, step by step ----

  class Rollout {
    const env: Env
    var reconnects: nat
    var drops: nat
    var recovered: nat
    var events: seq<Event>
    var calls: seq<Call>
    var complete: bool
    var setupFailed: bool
    var hasBackend: bool
    var parseErrors: nat
    var turn: nat
    var records: seq<Record>
    var outcome: Option<string>
    var reward: Option<real>
    var error: Option<ErrorClass>

    ghost function Snapshot(): State
      reads this
    {
      State(reconnects, drops, recovered, events, calls, complete, setupFailed, hasBackend, parseErrors, turn, records,
            outcome, reward, error)
    }

    /** `setup_state`. */
    constructor (env: Env, result: SetupResult)
      ensures this.env == env && Snapshot() == SetUp(result)
    {
      this.env := env;
      reconnects, drops, recovered, parseErrors, turn, records := 0, 0, 0, 0, 0, [];
      calls := match result
        case Up(command) => [RunBash(command)]
        case NotLeased(_) => []
        case Broken(command, _) => [RunBash(command), Destroy];
      if result.Up? {
        events, complete, setupFailed, hasBackend := [], false, false, true;
        outcome, reward, error := None, None, None;
      } else {
        events, complete, setupFailed, hasBackend := [SetupFail(result.kind)], true, true, false;
        outcome, reward, error := Some("env_error"), Some(0.0), Some(Setup(result.kind));
      }
    }

    method AttemptReconnect() returns (ok: bool)
      modifies this`reconnects, this`calls
      ensures (Snapshot(), ok) == Reconnect(env, old(Snapshot()))
    {
      reconnects := reconnects + 1;
      ok := false;
      if reconnects <= env.cap && env.canRestart {
        ok := env.restart(|calls|);
        calls := calls + [RestartSession];
      }
    }

    method AskForLast() returns (reply: Option<Reply>)
      modifies this`calls
      ensures (Snapshot(), reply) == AskRecovery(env, old(Snapshot()))
    {
      reply := None;
      if env.canRecover {
        reply := env.recover(|calls|);
        calls := calls + [RecoverLast];
      }
    }

    method AskBash(command: string) returns (reply: Reply)
      modifies this`calls
      ensures Snapshot() == Asked(old(Snapshot()), RunBash(command)) && reply == env.bash(|old(Snapshot()).calls|)
    {
      reply := env.bash(|calls|);
      calls := calls + [RunBash(command)];
    }

    method LogDrop(reconnected: bool, recovered: bool, kind: DropClass)
      modifies this`events
      ensures Snapshot() == WithDrop(old(Snapshot()), reconnected, recovered, kind)
    {
      events := events + [Drop(turn, reconnected, recovered, kind)];
    }

    method LogTurn(kind: TurnKind, commands: nat)
      modifies this`records, this`turn
      ensures Snapshot() == Recorded(old(Snapshot()), kind, commands)
    {
      records := records + [Record(turn, kind, commands)];
      turn := turn + 1;
    }

    method TryToRecover() returns (recovery: Option<Recovery>)
      modifies this`reconnects, this`calls, this`events, this`recovered
      ensures (Snapshot(), recovery) == RecoverOnce(env, old(Snapshot()))
      ensures reconnects == old(reconnects) + 1
      ensures env.canRestart && reconnects <= env.cap ==> |calls| > |old(calls)| && calls[|old(calls)|] == RestartSession
    {
      var ok := AttemptReconnect();
      if !ok {
        LogDrop(false, false, DropBoxGone);
        return Some(Gone);
      }
      var reply := AskForLast();
      if reply == None {
        LogDrop(true, false, DropStateLost);
        return Some(ShellLost);
      }
      if IsDrop(env, reply.value) {
        LogDrop(true, false, DropReconnect);
        return None;
      }
      LogDrop(true, true, DropReconnect);
      recovered := recovered + 1;
      return Some(Finished(reply.value));
    }

    /** The inner loop: reconnects until the command in flight is finished or lost. */
    method RecoverCommand() returns (recovery: Recovery)
      modifies this`reconnects, this`calls, this`events, this`recovered
      ensures (Snapshot(), recovery) == Recover(env, old(Snapshot()))
    {
      ghost var s := Snapshot();
      while true
        invariant Recover(env, Snapshot()) == Recover(env, s)
        decreases env.cap - reconnects
      {
        var done := TryToRecover();
        if done.Some? {
          return done.value;
        }
      }
    }

    method RunCommand(command: string) returns (recovery: Recovery)
      modifies this`reconnects, this`calls, this`events, this`recovered, this`drops
      ensures (Snapshot(), recovery) == ExecuteOne(env, old(Snapshot()), command)
    {
      var reply := AskBash(command);
      if !IsDrop(env, reply) {
        return Finished(reply);
      }
      drops := drops + 1;
      recovery := RecoverCommand();
    }

    /** The outer loop over the commands of a turn. */
    method RunCommands(commands: seq<string>) returns (outputs: seq<Reply>, ending: Ending)
      modifies this`reconnects, this`calls, this`events, this`recovered, this`drops
      ensures (Snapshot(), outputs, ending) == Execute(env, old(Snapshot()), commands, 0, [])
    {
      ghost var s := Snapshot();
      outputs := [];
      var i := 0;
      while i < |commands|
        invariant 0 <= i <= |commands|
        invariant Execute(env, Snapshot(), commands, i, outputs) == Execute(env, s, commands, 0, [])
      {
        var recovery := RunCommand(commands[i]);
        match recovery {
          case Finished(r) => outputs := outputs + [r];
          case Gone => return outputs, EndedGone;
          case ShellLost => return outputs, EndedLost;
        }
        i := i + 1;
      }
      ending := Survived;
    }

    method GiveUp(ending: Ending, commands: nat)
      modifies this
      ensures Snapshot() == GivenUp(old(Snapshot()), ending, commands)
    {
      LogTurn(if ending == EndedGone then LostBox else LostState, commands);
      complete, outcome, reward := true, Some("env_error"), Some(0.0);
      error := Some(if ending == EndedGone then BoxGone else StateLost);
      DestroyBox();
    }

    method DestroyBox()
      modifies this`calls, this`hasBackend
      ensures Snapshot() == Asked(old(Snapshot()), Destroy).(hasBackend := false)
    {
      calls := calls + [Destroy];
      hasBackend := false;
    }

    /** `env_response`. */
    method EnvResponse(expired: bool, parsed: Parsed) returns (r: Result<Observation>)
      modifies this
      ensures (Snapshot(), r) == Turn(env, old(Snapshot()), expired, parsed)
    {
      if setupFailed || !hasBackend {
        complete := true;
        return Ok(SetupFailed);
      }
      if expired {
        complete, events := true, events + [WallTime];
        return Ok(TimeIsUp);
      }
      match parsed {
        case Unparsable =>
          parseErrors := parseErrors + 1;
          LogTurn(ParseError, 0);
          return Ok(NotParsed);
        case Submit =>
          complete := true;
          LogTurn(Submitted, 0);
          return Ok(MarkedComplete);
        case Commands(commands) =>
          var outputs, ending := RunCommands(commands);
          if ending == Survived {
            LogTurn(Exec, |outputs|);
            return Ok(Terminal(outputs));
          }
          GiveUp(ending, |outputs|);
          return if env.raiseOnInfra then Err("SandboxError") else Ok(EnvironmentError);
      }
    }

    /** `_finalize`. */
    method Finalize(grade: Grade)
      modifies this`outcome, this`reward, this`error, this`events, this`calls, this`hasBackend
      ensures Snapshot() == Finalized(old(Snapshot()), grade)
    {
      if !hasBackend {
        return;
      }
      match grade {
        case Graded(o, penalty, kind) =>
          outcome, reward := Some(o), Some((if o == "pass" then 1.0 else 0.0) - penalty);
          error := if kind.Some? then Some(Grading(kind.value)) else None;
        case GradeTimeout =>
          outcome, reward, error := Some("env_error"), Some(0.0), Some(Grading("finalize_timeout"));
          events := events + [GradeFail("finalize_timeout")];
        case GradeRaised =>
          reward, error := Some(0.0), Some(Grading("reward_raise"));
          if outcome == None {
            outcome := Some("env_error");
          }
          events := events + [GradeFail("reward_raise")];
      }
      DestroyBox();
    }
  }

  /** What grading found, or how it failed. */
  datatype Grade = Graded(outcome: string, penalty: real, kind: Option<string>) | GradeTimeout | GradeRaised

  /** Grading happens only on a box that is still there, which is then destroyed. */
  function Finalized(s: State, grade: Grade): State {
    if !s.hasBackend then s
    else
      var done := Asked(s, Destroy).(hasBackend := false);
      match grade
      case Graded(o, penalty, kind) =>
        done.(outcome := Some(o), reward := Some((if o == "pass" then 1.0 else 0.0) - penalty),
              error := if kind.Some? then Some(Grading(kind.value)) else None)
      case GradeTimeout =>
        done.(outcome := Some("env_error"), reward := Some(0.0), error := Some(Grading("finalize_timeout")),
              events := s.events + [GradeFail("finalize_timeout")])
      case GradeRaised =>
        done.(outcome := if s.outcome == None then Some("env_error") else s.outcome, reward := Some(0.0),
              error := Some(Grading("reward_raise")), events := s.events + [GradeFail("reward_raise")])
  }
}

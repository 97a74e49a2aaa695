/** The `agent-update` events a socket receives, and the execution loop of
    `processInstruction` as a specification: run the actions in order, one
    `executing` and one `execution-result` event per action, and stop at the
    first error the runner throws. Both server versions share this loop. */
module Events {
  import opened Wrappers
  import opened Registry
  import opened Planner
  import opened Runner
  import opened History

  datatype Event =
    | Thinking                                        // "Analyzing your instruction..."
    | ThinkingComplete(thinking: seq<string>)
    | Executing(command: string, index: nat)          // "Executing: <command>"
    | ExecutionResult(result: CommandResult, index: nat)
    | Analyzing                                       // "Analyzing results..."
    | Complete(analysis: string, history: Option<seq<Interaction>>)
    | Error(message: string)
    | ChatHistory(log: seq<Interaction>)              // the `chat-history` event

  /** The client end of one connection: what has been emitted to it. */
  class Socket {
    const id: string
    var sent: seq<Event>

    constructor (id: string)
      ensures this.id == id && sent == []
    {
      this.id := id;
      sent := [];
    }
  }

  /** The runner oracle: the transport outcome of the `index`-th command of
      the instruction. */
  type RunOracle = (nat, string) -> Transport

  function ResultFor(command: string, out: ExecOutput): CommandResult {
    CommandResult(command, out.output, out.errorOutput, out.exitCode)
  }

  /** The state after the loop has dealt with the first `n` actions: results
      pushed, events emitted, and the error that stopped it, if any. */
  datatype ExecState = ExecState(results: seq<CommandResult>, events: seq<Event>, failure: Option<string>)

  function ExecPrefix(servers: map<string, Server>, serverName: string, actions: seq<Action>,
                      run: RunOracle, n: nat): ExecState
    requires n <= |actions|
  {
    if n == 0 then ExecState([], [], None)
    else
      var s := ExecPrefix(servers, serverName, actions, run, n - 1);
      if s.failure.Some? then s
      else
        var a := actions[n - 1];
        var started := s.events + [Executing(a.command, n - 1)];
        match CommandOutcome(servers, serverName, run(n - 1, a.command))
        case Failure(message) => ExecState(s.results, started, Some(message))
        case Success(out) =>
          var r := ResultFor(a.command, out);
          ExecState(s.results + [r], started + [ExecutionResult(r, n - 1)], None)
  }

  /** The outcome of running the `i`-th action. */
  function StepOutcome(servers: map<string, Server>, serverName: string, actions: seq<Action>,
                       run: RunOracle, i: nat): Result<ExecOutput, string>
    requires i < |actions|
  {
    CommandOutcome(servers, serverName, run(i, actions[i].command))
  }

  /** Action `i` ran to its close: its result is the one pushed, and its
      `executing` and `execution-result` events are at positions 2i, 2i+1. */
  predicate StepRecorded(servers: map<string, Server>, serverName: string, actions: seq<Action>,
                         run: RunOracle, s: ExecState, i: nat)
    requires i < |actions|
  {
    var out := StepOutcome(servers, serverName, actions, run, i);
    && out.Success?
    && i < |s.results| && 2 * i + 1 < |s.events|
    && s.results[i] == ResultFor(actions[i].command, out.value)
    && s.events[2 * i] == Executing(actions[i].command, i)
    && s.events[2 * i + 1] == ExecutionResult(s.results[i], i)
  }

  /** Without an error: one result per action, in order and naming its
      command, and each action's two events in place. */
  lemma {:induction false} ExecPrefixCompleted(servers: map<string, Server>, serverName: string,
                                               actions: seq<Action>, run: RunOracle, n: nat)
    requires n <= |actions|
    requires ExecPrefix(servers, serverName, actions, run, n).failure.None?
    ensures var s := ExecPrefix(servers, serverName, actions, run, n);
            |s.results| == n && |s.events| == 2 * n &&
            forall i | 0 <= i < n :: StepRecorded(servers, serverName, actions, run, s, i)
  {
    if n > 0 {
      var prev := ExecPrefix(servers, serverName, actions, run, n - 1);
      ExecPrefixCompleted(servers, serverName, actions, run, n - 1);
      var a := actions[n - 1];
      var out := StepOutcome(servers, serverName, actions, run, n - 1);
      var s := ExecPrefix(servers, serverName, actions, run, n);
      assert out.Success?;
      var r := ResultFor(a.command, out.value);
      assert s.results == prev.results + [r];
      assert s.events == prev.events + [Executing(a.command, n - 1), ExecutionResult(r, n - 1)];
      forall i | 0 <= i < n
        ensures StepRecorded(servers, serverName, actions, run, s, i)
      {
        if i < n - 1 {
          assert StepRecorded(servers, serverName, actions, run, prev, i);
          assert s.results[i] == prev.results[i];
          assert s.events[2 * i] == prev.events[2 * i] && s.events[2 * i + 1] == prev.events[2 * i + 1];
        }
      }
    }
  }

  /** With an error: every action before the failing one has its result and
      its two events, the failing one only its `executing` event. */
  lemma {:induction false} ExecPrefixStopped(servers: map<string, Server>, serverName: string,
                                             actions: seq<Action>, run: RunOracle, n: nat)
    requires n <= |actions|
    requires ExecPrefix(servers, serverName, actions, run, n).failure.Some?
    ensures var s := ExecPrefix(servers, serverName, actions, run, n);
            var k := |s.results|;
            k < n && |s.events| == 2 * k + 1 &&
            StepOutcome(servers, serverName, actions, run, k) == Failure(s.failure.value) &&
            s.events[2 * k] == Executing(actions[k].command, k) &&
            forall i | 0 <= i < k :: StepRecorded(servers, serverName, actions, run, s, i)
  {
    var prev := ExecPrefix(servers, serverName, actions, run, n - 1);
    var s := ExecPrefix(servers, serverName, actions, run, n);
    if prev.failure.Some? {
      ExecPrefixStopped(servers, serverName, actions, run, n - 1);
      assert s == prev;
    } else {
      ExecPrefixCompleted(servers, serverName, actions, run, n - 1);
      var k := n - 1;
      var out := StepOutcome(servers, serverName, actions, run, k);
      assert out.Failure? && s == ExecState(prev.results, prev.events + [Executing(actions[k].command, k)], Some(out.error));
      assert |s.results| == k && |s.events| == 2 * k + 1;
      forall i | 0 <= i < k
        ensures StepRecorded(servers, serverName, actions, run, s, i)
      {
        assert StepRecorded(servers, serverName, actions, run, prev, i);
        assert s.events[2 * i] == prev.events[2 * i] && s.events[2 * i + 1] == prev.events[2 * i + 1];
      }
    }
  }

  /** The loop runs to the end exactly when no command's transport fails:
      a non-zero (or missing) exit code does not stop it. */
  lemma {:induction false} ExecPrefixCompletesIff(servers: map<string, Server>, serverName: string,
                                                  actions: seq<Action>, run: RunOracle, n: nat)
    requires n <= |actions|
    ensures ExecPrefix(servers, serverName, actions, run, n).failure.None? <==>
            (n == 0 || serverName in servers) && forall i | 0 <= i < n :: run(i, actions[i].command).Closed?
  {
    if n > 0 {
      ExecPrefixCompletesIff(servers, serverName, actions, run, n - 1);
      var s := ExecPrefix(servers, serverName, actions, run, n - 1);
      if s.failure.Some? {
        ExecPrefixStopped(servers, serverName, actions, run, n - 1);
        var k := |s.results|;
        assert !StepOutcome(servers, serverName, actions, run, k).Success?;
      }
    }
  }

  /** Once an error has stopped the loop nothing further happens. */
  lemma {:induction false} FailureSticks(servers: map<string, Server>, serverName: string,
                                         actions: seq<Action>, run: RunOracle, n: nat, m: nat)
    requires n <= m <= |actions|
    requires ExecPrefix(servers, serverName, actions, run, n).failure.Some?
    ensures ExecPrefix(servers, serverName, actions, run, m) == ExecPrefix(servers, serverName, actions, run, n)
    decreases m
  {
    if m > n {
      FailureSticks(servers, serverName, actions, run, n, m - 1);
    }
  }
}

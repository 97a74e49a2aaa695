/** `DevOpsAgent` of server/index.js and the socket handlers around it: one
    instruction is planned, its actions run in order, the results analysed
    and the interaction appended to the socket's history, with the
    `agent-update` events emitted along the way; any thrown error ends the
    run with a single `error` event. */
module Agent {
  import opened Wrappers
  import opened Text
  import opened Registry
  import opened Models
  import opened Planner
  import opened Runner
  import opened Analyzer
  import opened History
  import opened Events

  /** What one `processInstruction` produces: the events, the agent's
      `thinking`, `actions` and `results` fields afterwards, the analysis or
      the error message, and the request the analyzer was sent, if any. */
  datatype Run = Run(events: seq<Event>, thinking: seq<string>, actions: seq<Action>,
                     results: seq<CommandResult>, outcome: Result<string, string>,
                     analyzed: Option<AnalysisRequest>)

  /** `getChatHistory()`: an agent without a socket id has no history. */
  function SessionLog(logs: map<string, seq<Interaction>>, socketId: string): seq<Interaction> {
    if socketId == "" || socketId !in logs then [] else logs[socketId]
  }

  /** The interaction a successful run appends. */
  function Recorded(instruction: string, r: Run): Interaction
    requires r.outcome.Success?
  {
    Interaction(instruction, r.thinking, r.actions, r.results, r.outcome.value)
  }

  /** The histories after a run: one interaction more for this socket on success. */
  function AfterRun(logs: map<string, seq<Interaction>>, socketId: string, instruction: string, r: Run)
    : map<string, seq<Interaction>>
  {
    if r.outcome.Success? && socketId != "" then logs[socketId := SessionLog(logs, socketId) + [Recorded(instruction, r)]]
    else logs
  }

  /** `processInstruction` as a function of its inputs and the oracles. */
  function Pipeline(servers: map<string, Server>, serverName: string, instruction: string, model: ModelConfig,
                    socketId: string, logs: map<string, seq<Interaction>>,
                    planner: PlanRequest -> PlannerReply, run: RunOracle,
                    analyzer: AnalysisRequest -> AnalyzerReply): Run
  {
    match PlanWithCoT(servers, serverName, instruction, model, planner)
    case Failure(message) => Run([Thinking, Error(message)], [], [], [], Failure(message), None)
    case Success(plan) =>
      var c := Conclude(servers, serverName, instruction, model, socketId, logs, plan, run, analyzer);
      c.(events := [Thinking, ThinkingComplete(plan.thinking)] + c.events)
  }

  /** What follows `thinking-complete` once planning succeeded: the execution
      loop, then either the error that stopped it or the analysis and the
      history update. */
  function Conclude(servers: map<string, Server>, serverName: string, instruction: string, model: ModelConfig,
                    socketId: string, logs: map<string, seq<Interaction>>, plan: Plan, run: RunOracle,
                    analyzer: AnalysisRequest -> AnalyzerReply): Run
  {
    var ex := ExecPrefix(servers, serverName, plan.actions, run, |plan.actions|);
    if ex.failure.Some? then
      Run(ex.events + [Error(ex.failure.value)], plan.thinking, plan.actions, ex.results, Failure(ex.failure.value), None)
    else
      var log := SessionLog(logs, socketId);
      var req := AnalysisRequest(model, instruction, plan.thinking, plan.actions, ex.results, ContextFromHistory(log));
      var analysis := AnalyzeResults(analyzer(req));
      var it := Interaction(instruction, plan.thinking, plan.actions, ex.results, analysis);
      var history := if socketId == "" then [] else log + [it];
      Run(ex.events + [Analyzing, Complete(analysis, Some(history))],
          plan.thinking, plan.actions, ex.results, Success(analysis), Some(req))
  }

  // ---------------------------------------------------------------------
  // Properties of a run

  /** Planning failed: `thinking`, then the error; the agent's fields are
      left empty and nothing runs. */
  lemma PlanFailedRun(servers: map<string, Server>, serverName: string, instruction: string, model: ModelConfig,
                      socketId: string, logs: map<string, seq<Interaction>>,
                      planner: PlanRequest -> PlannerReply, run: RunOracle, analyzer: AnalysisRequest -> AnalyzerReply)
    requires PlanWithCoT(servers, serverName, instruction, model, planner).Failure?
    ensures var r := Pipeline(servers, serverName, instruction, model, socketId, logs, planner, run, analyzer);
            var message := PlanWithCoT(servers, serverName, instruction, model, planner).error;
            && r.events == [Thinking, Error(message)] && r.outcome == Failure(message)
            && r.actions == [] && r.results == [] && r.analyzed.None?
            && AfterRun(logs, socketId, instruction, r) == logs
  {
  }

  /** The run completes exactly when the target is known, the planner's reply
      parses and no kept command's transport fails; exit codes and the
      analyzer cannot make it fail. */
  lemma SucceedsIff(servers: map<string, Server>, serverName: string, instruction: string, model: ModelConfig,
                    socketId: string, logs: map<string, seq<Interaction>>,
                    planner: PlanRequest -> PlannerReply, run: RunOracle, analyzer: AnalysisRequest -> AnalyzerReply)
    ensures var r := Pipeline(servers, serverName, instruction, model, socketId, logs, planner, run, analyzer);
            var p := PlanWithCoT(servers, serverName, instruction, model, planner);
            r.outcome.Success? <==>
              p.Success? && forall i | 0 <= i < |p.value.actions| :: run(i, p.value.actions[i].command).Closed?
  {
    var p := PlanWithCoT(servers, serverName, instruction, model, planner);
    if p.Success? {
      ExecPrefixCompletesIff(servers, serverName, p.value.actions, run, |p.value.actions|);
    }
  }

  /** After a successful plan with every command closed: the two events of
      each action, then `analyzing` and `complete` carrying the history with
      this interaction appended; one result per action. */
  lemma CompletedRun(servers: map<string, Server>, serverName: string, instruction: string, model: ModelConfig,
                     socketId: string, logs: map<string, seq<Interaction>>, plan: Plan, run: RunOracle,
                     analyzer: AnalysisRequest -> AnalyzerReply)
    requires Conclude(servers, serverName, instruction, model, socketId, logs, plan, run, analyzer).outcome.Success?
    ensures var r := Conclude(servers, serverName, instruction, model, socketId, logs, plan, run, analyzer);
            var n := |plan.actions|;
            && r.thinking == plan.thinking && r.actions == plan.actions
            && |r.results| == n
            && |r.events| == 2 * n + 2
            && r.events[2 * n] == Analyzing
            && r.events[2 * n + 1] == Complete(r.outcome.value, Some(
                 if socketId == "" then [] else SessionLog(logs, socketId) + [Recorded(instruction, r)]))
  {
    var n := |plan.actions|;
    ExecPrefixCompleted(servers, serverName, plan.actions, run, n);
  }

  /** ... and in between, `executing(i)` right before `execution-result(i)`
      for i = 0, 1, ... in order, each result naming its action's command and
      carrying what the runner returned for it. */
  lemma CompletedRunSteps(servers: map<string, Server>, serverName: string, instruction: string, model: ModelConfig,
                          socketId: string, logs: map<string, seq<Interaction>>, plan: Plan, run: RunOracle,
                          analyzer: AnalysisRequest -> AnalyzerReply)
    requires Conclude(servers, serverName, instruction, model, socketId, logs, plan, run, analyzer).outcome.Success?
    ensures var r := Conclude(servers, serverName, instruction, model, socketId, logs, plan, run, analyzer);
            forall i | 0 <= i < |plan.actions| ::
              && i < |r.results| && 2 * i + 1 < |r.events|
              && StepOutcome(servers, serverName, plan.actions, run, i).Success?
              && r.results[i] == ResultFor(plan.actions[i].command, StepOutcome(servers, serverName, plan.actions, run, i).value)
              && r.events[2 * i] == Executing(plan.actions[i].command, i)
              && r.events[2 * i + 1] == ExecutionResult(r.results[i], i)
  {
    var r := Conclude(servers, serverName, instruction, model, socketId, logs, plan, run, analyzer);
    var n := |plan.actions|;
    ExecPrefixCompleted(servers, serverName, plan.actions, run, n);
    var ex := ExecPrefix(servers, serverName, plan.actions, run, n);
    assert r.events[..|ex.events|] == ex.events;
    assert r.results == ex.results;
    forall i | 0 <= i < n
      ensures && i < |r.results| && 2 * i + 1 < |r.events|
              && StepOutcome(servers, serverName, plan.actions, run, i).Success?
              && r.results[i] == ResultFor(plan.actions[i].command, StepOutcome(servers, serverName, plan.actions, run, i).value)
              && r.events[2 * i] == Executing(plan.actions[i].command, i)
              && r.events[2 * i + 1] == ExecutionResult(r.results[i], i)
    {
      assert StepRecorded(servers, serverName, plan.actions, run, ex, i);
      assert r.events[2 * i] == ex.events[2 * i] && r.events[2 * i + 1] == ex.events[2 * i + 1];
    }
  }

  /** After a successful plan with a failing command: the last event is the
      one `error` event, nothing is analysed, the history is unchanged, and
      before the error come the two events of each action before the failing
      one, whose `executing` event comes last. */
  lemma StoppedRun(servers: map<string, Server>, serverName: string, instruction: string, model: ModelConfig,
                   socketId: string, logs: map<string, seq<Interaction>>, plan: Plan, run: RunOracle,
                   analyzer: AnalysisRequest -> AnalyzerReply)
    requires Conclude(servers, serverName, instruction, model, socketId, logs, plan, run, analyzer).outcome.Failure?
    ensures var r := Conclude(servers, serverName, instruction, model, socketId, logs, plan, run, analyzer);
            var k := |r.results|;
            && r.analyzed.None?
            && AfterRun(logs, socketId, instruction, r) == logs
            && k < |plan.actions|
            && |r.events| == 2 * k + 2
            && r.events[2 * k + 1] == Error(r.outcome.error)
            && r.events[2 * k] == Executing(plan.actions[k].command, k)
            && StepOutcome(servers, serverName, plan.actions, run, k) == Failure(r.outcome.error)
            && (forall i | 0 <= i < 2 * k + 1 :: !r.events[i].Error? && !r.events[i].Analyzing? && !r.events[i].Complete?)
            && (forall i | 0 <= i < k :: r.results[i].command == plan.actions[i].command)
  {
    var r := Conclude(servers, serverName, instruction, model, socketId, logs, plan, run, analyzer);
    var n := |plan.actions|;
    var ex := ExecPrefix(servers, serverName, plan.actions, run, n);
    ExecPrefixStopped(servers, serverName, plan.actions, run, n);
    var k := |ex.results|;
    assert r.events == ex.events + [Error(ex.failure.value)];
    forall i | 0 <= i < k
      ensures r.results[i].command == plan.actions[i].command
    {
      assert StepRecorded(servers, serverName, plan.actions, run, ex, i);
    }
    forall i | 0 <= i < 2 * k + 1
      ensures !r.events[i].Error? && !r.events[i].Analyzing? && !r.events[i].Complete?
    {
      if i < 2 * k {
        var j := i / 2;
        assert StepRecorded(servers, serverName, plan.actions, run, ex, j);
        assert i == 2 * j || i == 2 * j + 1;
      }
      assert r.events[i] == ex.events[i];
    }
  }

  /** On success the analyzer saw the context of the history as it was
      before this run: the new history minus its last entry, which is the
      in-flight interaction. */
  lemma ContextExcludesInFlight(servers: map<string, Server>, serverName: string, instruction: string, model: ModelConfig,
                                socketId: string, logs: map<string, seq<Interaction>>, plan: Plan, run: RunOracle,
                                analyzer: AnalysisRequest -> AnalyzerReply)
    requires socketId != ""
    requires Conclude(servers, serverName, instruction, model, socketId, logs, plan, run, analyzer).outcome.Success?
    ensures var r := Conclude(servers, serverName, instruction, model, socketId, logs, plan, run, analyzer);
            var after := AfterRun(logs, socketId, instruction, r)[socketId];
            && |after| == |SessionLog(logs, socketId)| + 1
            && after[|after| - 1] == Recorded(instruction, r)
            && r.analyzed.Some?
            && r.analyzed.value.context == ContextFromHistory(after[..|after| - 1])
            && r.analyzed.value.results == r.results
            && r.outcome.value == AnalyzeResults(analyzer(r.analyzed.value))
  {
    var r := Conclude(servers, serverName, instruction, model, socketId, logs, plan, run, analyzer);
    var after := AfterRun(logs, socketId, instruction, r)[socketId];
    assert after[..|after| - 1] == SessionLog(logs, socketId);
  }

  /** Once planning succeeded the run is the rest of the work behind
      `thinking` and `thinking-complete`: a state that matches the rest
      matches the whole run. */
  lemma PlannedRun(servers: map<string, Server>, serverName: string, instruction: string, model: ModelConfig,
                   socketId: string, logs: map<string, seq<Interaction>>,
                   planner: PlanRequest -> PlannerReply, run: RunOracle, analyzer: AnalysisRequest -> AnalyzerReply,
                   plan: Plan, c: Run, before: seq<Event>, sent: seq<Event>, results: seq<CommandResult>, outcome: Result<string, string>,
                   after: map<string, seq<Interaction>>)
    requires PlanWithCoT(servers, serverName, instruction, model, planner) == Success(plan)
    requires c == Conclude(servers, serverName, instruction, model, socketId, logs, plan, run, analyzer)
    requires && sent == before + [Thinking, ThinkingComplete(plan.thinking)] + c.events
             && results == c.results && outcome == c.outcome
             && after == AfterRun(logs, socketId, instruction, c)
    ensures var r := Pipeline(servers, serverName, instruction, model, socketId, logs, planner, run, analyzer);
            && sent == before + r.events
            && r.thinking == plan.thinking && r.actions == plan.actions
            && results == r.results && outcome == r.outcome
            && after == AfterRun(logs, socketId, instruction, r)
  {
    PipelineAfterPlan(servers, serverName, instruction, model, socketId, logs, planner, run, analyzer, plan);
    WithHeader(logs, socketId, instruction, c, [Thinking, ThinkingComplete(plan.thinking)],
               Pipeline(servers, serverName, instruction, model, socketId, logs, planner, run, analyzer),
               before, sent, results, outcome, after);
  }

  /** Putting events in front of a run changes neither its fields nor the
      histories after it. */
  lemma WithHeader(logs: map<string, seq<Interaction>>, socketId: string, instruction: string, c: Run,
                   header: seq<Event>, r: Run, before: seq<Event>, sent: seq<Event>, results: seq<CommandResult>,
                   outcome: Result<string, string>, after: map<string, seq<Interaction>>)
    requires r == c.(events := header + c.events)
    requires sent == before + header + c.events && results == c.results && outcome == c.outcome
    requires after == AfterRun(logs, socketId, instruction, c)
    ensures sent == before + r.events && results == r.results && outcome == r.outcome
    ensures after == AfterRun(logs, socketId, instruction, r)
  {
    assert before + header + c.events == before + (header + c.events);
    if c.outcome.Success? {
      assert Recorded(instruction, r) == Recorded(instruction, c);
    }
  }

  /** Once planning succeeded, the run is `thinking`, `thinking-complete`
      and the rest of the work. */
  lemma PipelineAfterPlan(servers: map<string, Server>, serverName: string, instruction: string, model: ModelConfig,
                          socketId: string, logs: map<string, seq<Interaction>>,
                          planner: PlanRequest -> PlannerReply, run: RunOracle, analyzer: AnalysisRequest -> AnalyzerReply,
                          plan: Plan)
    requires PlanWithCoT(servers, serverName, instruction, model, planner) == Success(plan)
    ensures var c := Conclude(servers, serverName, instruction, model, socketId, logs, plan, run, analyzer);
            && Pipeline(servers, serverName, instruction, model, socketId, logs, planner, run, analyzer)
               == c.(events := [Thinking, ThinkingComplete(plan.thinking)] + c.events)
            && c.thinking == plan.thinking && c.actions == plan.actions
  {
  }

  /** A state reached by closing every command and then analysing matches
      the successful end of the run. */
  lemma AnalysedRun(servers: map<string, Server>, serverName: string, instruction: string, model: ModelConfig,
                    socketId: string, logs: map<string, seq<Interaction>>, plan: Plan, run: RunOracle,
                    analyzer: AnalysisRequest -> AnalyzerReply,
                    before: seq<Event>, sent: seq<Event>, results: seq<CommandResult>, analysis: string,
                    after: map<string, seq<Interaction>>)
    requires var ex := ExecPrefix(servers, serverName, plan.actions, run, |plan.actions|);
             var log := SessionLog(logs, socketId);
             var request := AnalysisRequest(model, instruction, plan.thinking, plan.actions, results, ContextFromHistory(log));
             var it := Interaction(instruction, plan.thinking, plan.actions, results, analysis);
             && ex.failure.None? && results == ex.results
             && analysis == AnalyzeResults(analyzer(request))
             && sent == before + ex.events + [Analyzing, Complete(analysis, Some(if socketId == "" then [] else log + [it]))]
             && after == if socketId == "" then logs else logs[socketId := log + [it]]
    ensures var r := Conclude(servers, serverName, instruction, model, socketId, logs, plan, run, analyzer);
            && sent == before + r.events && results == r.results && r.outcome == Success(analysis)
            && after == AfterRun(logs, socketId, instruction, r)
  {
    var r := Conclude(servers, serverName, instruction, model, socketId, logs, plan, run, analyzer);
    assert Recorded(instruction, r) == Interaction(instruction, plan.thinking, plan.actions, results, analysis);
  }

  // ---------------------------------------------------------------------
  // The agent

  class DevOpsAgent {
    const model: string
    const socketId: string
    /** The process-wide `chatHistories` map. */
    const store: HistoryStore
    var thinking: seq<string>
    var actions: seq<Action>
    var results: seq<CommandResult>

    /** `new DevOpsAgent(model, socketId)`: the model is chosen in three tiers
        and a socket without history gets an empty log. */
    constructor (model: string, socketId: string, store: HistoryStore, cfg: LlmConfig)
      modifies store
      ensures this.model == SelectModel(model, cfg) && this.socketId == socketId && this.store == store
      ensures thinking == [] && actions == [] && results == []
      ensures store.logs == if socketId != "" && socketId !in old(store.logs) then old(store.logs)[socketId := []]
                            else old(store.logs)
      ensures store.now == old(store.now) && store.pending == old(store.pending)
    {
      this.model := SelectModel(model, cfg);
      this.socketId := socketId;
      this.store := store;
      thinking, actions, results := [], [], [];
      new;
      if socketId != "" {
        store.Open(socketId);
      }
    }

    function GetChatHistory(): seq<Interaction>
      reads this, store
    {
      SessionLog(store.logs, socketId)
    }

    method AddToHistory(it: Interaction)
      modifies store
      ensures store.logs == if socketId == "" then old(store.logs)
                            else old(store.logs)[socketId := SessionLog(old(store.logs), socketId) + [it]]
      ensures store.now == old(store.now) && store.pending == old(store.pending)
    {
      if socketId == "" {
        return;
      }
      store.Append(socketId, it);
    }

    /** The `for` loop of `processInstruction`: the actions in order, each
        announced, run and its result pushed and emitted, until the first
        error the runner throws, which is left to the caller to report. */
    method ExecuteActions(servers: map<string, Server>, serverName: string, socket: Socket, run: RunOracle)
      returns (failure: Option<string>)
      modifies this`results, socket
      requires results == []
      ensures var ex := ExecPrefix(servers, serverName, actions, run, |actions|);
              && results == ex.results && failure == ex.failure
              && socket.sent == old(socket.sent) + ex.events
    {
      var i := 0;
      failure := None;
      while i < |actions| && failure.None?
        invariant 0 <= i <= |actions|
        invariant failure == ExecPrefix(servers, serverName, actions, run, i).failure
        invariant results == ExecPrefix(servers, serverName, actions, run, i).results
        invariant socket.sent == old(socket.sent) + ExecPrefix(servers, serverName, actions, run, i).events
      {
        failure := ExecuteAction(servers, serverName, socket, run, i, old(socket.sent));
        i := i + 1;
      }
      if failure.Some? {
        FailureSticks(servers, serverName, actions, run, i, |actions|);
      }
    }

    /** One pass of that loop: the `i`-th action, after `base` and the
        events of the actions before it. */
    method ExecuteAction(servers: map<string, Server>, serverName: string, socket: Socket, run: RunOracle,
                         i: nat, ghost base: seq<Event>)
      returns (failure: Option<string>)
      modifies this`results, socket
      requires i < |actions|
      requires ExecPrefix(servers, serverName, actions, run, i).failure.None?
      requires results == ExecPrefix(servers, serverName, actions, run, i).results
      requires socket.sent == base + ExecPrefix(servers, serverName, actions, run, i).events
      ensures var s := ExecPrefix(servers, serverName, actions, run, i + 1);
              && failure == s.failure && results == s.results && socket.sent == base + s.events
    {
      var action := actions[i];
      socket.sent := socket.sent + [Executing(action.command, i)];
      var r := ExecuteCommand(servers, serverName, run(i, action.command));
      if r.Failure? {
        return Some(r.error);
      }
      var result := CommandResult(action.command, r.value.output, r.value.errorOutput, r.value.exitCode);
      results := results + [result];
      socket.sent := socket.sent + [ExecutionResult(result, i)];
      return None;
    }

    method ProcessInstruction(instruction: string, serverName: string, socket: Socket,
                              servers: map<string, Server>, cfg: LlmConfig,
                              planner: PlanRequest -> PlannerReply, run: RunOracle,
                              analyzer: AnalysisRequest -> AnalyzerReply)
      returns (outcome: Result<string, string>)
      modifies this, store, socket
      ensures var r := Pipeline(servers, serverName, instruction, LookupModelConfig(cfg, model), socketId,
                                old(store.logs), planner, run, analyzer);
              && socket.sent == old(socket.sent) + r.events
              && thinking == r.thinking && actions == r.actions && results == r.results
              && outcome == r.outcome
              && store.logs == AfterRun(old(store.logs), socketId, instruction, r)
      ensures store.now == old(store.now) && store.pending == old(store.pending)
    {
      thinking, actions, results := [], [], [];
      socket.sent := socket.sent + [Thinking];
      var modelConfig := LookupModelConfig(cfg, model);
      var planned := PlanWithCoT(servers, serverName, instruction, modelConfig, planner);
      if planned.Failure? {
        socket.sent := socket.sent + [Error(planned.error)];
        PlanFailedRun(servers, serverName, instruction, modelConfig, socketId, store.logs, planner, run, analyzer);
        assert socket.sent == old(socket.sent) + [Thinking, Error(planned.error)];
        return Failure(planned.error);
      }
      thinking, actions := planned.value.thinking, planned.value.actions;
      socket.sent := socket.sent + [ThinkingComplete(thinking)];
      outcome := Proceed(instruction, serverName, socket, servers, modelConfig, planned.value, run, analyzer,
                         old(socket.sent));
      PlannedRun(servers, serverName, instruction, LookupModelConfig(cfg, model), socketId, old(store.logs),
                 planner, run, analyzer, planned.value,
                 Conclude(servers, serverName, instruction, modelConfig, socketId, old(store.logs), planned.value, run, analyzer),
                 old(socket.sent), socket.sent, results, outcome, store.logs);
    }

    /** `processInstruction` from the loop on, once the plan is in place and
        `thinking` and `thinking-complete` have gone out after `before`. */
    method Proceed(instruction: string, serverName: string, socket: Socket, servers: map<string, Server>,
                   modelConfig: ModelConfig, plan: Plan, run: RunOracle, analyzer: AnalysisRequest -> AnalyzerReply,
                   ghost before: seq<Event>)
      returns (outcome: Result<string, string>)
      modifies this`results, store, socket
      requires thinking == plan.thinking && actions == plan.actions && results == []
      requires socket.sent == before + [Thinking, ThinkingComplete(plan.thinking)]
      ensures var r := Conclude(servers, serverName, instruction, modelConfig, socketId, old(store.logs), plan, run, analyzer);
              && socket.sent == before + [Thinking, ThinkingComplete(plan.thinking)] + r.events
              && results == r.results && outcome == r.outcome
              && store.logs == AfterRun(old(store.logs), socketId, instruction, r)
      ensures store.now == old(store.now) && store.pending == old(store.pending)
    {
      ghost var r := Conclude(servers, serverName, instruction, modelConfig, socketId, store.logs, plan, run, analyzer);
      var failure := ExecuteActions(servers, serverName, socket, run);
      if failure.Some? {
        socket.sent := socket.sent + [Error(failure.value)];
        return Failure(failure.value);
      }
      ghost var logs := store.logs;
      var analysis := Report(instruction, socket, modelConfig, analyzer);
      AnalysedRun(servers, serverName, instruction, modelConfig, socketId, logs, plan, run, analyzer,
                  before + [Thinking, ThinkingComplete(plan.thinking)], socket.sent, results, analysis, store.logs);
      outcome := Success(analysis);
    }

    /** The end of a run whose commands all closed: `analyzing`, the
        analysis over the history so far, the interaction appended, and
        `complete` with the new history. */
    method Report(instruction: string, socket: Socket, modelConfig: ModelConfig,
                  analyzer: AnalysisRequest -> AnalyzerReply) returns (analysis: string)
      modifies store, socket
      ensures var log := SessionLog(old(store.logs), socketId);
              var request := AnalysisRequest(modelConfig, instruction, thinking, actions, results, ContextFromHistory(log));
              var it := Interaction(instruction, thinking, actions, results, analysis);
              && analysis == AnalyzeResults(analyzer(request))
              && socket.sent == old(socket.sent) + [Analyzing, Complete(analysis, Some(if socketId == "" then [] else log + [it]))]
              && store.logs == if socketId == "" then old(store.logs) else old(store.logs)[socketId := log + [it]]
      ensures store.now == old(store.now) && store.pending == old(store.pending)
    {
      socket.sent := socket.sent + [Analyzing];
      var log := GetChatHistory();
      var request := AnalysisRequest(modelConfig, instruction, thinking, actions, results, ContextFromHistory(log));
      analysis := AnalyzeResults(analyzer(request));
      AddToHistory(Interaction(instruction, thinking, actions, results, analysis));
      socket.sent := socket.sent + [Complete(analysis, Some(GetChatHistory()))];
    }
  }

  // ---------------------------------------------------------------------
  // Socket handlers

  /** The `process-instruction` payload; a missing field is "". */
  datatype InstructionRequest = InstructionRequest(instruction: string, serverName: string, model: string)

  /** The events and the new histories of one `process-instruction`. */
  function Handle(data: InstructionRequest, socketId: string, servers: map<string, Server>, cfg: LlmConfig,
                  logs: map<string, seq<Interaction>>, planner: PlanRequest -> PlannerReply, run: RunOracle,
                  analyzer: AnalysisRequest -> AnalyzerReply): (r: (seq<Event>, map<string, seq<Interaction>>))
    ensures data.instruction == "" || data.serverName == "" ==>
              r == ([Error("Instruction and server name are required")], logs)
    ensures data.instruction != "" && data.serverName != "" && data.serverName !in servers ==>
              r == ([Error("Server " + data.serverName + " not found")], logs)
    ensures data.instruction != "" && data.serverName != "" && data.serverName in servers ==> |r.0| >= 2 && r.0[0] == Thinking
    ensures forall id | id in logs :: id in r.1
    ensures forall id | id in r.1 && id != socketId :: id in logs && r.1[id] == logs[id]
  {
    if data.instruction == "" || data.serverName == "" then ([Error("Instruction and server name are required")], logs)
    else if data.serverName !in servers then ([Error("Server " + data.serverName + " not found")], logs)
    else
      var started := if socketId != "" && socketId !in logs then logs[socketId := []] else logs;
      var model := LookupModelConfig(cfg, SelectModel(Or(data.model, cfg.activeModel), cfg));
      var r := Pipeline(servers, data.serverName, data.instruction, model, socketId, started, planner, run, analyzer);
      (r.events, AfterRun(started, socketId, data.instruction, r))
  }

  /** `socket.on('process-instruction', ...)`. */
  method HandleInstruction(data: InstructionRequest, socket: Socket, table: ServerTable, settings: LlmSettings,
                           store: HistoryStore, planner: PlanRequest -> PlannerReply, run: RunOracle,
                           analyzer: AnalysisRequest -> AnalyzerReply)
    modifies socket, store
    ensures var r := Handle(data, socket.id, table.servers, settings.config, old(store.logs), planner, run, analyzer);
            socket.sent == old(socket.sent) + r.0 && store.logs == r.1
    ensures store.now == old(store.now) && store.pending == old(store.pending)
  {
    if data.instruction == "" || data.serverName == "" {
      socket.sent := socket.sent + [Error("Instruction and server name are required")];
      return;
    }
    if data.serverName !in table.servers {
      socket.sent := socket.sent + [Error("Server " + data.serverName + " not found")];
      return;
    }
    var agent := new DevOpsAgent(Or(data.model, settings.config.activeModel), socket.id, store, settings.config);
    SocketThenConstructor(data.model, settings.config);
    var _ := agent.ProcessInstruction(data.instruction, data.serverName, socket, table.servers, settings.config,
                                      planner, run, analyzer);
  }

  /** `io.on('connection', ...)`: a socket whose id still has a history gets it back. */
  method OnConnect(socket: Socket, store: HistoryStore)
    modifies socket
    ensures socket.sent == old(socket.sent) + if socket.id in store.logs then [ChatHistory(store.logs[socket.id])] else []
  {
    if socket.id in store.logs {
      socket.sent := socket.sent + [ChatHistory(store.logs[socket.id])];
    }
  }

  /** `socket.on('disconnect', ...)`: the history is kept for an hour. */
  method OnDisconnect(socket: Socket, store: HistoryStore)
    modifies store
    ensures store.pending == old(store.pending) + [Eviction(socket.id, store.now + GraceMs)]
    ensures store.logs == old(store.logs) && store.now == old(store.now)
  {
    store.Disconnect(socket.id);
  }
}

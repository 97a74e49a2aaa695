/** The older server, devops-ai-agent/server/index.js: the same execution
    loop (and the same `executeCommand`), but a planner that passes the
    proposed actions through unfiltered, an analysis that knows no history,
    an agent that keeps no chat history, and an `/api/llm-config` POST that
    only replaces API keys. Its `/api/register-server` and `/api/servers`
    handlers and its load fold are the ones `Registry` models. */
module Legacy {
  import opened Wrappers
  import opened Text
  import opened Registry
  import opened Models
  import opened Planner
  import opened Runner
  import opened Analyzer
  import opened History
  import opened Events

  // ---------------------------------------------------------------------
  // Planning

  /** What reaches the language model: the model, the instruction and the
      bare server name (the target is not looked up). */
  datatype LegacyPlanRequest = LegacyPlanRequest(model: ModelConfig, instruction: string, serverName: string)

  /** `planWithCoT`: the parsed fields, each defaulting to `[]`, with no
      filter; every error is rethrown under `PlanErrorPrefix`. */
  function LegacyPlanWithCoT(serverName: string, instruction: string, model: ModelConfig,
                             planner: LegacyPlanRequest -> PlannerReply): (r: Result<Plan, string>)
    ensures r.Success? <==> planner(LegacyPlanRequest(model, instruction, serverName)).Parsed?
    ensures r.Success? ==>
              var reply := planner(LegacyPlanRequest(model, instruction, serverName));
              && r.value.thinking == reply.thinking.GetOr([])
              && r.value.actions == reply.actions.GetOr([])
    ensures r.Failure? ==> StartsWith(r.error, PlanErrorPrefix)
  {
    match planner(LegacyPlanRequest(model, instruction, serverName))
    case ProviderError(message) => Failure(PlanErrorPrefix + message)
    case NoJsonFound => Failure(PlanErrorPrefix + ParseFailure)
    case Parsed(thinking, actions) => Success(Plan(thinking.GetOr([]), actions.GetOr([])))
  }

  /** Given the same reply from the language model, the current planner
      fails with the same message, or keeps exactly the safe part of the
      legacy plan and adds the warning iff something was dropped. */
  lemma PlannersAgree(servers: map<string, Server>, serverName: string, instruction: string, model: ModelConfig,
                      planner: PlanRequest -> PlannerReply, legacy: LegacyPlanRequest -> PlannerReply)
    requires serverName in servers
    requires planner(PlanRequest(model, instruction, Login(servers[serverName]))) ==
             legacy(LegacyPlanRequest(model, instruction, serverName))
    ensures var p := PlanWithCoT(servers, serverName, instruction, model, planner);
            var q := LegacyPlanWithCoT(serverName, instruction, model, legacy);
            && (p.Success? <==> q.Success?)
            && (p.Failure? ==> p.error == q.error)
            && (p.Success? ==> p.value == PostProcess(serverName, q.value.thinking, q.value.actions))
  {
    var reply := legacy(LegacyPlanRequest(model, instruction, serverName));
    var p := PlanWithCoT(servers, serverName, instruction, model, planner);
    var q := LegacyPlanWithCoT(serverName, instruction, model, legacy);
    match reply
    case ProviderError(message) =>
      assert p == Failure(PlanErrorPrefix + message) && q == Failure(PlanErrorPrefix + message);
    case NoJsonFound =>
      assert p == q;
    case Parsed(thinking, actions) =>
      assert q == Success(Plan(thinking.GetOr([]), actions.GetOr([])));
      assert p == Success(PostProcess(serverName, thinking.GetOr([]), actions.GetOr([])));
  }

  /** The legacy planner keeps a nested ssh command the current one drops. */
  lemma LegacyKeepsNestedSsh(planner: LegacyPlanRequest -> PlannerReply, model: ModelConfig)
    requires var rm := Action("ssh admin@host2 \"rm -rf /\"", "cleanup");
             planner(LegacyPlanRequest(model, "clean up", "web")) == Parsed(None, Some([rm]))
    ensures var rm := Action("ssh admin@host2 \"rm -rf /\"", "cleanup");
            && LegacyPlanWithCoT("web", "clean up", model, planner) == Success(Plan([], [rm]))
            && !IsSafeCommand(rm.command, "web")
  {
    ScenarioCommands();
  }

  // ---------------------------------------------------------------------
  // The run

  /** What the analysis prompt is built from: no history context, and the
      actions reduced to their commands. */
  datatype LegacyAnalysisRequest = LegacyAnalysisRequest(model: ModelConfig, instruction: string,
                                                         thinking: seq<string>, commands: seq<string>,
                                                         results: seq<CommandResult>)

  /** What one `processInstruction` produces: the events, the agent's fields
      afterwards and the analysis or the error message. */
  datatype LegacyRun = LegacyRun(events: seq<Event>, thinking: seq<string>, actions: seq<Action>,
                                 results: seq<CommandResult>, outcome: Result<string, string>)

  function LegacyPipeline(servers: map<string, Server>, serverName: string, instruction: string, model: ModelConfig,
                          planner: LegacyPlanRequest -> PlannerReply, run: RunOracle,
                          analyzer: LegacyAnalysisRequest -> AnalyzerReply): LegacyRun
  {
    match LegacyPlanWithCoT(serverName, instruction, model, planner)
    case Failure(message) => LegacyRun([Thinking, Error(message)], [], [], [], Failure(message))
    case Success(plan) =>
      var c := LegacyConclude(servers, serverName, instruction, model, plan, run, analyzer);
      c.(events := [Thinking, ThinkingComplete(plan.thinking)] + c.events)
  }

  /** What follows `thinking-complete`: the loop, then the error that stopped
      it, or `analyzing` and a `complete` event that carries no history. */
  function LegacyConclude(servers: map<string, Server>, serverName: string, instruction: string, model: ModelConfig,
                          plan: Plan, run: RunOracle, analyzer: LegacyAnalysisRequest -> AnalyzerReply): LegacyRun
  {
    var ex := ExecPrefix(servers, serverName, plan.actions, run, |plan.actions|);
    if ex.failure.Some? then
      LegacyRun(ex.events + [Error(ex.failure.value)], plan.thinking, plan.actions, ex.results, Failure(ex.failure.value))
    else
      var analysis := AnalyzeResults(analyzer(LegacyAnalysisRequest(model, instruction, plan.thinking,
                                                                    Commands(plan.actions), ex.results)));
      LegacyRun(ex.events + [Analyzing, Complete(analysis, None)], plan.thinking, plan.actions, ex.results,
                Success(analysis))
  }

  /** The run completes exactly when the reply parses and no command's
      transport fails (an unknown server stops only a plan with actions,
      since this planner never looks the server up). */
  lemma LegacySucceedsIff(servers: map<string, Server>, serverName: string, instruction: string, model: ModelConfig,
                          planner: LegacyPlanRequest -> PlannerReply, run: RunOracle,
                          analyzer: LegacyAnalysisRequest -> AnalyzerReply)
    ensures var r := LegacyPipeline(servers, serverName, instruction, model, planner, run, analyzer);
            var p := LegacyPlanWithCoT(serverName, instruction, model, planner);
            r.outcome.Success? <==>
              && p.Success?
              && (p.value.actions == [] || serverName in servers)
              && forall i | 0 <= i < |p.value.actions| :: run(i, p.value.actions[i].command).Closed?
  {
    var p := LegacyPlanWithCoT(serverName, instruction, model, planner);
    if p.Success? {
      ExecPrefixCompletesIff(servers, serverName, p.value.actions, run, |p.value.actions|);
    }
  }

  /** Planning failed: `thinking`, then the error, and the fields stay empty. */
  lemma LegacyPlanFailedRun(servers: map<string, Server>, serverName: string, instruction: string, model: ModelConfig,
                            planner: LegacyPlanRequest -> PlannerReply, run: RunOracle,
                            analyzer: LegacyAnalysisRequest -> AnalyzerReply)
    requires LegacyPlanWithCoT(serverName, instruction, model, planner).Failure?
    ensures var r := LegacyPipeline(servers, serverName, instruction, model, planner, run, analyzer);
            var message := LegacyPlanWithCoT(serverName, instruction, model, planner).error;
            && r.events == [Thinking, Error(message)] && r.outcome == Failure(message)
            && r.thinking == [] && r.actions == [] && r.results == []
  {
  }

  /** Every command closed: each action's `executing(i)` right before its
      `execution-result(i)` in order, one result per action carrying the
      runner's output, then `analyzing` and `complete` with the analysis of
      all results. */
  lemma LegacyCompletedRun(servers: map<string, Server>, serverName: string, instruction: string, model: ModelConfig,
                           plan: Plan, run: RunOracle, analyzer: LegacyAnalysisRequest -> AnalyzerReply)
    requires LegacyConclude(servers, serverName, instruction, model, plan, run, analyzer).outcome.Success?
    ensures var r := LegacyConclude(servers, serverName, instruction, model, plan, run, analyzer);
            var n := |plan.actions|;
            && r.thinking == plan.thinking && r.actions == plan.actions
            && |r.results| == n && |r.events| == 2 * n + 2
            && r.events[2 * n] == Analyzing
            && r.events[2 * n + 1] == Complete(r.outcome.value, None)
            && r.outcome.value == AnalyzeResults(analyzer(LegacyAnalysisRequest(model, instruction, plan.thinking,
                                                                                  Commands(plan.actions), r.results)))
            && forall i | 0 <= i < n ::
                 && StepOutcome(servers, serverName, plan.actions, run, i).Success?
                 && r.results[i] == ResultFor(plan.actions[i].command, StepOutcome(servers, serverName, plan.actions, run, i).value)
                 && r.events[2 * i] == Executing(plan.actions[i].command, i)
                 && r.events[2 * i + 1] == ExecutionResult(r.results[i], i)
  {
    var r := LegacyConclude(servers, serverName, instruction, model, plan, run, analyzer);
    var n := |plan.actions|;
    ExecPrefixCompleted(servers, serverName, plan.actions, run, n);
    var ex := ExecPrefix(servers, serverName, plan.actions, run, n);
    assert r.results == ex.results;
    forall i | 0 <= i < n
      ensures && StepOutcome(servers, serverName, plan.actions, run, i).Success?
              && r.results[i] == ResultFor(plan.actions[i].command, StepOutcome(servers, serverName, plan.actions, run, i).value)
              && r.events[2 * i] == Executing(plan.actions[i].command, i)
              && r.events[2 * i + 1] == ExecutionResult(r.results[i], i)
    {
      assert StepRecorded(servers, serverName, plan.actions, run, ex, i);
      assert r.events[2 * i] == ex.events[2 * i] && r.events[2 * i + 1] == ex.events[2 * i + 1];
    }
  }

  /** A command's transport failed: the error is the last event and the only
      one, no `analyzing` or `complete` comes before it, and the actions
      after the failing one were never announced. */
  lemma LegacyStoppedRun(servers: map<string, Server>, serverName: string, instruction: string, model: ModelConfig,
                         plan: Plan, run: RunOracle, analyzer: LegacyAnalysisRequest -> AnalyzerReply)
    requires LegacyConclude(servers, serverName, instruction, model, plan, run, analyzer).outcome.Failure?
    ensures var r := LegacyConclude(servers, serverName, instruction, model, plan, run, analyzer);
            var k := |r.results|;
            && k < |plan.actions|
            && |r.events| == 2 * k + 2
            && r.events[2 * k + 1] == Error(r.outcome.error)
            && r.events[2 * k] == Executing(plan.actions[k].command, k)
            && StepOutcome(servers, serverName, plan.actions, run, k) == Failure(r.outcome.error)
            && (forall i | 0 <= i < 2 * k + 1 :: !r.events[i].Error? && !r.events[i].Analyzing? && !r.events[i].Complete?)
            && (forall i | 0 <= i < k :: r.results[i].command == plan.actions[i].command)
  {
    var r := LegacyConclude(servers, serverName, instruction, model, plan, run, analyzer);
    var n := |plan.actions|;
    var ex := ExecPrefix(servers, serverName, plan.actions, run, n);
    ExecPrefixStopped(servers, serverName, plan.actions, run, n);
    var k := |ex.results|;
    assert r.events == ex.events + [Error(ex.failure.value)];
    forall i | 0 <= i < k
      ensures r.results[i].command == plan.actions[i].command
    {
      assert StepRecorded(servers, serverName, plan.actions, run, ex, i);
    }
    forall i | 0 <= i < 2 * k + 1
      ensures !r.events[i].Error? && !r.events[i].Analyzing? && !r.events[i].Complete?
    {
      if i < 2 * k {
        var j := i / 2;
        assert StepRecorded(servers, serverName, plan.actions, run, ex, j);
        assert i == 2 * j || i == 2 * j + 1;
      }
      assert r.events[i] == ex.events[i];
    }
  }

  /** Glue: a state matching the rest of the run after the two planning
      events matches the whole run. */
  lemma LegacyPlannedRun(servers: map<string, Server>, serverName: string, instruction: string, model: ModelConfig,
                         planner: LegacyPlanRequest -> PlannerReply, run: RunOracle,
                         analyzer: LegacyAnalysisRequest -> AnalyzerReply,
                         before: seq<Event>, sent: seq<Event>, results: seq<CommandResult>,
                         outcome: Result<string, string>)
    requires LegacyPlanWithCoT(serverName, instruction, model, planner).Success?
    requires var plan := LegacyPlanWithCoT(serverName, instruction, model, planner).value;
             var c := LegacyConclude(servers, serverName, instruction, model, plan, run, analyzer);
             && sent == before + [Thinking, ThinkingComplete(plan.thinking)] + c.events
             && results == c.results && outcome == c.outcome
    ensures var plan := LegacyPlanWithCoT(serverName, instruction, model, planner).value;
            var r := LegacyPipeline(servers, serverName, instruction, model, planner, run, analyzer);
            && sent == before + r.events
            && r.thinking == plan.thinking && r.actions == plan.actions
            && results == r.results && outcome == r.outcome
  {
    var plan := LegacyPlanWithCoT(serverName, instruction, model, planner).value;
    var c := LegacyConclude(servers, serverName, instruction, model, plan, run, analyzer);
    var header := [Thinking, ThinkingComplete(plan.thinking)];
    assert LegacyPipeline(servers, serverName, instruction, model, planner, run, analyzer) == c.(events := header + c.events);
    assert before + header + c.events == before + (header + c.events);
  }

  // ---------------------------------------------------------------------
  // The agent

  class LegacyAgent {
    const model: string
    var thinking: seq<string>
    var actions: seq<Action>
    var results: seq<CommandResult>

    constructor (model: string)
      ensures this.model == model && thinking == [] && actions == [] && results == []
    {
      this.model := model;
      thinking, actions, results := [], [], [];
    }

    /** The `for` loop of `processInstruction`, up to the first runner error,
        which is left to the caller to report. */
    method ExecuteActions(servers: map<string, Server>, serverName: string, socket: Socket, run: RunOracle)
      returns (failure: Option<string>)
      modifies this`results, socket
      requires results == []
      ensures var ex := ExecPrefix(servers, serverName, actions, run, |actions|);
              && results == ex.results && failure == ex.failure
              && socket.sent == old(socket.sent) + ex.events
    {
      var i := 0;
      failure := None;
      while i < |actions| && failure.None?
        invariant 0 <= i <= |actions|
        invariant failure == ExecPrefix(servers, serverName, actions, run, i).failure
        invariant results == ExecPrefix(servers, serverName, actions, run, i).results
        invariant socket.sent == old(socket.sent) + ExecPrefix(servers, serverName, actions, run, i).events
      {
        failure := ExecuteAction(servers, serverName, socket, run, i, old(socket.sent));
        i := i + 1;
      }
      if failure.Some? {
        FailureSticks(servers, serverName, actions, run, i, |actions|);
      }
    }

    /** One pass of that loop. */
    method ExecuteAction(servers: map<string, Server>, serverName: string, socket: Socket, run: RunOracle,
                         i: nat, ghost base: seq<Event>)
      returns (failure: Option<string>)
      modifies this`results, socket
      requires i < |actions|
      requires ExecPrefix(servers, serverName, actions, run, i).failure.None?
      requires results == ExecPrefix(servers, serverName, actions, run, i).results
      requires socket.sent == base + ExecPrefix(servers, serverName, actions, run, i).events
      ensures var s := ExecPrefix(servers, serverName, actions, run, i + 1);
              && failure == s.failure && results == s.results && socket.sent == base + s.events
    {
      var action := actions[i];
      socket.sent := socket.sent + [Executing(action.command, i)];
      var r := ExecuteCommand(servers, serverName, run(i, action.command));
      if r.Failure? {
        return Some(r.error);
      }
      var result := CommandResult(action.command, r.value.output, r.value.errorOutput, r.value.exitCode);
      results := results + [result];
      socket.sent := socket.sent + [ExecutionResult(result, i)];
      return None;
    }

    method ProcessInstruction(instruction: string, serverName: string, socket: Socket,
                              servers: map<string, Server>, cfg: LlmConfig,
                              planner: LegacyPlanRequest -> PlannerReply, run: RunOracle,
                              analyzer: LegacyAnalysisRequest -> AnalyzerReply)
      returns (outcome: Result<string, string>)
      modifies this, socket
      ensures var r := LegacyPipeline(servers, serverName, instruction, LookupModelConfig(cfg, model),
                                      planner, run, analyzer);
              && socket.sent == old(socket.sent) + r.events
              && thinking == r.thinking && actions == r.actions && results == r.results
              && outcome == r.outcome
    {
      thinking, actions, results := [], [], [];
      socket.sent := socket.sent + [Thinking];
      var modelConfig := LookupModelConfig(cfg, model);
      var planned := LegacyPlanWithCoT(serverName, instruction, modelConfig, planner);
      if planned.Failure? {
        socket.sent := socket.sent + [Error(planned.error)];
        LegacyPlanFailedRun(servers, serverName, instruction, modelConfig, planner, run, analyzer);
        assert socket.sent == old(socket.sent) + [Thinking, Error(planned.error)];
        return Failure(planned.error);
      }
      thinking, actions := planned.value.thinking, planned.value.actions;
      socket.sent := socket.sent + [ThinkingComplete(thinking)];
      outcome := Proceed(instruction, serverName, socket, servers, modelConfig, planned.value, run, analyzer,
                         old(socket.sent));
      LegacyPlannedRun(servers, serverName, instruction, modelConfig, planner, run, analyzer,
                       old(socket.sent), socket.sent, results, outcome);
    }

    /** From the loop on, once `thinking` and `thinking-complete` have gone
        out after `before`. */
    method Proceed(instruction: string, serverName: string, socket: Socket, servers: map<string, Server>,
                   modelConfig: ModelConfig, plan: Plan, run: RunOracle,
                   analyzer: LegacyAnalysisRequest -> AnalyzerReply, ghost before: seq<Event>)
      returns (outcome: Result<string, string>)
      modifies this`results, socket
      requires thinking == plan.thinking && actions == plan.actions && results == []
      requires socket.sent == before + [Thinking, ThinkingComplete(plan.thinking)]
      ensures var r := LegacyConclude(servers, serverName, instruction, modelConfig, plan, run, analyzer);
              && socket.sent == before + [Thinking, ThinkingComplete(plan.thinking)] + r.events
              && results == r.results && outcome == r.outcome
    {
      var failure := ExecuteActions(servers, serverName, socket, run);
      if failure.Some? {
        socket.sent := socket.sent + [Error(failure.value)];
        return Failure(failure.value);
      }
      socket.sent := socket.sent + [Analyzing];
      var analysis := AnalyzeResults(analyzer(LegacyAnalysisRequest(modelConfig, instruction, thinking,
                                                                    Commands(actions), results)));
      socket.sent := socket.sent + [Complete(analysis, None)];
      outcome := Success(analysis);
    }
  }

  // ---------------------------------------------------------------------
  // Model choice

  /** The configuration an instruction runs with: the socket handler passes
      `model || 'openai'`, so without a requested model the configured
      model with id "openai" is preferred to the default model. */
  function LegacyModelConfig(requested: string, cfg: LlmConfig): (m: ModelConfig)
    ensures requested != "" && FindModel(cfg.models, requested).Some? ==> m.id == requested && m in cfg.models
    ensures requested == "" && FindModel(cfg.models, "openai").Some? ==> m.id == "openai" && m in cfg.models
    ensures FindModel(cfg.models, Or(requested, "openai")).None? && FindModel(cfg.models, cfg.defaultModel).Some? ==>
              m.id == cfg.defaultModel && m in cfg.models
    ensures (m in cfg.models && (m.id == Or(requested, "openai") || m.id == cfg.defaultModel)) || m == FallbackModel
    ensures HasId(cfg.models, Or(requested, "openai")) ==> FirstWithId(cfg.models, Or(requested, "openai"), m)
    ensures !HasId(cfg.models, Or(requested, "openai")) && HasId(cfg.models, cfg.defaultModel) ==>
              FirstWithId(cfg.models, cfg.defaultModel, m)
  {
    LookupModelConfig(cfg, Or(requested, "openai"))
  }

  /** Unlike the current server, the active model plays no part. */
  lemma ActiveModelIgnored(requested: string, cfg: LlmConfig, active: string)
    ensures LegacyModelConfig(requested, cfg.(activeModel := active)) == LegacyModelConfig(requested, cfg)
  {
  }

  // ---------------------------------------------------------------------
  // Socket handler

  /** The `process-instruction` payload; a missing field is "". */
  datatype LegacyRequest = LegacyRequest(instruction: string, serverName: string, model: string)

  /** The events of one `process-instruction`: a validation error, or a run
      that starts with `thinking` and ends with `complete` or `error`. */
  function LegacyHandle(data: LegacyRequest, servers: map<string, Server>, cfg: LlmConfig,
                        planner: LegacyPlanRequest -> PlannerReply, run: RunOracle,
                        analyzer: LegacyAnalysisRequest -> AnalyzerReply): (events: seq<Event>)
    ensures data.instruction == "" || data.serverName == "" ==>
              events == [Error("Instruction and server name are required")]
    ensures data.instruction != "" && data.serverName != "" && data.serverName !in servers ==>
              events == [Error("Server " + data.serverName + " not found")]
    ensures data.instruction != "" && data.serverName != "" && data.serverName in servers ==>
              && |events| >= 2 && events[0] == Thinking
              && (events[|events| - 1].Complete? || events[|events| - 1].Error?)
              && forall i | 0 <= i < |events| - 1 :: !events[i].Error? && !events[i].Complete?
  {
    if data.instruction == "" || data.serverName == "" then [Error("Instruction and server name are required")]
    else if data.serverName !in servers then [Error("Server " + data.serverName + " not found")]
    else
      var model := LegacyModelConfig(data.model, cfg);
      var r := LegacyPipeline(servers, data.serverName, data.instruction, model, planner, run, analyzer);
      LegacyRunEnds(servers, data.serverName, data.instruction, model, planner, run, analyzer);
      r.events
  }

  /** Every run starts with `thinking` and has exactly one terminal event,
      `complete` or `error`, at its end. */
  lemma LegacyRunEnds(servers: map<string, Server>, serverName: string, instruction: string, model: ModelConfig,
                      planner: LegacyPlanRequest -> PlannerReply, run: RunOracle,
                      analyzer: LegacyAnalysisRequest -> AnalyzerReply)
    ensures var e := LegacyPipeline(servers, serverName, instruction, model, planner, run, analyzer).events;
            && |e| >= 2 && e[0] == Thinking
            && (e[|e| - 1].Complete? || e[|e| - 1].Error?)
            && forall i | 0 <= i < |e| - 1 :: !e[i].Error? && !e[i].Complete?
  {
    var p := LegacyPlanWithCoT(serverName, instruction, model, planner);
    if p.Success? {
      var c := LegacyConclude(servers, serverName, instruction, model, p.value, run, analyzer).events;
      var e := LegacyPipeline(servers, serverName, instruction, model, planner, run, analyzer).events;
      LegacyConcludeEnds(servers, serverName, instruction, model, p.value, run, analyzer);
      assert e == [Thinking, ThinkingComplete(p.value.thinking)] + c;
      forall i | 2 <= i < |e| - 1
        ensures !e[i].Error? && !e[i].Complete?
      {
        assert e[i] == c[i - 2];
      }
    }
  }

  /** After planning, only the last event is `complete` or `error`. */
  lemma LegacyConcludeEnds(servers: map<string, Server>, serverName: string, instruction: string, model: ModelConfig,
                           plan: Plan, run: RunOracle, analyzer: LegacyAnalysisRequest -> AnalyzerReply)
    ensures var c := LegacyConclude(servers, serverName, instruction, model, plan, run, analyzer).events;
            && |c| >= 1 && (c[|c| - 1].Complete? || c[|c| - 1].Error?)
            && forall i | 0 <= i < |c| - 1 :: !c[i].Error? && !c[i].Complete?
  {
    if LegacyConclude(servers, serverName, instruction, model, plan, run, analyzer).outcome.Success? {
      LegacyCompletedEnds(servers, serverName, instruction, model, plan, run, analyzer);
    } else {
      LegacyStoppedRun(servers, serverName, instruction, model, plan, run, analyzer);
    }
  }

  /** In a completed run the events before `complete` are the actions' and `analyzing`. */
  lemma LegacyCompletedEnds(servers: map<string, Server>, serverName: string, instruction: string, model: ModelConfig,
                            plan: Plan, run: RunOracle, analyzer: LegacyAnalysisRequest -> AnalyzerReply)
    requires LegacyConclude(servers, serverName, instruction, model, plan, run, analyzer).outcome.Success?
    ensures var c := LegacyConclude(servers, serverName, instruction, model, plan, run, analyzer).events;
            && |c| >= 1 && c[|c| - 1].Complete?
            && forall i | 0 <= i < |c| - 1 :: !c[i].Error? && !c[i].Complete?
  {
    var r := LegacyConclude(servers, serverName, instruction, model, plan, run, analyzer);
    var n := |plan.actions|;
    var ex := ExecPrefix(servers, serverName, plan.actions, run, n);
    ExecPrefixCompleted(servers, serverName, plan.actions, run, n);
    assert r.events == ex.events + [Analyzing, Complete(r.outcome.value, None)];
    forall i | 0 <= i < 2 * n
      ensures !r.events[i].Error? && !r.events[i].Complete?
    {
      var j := i / 2;
      assert i == 2 * j || i == 2 * j + 1;
      assert StepRecorded(servers, serverName, plan.actions, run, ex, j);
      assert r.events[i] == ex.events[i];
    }
  }

  /** `socket.on('process-instruction', ...)` of the older server. */
  method LegacyHandleInstruction(data: LegacyRequest, socket: Socket, table: ServerTable, settings: LegacySettings,
                                 planner: LegacyPlanRequest -> PlannerReply, run: RunOracle,
                                 analyzer: LegacyAnalysisRequest -> AnalyzerReply)
    modifies socket
    ensures socket.sent == old(socket.sent) + LegacyHandle(data, table.servers, settings.config, planner, run, analyzer)
  {
    if data.instruction == "" || data.serverName == "" {
      socket.sent := socket.sent + [Error("Instruction and server name are required")];
      return;
    }
    if data.serverName !in table.servers {
      socket.sent := socket.sent + [Error("Server " + data.serverName + " not found")];
      return;
    }
    var agent := new LegacyAgent(Or(data.model, "openai"));
    var _ := agent.ProcessInstruction(data.instruction, data.serverName, socket, table.servers, settings.config,
                                      planner, run, analyzer);
  }

  // ---------------------------------------------------------------------
  // /api/llm-config

  /** What GET returns: the models and the default model, no API key. */
  datatype LegacyView = LegacyView(models: seq<ModelConfig>, defaultModel: string)

  function LegacySafeView(cfg: LlmConfig): (v: LegacyView)
    ensures v.models == cfg.models && v.defaultModel == cfg.defaultModel
  {
    LegacyView(cfg.models, cfg.defaultModel)
  }

  /** The two keys of an `api_keys` object; an omitted key is "". */
  datatype ApiKeys = ApiKeys(openai: string, anthropic: string)

  datatype KeysResponse = InvalidConfiguration | KeysUpdated {
    function Status(): int { if KeysUpdated? then 200 else 400 }
  }

  function KeyUpdate(keys: map<string, string>, provider: string, key: string): (r: map<string, string>)
    ensures key != "" ==> r == keys[provider := key]
    ensures key == "" ==> r == keys
  {
    if key != "" then keys[provider := key] else keys
  }

  /** POST: without `api_keys` nothing changes; with it each non-empty key
      replaces its provider's stored key and nothing else changes. */
  function UpdateApiKeys(cfg: LlmConfig, req: Option<ApiKeys>): (r: (KeysResponse, LlmConfig))
    ensures req.None? ==> r == (InvalidConfiguration, cfg)
    ensures r.0.KeysUpdated? <==> req.Some?
    ensures r.1.models == cfg.models && r.1.defaultModel == cfg.defaultModel && r.1.activeModel == cfg.activeModel
    ensures req.Some? ==>
              && r.1.apiKeys.Keys == cfg.apiKeys.Keys + (if req.value.openai != "" then {"openai"} else {})
                                                     + (if req.value.anthropic != "" then {"anthropic"} else {})
              && (req.value.openai != "" ==> r.1.apiKeys["openai"] == req.value.openai)
              && (req.value.anthropic != "" ==> r.1.apiKeys["anthropic"] == req.value.anthropic)
              && forall p | p in cfg.apiKeys ::
                   (p == "openai" && req.value.openai != "") || (p == "anthropic" && req.value.anthropic != "") ||
                   r.1.apiKeys[p] == cfg.apiKeys[p]
  {
    match req
    case None => (InvalidConfiguration, cfg)
    case Some(keys) =>
      (KeysUpdated, cfg.(apiKeys := KeyUpdate(KeyUpdate(cfg.apiKeys, "openai", keys.openai), "anthropic", keys.anthropic)))
  }

  /** Posting the same keys twice changes nothing the second time. */
  lemma UpdateApiKeysIdempotent(cfg: LlmConfig, req: Option<ApiKeys>)
    ensures var once := UpdateApiKeys(cfg, req).1;
            UpdateApiKeys(once, req).1 == once
  {
  }

  /** Replacing keys never changes which configuration an instruction uses. */
  lemma KeysDoNotChangeModel(cfg: LlmConfig, req: Option<ApiKeys>, requested: string)
    ensures LegacyModelConfig(requested, UpdateApiKeys(cfg, req).1) == LegacyModelConfig(requested, cfg)
  {
  }

  /** The older server's `llmConfig`. */
  class LegacySettings {
    var config: LlmConfig

    constructor (initial: LlmConfig)
      ensures config == initial
    {
      config := initial;
    }

    method PostKeys(req: Option<ApiKeys>) returns (response: KeysResponse)
      modifies this
      ensures (response, config) == UpdateApiKeys(old(config), req)
    {
      var r := UpdateApiKeys(config, req);
      response, config := r.0, r.1;
    }
  }
}

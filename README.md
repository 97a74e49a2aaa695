# DevOps AI agent — a Dafny model

This project models the server of a DevOps assistant. A client sends an
instruction over a socket. A language model plans it as a list of shell
commands. The server runs them in order over ssh on a registered target,
has the language model analyse the results, and streams `agent-update`
events back to the client.

The model has two parts:

- the current server, `server/index.js`;
- an older version, `devops-ai-agent/server/index.js`.

The network, ssh and language-model calls are oracles, passed in as
function parameters:

- the planner maps a request to a parsed reply, a "no JSON found" reply or a provider error;
- the runner maps the index and the command of an action to a transport outcome (a connection error, an exec error, or the stdout/stderr chunks and the exit code);
- the analyzer maps a request to a text or an error.

Modules, one file each:

- `Wrappers`: `Option` and `Result`.
- `Text`: the JavaScript string built-ins that matter.
  - `||` on strings: the empty string stands for every falsy or missing value.
  - `toLowerCase`, `startsWith`, `includes`, `join`, `+=`.
  - `parseInt`.
- `Registry`: the `serverConnections` table.
  - The start-up fold.
  - `PUT` and `DELETE /api/servers/:name`.
  - `POST /api/register-server` and `GET /api/servers`.
  - The `ServerTable` class, whose methods change the table in place.
- `Models`: the `llmConfig` object.
  - The three-tier model choice and the configuration lookup with its openai/gpt-4 fallback.
  - `GET` and `POST /api/llm-config`.
  - The `LlmSettings` class.
- `Planner`: the post-processing in `planWithCoT`.
  - The target lookup and the field defaults.
  - The ssh/connection filter and its warning.
- `Runner`: `executeCommand`, with the chunk accumulation as a loop.
- `Analyzer`: `analyzeResults`, whose errors become a report text.
- `History`: `chatHistories`, the per-socket logs.
  - The context string over the last five entries.
  - The eviction one hour after a disconnect, over an abstract clock with a list of pending timers.
- `Events`: the `agent-update` events, the socket as an append-only list of sent events, and the execution loop as a specification (`ExecPrefix`).
- `Agent`: the `DevOpsAgent` class and the socket handlers.
  - `processInstruction` is a function of its inputs and the oracles (`Pipeline`).
  - The `ProcessInstruction` method is proved to produce exactly that run.
- `Legacy`: the older server.
  - It uses the same loop and the same `executeCommand` (its lines 304-352 are those `Runner.ExecuteCommand` models).
  - Its planner does not filter, its analysis has no history and it keeps no chat history.
  - Its `/api/llm-config` POST only replaces API keys.
  - Its `/api/register-server` (lines 443-474), `/api/servers` (476-484) and load fold (62-72) are the same code as in the current server, so `Registry.RegisterServer`, `Registry.ListServers` and `Registry.Fold` model them too.

Behaviour of the code worth knowing:

- The filter rejects a command that starts with `"ssh "` or contains `" ssh "`, `"@"` or the lower-cased server name. A connection command whose words are separated by tabs is kept (`Planner.FilterKeepsTabSeparatedSsh`).
- A disconnect's eviction timer is never cancelled. A client that comes back under the same id and works within the hour still loses its history when the timer fires (`History.ReconnectWithinGrace`).
- A port sent as a JSON number of 10^21 or more is stored as its first digit: `parseInt` reads the exponent form `String` writes, so `1e21` becomes port 1 (`Registry.ExponentPortReadsFirstDigit`).
- An instruction that fails part-way appends nothing to the history, and its partial results are never analysed: the only append follows the analysis.
- The older server's planner never looks the target up. An unknown server, reached by calling `processInstruction` directly, stops only a plan that has actions (`Legacy.LegacySucceedsIff`). The socket handler rejects the unknown name before any of this.
- The older socket handler passes `model || 'openai'`. So without a requested model it prefers a configured model with id `openai` over `default_model` (`Legacy.LegacyModelConfig`).

## Model

| member | source | states |
|---|---|---|
| Registry.NormalizePort | server/index.js:106 | the stored port is `parseInt` of the new value, else of the old value; a `NaN` or zero result becomes 22, and the result is never 0; a number is read through its `String` form, so it is kept below 10^21 in magnitude and becomes its signed first digit from there on |
| Registry.ExponentPortReadsFirstDigit | server/index.js:106 | a JSON number port of 10^21 is stored as 1 |
| Registry.DecimalPortKept | server/index.js:106 | a port sent as the decimal string of a number in 1..65535 is stored as that number |
| Text.ParseIntDecimal | server/index.js:106 | `parseInt` of the plain decimal digits of any natural n gives n back (`String(n)` writes those digits only below 10^21) |
| Text.NumberParse | server/index.js:106 | `parseInt(String(n))` is n when the magnitude of n is below 10^21, and otherwise the signed first digit of n, which the exponent form starts with |
| Registry.Fold | server/index.js:66-69 | the loaded table has exactly the names in the file, and each entry is stored under its own name |
| Registry.FoldLastWins | server/index.js:66-69 | a name maps to the last server in the file that carries it |
| Registry.LoadServers | server/index.js:63-73 | a missing or unreadable file gives an empty table; otherwise the keys are the names in the file |
| Registry.View | server/index.js:157-164 | the response copy keeps every field except the two secrets, which are redacted |
| Registry.UpdateServer | server/index.js:84-165 | a 404 exactly when the name is unknown, so a known name whose patch passes every check is stored and answered with 200; every refusal leaves the table unchanged; host, username and authType fall back to the stored values and must be non-empty; the port is normalised and must lie in 1..65535; a new secret of the chosen kind replaces the old one and drops the other; with no new secret both old ones are kept, and the old secret of the chosen kind must exist; only that entry changes, it keeps its name and the response redacts it |
| Registry.ServerTable.Update | server/index.js:84-165 | the table after the PUT, and its response, are those `UpdateServer` gives |
| Registry.DeleteServer | server/index.js:167-180 | 200 iff the name is present; the name is removed and every other entry is kept |
| Registry.ServerTable.Delete | server/index.js:167-180 | the table after the DELETE is the one `DeleteServer` gives |
| Registry.RegisterServer | server/index.js:708-739 | 400 when serverName, host, username or authType is missing, or when the secret for the chosen auth type is missing; otherwise the entry is stored (or overwritten) under its name with the port defaulting to 22, and no other entry changes |
| Registry.ServerTable.Register | server/index.js:708-739 | the table after the POST is the one `RegisterServer` gives |
| Registry.ListServers | server/index.js:741-749 | exactly one summary per registered name, carrying only its host and username |
| Models.FindModel | server/index.js:351-353 | `None` iff no model has the id; otherwise it is the first model that has it |
| Models.SelectModel | server/index.js:201 | the requested model, else the active model, else the default model |
| Models.SocketThenConstructor | server/index.js:829 | the handler's `model \|\| active_model` followed by the constructor's three tiers is still the three-tier choice |
| Models.LookupModelConfig | server/index.js:351-353 | the first configured model with the id, else the first configured model with the default id, else the openai/gpt-4 fallback record |
| Models.SafeView | server/index.js:751-760 | the view has the models, the default model and the active-or-default model, and no API key |
| Models.Configure | server/index.js:762-798 | 400 for a missing or unknown model id with the configuration unchanged; on success the model becomes active, the message names it, and only its provider's key changes, and only when a key is given |
| Models.ConfiguredModelIsUsed | server/index.js:762-798 | after a successful POST, an instruction without a model runs with the configuration of the model just activated |
| Models.LlmSettings.Post | server/index.js:762-798 | the configuration after the POST, and the response, are those `Configure` gives |
| Planner.FilterActions | server/index.js:474-481 | every kept command is safe, every safe command is kept, the kept list is an order-preserving subsequence, and nothing is dropped iff every command is safe |
| Planner.FilterKeepsMultiplicity | server/index.js:474-481 | each safe action is kept as many times as it was proposed and each unsafe one never, which with the subsequence property fixes the filtered list exactly |
| Planner.PostProcess | server/index.js:474-486 | the actions are the filtered ones; the thinking gains the warning at its end iff some action was dropped, and is unchanged otherwise |
| Planner.PlanWithCoT | server/index.js:345-495 | an unknown target, a provider error or a reply without JSON fails under "Failed to plan actions: "; a parsed reply gives the post-processed plan with missing fields defaulting to `[]`; every planned command is safe |
| Planner.FilterKeepsTabSeparatedSsh | server/index.js:476-480 | a tab-separated ssh command passes the filter |
| Planner.ScenarioCommands | server/index.js:476-480 | `df -h` and `uptime` pass the filter and a nested ssh command does not |
| Planner.NestedSshDropped | server/index.js:474-486 | of three proposed actions the nested ssh one is dropped, the other two keep their order, and the warning is added |
| Runner.CommandOutcome | server/index.js:498-563 | an unknown server fails with "Server X not found"; a connection or exec error fails under "Failed to execute command: "; a closed stream succeeds with its exit code |
| Runner.OutputGrowsByAppending | server/index.js:526-539 | the text of each stream over two bursts of chunks is the first burst's text followed by the second's |
| Runner.Accumulate | server/index.js:526-539 | `output` and `errorOutput` are the concatenations of the stdout and stderr chunks in arrival order |
| Runner.ExecuteCommand | server/index.js:498-563 | the result is the outcome `CommandOutcome` gives, and on success its two texts are the concatenated streams |
| Analyzer.AnalyzeResults | server/index.js:700-703 | the analysis is the model's text, or "Error analyzing results: " followed by the error message |
| History.Render | server/index.js:230-237 | an interaction's rendering starts with "User: " and its instruction |
| History.Recent | server/index.js:230 | the last five entries of the log, or all of them when there are fewer |
| History.ContextFromHistory | server/index.js:225-238 | the context is "" iff the log is empty; otherwise it starts with the oldest of the last five entries |
| History.ContextIgnoresOlder | server/index.js:230 | entries older than the last five never affect the context |
| History.ContextOfOne | server/index.js:229-237 | the context of a one-entry log is that entry's rendering |
| History.ContextAppend | server/index.js:229-237 | below five entries, a new interaction adds a line break and its rendering at the end of the context |
| History.ContextSlides | server/index.js:229-237 | from five entries on, the context after a new interaction is the previous last four entries' context, a line break and the new rendering |
| History.Expire | server/index.js:836-841 | every history whose timer is due is gone, and every other history is kept unchanged |
| History.StillPending | server/index.js:836-841 | the timers left are exactly those not yet due |
| History.HistoryStore.Open | server/index.js:208-210 | a socket without a log gets an empty one; an existing log is kept |
| History.HistoryStore.Append | server/index.js:218-223 | exactly one interaction is appended at the end of that socket's log |
| History.HistoryStore.Disconnect | server/index.js:833-842 | one deletion is scheduled an hour after now, and no history changes yet |
| History.HistoryStore.AdvanceTo | server/index.js:836-841 | the timers due by the new time fire, and the rest stay pending |
| History.ReconnectWithinGrace | server/index.js:833-842 | whatever the store holds, a log appended to at any time within the hour after a disconnect is still deleted by the timer that disconnect set, an hour after it |
| Events.ExecPrefixCompleted | server/index.js:276-303 | without an error, the loop gives one result per action in order, each recording its action's command and the runner's output, and each action's `executing` and `execution-result` events at positions 2i and 2i+1 |
| Events.ExecPrefixStopped | server/index.js:276-303 | with an error, the actions before the failing one have their results and events, the failing one only its `executing` event, and no later action runs |
| Events.ExecPrefixCompletesIff | server/index.js:276-303 | the loop completes iff no command's transport fails; a non-zero or missing exit code never stops it |
| Events.FailureSticks | server/index.js:276-303 | once an error has stopped the loop, nothing further happens |
| Agent.PlanFailedRun | server/index.js:333-342 | a planning error gives exactly `thinking` then `error`, empty agent fields, no analysis and an unchanged history |
| Agent.SucceedsIff | server/index.js:240-343 | a run completes iff planning succeeds and every kept command's transport closes |
| Agent.CompletedRun | server/index.js:305-325 | a completed run has one result per action, 2n+2 events after the planning events, and ends with `analyzing` and then `complete` carrying the history with this interaction appended |
| Agent.CompletedRunSteps | server/index.js:276-303 | in a completed run, `executing(i)` comes right before `execution-result(i)` for i in increasing order, and each result names its action's command and holds the runner's output |
| Agent.StoppedRun | server/index.js:333-342 | a run stopped by a runner error ends with its only `error` event, right after the failing action's `executing` event; there is no `analyzing` or `complete` event, no analysis and no history change |
| Agent.ContextExcludesInFlight | server/index.js:311-318 | the analyzer sees the context of the history before the append, so never the in-flight interaction, which is the last entry afterwards |
| Agent.PipelineAfterPlan | server/index.js:248-273 | proof step: after a successful plan, the run is `thinking`, `thinking-complete` and then the rest of the work |
| Agent.PlannedRun | server/index.js:248-273 | proof step: a state that matches the rest of the run after the two planning events matches the whole run |
| Agent.WithHeader | server/index.js:248-273 | proof step: putting the two planning events in front of the rest of a run changes neither the agent's fields nor the histories after it |
| Agent.AnalysedRun | server/index.js:305-325 | proof step: a state reached by running every command and then analysing matches the successful end of the run |
| Agent.DevOpsAgent.constructor | server/index.js:199-211 | the model is chosen in three tiers, the fields start empty, and a socket id without a log gets an empty one |
| Agent.DevOpsAgent.AddToHistory | server/index.js:218-223 | without a socket id nothing changes; otherwise exactly one interaction is appended to that socket's log |
| Agent.DevOpsAgent.ExecuteActions | server/index.js:276-303 | the results, the emitted events and the stopping error are the loop's specification `ExecPrefix` over all the actions |
| Agent.DevOpsAgent.ExecuteAction | server/index.js:277-302 | one pass of the loop moves the state from the prefix of i actions to the prefix of i+1 |
| Agent.DevOpsAgent.ProcessInstruction | server/index.js:240-343 | the events, the agent's fields, the outcome and the histories are exactly those of `Pipeline` for the agent's model configuration |
| Agent.DevOpsAgent.Proceed | server/index.js:276-342 | after planning, the state is that of the rest of the run |
| Agent.DevOpsAgent.Report | server/index.js:305-325 | `analyzing` is emitted; the analysis is over the history so far; the interaction is appended; then `complete` is emitted with the new history |
| Agent.Handle | server/index.js:809-831 | a missing instruction or server name, or an unknown server, gives a single `error` event and no history change; otherwise the run starts with `thinking`; only this socket's history can change |
| Agent.HandleInstruction | server/index.js:809-831 | the events sent and the histories afterwards are those `Handle` gives |
| Agent.OnConnect | server/index.js:805-807 | a socket whose id still has a history is sent it as `chat-history` |
| Agent.OnDisconnect | server/index.js:833-842 | one eviction is scheduled an hour later and the histories are unchanged |
| Legacy.LegacyPlanWithCoT | devops-ai-agent/server/index.js:184-302 | planning succeeds iff the reply parses; its thinking and actions are the reply's, each defaulting to `[]`, with no filter; every error is rethrown under "Failed to plan actions: " |
| Legacy.PlannersAgree | devops-ai-agent/server/index.js:184-302 | for the same reply, the current planner fails with the same message, or keeps exactly the safe part of the older server's plan and adds the warning iff something was dropped |
| Legacy.LegacyKeepsNestedSsh | devops-ai-agent/server/index.js:237-243 | the older planner passes through a nested ssh command that the filter rejects |
| Legacy.LegacySucceedsIff | devops-ai-agent/server/index.js:101-182 | a run completes iff the reply parses, the server is known or the plan is empty, and every command's transport closes |
| Legacy.LegacyPlanFailedRun | devops-ai-agent/server/index.js:172-181 | a planning error gives exactly `thinking` then `error`, and the fields stay empty |
| Legacy.LegacyCompletedRun | devops-ai-agent/server/index.js:124-164 | a completed run has the events of each action in order, one result per action holding the runner's output, then `analyzing` and `complete` with no history; the analysis is over all the results and the actions' commands |
| Legacy.LegacyStoppedRun | devops-ai-agent/server/index.js:172-181 | a run stopped by a runner error ends with its only `error` event, right after the failing action's `executing` event, with no `analyzing` or `complete` event |
| Legacy.LegacyPlannedRun | devops-ai-agent/server/index.js:108-122 | proof step: a state that matches the rest of the run after the two planning events matches the whole run |
| Legacy.LegacyRunEnds | devops-ai-agent/server/index.js:101-182 | when every command's stream closes or fails, a run starts with `thinking` and ends with a single `complete` or `error` event, and no such event comes earlier |
| Legacy.LegacyConcludeEnds | devops-ai-agent/server/index.js:124-181 | when every command's stream closes or fails, only the last event after planning is `complete` or `error` |
| Legacy.LegacyCompletedEnds | devops-ai-agent/server/index.js:124-164 | in a completed run the last event is `complete` and no earlier event is `error` or `complete` |
| Legacy.LegacyAgent.constructor | devops-ai-agent/server/index.js:94-99 | the agent has the given model and empty fields |
| Legacy.LegacyAgent.ExecuteActions | devops-ai-agent/server/index.js:124-151 | the results, the emitted events and the stopping error are `ExecPrefix` over all the actions |
| Legacy.LegacyAgent.ExecuteAction | devops-ai-agent/server/index.js:125-150 | one pass of the loop moves the state from the prefix of i actions to the prefix of i+1 |
| Legacy.LegacyAgent.ProcessInstruction | devops-ai-agent/server/index.js:101-182 | the events, the fields and the outcome are exactly those of `LegacyPipeline` for the agent's model configuration |
| Legacy.LegacyAgent.Proceed | devops-ai-agent/server/index.js:124-181 | after planning, the state is that of the rest of the run |
| Legacy.LegacyModelConfig | devops-ai-agent/server/index.js:190-192 | the first configured model with the requested id (or `openai` when none is requested), else the first configured model with the default id, else the openai/gpt-4 record |
| Legacy.ActiveModelIgnored | devops-ai-agent/server/index.js:550 | the active model plays no part in the older server's choice |
| Legacy.LegacyHandle | devops-ai-agent/server/index.js:531-552 | a missing instruction or server name, or an unknown server, gives a single `error` event; otherwise a run that starts with `thinking` and, when every command's stream closes or fails, ends with its only `complete` or `error` event |
| Legacy.LegacyHandleInstruction | devops-ai-agent/server/index.js:531-552 | the events sent are those `LegacyHandle` gives for `model \|\| 'openai'` |
| Legacy.LegacySafeView | devops-ai-agent/server/index.js:486-494 | the view is the models and the default model, with no API key |
| Legacy.UpdateApiKeys | devops-ai-agent/server/index.js:496-525 | without `api_keys` it is a 400 and nothing changes; otherwise each non-empty key replaces its provider's key, and every other key, the models, the default model and the active model are kept |
| Legacy.UpdateApiKeysIdempotent | devops-ai-agent/server/index.js:496-525 | posting the same keys a second time changes nothing |
| Legacy.KeysDoNotChangeModel | devops-ai-agent/server/index.js:496-525 | replacing keys never changes which configuration an instruction runs with |
| Legacy.LegacySettings.PostKeys | devops-ai-agent/server/index.js:496-525 | the configuration after the POST, and the response, are those `UpdateApiKeys` gives |

## Left out

- HTTP and socket.io plumbing are left out: Express routing, CORS, static files and `server.listen`. Endpoints are functions and methods that return a response value, and a socket is the list of events sent to it.
- File persistence is left out: `saveServers`, the reads and writes of the configuration and server files, and the `.env` keys. Loading is modelled from an already-parsed list, or its absence.
- The ssh2 transport and the OpenAI/Anthropic SDK calls are oracles. Provider dispatch, prompt text, the JSON extraction regular expression and `JSON.parse` are all folded into the oracle's reply.
  - A parse failure of the openai branch is a `ProviderError`.
  - `NoJsonFound` stands for the anthropic branch.
- Sampling parameters (temperature, max_tokens) are left out: they are floating-point tuning that only the oracles would read.
- Timestamps are left out: `createdAt` and the interaction's `timestamp`.
- The re-initialisation of the SDK clients' API keys is left out: a foreign call.
- Concurrency is left out: the code does not serialise sessions, and the model runs one instruction at a time. `setTimeout` is an abstract clock with a list of pending timers.
- `Text.LowerChar` lower-cases ASCII letters only. Unicode case mapping is not modelled, so the filter and the server-name test are exact for ASCII text.
- Object keys that collide with JavaScript prototype properties (such as `__proto__`) are not modelled. A port is absent, a number or a string: other JSON types (`true`, which `parseInt` turns into `NaN` and so 22, or `[8080]`, read as 8080) are not modelled. JSON numbers are integers: fractions and the rounding of integers above 2^53 to doubles are not modelled (the exponent form `String` uses from 10^21 on is). And `Object.keys` order is not modelled: `ListServers` is a set.
- `Planner.Action`: `command` is always a string. A reply whose action lacks `command` would make `toLowerCase` throw; that is folded into `ProviderError`.
- `Legacy.LegacyAgent.constructor`: the `'openai'` default parameter is not modelled separately. The only caller always passes `model || 'openai'`, which the handler models.
- In the current server, `planWithCoT` and `analyzeResults` each look the configuration up separately. Both read the same `llmConfig` during one run, so the model looks it up once.
- Logging is left out: the `console.log` and `console.error` calls have no effect the model could observe.
- Runner.ExecuteCommand: a command whose stream never closes (`tail -f`, `ping host`) is not modelled. The code awaits `close` with no time-out, so such a run stays pending forever after its `executing` event. `Transport` has no outcome for it.
- Legacy.LegacyRunEnds: promises the final `complete` or `error` event only for runs whose every command's stream closes or fails; a run with a command that never ends sends neither.
- Legacy.LegacyConcludeEnds: as `Legacy.LegacyRunEnds`, only for runs whose every command's stream closes or fails.
- Legacy.LegacyHandle: its final-event clause holds only for runs whose every command's stream closes or fails.

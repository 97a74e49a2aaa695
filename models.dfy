/** The language-model configuration (`llmConfig`) of server/index.js: the
    three-tier choice of a model id, the lookup of a model's configuration
    with its hard-coded fallback, and the GET and POST `/api/llm-config`
    endpoints. Sampling parameters (temperature, max_tokens) are left out. */
module Models {
  import opened Wrappers
  import opened Text

  datatype ModelConfig = ModelConfig(id: string, name: string, provider: string, model: string)

  /** `activeModel` is "" while no model has been activated. */
  datatype LlmConfig = LlmConfig(models: seq<ModelConfig>, defaultModel: string, activeModel: string,
                                 apiKeys: map<string, string>)

  /** The configuration used when no configuration file exists. */
  const InitialConfig: LlmConfig := LlmConfig([], "openai", "", map["openai" := "", "anthropic" := ""])

  /** The record used when neither the chosen id nor the default id is configured. */
  const FallbackModel: ModelConfig := ModelConfig("", "", "openai", "gpt-4")

  /** `m` is the first of `models` whose id is `id`. */
  predicate FirstWithId(models: seq<ModelConfig>, id: string, m: ModelConfig) {
    exists i | 0 <= i < |models| :: models[i] == m && m.id == id && forall j | 0 <= j < i :: models[j].id != id
  }

  predicate HasId(models: seq<ModelConfig>, id: string) {
    exists i | 0 <= i < |models| :: models[i].id == id
  }

  /** `models.find(m => m.id === id)`: the first model carrying the id. */
  function FindModel(models: seq<ModelConfig>, id: string): (r: Option<ModelConfig>)
    ensures r.None? <==> forall i | 0 <= i < |models| :: models[i].id != id
    ensures r.Some? ==> exists i | 0 <= i < |models| ::
              models[i] == r.value && r.value.id == id && forall j | 0 <= j < i :: models[j].id != id
  {
    if models == [] then None
    else if models[0].id == id then Some(models[0])
    else
      var r := FindModel(models[1..], id);
      if r.Some? then
        var i :| 0 <= i < |models[1..]| && models[1..][i] == r.value && r.value.id == id
                 && forall j | 0 <= j < i :: models[1..][j].id != id;
        assert models[i + 1] == r.value && forall j | 0 <= j < i + 1 :: models[j].id != id;
        r
      else
        assert forall i | 1 <= i < |models| :: models[i] == models[1..][i - 1];
        r
  }

  /** The model id an agent works with: the request's model, else the active
      model, else the default model (`model || active_model || default_model`). */
  function SelectModel(requested: string, cfg: LlmConfig): (id: string)
    ensures requested != "" ==> id == requested
    ensures requested == "" && cfg.activeModel != "" ==> id == cfg.activeModel
    ensures requested == "" && cfg.activeModel == "" ==> id == cfg.defaultModel
  {
    Or(Or(requested, cfg.activeModel), cfg.defaultModel)
  }

  /** The socket handler passes `model || active_model` to the agent, whose
      constructor applies `|| active_model || default_model` again: the
      composition is still the three-tier choice. */
  lemma SocketThenConstructor(requested: string, cfg: LlmConfig)
    ensures SelectModel(Or(requested, cfg.activeModel), cfg) == SelectModel(requested, cfg)
  {
  }

  /** The configuration used for an agent's model id: by that id, else by the
      default id, else the hard-coded openai/gpt-4 record. */
  function LookupModelConfig(cfg: LlmConfig, id: string): (m: ModelConfig)
    ensures FindModel(cfg.models, id).Some? ==> m.id == id && m in cfg.models
    ensures FindModel(cfg.models, id).None? && FindModel(cfg.models, cfg.defaultModel).Some? ==>
              m.id == cfg.defaultModel && m in cfg.models
    ensures (m in cfg.models && (m.id == id || m.id == cfg.defaultModel)) || m == FallbackModel
    ensures (forall i | 0 <= i < |cfg.models| :: cfg.models[i].id != id && cfg.models[i].id != cfg.defaultModel)
              ==> m == FallbackModel
    // with several models under one id, the first one is taken
    ensures HasId(cfg.models, id) ==> FirstWithId(cfg.models, id, m)
    ensures !HasId(cfg.models, id) && HasId(cfg.models, cfg.defaultModel) ==> FirstWithId(cfg.models, cfg.defaultModel, m)
  {
    match FindModel(cfg.models, id)
    case Some(m) => m
    case None =>
      match FindModel(cfg.models, cfg.defaultModel)
      case Some(m) => m
      case None => FallbackModel
  }

  // ---------------------------------------------------------------------
  // GET /api/llm-config

  /** What the GET endpoint returns: no API key is part of it. */
  datatype LlmView = LlmView(models: seq<ModelConfig>, activeModel: string, defaultModel: string)

  function SafeView(cfg: LlmConfig): (v: LlmView)
    ensures v.models == cfg.models && v.defaultModel == cfg.defaultModel
    ensures v.activeModel == SelectModel("", cfg)
  {
    LlmView(cfg.models, Or(cfg.activeModel, cfg.defaultModel), cfg.defaultModel)
  }

  // ---------------------------------------------------------------------
  // POST /api/llm-config

  /** The request body `{ api_key, model_id }`; an omitted field is "". */
  datatype ConfigRequest = ConfigRequest(apiKey: string, modelId: string)

  datatype ConfigResponse = ModelIdRequired | InvalidModelId | Configured(message: string) {
    function Status(): int { if Configured? then 200 else 400 }
  }

  function Configure(cfg: LlmConfig, req: ConfigRequest): (r: (ConfigResponse, LlmConfig))
    ensures req.modelId == "" ==> r == (ModelIdRequired, cfg)
    ensures req.modelId != "" && FindModel(cfg.models, req.modelId).None? ==> r == (InvalidModelId, cfg)
    ensures r.0.Configured? <==> req.modelId != "" && FindModel(cfg.models, req.modelId).Some?
    // on success the model becomes active and only its provider's key may change
    ensures r.0.Configured? ==>
              var m := FindModel(cfg.models, req.modelId).value;
              r.0.message == m.name + " configured successfully and set as active model" &&
              r.1.activeModel == req.modelId &&
              r.1.models == cfg.models && r.1.defaultModel == cfg.defaultModel &&
              r.1.apiKeys.Keys == cfg.apiKeys.Keys + (if req.apiKey != "" then {m.provider} else {}) &&
              (forall p | p in cfg.apiKeys && p != m.provider :: r.1.apiKeys[p] == cfg.apiKeys[p]) &&
              (req.apiKey != "" ==> r.1.apiKeys[m.provider] == req.apiKey) &&
              (req.apiKey == "" ==> r.1.apiKeys == cfg.apiKeys)
  {
    if req.modelId == "" then (ModelIdRequired, cfg)
    else
      match FindModel(cfg.models, req.modelId)
      case None => (InvalidModelId, cfg)
      case Some(m) =>
        var keys := if req.apiKey != "" then cfg.apiKeys[m.provider := req.apiKey] else cfg.apiKeys;
        (Configured(m.name + " configured successfully and set as active model"),
         cfg.(apiKeys := keys, activeModel := req.modelId))
  }

  /** After a successful POST, an instruction sent without a model runs with
      the configuration of the model just activated. */
  lemma ConfiguredModelIsUsed(cfg: LlmConfig, req: ConfigRequest)
    requires Configure(cfg, req).0.Configured?
    ensures var next := Configure(cfg, req).1;
            SelectModel("", next) == req.modelId &&
            LookupModelConfig(next, SelectModel("", next)) == FindModel(cfg.models, req.modelId).value
  {
  }

  /** `llmConfig` as the POST endpoint changes it. */
  class LlmSettings {
    var config: LlmConfig

    constructor (initial: LlmConfig)
      ensures config == initial
    {
      config := initial;
    }

    method Post(req: ConfigRequest) returns (response: ConfigResponse)
      modifies this
      ensures (response, config) == Configure(old(config), req)
    {
      var r := Configure(config, req);
      response, config := r.0, r.1;
    }
  }
}

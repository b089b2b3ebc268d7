/** `parseAgentConfig`: the checks on a loaded configuration and the record
    built from it. The source's casts check nothing, so every field other
    than the ones it tests passes through as the JSON value it was. */
module Config {
  import opened Wrappers
  import opened Json

  const DefaultApiKeyEnv: string := "GEMINI_API_KEY"
  const NotAnObject: string := "Invalid configuration: must be an object"
  const MissingLlm: string := "Invalid configuration: llm section is required"
  const MissingModel: string := "Invalid configuration: llm.model is required"

  datatype LLMConfig = LLMConfig(
    model: Json,
    apiKeyEnv: Json,
    temperature: Option<Json>,
    maxTokens: Option<Json>,
    prompt: Option<Json>)

  datatype AgentConfig = AgentConfig(
    llm: LLMConfig,
    prompt: Option<Json>,
    maxSteps: Option<Json>,
    tools: Option<Json>)

  /** The `llm` section of an object that has one. */
  function LlmSection(raw: Option<Json>): Option<Json> {
    if raw.Some? then Get(raw.value, "llm") else None
  }

  /** A raw value is accepted exactly when it is an object (or array) whose
      `llm` property is an object with a truthy `model`. */
  predicate Accepted(raw: Option<Json>) {
    IsObject(raw) && IsObject(LlmSection(raw)) && Truthy(Get(LlmSection(raw).value, "model"))
  }

  function ParseAgentConfig(raw: Option<Json>): (r: Result<AgentConfig, string>)
    ensures r.Ok? <==> Accepted(raw)
    ensures !IsObject(raw) ==> r == Err(NotAnObject)
    ensures IsObject(raw) && !IsObject(LlmSection(raw)) ==> r == Err(MissingLlm)
    ensures IsObject(raw) && IsObject(LlmSection(raw)) && !Accepted(raw) ==> r == Err(MissingModel)
    ensures r.Ok? ==>
      var llm := LlmSection(raw).value;
      Some(r.value.llm.model) == Get(llm, "model") &&
      (Truthy(Get(llm, "api_key_env")) ==> Some(r.value.llm.apiKeyEnv) == Get(llm, "api_key_env")) &&
      (!Truthy(Get(llm, "api_key_env")) ==> r.value.llm.apiKeyEnv == JString(DefaultApiKeyEnv)) &&
      r.value.llm.temperature == Get(llm, "temperature") &&
      r.value.llm.maxTokens == Get(llm, "max_tokens") &&
      r.value.llm.prompt == Get(llm, "prompt") &&
      r.value.prompt == Get(raw.value, "prompt") &&
      r.value.maxSteps == Get(raw.value, "max_steps") &&
      r.value.tools == Get(raw.value, "tools")
  {
    if !IsObject(raw) then Err(NotAnObject)
    else
      var llmRaw := Get(raw.value, "llm");
      if !IsObject(llmRaw) then Err(MissingLlm)
      else
        var llm := llmRaw.value;
        var model := Get(llm, "model");
        if !Truthy(model) then Err(MissingModel)
        else
          var keyEnv := Get(llm, "api_key_env");
          var apiKeyEnv := if Truthy(keyEnv) then keyEnv.value else JString(DefaultApiKeyEnv);
          Ok(AgentConfig(
            LLMConfig(model.value, apiKeyEnv, Get(llm, "temperature"), Get(llm, "max_tokens"), Get(llm, "prompt")),
            Get(raw.value, "prompt"), Get(raw.value, "max_steps"), Get(raw.value, "tools")))
  }

  /** A parsed configuration always names a model and an API-key variable. */
  lemma ParsedConfigNamesModelAndKey(raw: Option<Json>)
    requires ParseAgentConfig(raw).Ok?
    ensures Truthy(Some(ParseAgentConfig(raw).value.llm.model))
    ensures Truthy(Some(ParseAgentConfig(raw).value.llm.apiKeyEnv))
  {
  }

  /** The configuration written back as the object it was read from. */
  function LlmToJson(c: LLMConfig): Json {
    var m := map["model" := c.model, "api_key_env" := c.apiKeyEnv];
    JObject(WithOptional(WithOptional(WithOptional(m, "temperature", c.temperature), "max_tokens", c.maxTokens), "prompt", c.prompt))
  }

  function ToJson(c: AgentConfig): Json {
    var m := map["llm" := LlmToJson(c.llm)];
    JObject(WithOptional(WithOptional(WithOptional(m, "prompt", c.prompt), "max_steps", c.maxSteps), "tools", c.tools))
  }

  /** Reading a configuration back from its own object gives it again,
      provided it has a model and an API-key variable. */
  lemma ParseToJson(c: AgentConfig)
    requires Truthy(Some(c.llm.model)) && Truthy(Some(c.llm.apiKeyEnv))
    ensures ParseAgentConfig(Some(ToJson(c))) == Ok(c)
  {
    var llm := LlmToJson(c.llm);
    assert Get(ToJson(c), "llm") == Some(llm);
    assert Get(llm, "model") == Some(c.llm.model);
    assert Get(llm, "api_key_env") == Some(c.llm.apiKeyEnv);
  }

  /** Parsing is idempotent: re-reading a parsed configuration changes nothing. */
  lemma ParseIdempotent(raw: Option<Json>)
    requires ParseAgentConfig(raw).Ok?
    ensures ParseAgentConfig(Some(ToJson(ParseAgentConfig(raw).value))) == ParseAgentConfig(raw)
  {
    ParsedConfigNamesModelAndKey(raw);
    ParseToJson(ParseAgentConfig(raw).value);
  }
}

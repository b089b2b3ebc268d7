/** Choosing the provider for a model name, finding its API key in the
    environment, and building the adapter with the merged configuration. */
module ProviderFactory {
  import opened Wrappers
  import opened LlmEntities
  import Gemini
  import Kimi

  datatype ProviderName = GeminiProvider | KimiProvider

  function ProviderId(p: ProviderName): string {
    match p
    case GeminiProvider => "gemini"
    case KimiProvider => "kimi"
  }

  /** `PROVIDER_API_KEY_ENV`. */
  function ProviderApiKeyEnv(p: ProviderName): string {
    match p
    case GeminiProvider => "GEMINI_API_KEY"
    case KimiProvider => "KIMI_API_KEY"
  }

  const FallbackApiKeyEnv: string := "LLM_API_KEY"

  function MissingKey(p: ProviderName): string {
    "API key not found for provider \"" + ProviderId(p) + "\". Set " + ProviderApiKeyEnv(p) + " or " +
    FallbackApiKeyEnv + " in your environment."
  }

  function UnknownModel(model: string): string {
    "Cannot determine provider for model: \"" + model +
    "\". Use a prefix (e.g., gemini/model-name, kimi/model-name) or a recognized model name."
  }

  /** `process.env`. */
  type Environment = map<string, string>

  /** A variable that is set to a non-empty value (a truthy `process.env[name]`). */
  predicate IsSet(env: Environment, name: string) {
    name in env && env[name] != ""
  }

  /** `resolveApiKey`: the provider's own variable first, then
      `LLM_API_KEY`; an empty value counts as unset, and with neither set
      it throws. */
  function ResolveApiKey(p: ProviderName, env: Environment): (r: Result<string, string>)
    ensures IsSet(env, ProviderApiKeyEnv(p)) ==> r == Ok(env[ProviderApiKeyEnv(p)])
    ensures !IsSet(env, ProviderApiKeyEnv(p)) && IsSet(env, FallbackApiKeyEnv) ==> r == Ok(env[FallbackApiKeyEnv])
    ensures r.Err? <==> !IsSet(env, ProviderApiKeyEnv(p)) && !IsSet(env, FallbackApiKeyEnv)
    ensures r.Err? ==> r.error == MissingKey(p)
  {
    if IsSet(env, ProviderApiKeyEnv(p)) then Ok(env[ProviderApiKeyEnv(p)])
    else if IsSet(env, FallbackApiKeyEnv) then Ok(env[FallbackApiKeyEnv])
    else Err(MissingKey(p))
  }

  /** The key found is never empty and always the value of one of the two
      variables; while the provider's own variable is set, `LLM_API_KEY`
      makes no difference. */
  lemma ApiKeyPriority(p: ProviderName, env: Environment, fallback: string)
    ensures ResolveApiKey(p, env).Ok? ==> ResolveApiKey(p, env).value != ""
    ensures ResolveApiKey(p, env).Ok? ==>
      exists name :: name in {ProviderApiKeyEnv(p), FallbackApiKeyEnv} && name in env && env[name] == ResolveApiKey(p, env).value
    ensures IsSet(env, ProviderApiKeyEnv(p)) ==>
      ResolveApiKey(p, env[FallbackApiKeyEnv := fallback]) == ResolveApiKey(p, env)
  {
    var r := ResolveApiKey(p, env);
    if r.Ok? {
      if IsSet(env, ProviderApiKeyEnv(p)) {
        assert ProviderApiKeyEnv(p) in {ProviderApiKeyEnv(p), FallbackApiKeyEnv};
      } else {
        assert FallbackApiKeyEnv in {ProviderApiKeyEnv(p), FallbackApiKeyEnv};
      }
    }
    if IsSet(env, ProviderApiKeyEnv(p)) {
      assert ProviderApiKeyEnv(p) != FallbackApiKeyEnv;
    }
  }

  /** `model.indexOf("/")`: the first slash, or -1. */
  function SlashIndex(model: string, from: nat := 0): (k: int)
    requires from <= |model|
    ensures k == -1 || from <= k < |model|
    ensures k == -1 ==> forall j :: from <= j < |model| ==> model[j] != '/'
    ensures k != -1 ==> model[k] == '/' && forall j :: from <= j < k ==> model[j] != '/'
    decreases |model| - from
  {
    if from == |model| then -1
    else if model[from] == '/' then from
    else SlashIndex(model, from + 1)
  }

  /** `resolveProvider`: the text before the first slash names the provider
      when it is "gemini", "kimi" or "moonshot"; otherwise the name itself
      must start with one of them; anything else throws. */
  function ResolveProvider(model: string): (r: Result<ProviderName, string>)
    ensures var k := SlashIndex(model);
      k != -1 && model[..k] == "gemini" ==> r == Ok(GeminiProvider)
    ensures var k := SlashIndex(model);
      k != -1 && (model[..k] == "kimi" || model[..k] == "moonshot") ==> r == Ok(KimiProvider)
    ensures r.Err? ==> r.error == UnknownModel(model)
  {
    var k := SlashIndex(model);
    var prefix := if k != -1 then model[..k] else "";
    if k != -1 && prefix == "gemini" then Ok(GeminiProvider)
    else if k != -1 && (prefix == "kimi" || prefix == "moonshot") then Ok(KimiProvider)
    else if "gemini" <= model then Ok(GeminiProvider)
    else if "kimi" <= model || "moonshot" <= model then Ok(KimiProvider)
    else Err(UnknownModel(model))
  }

  /** The prefix test never decides anything the name test would not: the
      provider is Gemini exactly for names starting with "gemini", Kimi for
      names starting with "kimi" or "moonshot", and other names throw. */
  lemma ProviderByNamePattern(model: string)
    ensures ResolveProvider(model) == Ok(GeminiProvider) <==> "gemini" <= model
    ensures ResolveProvider(model) == Ok(KimiProvider) <==> !("gemini" <= model) && ("kimi" <= model || "moonshot" <= model)
    ensures ResolveProvider(model).Err? <==> !("gemini" <= model || "kimi" <= model || "moonshot" <= model)
  {
    var k := SlashIndex(model);
    if k != -1 {
      var prefix := model[..k];
      assert prefix <= model;
      if prefix == "gemini" || prefix == "kimi" || prefix == "moonshot" {
        PrefixOfPrefix(prefix, model);
      }
    }
  }

  /** A name starting with one provider word cannot start with another. */
  lemma PrefixOfPrefix(prefix: string, model: string)
    requires prefix <= model
    requires prefix == "gemini" || prefix == "kimi" || prefix == "moonshot"
    ensures "gemini" <= model <==> prefix == "gemini"
    ensures "kimi" <= model <==> prefix == "kimi"
    ensures "moonshot" <= model <==> prefix == "moonshot"
  {
    assert model[0] == prefix[0];
  }

  /** The adapter the factory builds. */
  datatype ProviderAdapter =
    | GeminiAdapter(gemini: Gemini.GeminiSettings)
    | KimiAdapter(kimi: Kimi.KimiSettings)

  /** The configuration an adapter was built with. */
  function ConfigOf(a: ProviderAdapter): ProviderConfig {
    match a
    case GeminiAdapter(s) => s.config
    case KimiAdapter(s) => s.config
  }

  /** `createProviderAdapter`: resolve the provider and its key (either may
      throw), copy the configuration with `model` and `apiKey` replaced,
      and build that provider's adapter. */
  function CreateProviderAdapter(model: string, config: ProviderConfig, env: Environment): (r: Result<ProviderAdapter, string>)
    ensures ResolveProvider(model).Err? ==> r == Err(ResolveProvider(model).error)
    ensures ResolveProvider(model).Ok? && ResolveApiKey(ResolveProvider(model).value, env).Err? ==>
      r == Err(ResolveApiKey(ResolveProvider(model).value, env).error)
    ensures r.Ok? <==> ResolveProvider(model).Ok? && ResolveApiKey(ResolveProvider(model).value, env).Ok?
    ensures r.Ok? ==>
      && (r.value.GeminiAdapter? <==> ResolveProvider(model).value == GeminiProvider)
      && ConfigOf(r.value) == config.(model := model, apiKey := ResolveApiKey(ResolveProvider(model).value, env).value)
  {
    match ResolveProvider(model)
    case Err(e) => Err(e)
    case Ok(provider) =>
      match ResolveApiKey(provider, env)
      case Err(e) => Err(e)
      case Ok(apiKey) =>
        var adapterConfig := config.(model := model, apiKey := apiKey);
        match provider
        case GeminiProvider => Ok(GeminiAdapter(Gemini.NewGeminiAdapter(adapterConfig)))
        case KimiProvider => Ok(KimiAdapter(Kimi.NewKimiAdapter(adapterConfig)))
  }

  /** The adapter talks to the model asked for with a non-empty key, and
      keeps the caller's endpoint, timeout and headers, whatever model the
      configuration named. */
  lemma AdapterUsesRequestedModel(model: string, config: ProviderConfig, env: Environment)
    requires CreateProviderAdapter(model, config, env).Ok?
    ensures var c := ConfigOf(CreateProviderAdapter(model, config, env).value);
      && c.model == model
      && c.apiKey != ""
      && c.baseURL == config.baseURL && c.timeout == config.timeout && c.headers == config.headers
  {
    var provider := ResolveProvider(model).value;
    ApiKeyPriority(provider, env, "");
  }
}

/** The process environment and the per-provider configuration the server
    derives from it (`get_env_config`). The environment is an explicit input:
    a variable that is unset is simply not a key of the map. */
module Environment {
  import opened Options

  type Env = map<string, string>

  const OpenRouterKeyVar := "OPENROUTER_API_KEY"
  const OpenRouterBaseUrlVar := "OPENROUTER_BASE_URL"
  const OpenRouterModelVar := "OPENROUTER_MODEL"
  const OpenAIKeyVar := "OPENAI_API_KEY"
  const OpenAIBaseUrlVar := "OPENAI_BASE_URL"
  const OpenAIModelVar := "OPENAI_MODEL"

  /** The only variables the server reads. */
  const ConfigVariables: set<string> :=
    {OpenRouterKeyVar, OpenRouterBaseUrlVar, OpenRouterModelVar,
     OpenAIKeyVar, OpenAIBaseUrlVar, OpenAIModelVar}

  const DefaultOpenRouterBaseUrl := "https://openrouter.ai/api/v1"
  const DefaultOpenRouterModel := "google/gemini-2.5-flash"
  const DefaultOpenAIModel := "gpt-4o-mini"

  /** `os.environ.get(name)`. */
  function Lookup(env: Env, name: string): Option<string> {
    if name in env then Some(env[name]) else None
  }

  /** Keys have no default; the OpenAI base URL has none either, so it stays
      optional, while every other entry falls back to a baked-in value. */
  datatype EnvConfig = EnvConfig(
    openrouterApiKey: Option<string>,
    openrouterBaseUrl: string,
    openrouterModel: string,
    openaiApiKey: Option<string>,
    openaiBaseUrl: Option<string>,
    openaiModel: string)

  /** `get_env_config()`: a variable that is set, even to "", wins over the
      default; an unset one takes the default. */
  function GetEnvConfig(env: Env): (c: EnvConfig)
    ensures c.openrouterApiKey == Lookup(env, OpenRouterKeyVar)
    ensures c.openaiApiKey == Lookup(env, OpenAIKeyVar)
    ensures c.openaiBaseUrl == Lookup(env, OpenAIBaseUrlVar)
    ensures OpenRouterBaseUrlVar in env ==> c.openrouterBaseUrl == env[OpenRouterBaseUrlVar]
    ensures OpenRouterBaseUrlVar !in env ==> c.openrouterBaseUrl == DefaultOpenRouterBaseUrl
    ensures OpenRouterModelVar in env ==> c.openrouterModel == env[OpenRouterModelVar]
    ensures OpenRouterModelVar !in env ==> c.openrouterModel == DefaultOpenRouterModel
    ensures OpenAIModelVar in env ==> c.openaiModel == env[OpenAIModelVar]
    ensures OpenAIModelVar !in env ==> c.openaiModel == DefaultOpenAIModel
  {
    EnvConfig(
      Lookup(env, OpenRouterKeyVar),
      GetOr(Lookup(env, OpenRouterBaseUrlVar), DefaultOpenRouterBaseUrl),
      GetOr(Lookup(env, OpenRouterModelVar), DefaultOpenRouterModel),
      Lookup(env, OpenAIKeyVar),
      Lookup(env, OpenAIBaseUrlVar),
      GetOr(Lookup(env, OpenAIModelVar), DefaultOpenAIModel))
  }

  /** With nothing set, the configuration is the baked-in defaults and no key. */
  lemma EmptyEnvironmentDefaults()
    ensures GetEnvConfig(map[]) ==
      EnvConfig(None, DefaultOpenRouterBaseUrl, DefaultOpenRouterModel,
                None, None, DefaultOpenAIModel)
  {
  }

  /** Variables other than the six configuration variables have no effect. */
  lemma OnlyConfigVariablesMatter(env1: Env, env2: Env)
    requires forall name :: name in ConfigVariables ==> Lookup(env1, name) == Lookup(env2, name)
    ensures GetEnvConfig(env1) == GetEnvConfig(env2)
  {
    assert Lookup(env1, OpenRouterBaseUrlVar) == Lookup(env2, OpenRouterBaseUrlVar);
    assert Lookup(env1, OpenRouterModelVar) == Lookup(env2, OpenRouterModelVar);
    assert Lookup(env1, OpenAIModelVar) == Lookup(env2, OpenAIModelVar);
  }
}

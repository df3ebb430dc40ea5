/** The checks `translate_pdf` makes before it starts the pipeline, and the
    translation job they produce: the input file, its type, the defaults of
    every optional argument, and the choice of provider with its key, model
    and base URL. The first failing check decides the error. */
module Validation {
  import opened Options
  import opened Paths
  import opened Environment

  /** The arguments of `translate_pdf`; `None` is an argument left out. */
  datatype Args = Args(
    inputFile: Option<string>,
    outputDir: Option<string>,
    langIn: Option<string>,
    langOut: Option<string>,
    pages: Option<string>,
    noDual: Option<bool>,
    noMono: Option<bool>,
    service: Option<string>,
    model: Option<string>,
    qps: Option<int>,
    watermark: Option<bool>)

  const DefaultService := "openrouter"
  const DefaultLangIn := "en"
  const DefaultLangOut := "zh"
  const DefaultQps := 4

  datatype Provider = OpenRouter | OpenAI

  /** The service name that selects the provider. */
  function ProviderName(p: Provider): string {
    match p
    case OpenRouter => "openrouter"
    case OpenAI => "openai"
  }

  datatype WatermarkMode = Watermarked | NoWatermark

  /** The backend a job talks to. */
  datatype ProviderConfig = ProviderConfig(
    provider: Provider, apiKey: string, model: string, baseUrl: Option<string>)

  /** Everything the pipeline is configured with. */
  datatype Job = Job(
    inputPath: Path,
    outputDir: Path,
    langIn: string,
    langOut: string,
    pages: Option<string>,
    noDual: bool,
    noMono: bool,
    qps: int,
    watermark: WatermarkMode,
    backend: ProviderConfig)

  datatype PreflightError =
    | InputRequired
    | FileNotFound(inputFile: string)
    | NotPdf
    | ApiKeyNotSet(provider: Provider)
    | UnknownService(service: string)

  /** The environment's key, model and base URL for a provider. */
  function ConfiguredKey(config: EnvConfig, p: Provider): Option<string> {
    match p
    case OpenRouter => config.openrouterApiKey
    case OpenAI => config.openaiApiKey
  }

  function ConfiguredModel(config: EnvConfig, p: Provider): string {
    match p
    case OpenRouter => config.openrouterModel
    case OpenAI => config.openaiModel
  }

  function ConfiguredBaseUrl(config: EnvConfig, p: Provider): Option<string> {
    match p
    case OpenRouter => Some(config.openrouterBaseUrl)
    case OpenAI => config.openaiBaseUrl
  }

  /** The builder for one provider: fails without a key; a model argument
      that is set and not empty replaces the configured model. */
  function Backend(p: Provider, modelArg: Option<string>, config: EnvConfig): Result<ProviderConfig, PreflightError> {
    var key := ConfiguredKey(config, p);
    if !Truthy(key) then Failure(ApiKeyNotSet(p))
    else Success(ProviderConfig(p, key.value, OrElse(modelArg, ConfiguredModel(config, p)), ConfiguredBaseUrl(config, p)))
  }

  /** Provider selection: only "openrouter" and "openai" are known, a known
      provider without a key is an error, and there is never a fallback from
      one provider to the other. */
  function ResolveProvider(service: string, modelArg: Option<string>, config: EnvConfig): (r: Result<ProviderConfig, PreflightError>)
    ensures r.Success? ==> ProviderName(r.value.provider) == service && r.value.apiKey != ""
    ensures r.Success? ==> Some(r.value.apiKey) == ConfiguredKey(config, r.value.provider)
    ensures r.Success? ==> r.value.baseUrl == ConfiguredBaseUrl(config, r.value.provider)
    ensures r.Success? && Truthy(modelArg) ==> r.value.model == modelArg.value
    ensures r.Success? && !Truthy(modelArg) ==> r.value.model == ConfiguredModel(config, r.value.provider)
    ensures forall p :: service == ProviderName(p) ==>
              (r.Failure? <==> !Truthy(ConfiguredKey(config, p))) && (r.Failure? ==> r.error == ApiKeyNotSet(p))
    ensures service != "openrouter" && service != "openai" ==> r == Failure(UnknownService(service))
  {
    if service == "openrouter" then Backend(OpenRouter, modelArg, config)
    else if service == "openai" then Backend(OpenAI, modelArg, config)
    else Failure(UnknownService(service))
  }

  /** The input file checks passed: it was given, found and named like a PDF. */
  predicate FileAccepted(args: Args, resolve: string -> Option<Path>) {
    && Truthy(args.inputFile)
    && resolve(args.inputFile.value).Some?
    && IsPdf(resolve(args.inputFile.value).value)
  }

  function ServiceOf(args: Args): string {
    GetOr(args.service, DefaultService)
  }

  function WatermarkOf(watermark: bool): WatermarkMode {
    if watermark then Watermarked else NoWatermark
  }

  /** The validation and provider resolution of `translate_pdf`. `resolve`
      is the file lookup that tries the Unicode normal forms. */
  function Preflight(args: Args, env: Env, resolve: string -> Option<Path>): (r: Result<Job, PreflightError>)
    ensures r == Failure(InputRequired) <==> !Truthy(args.inputFile)
    ensures (r.Failure? && r.error.FileNotFound?) <==>
              Truthy(args.inputFile) && resolve(args.inputFile.value).None?
    ensures r.Failure? && r.error.FileNotFound? ==> r.error.inputFile == args.inputFile.value
    ensures r == Failure(NotPdf) <==>
              Truthy(args.inputFile) && resolve(args.inputFile.value).Some? && !IsPdf(resolve(args.inputFile.value).value)
    ensures FileAccepted(args, resolve) ==>
              var backend := ResolveProvider(ServiceOf(args), args.model, GetEnvConfig(env));
              && (r.Failure? <==> backend.Failure?)
              && (r.Failure? ==> r.error == backend.error)
              && (r.Success? ==> r.value.backend == backend.value)
    ensures r.Success? ==> FileAccepted(args, resolve) && Some(r.value.inputPath) == resolve(args.inputFile.value)
  {
    if !Truthy(args.inputFile) then Failure(InputRequired)
    else
      var inputFile := args.inputFile.value;
      match resolve(inputFile)
      case None => Failure(FileNotFound(inputFile))
      case Some(inputPath) =>
        if !IsPdf(inputPath) then Failure(NotPdf)
        else
          var config := GetEnvConfig(env);
          var outputDir := OrElse(args.outputDir, Text(Parent(inputPath)));
          match ResolveProvider(ServiceOf(args), args.model, config)
          case Failure(e) => Failure(e)
          case Success(backend) =>
            Success(Job(
              inputPath,
              ParsePath(outputDir),
              GetOr(args.langIn, DefaultLangIn),
              GetOr(args.langOut, DefaultLangOut),
              args.pages,
              GetOr(args.noDual, false),
              GetOr(args.noMono, false),
              GetOr(args.qps, DefaultQps),
              WatermarkOf(GetOr(args.watermark, true)),
              backend))
  }

  // ---------------------------------------------------------------------
  // Properties of the pre-flight checks

  /** A missing or empty input file is reported before the file is looked up
      and before the environment is read: neither can change the answer. */
  lemma InputCheckedFirst(args: Args, env1: Env, env2: Env, resolve1: string -> Option<Path>, resolve2: string -> Option<Path>)
    requires !Truthy(args.inputFile)
    ensures Preflight(args, env1, resolve1) == Preflight(args, env2, resolve2) == Failure(InputRequired)
  {
  }

  /** The file checks come before any configuration: a file that is not
      found or not a PDF is reported whatever the environment holds. */
  lemma FileCheckedBeforeConfig(args: Args, env1: Env, env2: Env, resolve: string -> Option<Path>)
    requires !FileAccepted(args, resolve)
    ensures Preflight(args, env1, resolve) == Preflight(args, env2, resolve)
    ensures Preflight(args, env1, resolve).Failure?
  {
  }

  /** Every argument left out takes its documented default, and every
      argument given is passed through unchanged (an empty output directory
      also falls back, to the text of the input's parent directory). */
  lemma ArgumentDefaults(args: Args, env: Env, resolve: string -> Option<Path>)
    requires Preflight(args, env, resolve).Success?
    ensures var job := Preflight(args, env, resolve).value;
      && job.langIn == (if args.langIn.Some? then args.langIn.value else "en")
      && job.langOut == (if args.langOut.Some? then args.langOut.value else "zh")
      && job.pages == args.pages
      && job.noDual == (args.noDual == Some(true))
      && job.noMono == (args.noMono == Some(true))
      && job.qps == (if args.qps.Some? then args.qps.value else 4)
      && (job.watermark == Watermarked <==> args.watermark != Some(false))
      && ProviderName(job.backend.provider) == (if args.service.Some? then args.service.value else "openrouter")
      && (Truthy(args.outputDir) ==> job.outputDir == ParsePath(args.outputDir.value))
  {
  }

  /** Without an output directory the job writes next to the input file:
      the output directory is the input's parent, even after its text is
      parsed again. */
  lemma {:induction false} OutputDirDefaultsToParent(args: Args, env: Env, resolve: string -> Option<Path>, job: Job)
    ensures Preflight(args, env, resolve) == Success(job) && !Truthy(args.outputDir) && WellFormed(job.inputPath) ==>
              job.outputDir == Parent(job.inputPath)
  {
    if Preflight(args, env, resolve) == Success(job) && WellFormed(job.inputPath) {
      ParseText(Parent(job.inputPath));
    }
  }

  /** Model resolution in terms of the environment: a non-empty model
      argument wins, then the provider's model variable (even if empty), then
      the provider's default model. */
  lemma ModelResolution(args: Args, env: Env, resolve: string -> Option<Path>)
    requires Preflight(args, env, resolve).Success?
    ensures var b := Preflight(args, env, resolve).value.backend;
      var modelVar := if b.provider == OpenRouter then OpenRouterModelVar else OpenAIModelVar;
      var defaultModel := if b.provider == OpenRouter then DefaultOpenRouterModel else DefaultOpenAIModel;
      b.model == (if Truthy(args.model) then args.model.value
                  else if modelVar in env then env[modelVar]
                  else defaultModel)
  {
  }

  /** Base URL and key resolution in terms of the environment: OpenRouter
      always has a base URL (its default when unset), OpenAI's is exactly the
      variable, possibly absent; the key is the provider's own variable. */
  lemma EndpointResolution(args: Args, env: Env, resolve: string -> Option<Path>)
    requires Preflight(args, env, resolve).Success?
    ensures var b := Preflight(args, env, resolve).value.backend;
      && (b.provider == OpenRouter ==>
            && b.baseUrl == Some(if OpenRouterBaseUrlVar in env then env[OpenRouterBaseUrlVar] else DefaultOpenRouterBaseUrl)
            && Lookup(env, OpenRouterKeyVar) == Some(b.apiKey))
      && (b.provider == OpenAI ==>
            && b.baseUrl == Lookup(env, OpenAIBaseUrlVar)
            && Lookup(env, OpenAIKeyVar) == Some(b.apiKey))
  {
  }

  /** A known provider whose key is unset or empty is an error naming that
      provider, whatever key the other provider has. */
  lemma NoProviderFallback(args: Args, env: Env, resolve: string -> Option<Path>, p: Provider)
    requires FileAccepted(args, resolve)
    requires ServiceOf(args) == ProviderName(p)
    requires !Truthy(ConfiguredKey(GetEnvConfig(env), p))
    ensures Preflight(args, env, resolve) == Failure(ApiKeyNotSet(p))
  {
  }

  /** The whole pre-flight succeeds exactly when the file is accepted, the
      service is known and that provider's key is set and not empty. */
  lemma PreflightSucceeds(args: Args, env: Env, resolve: string -> Option<Path>)
    ensures Preflight(args, env, resolve).Success? <==>
      && FileAccepted(args, resolve)
      && exists p :: ServiceOf(args) == ProviderName(p) && Truthy(ConfiguredKey(GetEnvConfig(env), p))
  {
    if FileAccepted(args, resolve) && Preflight(args, env, resolve).Success? {
      var p := Preflight(args, env, resolve).value.backend.provider;
      assert ServiceOf(args) == ProviderName(p) && Truthy(ConfiguredKey(GetEnvConfig(env), p));
    }
  }
}

/** The two tools of the BabelDOC MCP server and their dispatch:
    `get_translation_status`, which reads the configuration, and
    `translate_pdf`, which runs the pre-flight checks, hands the job to the
    pipeline and classifies what comes back. The file lookup and the
    pipeline are parameters: `resolve` maps the `input_file` argument to the
    file found, if any; `pipeline` maps a job to how its run ended. */
module Server {
  import opened Options
  import opened Paths
  import opened Environment
  import opened Validation
  import opened Responses
  import opened Events

  const ServerName := "BabelDOC MCP Server"
  const ServerVersion := "1.0.0"

  const SupportedLanguages: seq<string> := [
    "en (English)", "zh (Chinese)", "vi (Vietnamese)", "ja (Japanese)",
    "ko (Korean)", "es (Spanish)", "fr (French)", "de (German)",
    "pt (Portuguese)", "ru (Russian)", "ar (Arabic)", "th (Thai)",
    "id (Indonesian)"]

  /** The two-letter code an entry of the language table starts with. */
  function LanguageCode(entry: string): string {
    if |entry| >= 2 then entry[..2] else entry
  }

  /** The language table has 13 entries with pairwise different codes, and
      the default source and target languages are among them. */
  lemma LanguageTable()
    ensures |SupportedLanguages| == 13
    ensures forall i, j :: 0 <= i < j < |SupportedLanguages| ==>
              LanguageCode(SupportedLanguages[i]) != LanguageCode(SupportedLanguages[j])
    ensures LanguageCode(SupportedLanguages[0]) == DefaultLangIn
    ensures LanguageCode(SupportedLanguages[1]) == DefaultLangOut
  {
    var codes := ["en", "zh", "vi", "ja", "ko", "es", "fr", "de", "pt", "ru", "ar", "th", "id"];
    forall k | 0 <= k < 13 ensures LanguageCode(SupportedLanguages[k]) == codes[k] {
      assert SupportedLanguages[k][..2] == codes[k];
    }
    forall i, j | 0 <= i < j < 13 ensures codes[i] != codes[j] {
      assert codes[i][0] != codes[j][0] || codes[i][1] != codes[j][1];
    }
  }

  /** `get_translation_status`: a provider counts as configured exactly when
      its key variable is set and not empty; model and base URL are those a
      translation would use. */
  function TranslationStatus(env: Env): (s: StatusSnapshot)
    ensures s.service == ServerName && s.version == ServerVersion
    ensures s.openrouterConfigured <==> Truthy(Lookup(env, OpenRouterKeyVar))
    ensures s.openaiConfigured <==> Truthy(Lookup(env, OpenAIKeyVar))
    ensures s.openrouterModel == GetOr(Lookup(env, OpenRouterModelVar), DefaultOpenRouterModel)
    ensures s.openrouterBaseUrl == GetOr(Lookup(env, OpenRouterBaseUrlVar), DefaultOpenRouterBaseUrl)
    ensures s.openaiModel == GetOr(Lookup(env, OpenAIModelVar), DefaultOpenAIModel)
    ensures s.supportedLanguages == SupportedLanguages
  {
    var config := GetEnvConfig(env);
    StatusSnapshot(
      ServerName, ServerVersion,
      Truthy(config.openrouterApiKey), config.openrouterModel, config.openrouterBaseUrl,
      Truthy(config.openaiApiKey), config.openaiModel,
      SupportedLanguages)
  }

  /** The status agrees with what a translation does: for an accepted file
      and no model argument, a provider is reported configured exactly when
      a translation with it passes the pre-flight, and the job then uses the
      reported model (and, for OpenRouter, the reported base URL). */
  lemma StatusMatchesTranslation(args: Args, env: Env, resolve: string -> Option<Path>, p: Provider)
    requires FileAccepted(args, resolve)
    requires ServiceOf(args) == ProviderName(p)
    requires !Truthy(args.model)
    ensures var s := TranslationStatus(env);
      var r := Preflight(args, env, resolve);
      && (r.Success? <==> (if p == OpenRouter then s.openrouterConfigured else s.openaiConfigured))
      && (r.Success? ==> r.value.backend.model == (if p == OpenRouter then s.openrouterModel else s.openaiModel))
      && (r.Success? && p == OpenRouter ==> r.value.backend.baseUrl == Some(s.openrouterBaseUrl))
  {
  }

  /** What `translate_pdf` answers. */
  function TranslateResponse(args: Args, env: Env, resolve: string -> Option<Path>, pipeline: Job -> PipelineRun): Response {
    match Preflight(args, env, resolve)
    case Failure(e) => Rejected(e)
    case Success(job) =>
      match pipeline(job)
      case Raised(message) => TranslationFailed(message)
      case Completed(events) => Classify(Fold(events), job)
  }

  /** `translate_pdf`: the pre-flight, then the run of the pipeline and the
      loop over its events. */
  method TranslatePdf(args: Args, env: Env, resolve: string -> Option<Path>, pipeline: Job -> PipelineRun) returns (r: Response)
    ensures r == TranslateResponse(args, env, resolve, pipeline)
    ensures r.Rejected? <==> Preflight(args, env, resolve).Failure?
  {
    var checked := Preflight(args, env, resolve);
    if checked.Failure? {
      return Rejected(checked.error);
    }
    var job := checked.value;
    var run := pipeline(job);
    if run.Raised? {
      return TranslationFailed(run.message);
    }
    var progress, translationError, resultInfo := CollectEvents(run.events);
    r := Classify(FoldState(progress, translationError, resultInfo), job);
  }

  /** A rejected call never reaches the pipeline: its answer is the same
      whatever the pipeline would have done. */
  lemma RejectedBeforePipeline(args: Args, env: Env, resolve: string -> Option<Path>, pipeline1: Job -> PipelineRun, pipeline2: Job -> PipelineRun)
    requires Preflight(args, env, resolve).Failure?
    ensures TranslateResponse(args, env, resolve, pipeline1) == TranslateResponse(args, env, resolve, pipeline2)
            == Rejected(Preflight(args, env, resolve).error)
  {
  }

  /** A successful translation echoes the job: input path and output
      directory as text, languages, service name and model. */
  lemma SuccessEchoesJob(args: Args, env: Env, resolve: string -> Option<Path>, pipeline: Job -> PipelineRun, job: Job)
    requires Preflight(args, env, resolve) == Success(job)
    ensures var r := TranslateResponse(args, env, resolve, pipeline);
      r.Translated? ==>
      && r.record.inputFile == Text(job.inputPath)
      && r.record.outputDir == Text(job.outputDir)
      && r.record.langIn == job.langIn && r.record.langOut == job.langOut
      && r.record.service == ServiceOf(args)
      && r.record.model == job.backend.model
  {
  }

  /** What a tool call answers, by tool name. */
  function ToolResponse(name: string, args: Args, env: Env, resolve: string -> Option<Path>, pipeline: Job -> PipelineRun): Response {
    if name == "translate_pdf" then TranslateResponse(args, env, resolve, pipeline)
    else if name == "get_translation_status" then Status(TranslationStatus(env))
    else UnknownTool(name)
  }

  /** `call_tool`: routes a call by the tool's name. */
  method CallTool(name: string, args: Args, env: Env, resolve: string -> Option<Path>, pipeline: Job -> PipelineRun) returns (r: Response)
    ensures r == ToolResponse(name, args, env, resolve, pipeline)
  {
    if name == "translate_pdf" {
      r := TranslatePdf(args, env, resolve, pipeline);
    } else if name == "get_translation_status" {
      r := Status(TranslationStatus(env));
    } else {
      r := UnknownTool(name);
    }
  }

  /** Any other tool name is answered with "Unknown tool: <name>", and only
      those names are; the status tool ignores its arguments, the file
      lookup and the pipeline. */
  lemma Dispatch(name: string, args: Args, env: Env, resolve: string -> Option<Path>, pipeline: Job -> PipelineRun,
                 args2: Args, resolve2: string -> Option<Path>, pipeline2: Job -> PipelineRun)
    ensures ToolResponse(name, args, env, resolve, pipeline).UnknownTool? <==>
              name != "translate_pdf" && name != "get_translation_status"
    ensures ToolResponse(name, args, env, resolve, pipeline).UnknownTool? ==>
              Message(ToolResponse(name, args, env, resolve, pipeline)) == Some("Unknown tool: " + name)
    ensures name == "get_translation_status" ==>
              ToolResponse(name, args, env, resolve, pipeline) == ToolResponse(name, args2, env, resolve2, pipeline2)
  {
    if name == "translate_pdf" {
      assert !TranslateResponse(args, env, resolve, pipeline).UnknownTool?;
    }
  }
}

# BabelDOC MCP server: pre-flight, provider resolution and outcome classification

This project models the decision logic of the BabelDOC Model Context Protocol
server (`babeldoc/mcp_server/server.py`), which offers two tools to an AI
agent: `translate_pdf` and `get_translation_status`.

- `Options` (options.dfy): optional values, results, and Python's
  `d.get(k, default)` and `x or default` on optional strings.
- `Paths` (paths.dfy): the part of POSIX `pathlib` the server relies on:
  `Path(s)`, `str(p)`, `name`, `parent` and `suffix`, and the case-insensitive
  `.pdf` test.
- `Environment` (environment.dfy): `get_env_config`. The process environment
  is an explicit input, a map from variable names to values.
- `Validation` (validation.dfy): the ordered pre-flight checks of
  `translate_pdf`, the defaulting of every optional argument, and the choice
  between the `openrouter` and `openai` providers with key, model and base URL.
  The file lookup that tries the Unicode normal forms is the parameter
  `resolve`.
- `Responses` (responses.dfy): the answers a tool call can give, as a datatype
  of outcome kinds carrying their fields, and the exact text of the plain-text
  answers.
- `Events` (events.dfy): the loop over the pipeline's event stream (a method
  with a loop invariant tying its three variables to a fold over the events
  seen so far) and the classification of the outcome.
- `Server` (server.dfy): `get_translation_status`, `translate_pdf` and
  `call_tool`. The pipeline is the parameter `pipeline`, which maps a job to
  its event stream or to the exception it raised.

The server passes `pages` through verbatim, has no admission gate or
timeout, neither names nor checks output files, defaults `qps` to 4 for both
providers, does not check language codes, and reports every error as a plain
message; the model does the same.

## Model

| member | source | states |
|---|---|---|
| `Paths.ParseText` | babeldoc/mcp_server/server.py:327 | printing a well-formed path and parsing the text back gives the same path |
| `Paths.ParseIdempotent` | babeldoc/mcp_server/server.py:327 | parsing the printed form of a parsed path gives that path again, so `str(Path(s))` is a normal form |
| `Paths.IsPdfCharacterization` | babeldoc/mcp_server/server.py:247-250 | a resolved file counts as a PDF exactly when its name has at least one character before a final ".pdf" in any case; a file named ".pdf" alone does not |
| `Environment.GetEnvConfig` | babeldoc/mcp_server/server.py:85-98 | keys and the OpenAI base URL are the variables, absent when unset; the other entries are the variable when set, even to "", and the baked-in default otherwise |
| `Environment.EmptyEnvironmentDefaults` | babeldoc/mcp_server/server.py:85-98 | with nothing set, base URL `https://openrouter.ai/api/v1`, models `google/gemini-2.5-flash` and `gpt-4o-mini`, and no keys |
| `Environment.OnlyConfigVariablesMatter` | babeldoc/mcp_server/server.py:85-98 | two environments that agree on the six configuration variables give the same configuration |
| `Validation.ResolveProvider` | babeldoc/mcp_server/server.py:264-299 | only "openrouter" and "openai" are known; the chosen provider is the one named; it fails exactly when that provider's key is unset or empty; a non-empty model argument wins over the configured model; any other name is "Unknown service" |
| `Validation.Preflight` | babeldoc/mcp_server/server.py:230-299 | "input_file is required" exactly for a missing or empty input; "File not found" exactly when the lookup finds nothing; "File must be a PDF" exactly for a found non-PDF; after those checks, the provider's error or job |
| `Validation.InputCheckedFirst` | babeldoc/mcp_server/server.py:232-236 | a missing or empty input file is reported whatever the file lookup and the environment are |
| `Validation.FileCheckedBeforeConfig` | babeldoc/mcp_server/server.py:239-253 | a file that is not found or not a PDF fails the same way under every environment |
| `Validation.ArgumentDefaults` | babeldoc/mcp_server/server.py:254-262 | absent arguments take en, zh, no_dual=false, no_mono=false, qps 4, watermark on, service openrouter; given ones pass through; pages pass through verbatim |
| `Validation.OutputDirDefaultsToParent` | babeldoc/mcp_server/server.py:262 | an absent or empty output directory becomes the input file's parent directory |
| `Validation.ModelResolution` | babeldoc/mcp_server/server.py:265-290 | the model is the non-empty model argument, else the provider's model variable, else that provider's default model |
| `Validation.EndpointResolution` | babeldoc/mcp_server/server.py:265-290 | OpenRouter's base URL is the variable or its default; OpenAI's is exactly the variable, possibly absent; the key is the provider's own variable |
| `Validation.NoProviderFallback` | babeldoc/mcp_server/server.py:265-288 | a known provider without a usable key fails naming that provider, whatever the other provider's key |
| `Validation.PreflightSucceeds` | babeldoc/mcp_server/server.py:230-299 | the pre-flight succeeds exactly when the file is accepted, the service is known and its key is set and non-empty |
| `Responses.ErrorMessageInjective` | babeldoc/mcp_server/server.py:233-299 | different pre-flight errors have different messages |
| `Responses.MessageDeterminesResponse` | babeldoc/mcp_server/server.py:178-456 | the text of every plain-text answer determines the answer |
| `Events.CollectEvents` | babeldoc/mcp_server/server.py:395-411 | the loop's progress list, error and result are the fold of the event stream |
| `Events.FoldProgress` | babeldoc/mcp_server/server.py:402-406 | the progress list has one "stage: current/total" line per progress event, in stream order |
| `Events.FoldLastError` | babeldoc/mcp_server/server.py:407-408 | the remembered error is absent exactly when no error event occurred, else it is what the last error event reported ("Unknown error" without payload) |
| `Events.FoldLastFinish` | babeldoc/mcp_server/server.py:409-410 | the remembered result is the payload of the last finish event, absent when there was none |
| `Events.ErrorWins` | babeldoc/mcp_server/server.py:412-420 | a non-empty error from the last error event is the answer, whatever finish events occurred |
| `Events.FinishGivesRecord` | babeldoc/mcp_server/server.py:423-441 | with no error reported, the last finish payload gives the success record of the job |
| `Events.NoResultOtherwise` | babeldoc/mcp_server/server.py:442-450 | with no error reported and no finish payload, the answer is "completed but no result information" |
| `Server.LanguageTable` | babeldoc/mcp_server/server.py:203-217 | the table has 13 entries with distinct codes and includes the default languages en and zh |
| `Server.TranslationStatus` | babeldoc/mcp_server/server.py:191-227 | the server name and version are fixed; a provider is reported configured exactly when its key is set and non-empty; models and base URL come from the environment with defaults; the language table is fixed |
| `Server.StatusMatchesTranslation` | babeldoc/mcp_server/server.py:193-201 | with an accepted file and no model argument, a provider is reported configured exactly when a translation with it passes the pre-flight, and the job uses the reported model and OpenRouter base URL |
| `Server.TranslatePdf` | babeldoc/mcp_server/server.py:230-456 | the answer is a rejection exactly when the pre-flight fails; an exception gives "Translation failed"; otherwise the classification of the collected events |
| `Server.RejectedBeforePipeline` | babeldoc/mcp_server/server.py:230-301 | a rejected call gets the same answer whatever the pipeline would do |
| `Server.SuccessEchoesJob` | babeldoc/mcp_server/server.py:423-441 | a success record echoes the input path, output directory, languages, service name and model of the job |
| `Server.CallTool` | babeldoc/mcp_server/server.py:178-188 | routes `translate_pdf` and `get_translation_status` and answers every other name with "Unknown tool" |
| `Server.Dispatch` | babeldoc/mcp_server/server.py:178-188 | "Unknown tool: <name>" is answered exactly for the other names; the status tool ignores its arguments |

## Left out

- MCP transport and lifecycle (`stdio_server`, `server.run`, `main`, `run`, asyncio): input/output and asynchronous plumbing.
- `list_tools` schema declarations: static metadata; their defaults are reused as constants.
- `resolve_path_with_unicode_normalization`: it needs filesystem existence checks, directory listing and Unicode normalisation. It is the `resolve` parameter, which returns the path found or nothing.
- The pipeline's foreign calls (`high_level.init`, `OpenAITranslator`, `set_translate_rate_limiter`, `DocLayoutModel.load_onnx`, `TranslationConfig`, `async_translate`, `mkdir`): the `pipeline` parameter gives the event stream of a job, or the message of an exception raised anywhere inside the `try` block.
- Token usage in the success record: counters of the foreign translator.
- JSON text of the status and success answers (`json.dumps`): the answers are kept as records of their fields.
- Logging setup and `logger.exception`: no effect on answers.
- Argument values of a type other than the declared one (including JSON null): arguments are modelled as typed optional fields. Event fields are modelled as strings and integers.
- An event without a `type` key raises a `KeyError`: this is one of the exceptions the `Raised` run stands for.
- Finish payloads are modelled as their printed text and always count as truthy, since the pipeline sends an object there.
- `Paths.IsPdfCharacterization`: `str.lower` is modelled for ASCII letters only. No non-ASCII character lowercases to '.', 'p', 'd' or 'f', so the PDF test is unaffected.
- `Paths.ParseText`: paths follow POSIX `pathlib` as in Python 3.12: no drives, no Windows separators, and Python 3.12's suffix rule.
- Progress lines are collected as the source does, but the source never uses them in an answer.
- Page-range parsing, admission and queueing with timeouts, and output-file naming and existence checks: the code has none of them.

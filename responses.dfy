/** What a tool call answers. Each kind carries the fields or the message
    the server puts in its text content; the two JSON answers are kept as
    records, the others have a fixed message. */
module Responses {
  import opened Options
  import opened Validation
  import opened Environment

  /** The `status: success` record of a translation, without token usage. */
  datatype SuccessRecord = SuccessRecord(
    inputFile: string,
    outputDir: string,
    langIn: string,
    langOut: string,
    service: string,
    model: string,
    result: string)

  /** The answer of `get_translation_status`. */
  datatype StatusSnapshot = StatusSnapshot(
    service: string,
    version: string,
    openrouterConfigured: bool,
    openrouterModel: string,
    openrouterBaseUrl: string,
    openaiConfigured: bool,
    openaiModel: string,
    supportedLanguages: seq<string>)

  datatype Response =
    | UnknownTool(name: string)
    | Status(snapshot: StatusSnapshot)
    | Rejected(error: PreflightError)
    | TranslationError(message: string)
    | Translated(record: SuccessRecord)
    | NoResultInfo
    | TranslationFailed(message: string)

  /** What follows "Error: " in the message of a pre-flight error. */
  function ErrorDetail(e: PreflightError): string {
    match e
    case InputRequired => "input_file is required"
    case FileNotFound(f) => "File not found: " + f
    case NotPdf => "File must be a PDF"
    case ApiKeyNotSet(p) =>
      (if p == OpenRouter then OpenRouterKeyVar else OpenAIKeyVar) + " environment variable not set"
    case UnknownService(s) => "Unknown service: " + s + ". Use 'openrouter' or 'openai'"
  }

  function ErrorMessage(e: PreflightError): string {
    "Error: " + ErrorDetail(e)
  }

  /** The plain text of an answer; the status and success answers are JSON
      documents and have no fixed text. */
  function Message(r: Response): Option<string> {
    match r
    case UnknownTool(name) => Some("Unknown tool: " + name)
    case Status(_) => None
    case Rejected(e) => Some(ErrorMessage(e))
    case TranslationError(m) => Some("Translation error: " + m)
    case Translated(_) => None
    // In two pieces: the verifier sees the characters of a string literal
    // only up to a certain length, and this message is longer.
    case NoResultInfo => Some("Translation completed" + " but no result information available")
    case TranslationFailed(m) => Some("Translation failed: " + m)
  }

  lemma PrefixedEqual(prefix: string, a: string, b: string)
    requires prefix + a == prefix + b
    ensures a == b
  {
    assert a == (prefix + a)[|prefix|..];
    assert b == (prefix + b)[|prefix|..];
  }

  /** Characters 0, 4 and 5 of each error detail: distinct words for each
      kind of error and each provider. */
  function ErrorSignature(e: PreflightError): (char, char, char) {
    match e
    case InputRequired => ('i', 't', '_')
    case FileNotFound(_) => ('F', ' ', 'n')
    case NotPdf => ('F', ' ', 'm')
    case ApiKeyNotSet(OpenRouter) => ('O', 'R', 'O')
    case ApiKeyNotSet(OpenAI) => ('O', 'A', 'I')
    case UnknownService(_) => ('U', 'o', 'w')
  }

  lemma ErrorSignatureOf(e: PreflightError)
    ensures var d := ErrorDetail(e);
      |d| > 5 && (d[0], d[4], d[5]) == ErrorSignature(e)
  {
    match e
    case InputRequired =>
    case FileNotFound(f) =>
      assert ErrorDetail(e)[..6] == "File n";
    case NotPdf =>
    case ApiKeyNotSet(OpenRouter) =>
      assert ErrorDetail(e)[..6] == OpenRouterKeyVar[..6] == "OPENRO";
    case ApiKeyNotSet(OpenAI) =>
      assert ErrorDetail(e)[..6] == OpenAIKeyVar[..6] == "OPENAI";
    case UnknownService(s) =>
      assert ErrorDetail(e) == "Unknown service: " + (s + ". Use 'openrouter' or 'openai'");
      assert ErrorDetail(e)[..6] == "Unknow";
  }

  lemma SignatureDeterminesKind(e1: PreflightError, e2: PreflightError)
    requires ErrorSignature(e1) == ErrorSignature(e2)
    ensures e1.FileNotFound? <==> e2.FileNotFound?
    ensures e1.UnknownService? <==> e2.UnknownService?
    ensures !e1.FileNotFound? && !e1.UnknownService? ==> e1 == e2
  {
  }

  /** Two pre-flight errors with the same message are the same error. */
  lemma ErrorMessageInjective(e1: PreflightError, e2: PreflightError)
    requires ErrorMessage(e1) == ErrorMessage(e2)
    ensures e1 == e2
  {
    PrefixedEqual("Error: ", ErrorDetail(e1), ErrorDetail(e2));
    ErrorSignatureOf(e1);
    ErrorSignatureOf(e2);
    SignatureDeterminesKind(e1, e2);
    match e1
    case FileNotFound(f1) =>
      PrefixedEqual("File not found: ", f1, e2.inputFile);
    case UnknownService(s1) =>
      var s2 := e2.service;
      var tail := ". Use 'openrouter' or 'openai'";
      assert ErrorDetail(e1) == "Unknown service: " + (s1 + tail);
      assert ErrorDetail(e2) == "Unknown service: " + (s2 + tail);
      PrefixedEqual("Unknown service: ", s1 + tail, s2 + tail);
      assert s1 == (s1 + tail)[..|s1 + tail| - |tail|];
      assert s2 == (s2 + tail)[..|s2 + tail| - |tail|];
    case _ =>
  }

  /** Characters 0 and 12 of each plain-text answer. */
  function MessageSignature(r: Response): (char, char) {
    match r
    case UnknownTool(_) => ('U', ':')
    case Rejected(_) => ('E', ErrorSignature(r.error).2)
    case TranslationError(_) => ('T', 'e')
    case NoResultInfo => ('T', 'c')
    case TranslationFailed(_) => ('T', 'f')
    case _ => (' ', ' ')
  }

  lemma MessageSignatureOf(r: Response)
    requires Message(r).Some?
    ensures var m := Message(r).value;
      |m| > 12 && (m[0], m[12]) == MessageSignature(r)
  {
    match r
    case UnknownTool(n) =>
      assert Message(r).value[..13] == "Unknown tool:";
    case Rejected(e) =>
      ErrorSignatureOf(e);
      assert Message(r).value == "Error: " + ErrorDetail(e);
    case TranslationError(m) =>
      assert Message(r).value[..13] == "Translation e";
    case NoResultInfo =>
      assert Message(r).value[..13] == "Translation c";
    case TranslationFailed(m) =>
      assert Message(r).value[..13] == "Translation f";
  }

  /** The text of a plain-text answer determines the answer: a caller that
      reads only the text can tell every outcome apart. */
  lemma MessageDeterminesResponse(r1: Response, r2: Response)
    requires Message(r1).Some? && Message(r1) == Message(r2)
    ensures r1 == r2
  {
    MessageSignatureOf(r1);
    MessageSignatureOf(r2);
    if r1.Rejected? && r2.Rejected? {
      ErrorMessageInjective(r1.error, r2.error);
    } else if r1.UnknownTool? && r2.UnknownTool? {
      PrefixedEqual("Unknown tool: ", r1.name, r2.name);
    } else if r1.TranslationError? && r2.TranslationError? {
      PrefixedEqual("Translation error: ", r1.message, r2.message);
    } else if r1.TranslationFailed? && r2.TranslationFailed? {
      PrefixedEqual("Translation failed: ", r1.message, r2.message);
    }
  }
}

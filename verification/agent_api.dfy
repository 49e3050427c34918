/**
 * The `/api/agent` route: one form submission in, at most one response out.
 *
 * The three foreign calls of the route are abstract: the multipart parse is
 * an outcome inside the request, and OCR and the chat completion are
 * functions the caller supplies. `Handle` is the route as a function that
 * also records which foreign calls it made (`Run.calls`); `Handler` is the
 * same route written step by step against a response object.
 */
module AgentApi {
  import opened JsStrings

  const MethodNotAllowed := "Method Not Allowed"
  const ParsingFormError := "Parsing form error"
  const ServerFailure := "Something went wrong. You are safe. Please try again."
  const NoResult := "No result."
  const DefaultLanguage := "python"
  const OcrSeparator := "\n\nOCR:\n"

  const PromptHead := "You are a senior developer and visual logic agent. Given the following input:\n\n"
  const PromptMiddle := "\n\nPlease return "
  const PromptTail := ". Only return the result."
  const FlowchartDirective := "a mermaid.js flowchart in plain code format only"
  const PseudocodeDirective := "a structured pseudocode summary"
  const CodeDirectivePrefix := "real, working code in "

  /** An uploaded file as the form parser stored it. */
  datatype Upload = Upload(filepath: string)

  /** The parser gives one file, or an array when the field was sent several times. */
  datatype FileField = Single(file: Upload) | Multiple(uploads: seq<Upload>)

  datatype ParseOutcome =
    | ParseOk(fields: map<string, string>, files: map<string, FileField>)
    | ParseErr

  /** `httpMethod` is `None` when the request carries no method at all. */
  datatype Request = Request(httpMethod: Option<string>, parse: ParseOutcome)

  datatype OcrOutcome = OcrOk(text: string) | OcrErr

  /**
   * A completion either fails (network, auth, quota, malformed reply) or
   * yields the content of its first choice, `None` when there is no choice,
   * no message or a null content.
   */
  datatype CompletionOutcome = Completed(content: Option<string>) | CompletionErr

  datatype Body = TextBody(text: string) | JsonBody(result: string)
  datatype Reply = Reply(status: int, body: Body)

  /** `NoResponse`: the route ends without writing anything. */
  datatype Outcome = Responded(reply: Reply) | NoResponse

  /**
   * The foreign calls the route makes, in order. OCR is started even when it
   * is handed no file (`None`, JavaScript's `undefined`).
   */
  datatype Call = ParseForm | Recognize(file: Option<Upload>) | Complete(prompt: string)

  datatype Run = Run(calls: seq<Call>, outcome: Outcome)

  function Field(fields: map<string, string>, name: string): Option<string> {
    if name in fields then Some(fields[name]) else None
  }

  /** The language field, or `python` when it is missing or empty. */
  function EffectiveLanguage(fields: map<string, string>): (lang: string)
    ensures lang != ""
    ensures "language" in fields && fields["language"] != "" ==> lang == fields["language"]
    ensures "language" !in fields || fields["language"] == "" ==> lang == DefaultLanguage
  {
    Or(Field(fields, "language"), DefaultLanguage)
  }

  /** The file OCR reads: the field itself, or the first of several (none for an empty array). */
  function FirstImage(f: FileField): Option<Upload> {
    match f
    case Single(u) => Some(u)
    case Multiple(us) => if us != [] then Some(us[0]) else None
  }

  /** The typed-in text with the recognised text appended after a fixed separator. */
  function WithOcr(input: string, text: string): string {
    input + OcrSeparator + text
  }

  /**
   * The output-format directive. Only the exact strings `flowchart` and
   * `pseudocode` select their directives; anything else, a missing task
   * included, asks for code in the given language.
   */
  function Directive(task: Option<string>, language: string): string {
    if task == Some("flowchart") then FlowchartDirective
    else if task == Some("pseudocode") then PseudocodeDirective
    else CodeDirectivePrefix + language
  }

  /** The single prompt sent upstream. */
  function ComposePrompt(input: string, directive: string): string {
    PromptHead + input + PromptMiddle + directive + PromptTail
  }

  /** The reply to a completion: its trimmed content, `No result.` for an empty one, or the fixed 500. */
  function CompletionReply(c: CompletionOutcome): (reply: Reply)
    ensures c.CompletionErr? ==> reply == Reply(500, JsonBody(ServerFailure))
    ensures c.Completed? ==> reply.status == 200 && reply.body.JsonBody?
    ensures c.Completed? ==> NoEdgeWhitespace(reply.body.result)
  {
    match c
    case CompletionErr => Reply(500, JsonBody(ServerFailure))
    case Completed(content) => Reply(200, JsonBody(Trim(Or(content, NoResult))))
  }

  /** Compose the prompt, make the one completion call and answer from its outcome. */
  function Finish(calls: seq<Call>, input: string, task: Option<string>, language: string,
                  complete: string -> CompletionOutcome): (run: Run)
    ensures run.calls == calls + [Complete(ComposePrompt(input, Directive(task, language)))]
    ensures run.outcome.Responded?
  {
    var prompt := ComposePrompt(input, Directive(task, language));
    Run(calls + [Complete(prompt)], Responded(CompletionReply(complete(prompt))))
  }

  /** The route as a function of the request and the two foreign services. */
  function Handle(req: Request, ocr: Upload -> OcrOutcome, complete: string -> CompletionOutcome): Run {
    if req.httpMethod != Some("POST") then
      Run([], Responded(Reply(405, TextBody(MethodNotAllowed))))
    else
      match req.parse
      case ParseErr => Run([ParseForm], Responded(Reply(500, JsonBody(ParsingFormError))))
      case ParseOk(fields, files) => HandleForm(fields, files, ocr, complete)
  }

  /** The parse callback once the form has parsed. */
  function HandleForm(fields: map<string, string>, files: map<string, FileField>,
                      ocr: Upload -> OcrOutcome, complete: string -> CompletionOutcome): Run
  {
    var input := TemplateText(Field(fields, "input"));
    var task := Field(fields, "task");
    var language := EffectiveLanguage(fields);
    if "image" in files then
      match FirstImage(files["image"])
      // OCR is handed `undefined` and throws before the failure boundary.
      case None => Run([ParseForm, Recognize(None)], NoResponse)
      case Some(img) =>
        match ocr(img)
        // The OCR failure is not caught: the route never answers.
        case OcrErr => Run([ParseForm, Recognize(Some(img))], NoResponse)
        case OcrOk(text) => Finish([ParseForm, Recognize(Some(img))], WithOcr(input, text), task, language, complete)
    else
      Finish([ParseForm], input, task, language, complete)
  }

  /** What a response object has sent after the route ran. */
  function Written(o: Outcome): (sent: seq<Reply>)
    ensures o.Responded? ==> sent == [o.reply]
    ensures o.NoResponse? ==> sent == []
  {
    match o
    case Responded(r) => [r]
    case NoResponse => []
  }

  /** The response half of the route's interface: a status, then one body. */
  class ApiResponse {
    var statusCode: int
    var sent: seq<Reply>

    constructor ()
      ensures statusCode == 200 && sent == []
    {
      statusCode := 200;
      sent := [];
    }

    method Status(code: int)
      modifies this
      ensures statusCode == code && sent == old(sent)
    {
      statusCode := code;
    }

    method Json(result: string)
      modifies this
      ensures statusCode == old(statusCode)
      ensures sent == old(sent) + [Reply(statusCode, JsonBody(result))]
    {
      sent := sent + [Reply(statusCode, JsonBody(result))];
    }

    method End(text: string)
      modifies this
      ensures statusCode == old(statusCode)
      ensures sent == old(sent) + [Reply(statusCode, TextBody(text))]
    {
      sent := sent + [Reply(statusCode, TextBody(text))];
    }
  }

  /**
   * The route run step by step: the typed-in text is extended in place when
   * an image was sent, and each path writes its reply to `res`. It makes the
   * calls `Handle` records and sends exactly what `Handle` answers.
   */
  method Handler(req: Request, res: ApiResponse, ocr: Upload -> OcrOutcome, complete: string -> CompletionOutcome)
    returns (calls: seq<Call>)
    modifies res
    ensures calls == Handle(req, ocr, complete).calls
    ensures res.sent == old(res.sent) + Written(Handle(req, ocr, complete).outcome)
    ensures Handle(req, ocr, complete).outcome.Responded? ==>
              res.statusCode == Handle(req, ocr, complete).outcome.reply.status
    ensures Handle(req, ocr, complete).outcome.NoResponse? ==> res.statusCode == old(res.statusCode)
  {
    if req.httpMethod != Some("POST") {
      res.Status(405);
      res.End(MethodNotAllowed);
      return [];
    }
    calls := [ParseForm];
    if req.parse.ParseErr? {
      res.Status(500);
      res.Json(ParsingFormError);
      return;
    }
    var fields, files := req.parse.fields, req.parse.files;
    var input := TemplateText(Field(fields, "input"));
    var task := Field(fields, "task");
    var language := EffectiveLanguage(fields);
    if "image" in files {
      var img := FirstImage(files["image"]);
      calls := calls + [Recognize(img)];
      if img.None? {
        return;
      }
      var recognised := ocr(img.value);
      if recognised.OcrErr? {
        return;
      }
      input := input + OcrSeparator + recognised.text;
    }
    var prompt := ComposePrompt(input, Directive(task, language));
    calls := calls + [Complete(prompt)];
    var completion := complete(prompt);
    match completion {
      case Completed(content) =>
        var output := Or(content, NoResult);
        res.Status(200);
        res.Json(Trim(output));
      case CompletionErr =>
        res.Status(500);
        res.Json(ServerFailure);
    }
  }
}

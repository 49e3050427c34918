/**
 * The page and the route together: the form a run posts as the route reads
 * it, the route's reply as the page reads it, and what a run finally shows
 * for each way the route can end.
 */
module EndToEnd {
  import opened JsStrings
  import opened AgentApi
  import opened PseudocodeAgent
  import AgentApiFacts

  /** The text fields of a posted form; a later entry under the same name wins. */
  function ReceivedFields(entries: seq<Entry>): map<string, string> {
    if entries == [] then map[]
    else
      (if entries[0].value.TextValue? then map[entries[0].name := entries[0].value.text] else map[])
      + ReceivedFields(entries[1..])
  }

  /** The file fields of a posted form, each stored by `store`; a later entry under the same name wins. */
  function ReceivedFiles(entries: seq<Entry>, store: LocalFile -> Upload): map<string, FileField> {
    if entries == [] then map[]
    else
      (if entries[0].value.FileValue? then map[entries[0].name := Single(store(entries[0].value.file))] else map[])
      + ReceivedFiles(entries[1..], store)
  }

  /** The request a run sends: a POST whose form parses into the posted entries. */
  function Submit(s: UiState, store: LocalFile -> Upload): Request {
    var e := FormEntries(s);
    Request(Some("POST"), ParseOk(ReceivedFields(e), ReceivedFiles(e, store)))
  }

  /**
   * The route reads back exactly what the page posted: the three text
   * fields with the page's values, and the image exactly when a file is
   * selected.
   */
  lemma ReceivedForm(s: UiState, store: LocalFile -> Upload)
    ensures ReceivedFields(FormEntries(s))
         == map["input" := s.input, "language" := s.language, "task" := TaskName(s.task)]
    ensures ReceivedFiles(FormEntries(s), store)
         == if s.file.Some? then map["image" := Single(store(s.file.value))] else map[]
  {
    ReceivedTextFields(s);
    ReceivedFileFields(s, store);
  }

  /** The text fields the route reads from a run's form. */
  lemma ReceivedTextFields(s: UiState)
    ensures ReceivedFields(FormEntries(s))
         == map["input" := s.input, "language" := s.language, "task" := TaskName(s.task)]
  {
    var e := FormEntries(s);
    var tail := e[3..];
    assert e[1..][1..][1..] == tail;
    assert ReceivedFields(tail) == map[] by {
      if s.file.Some? { assert tail[1..] == []; }
    }
    assert ReceivedFields(e[2..]) == map["task" := TaskName(s.task)] + ReceivedFields(tail);
    assert ReceivedFields(e[1..]) == map["language" := s.language] + ReceivedFields(e[2..]);
    assert ReceivedFields(e) == map["input" := s.input] + ReceivedFields(e[1..]);
  }

  /** The file fields the route reads from a run's form. */
  lemma ReceivedFileFields(s: UiState, store: LocalFile -> Upload)
    ensures ReceivedFiles(FormEntries(s), store)
         == if s.file.Some? then map["image" := Single(store(s.file.value))] else map[]
  {
    var e := FormEntries(s);
    var tail := e[3..];
    assert e[1..][1..][1..] == tail;
    assert ReceivedFiles(tail, store) == (if s.file.Some? then map["image" := Single(store(s.file.value))] else map[])
    by {
      if s.file.Some? { assert tail[1..] == []; }
    }
    assert ReceivedFiles(e[2..], store) == map[] + ReceivedFiles(tail, store);
    assert ReceivedFiles(e[1..], store) == map[] + ReceivedFiles(e[2..], store);
    assert ReceivedFiles(e, store) == map[] + ReceivedFiles(e[1..], store);
  }

  /** What the page's `fetch` sees of the route's outcome; `None`: no response, the fetch never settles. */
  function Transmit(o: Outcome): Option<FetchOutcome> {
    match o
    case NoResponse => None
    case Responded(Reply(status, TextBody(_))) => Some(Fetched(status, NotJson))
    case Responded(Reply(status, JsonBody(r))) => Some(Fetched(status, JsonObject(Some(r))))
  }

  /** A whole run: what the page shows and speaks, or `None` when the route never answers. */
  function RoundTrip(s: UiState, store: LocalFile -> Upload, ocr: Upload -> OcrOutcome,
                     complete: string -> CompletionOutcome): Option<RunEffect>
  {
    match Transmit(Handle(Submit(s, store), ocr, complete).outcome)
    case None => None
    case Some(f) => Some(RunAgentEffect(f, s.accessibilityMode))
  }

  /** The directive the page's task and language select on the route. */
  function DirectiveFor(s: UiState): string {
    match s.task
    case Flowchart => FlowchartDirective
    case Pseudocode => PseudocodeDirective
    case Code => CodeDirectivePrefix + (if s.language == "" then DefaultLanguage else s.language)
  }

  /**
   * A run without a file sends the page's text verbatim with the directive
   * of its task (code in the page's language, `python` when that is empty),
   * makes no OCR call, and is answered with the reply to that completion.
   */
  lemma PromptForRun(s: UiState, store: LocalFile -> Upload, ocr: Upload -> OcrOutcome,
                     complete: string -> CompletionOutcome)
    requires s.file.None?
    ensures var prompt := ComposePrompt(s.input, DirectiveFor(s));
            Handle(Submit(s, store), ocr, complete) == Run([ParseForm, Complete(prompt)], Responded(CompletionReply(complete(prompt))))
  {
    var req := Submit(s, store);
    ReceivedForm(s, store);
    SubmittedFields(s, store);
    assert req.parse.files == map[];
    assert Handle(req, ocr, complete) == HandleForm(req.parse.fields, map[], ocr, complete);
  }

  /** The fields the route derives from a run's form: the page's text, its task, and its language or `python`. */
  lemma SubmittedFields(s: UiState, store: LocalFile -> Upload)
    ensures var fields := Submit(s, store).parse.fields;
            && TemplateText(Field(fields, "input")) == s.input
            && Directive(Field(fields, "task"), EffectiveLanguage(fields)) == DirectiveFor(s)
  {
    var fields := Submit(s, store).parse.fields;
    ReceivedTextFields(s);
    assert Field(fields, "input") == Some(s.input);
    assert Field(fields, "task") == Some(TaskName(s.task));
    assert Field(fields, "language") == Some(s.language);
    assert EffectiveLanguage(fields) == if s.language == "" then DefaultLanguage else s.language;
  }

  /**
   * A run with a file has the stored file read once, and sends the page's
   * text with the recognised text appended under the OCR separator.
   */
  lemma PromptForRunWithImage(s: UiState, store: LocalFile -> Upload, text: string,
                              ocr: Upload -> OcrOutcome, complete: string -> CompletionOutcome)
    requires s.file.Some? && ocr(store(s.file.value)) == OcrOk(text)
    ensures Handle(Submit(s, store), ocr, complete).calls
         == [ParseForm, Recognize(Some(store(s.file.value))),
             Complete(ComposePrompt(s.input + OcrSeparator + text, DirectiveFor(s)))]
  {
    ReceivedForm(s, store);
  }

  /** A run with a file whose OCR fails never gets an answer. */
  lemma OcrFailureLeavesRunPending(s: UiState, store: LocalFile -> Upload, ocr: Upload -> OcrOutcome,
                                   complete: string -> CompletionOutcome)
    requires s.file.Some? && ocr(store(s.file.value)) == OcrErr
    ensures RoundTrip(s, store, ocr, complete) == None
  {
    ReceivedForm(s, store);
  }

  /**
   * Whenever the route answers, the page shows a non-empty text: the route's
   * `result` if that is non-empty, else the page's own fallback.
   */
  lemma AnsweredRunShowsText(s: UiState, store: LocalFile -> Upload, ocr: Upload -> OcrOutcome,
                             complete: string -> CompletionOutcome)
    ensures var o := Handle(Submit(s, store), ocr, complete).outcome;
            o.Responded? <==> RoundTrip(s, store, ocr, complete).Some?
    ensures var o := Handle(Submit(s, store), ocr, complete).outcome;
            o.Responded? ==>
              var shown := RoundTrip(s, store, ocr, complete).value.shown;
              && shown != ""
              && shown == (if o.reply.body.JsonBody? && o.reply.body.result != "" then o.reply.body.result else Fallback)
  {
    ReceivedForm(s, store);
  }

  /** The run's last foreign call is the completion, and `complete` gives `c` for its prompt. */
  predicate CompletionGave(s: UiState, store: LocalFile -> Upload, ocr: Upload -> OcrOutcome,
                           complete: string -> CompletionOutcome, c: CompletionOutcome)
  {
    var calls := Handle(Submit(s, store), ocr, complete).calls;
    calls != [] && calls[|calls| - 1].Complete? && complete(calls[|calls| - 1].prompt) == c
  }

  /** A run that reaches the completion is answered with the reply to that completion, with or without a file. */
  lemma CompletedRunAnswer(s: UiState, store: LocalFile -> Upload, ocr: Upload -> OcrOutcome,
                           complete: string -> CompletionOutcome, c: CompletionOutcome)
    requires CompletionGave(s, store, ocr, complete, c)
    ensures Handle(Submit(s, store), ocr, complete).outcome == Responded(CompletionReply(c))
  {
    var calls := Handle(Submit(s, store), ocr, complete).calls;
    AgentApiFacts.AnswerIsCompletionReply(Submit(s, store), ocr, complete);
    assert calls[|calls| - 1].Complete?;
  }

  /** What the page makes of a run that reaches the completion: the JSON reply to that completion. */
  lemma CompletedRoundTrip(s: UiState, store: LocalFile -> Upload, ocr: Upload -> OcrOutcome,
                           complete: string -> CompletionOutcome, c: CompletionOutcome)
    requires CompletionGave(s, store, ocr, complete, c)
    ensures var reply := CompletionReply(c);
            RoundTrip(s, store, ocr, complete)
              == Some(RunAgentEffect(Fetched(reply.status, JsonObject(Some(reply.body.result))), s.accessibilityMode))
  {
    CompletedRunAnswer(s, store, ocr, complete, c);
  }

  /** A completion of only whitespace is trimmed to nothing by the route and shown as the page's fallback. */
  lemma WhitespaceCompletionShowsFallback(s: UiState, store: LocalFile -> Upload, w: string,
                                          ocr: Upload -> OcrOutcome, complete: string -> CompletionOutcome)
    requires w != "" && AllWhitespace(w)
    requires CompletionGave(s, store, ocr, complete, Completed(Some(w)))
    ensures RoundTrip(s, store, ocr, complete) == Some(RunEffect(Fallback, if s.accessibilityMode then Some(Fallback) else None))
  {
    CompletedRoundTrip(s, store, ocr, complete, Completed(Some(w)));
    AgentApiFacts.WhitespaceCompletionReply(w);
  }

  /** An empty completion reaches the page as exactly `No result.`. */
  lemma EmptyCompletionShowsNoResult(s: UiState, store: LocalFile -> Upload, c: CompletionOutcome,
                                     ocr: Upload -> OcrOutcome, complete: string -> CompletionOutcome)
    requires c.Completed? && (c.content.None? || c.content.value == "")
    requires CompletionGave(s, store, ocr, complete, c)
    ensures RoundTrip(s, store, ocr, complete).Some?
    ensures RoundTrip(s, store, ocr, complete).value.shown == NoResult
  {
    CompletedRoundTrip(s, store, ocr, complete, c);
    EmptyCompletionShown(c, s.accessibilityMode);
  }

  /** The page's reading of the reply to an empty completion. */
  lemma EmptyCompletionShown(c: CompletionOutcome, accessibilityMode: bool)
    requires c.Completed? && (c.content.None? || c.content.value == "")
    ensures var reply := CompletionReply(c);
            RunAgentEffect(Fetched(reply.status, JsonObject(Some(reply.body.result))), accessibilityMode).shown == NoResult
  {
    AgentApiFacts.EmptyCompletionReply(c);
    assert NoResult[0] == 'N';
    ShowsResult(200, NoResult, accessibilityMode);
  }

  /**
   * A failed completion reaches the page with status 500, and the page,
   * which ignores the status, shows the route's own message verbatim rather
   * than its fallback.
   */
  lemma CompletionFailureShownVerbatim(s: UiState, store: LocalFile -> Upload,
                                       ocr: Upload -> OcrOutcome, complete: string -> CompletionOutcome)
    requires CompletionGave(s, store, ocr, complete, CompletionErr)
    ensures RoundTrip(s, store, ocr, complete).Some?
    ensures RoundTrip(s, store, ocr, complete).value.shown == ServerFailure
    ensures ServerFailure != Fallback
  {
    CompletedRoundTrip(s, store, ocr, complete, CompletionErr);
  }

  /** The parse-error reply is a non-empty `result` too, so the page shows it verbatim. */
  lemma ParseErrorShownVerbatim(accessibilityMode: bool)
    ensures var f := Transmit(Responded(Reply(500, JsonBody(ParsingFormError))));
            f.Some? && RunAgentEffect(f.value, accessibilityMode).shown == ParsingFormError
  {
  }

  /** The 405 text body is not JSON, so a page that sent anything but POST would show its fallback. */
  lemma MethodNotAllowedShowsFallback(accessibilityMode: bool)
    ensures var f := Transmit(Responded(Reply(405, TextBody(MethodNotAllowed))));
            f.Some? && RunAgentEffect(f.value, accessibilityMode).shown == Fallback
  {
  }
}

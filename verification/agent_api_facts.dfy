/**
 * What the `/api/agent` route promises, stated over `AgentApi.Handle`: the
 * method gate, the parse-error reply, the effective input and language,
 * the prompt, the order of the foreign calls and when exactly one response
 * is written.
 */
module AgentApiFacts {
  import opened JsStrings
  import opened AgentApi

  /** The three kinds of output the prompt can ask for. */
  datatype TaskKind = CodeTask | PseudocodeTask | FlowchartTask

  /** How the route classifies the task field: two exact strings, everything else is code. */
  function KindOf(task: Option<string>): TaskKind {
    if task == Some("flowchart") then FlowchartTask
    else if task == Some("pseudocode") then PseudocodeTask
    else CodeTask
  }

  /** A request the route answers without reading the form: anything but POST. */
  lemma MethodGate(req: Request, ocr: Upload -> OcrOutcome, complete: string -> CompletionOutcome)
    ensures req.httpMethod != Some("POST") ==>
              Handle(req, ocr, complete) == Run([], Responded(Reply(405, TextBody(MethodNotAllowed))))
    ensures req.httpMethod == Some("POST") ==> Handle(req, ocr, complete).calls[0] == ParseForm
  {
  }

  /** A form that does not parse gets the distinct 500 reply, and neither OCR nor completion runs. */
  lemma ParseErrorGate(req: Request, ocr: Upload -> OcrOutcome, complete: string -> CompletionOutcome)
    requires req.httpMethod == Some("POST") && req.parse.ParseErr?
    ensures Handle(req, ocr, complete) == Run([ParseForm], Responded(Reply(500, JsonBody(ParsingFormError))))
  {
  }

  /** The directive each task value selects; only the code directive mentions the language. */
  lemma DirectiveChoice(task: Option<string>, language: string)
    ensures KindOf(task) == FlowchartTask ==> Directive(task, language) == FlowchartDirective
    ensures KindOf(task) == PseudocodeTask ==> Directive(task, language) == PseudocodeDirective
    ensures KindOf(task) == CodeTask ==> Directive(task, language) == CodeDirectivePrefix + language
  {
  }

  /**
   * Two directives are equal exactly when they are for the same kind of task
   * and, for code, the same language: the directive tells the kind apart.
   */
  lemma DirectivesDistinct(t1: Option<string>, l1: string, t2: Option<string>, l2: string)
    ensures Directive(t1, l1) == Directive(t2, l2) <==>
              KindOf(t1) == KindOf(t2) && (KindOf(t1) == CodeTask ==> l1 == l2)
  {
    var d1, d2 := Directive(t1, l1), Directive(t2, l2);
    // The three directives already differ at index 21.
    assert FlowchartDirective[21] == 't' && PseudocodeDirective[21] == 'd' && CodeDirectivePrefix[21] == ' ';
    if KindOf(t1) == CodeTask && KindOf(t2) == CodeTask && d1 == d2 {
      assert l1 == d1[|CodeDirectivePrefix|..] == d2[|CodeDirectivePrefix|..] == l2;
    }
  }

  /** The appended OCR block: the typed-in text, then the separator, then the recognised text, each intact. */
  lemma OcrLayout(input: string, text: string)
    ensures var r := WithOcr(input, text);
            && |r| == |input| + |OcrSeparator| + |text|
            && r[..|input|] == input
            && r[|input|..|input| + |OcrSeparator|] == OcrSeparator
            && r[|input| + |OcrSeparator|..] == text
  {
    var r := WithOcr(input, text);
    assert r == input + (OcrSeparator + text);
  }

  /**
   * The prompt is the fixed head, the input verbatim, the fixed middle, the
   * directive and the fixed tail, each at its own place.
   */
  lemma PromptLayout(input: string, directive: string)
    ensures var p := ComposePrompt(input, directive);
            && |p| == |PromptHead| + |input| + |PromptMiddle| + |directive| + |PromptTail|
            && p[..|PromptHead|] == PromptHead
            && p[|PromptHead|..|PromptHead| + |input|] == input
            && p[|PromptHead| + |input|..|PromptHead| + |input| + |PromptMiddle|] == PromptMiddle
            && p[|p| - |PromptTail| - |directive|..|p| - |PromptTail|] == directive
            && p[|p| - |PromptTail|..] == PromptTail
  {
    var p := ComposePrompt(input, directive);
    var h := PromptHead + input + PromptMiddle;
    assert p == h + (directive + PromptTail);
    assert h == PromptHead + (input + PromptMiddle);
  }

  /** With the same directive, the prompt gives back the input it was built from. */
  lemma PromptInputInjective(i1: string, i2: string, d: string)
    requires ComposePrompt(i1, d) == ComposePrompt(i2, d)
    ensures i1 == i2
  {
    PromptLayout(i1, d);
    PromptLayout(i2, d);
  }

  /** With the same input, the prompt gives back the directive it was built from. */
  lemma PromptDirectiveInjective(i: string, d1: string, d2: string)
    requires ComposePrompt(i, d1) == ComposePrompt(i, d2)
    ensures d1 == d2
  {
    PromptLayout(i, d1);
    PromptLayout(i, d2);
  }

  /** Without an image, the prompt carries the `input` field verbatim ("undefined" when it is missing). */
  lemma InputWithoutImage(req: Request, ocr: Upload -> OcrOutcome, complete: string -> CompletionOutcome)
    requires req.httpMethod == Some("POST") && req.parse.ParseOk? && "image" !in req.parse.files
    ensures var fields := req.parse.fields;
            Handle(req, ocr, complete).calls ==
              [ParseForm, Complete(ComposePrompt(TemplateText(Field(fields, "input")),
                                                 Directive(Field(fields, "task"), EffectiveLanguage(fields))))]
  {
  }

  /**
   * With an image that OCR reads, the prompt carries the `input` field, the
   * separator and the recognised text, and OCR was given the first file.
   */
  lemma InputWithImage(req: Request, img: Upload, text: string,
                       ocr: Upload -> OcrOutcome, complete: string -> CompletionOutcome)
    requires req.httpMethod == Some("POST") && req.parse.ParseOk? && "image" in req.parse.files
    requires FirstImage(req.parse.files["image"]) == Some(img) && ocr(img) == OcrOk(text)
    ensures var fields := req.parse.fields;
            Handle(req, ocr, complete).calls ==
              [ParseForm, Recognize(Some(img)),
               Complete(ComposePrompt(TemplateText(Field(fields, "input")) + "\n\nOCR:\n" + text,
                                      Directive(Field(fields, "task"), EffectiveLanguage(fields))))]
  {
  }

  /** When several images are sent, the route behaves as if only the first had been. */
  lemma OnlyFirstImage(m: Option<string>, fields: map<string, string>, files: map<string, FileField>,
                       uploads: seq<Upload>, ocr: Upload -> OcrOutcome, complete: string -> CompletionOutcome)
    requires uploads != []
    ensures Handle(Request(m, ParseOk(fields, files["image" := Multiple(uploads)])), ocr, complete)
         == Handle(Request(m, ParseOk(fields, files["image" := Single(uploads[0])])), ocr, complete)
  {
  }

  /** The substitute for an empty completion is not changed by trimming. */
  lemma NoResultIsTrimmed()
    ensures Trim(NoResult) == NoResult
  {
    assert NoResult[0] == 'N' && NoResult[|NoResult| - 1] == '.';
    TrimClean(NoResult);
  }

  /** An empty or missing completion is answered with 200 and exactly `No result.`. */
  lemma EmptyCompletionReply(c: CompletionOutcome)
    requires c.Completed? && (c.content.None? || c.content.value == "")
    ensures CompletionReply(c) == Reply(200, JsonBody(NoResult))
  {
    assert Or(c.content, NoResult) == NoResult;
    NoResultIsTrimmed();
  }

  /** A non-empty completion is answered with 200 and a result that is empty exactly when the content is only whitespace. */
  lemma WhitespaceCompletionReply(content: string)
    requires content != ""
    ensures CompletionReply(Completed(Some(content))).status == 200
    ensures CompletionReply(Completed(Some(content))).body.result == "" <==> AllWhitespace(content)
  {
    assert Or(Some(content), NoResult) == content;
    TrimEmptyIff(content);
  }

  /** A completion without whitespace at its edges comes back exactly as it was generated. */
  lemma CleanCompletionReply(content: string)
    requires content != "" && NoEdgeWhitespace(content)
    ensures CompletionReply(Completed(Some(content))) == Reply(200, JsonBody(content))
  {
    TrimClean(content);
  }

  /** A run that reached the completion: the parse, perhaps OCR, then one completion whose reply is the answer. */
  predicate CompletedRun(run: Run, complete: string -> CompletionOutcome) {
    && 2 <= |run.calls| <= 3
    && run.calls[0] == ParseForm
    && (|run.calls| == 3 ==> run.calls[1].Recognize?)
    && run.calls[|run.calls| - 1].Complete?
    && run.outcome == Responded(CompletionReply(complete(run.calls[|run.calls| - 1].prompt)))
  }

  /** A run that stopped at OCR: the parse, the OCR call (with or without a file), and no response. */
  predicate AbandonedRun(run: Run) {
    && run.outcome == NoResponse
    && |run.calls| == 2 && run.calls[0] == ParseForm && run.calls[1].Recognize?
  }

  /** Once the form has parsed, the run either stops at OCR or reaches the completion. */
  lemma FormRunCases(fields: map<string, string>, files: map<string, FileField>,
                     ocr: Upload -> OcrOutcome, complete: string -> CompletionOutcome)
    ensures var run := HandleForm(fields, files, ocr, complete);
            AbandonedRun(run) || CompletedRun(run, complete)
  {
    var run := HandleForm(fields, files, ocr, complete);
    if "image" in files && FirstImage(files["image"]).Some? {
      var img := FirstImage(files["image"]).value;
      if ocr(img).OcrOk? {
        assert |run.calls| == 3 && run.calls[..2] == [ParseForm, Recognize(Some(img))];
        assert CompletedRun(run, complete);
      }
    } else if "image" !in files {
      assert |run.calls| == 2 && run.calls[0] == ParseForm;
      assert CompletedRun(run, complete);
    }
  }

  /** Every run is one of four: the 405, the parse-error 500, stopped at OCR, or answered from the completion. */
  lemma RunCases(req: Request, ocr: Upload -> OcrOutcome, complete: string -> CompletionOutcome)
    ensures var run := Handle(req, ocr, complete);
            || run == Run([], Responded(Reply(405, TextBody(MethodNotAllowed))))
            || run == Run([ParseForm], Responded(Reply(500, JsonBody(ParsingFormError))))
            || AbandonedRun(run)
            || CompletedRun(run, complete)
  {
    if req.httpMethod == Some("POST") && req.parse.ParseOk? {
      FormRunCases(req.parse.fields, req.parse.files, ocr, complete);
    }
  }

  /** The route's answer is the completion's reply whenever it gets as far as the completion. */
  lemma AnswerIsCompletionReply(req: Request, ocr: Upload -> OcrOutcome, complete: string -> CompletionOutcome)
    ensures var run := Handle(req, ocr, complete);
            forall k | 0 <= k < |run.calls| && run.calls[k].Complete? ::
              run.outcome == Responded(CompletionReply(complete(run.calls[k].prompt)))
  {
    var run := Handle(req, ocr, complete);
    if req.httpMethod == Some("POST") && req.parse.ParseOk? {
      FormRunCases(req.parse.fields, req.parse.files, ocr, complete);
      if CompletedRun(run, complete) {
        forall k | 0 <= k < |run.calls| && run.calls[k].Complete?
          ensures run.outcome == Responded(CompletionReply(complete(run.calls[k].prompt)))
        {
          assert k == |run.calls| - 1;
        }
      }
    }
  }

  /**
   * The route makes its foreign calls strictly in sequence: the parse
   * first, OCR at most once and second, the completion at most once and
   * last.
   */
  lemma CallsInOrder(req: Request, ocr: Upload -> OcrOutcome, complete: string -> CompletionOutcome)
    ensures var calls := Handle(req, ocr, complete).calls;
            && |calls| <= 3
            && (forall k | 0 <= k < |calls| :: calls[k].ParseForm? <==> k == 0)
            && (forall k | 0 <= k < |calls| && calls[k].Recognize? :: k == 1)
            && (forall k | 0 <= k < |calls| && calls[k].Complete? :: k == |calls| - 1)
  {
    RunCases(req, ocr, complete);
  }

  /**
   * Every request gets exactly one response, except when an image was sent
   * and OCR fails (or is given no file): that failure is outside the
   * route's failure boundary and nothing is written.
   */
  lemma ResponseUnlessOcrFails(req: Request, ocr: Upload -> OcrOutcome, complete: string -> CompletionOutcome)
    ensures Handle(req, ocr, complete).outcome.NoResponse? <==>
              && req.httpMethod == Some("POST")
              && req.parse.ParseOk?
              && "image" in req.parse.files
              && var img := FirstImage(req.parse.files["image"]);
                 img.None? || ocr(img.value).OcrErr?
  {
    if req.httpMethod == Some("POST") && req.parse.ParseOk? {
      var files := req.parse.files;
      if "image" in files && FirstImage(files["image"]).Some? {
        var img := FirstImage(files["image"]).value;
        assert ocr(img).OcrErr? <==> Handle(req, ocr, complete).outcome.NoResponse?;
      }
    }
  }

  /** A run that answers without calling the completion is a 405 or the parse-error 500. */
  lemma EarlyAnswers(req: Request, ocr: Upload -> OcrOutcome, complete: string -> CompletionOutcome)
    ensures var run := Handle(req, ocr, complete);
            run.outcome.Responded? && (run.calls == [] || !run.calls[|run.calls| - 1].Complete?) ==>
              run.outcome.reply == Reply(405, TextBody(MethodNotAllowed))
              || run.outcome.reply == Reply(500, JsonBody(ParsingFormError))
  {
    var run := Handle(req, ocr, complete);
    RunCases(req, ocr, complete);
    if run.outcome.Responded? && (run.calls == [] || !run.calls[|run.calls| - 1].Complete?) {
      assert !AbandonedRun(run) && !CompletedRun(run, complete);
    }
  }
}

# Pseudocode agent: the `/api/agent` route and the page that calls it

The system is a small Next.js application. A page (`PseudocodeAgent`) collects some
text, a target language, an optional image and a task: code, pseudocode or flowchart.
It posts them as a multipart form to the `/api/agent` route.

The route handles the request in order:

- it refuses anything but POST;
- it parses the form;
- it runs OCR on the first image, if one was sent, and appends the recognised text;
- it builds one prompt, asks a chat-completion service for an answer, and replies with
  the trimmed answer.

The page shows the route's `result` if it is non-empty. Otherwise it shows a fixed
reassuring message. In accessibility mode it also speaks what it shows. The result is
rendered as a flowchart or as preformatted text.

The model is in five modules.

- `JsStrings` (`js_strings.dfy`) holds the JavaScript string behaviour the code relies on:
  - `undefined` inside a template literal;
  - the falsy empty string behind `a || b`;
  - `String.prototype.trim`, over the exact ECMAScript WhiteSpace and LineTerminator
    code points.

  It proves that trim cuts off the only possible whitespace prefix and suffix, and
  that it is idempotent.
- `AgentApi` (`agent_api.dfy`) is the route.
  - `Handle` is the route as a function. It takes the request (method and parse
    outcome) and the OCR and completion services as function parameters. It returns
    the foreign calls made, in order, and the outcome: one reply, or no response at all.
  - `Handler` is the same route written step by step. It extends `input` in place and
    writes to an `ApiResponse` object with `status`, `json` and `end`. It is proved to
    make the calls `Handle` records and to send exactly the reply `Handle` gives.
  - `EffectiveLanguage` states the language default: the field, or `python`.
- `AgentApiFacts` (`agent_api_facts.dfy`) states the route's promises as lemmas over `Handle`:
  - the method gate and the parse-error reply;
  - the effective input with and without an image;
  - the exact prompt layout and the choice of directive;
  - the reply to each kind of completion;
  - the order of the foreign calls;
  - exactly when a response is written.
- `PseudocodeAgent` (`pseudocode_agent.dfy`) is the page's run.
  - The form is built by successive appends to a `FormData` object.
  - What a run shows and speaks is a function of the fetch outcome.
  - The render branch is a function of the result and the task.
- `EndToEnd` (`end_to_end.dfy`) joins the two sides.
  - The route reads back exactly the fields the page posted.
  - For each way the route can end, the lemmas state what the page finally shows. For
    example, a whitespace-only completion is trimmed to `""` by the route and then
    shown as the page's fallback. A 500 from the route is shown verbatim, because the
    page never reads the status.

Three behaviours of the code are worth knowing, because the page's own fallback text
does not cover them.

- A failed completion is answered with status 500 and the route's own message
  (`src/pages/api/agent.ts:49`), not with status 200. That message differs from the
  page's fallback text, and the page shows it verbatim.
- An OCR failure is not caught: the call at `src/pages/api/agent.ts:23` lies outside the
  `try` that starts at line 40. The route then writes no response at all
  (`ResponseUnlessOcrFails`), and the page's request never completes.
- An `image` field that parses to an empty array hands `undefined` to OCR. OCR is still
  started, then fails before the `try`, so this case also gets no response.

## Model

| member | source | states |
|---|---|---|
| JsStrings.Trim | src/pages/api/agent.ts:47 | the trimmed text starts and ends with a non-whitespace character, or is empty |
| JsStrings.TrimIsCut | src/pages/api/agent.ts:47 | the input is a whitespace prefix, then the trimmed text, then a whitespace suffix |
| JsStrings.TrimUnique | src/pages/api/agent.ts:47 | any cut of the input into whitespace, a part without edge whitespace, and whitespace has the trimmed text as that part |
| JsStrings.TrimClean | src/pages/api/agent.ts:47 | a string without edge whitespace is left unchanged by trim |
| JsStrings.TrimIdempotent | src/pages/api/agent.ts:47 | trimming twice gives the same as trimming once |
| JsStrings.TrimEmptyIff | src/pages/api/agent.ts:47 | trim gives the empty string exactly when the input is only whitespace |
| JsStrings.TrimPadded | src/pages/api/agent.ts:47 | trim removes exactly the whitespace padding around a body without edge whitespace |
| JsStrings.TemplateText | src/pages/api/agent.ts:18-31 | no contract of its own: a present field prints as itself and a missing one as `undefined`; `AgentApiFacts.InputWithoutImage` states what the prompt then carries |
| JsStrings.Or | src/pages/api/agent.ts:20 | JavaScript's or-default on a string: a non-empty string is kept, an empty or missing one gives the fallback, and a non-empty fallback never gives `""` |
| AgentApi.EffectiveLanguage | src/pages/api/agent.ts:20 | the language is never empty: the field when it is a non-empty string, else `python` |
| AgentApi.FirstImage | src/pages/api/agent.ts:22 | no contract of its own: the single file, or the first of several; `AgentApiFacts.OnlyFirstImage` and `AgentApiFacts.ResponseUnlessOcrFails` state its effect |
| AgentApi.WithOcr | src/pages/api/agent.ts:24-27 | no contract of its own; `AgentApiFacts.OcrLayout` states that the typed-in text, the separator and the recognised text lie intact in that order |
| AgentApi.Directive | src/pages/api/agent.ts:33-38 | no contract of its own; `AgentApiFacts.DirectiveChoice` and `AgentApiFacts.DirectivesDistinct` state which task value selects which directive and that directives tell kinds and languages apart |
| AgentApi.ComposePrompt | src/pages/api/agent.ts:29-39 | no contract of its own; `AgentApiFacts.PromptLayout` and the two injectivity lemmas state the layout and that input and directive can be read back |
| AgentApi.CompletionReply | src/pages/api/agent.ts:46-49 | a failed completion gives the fixed 500; a completed one gives 200 with a JSON result that has no edge whitespace |
| AgentApi.Finish | src/pages/api/agent.ts:29-50 | once the prompt is built, exactly one completion call with that prompt is appended to the calls and a reply is always written |
| AgentApi.Handle | src/pages/api/agent.ts:13-52 | no contract of its own: the route as a function; `AgentApiFacts.RunCases`, `CallsInOrder`, `ResponseUnlessOcrFails`, `MethodGate` and `ParseErrorGate` state its behaviour |
| AgentApi.HandleForm | src/pages/api/agent.ts:18-51 | no contract of its own: the parse callback once the form has parsed; `AgentApiFacts.FormRunCases` states that it stops at OCR or answers from its one completion |
| AgentApi.ApiResponse.constructor | src/pages/api/agent.ts:13 | a fresh response has status 200 and has sent nothing |
| AgentApi.ApiResponse.Status | src/pages/api/agent.ts:14 | sets the status and sends nothing |
| AgentApi.ApiResponse.Json | src/pages/api/agent.ts:47 | sends one JSON `result` body with the current status, keeping the status |
| AgentApi.ApiResponse.End | src/pages/api/agent.ts:14 | sends one plain-text body with the current status, keeping the status |
| AgentApi.Handler | src/pages/api/agent.ts:13-52 | the step-by-step route makes the foreign calls of `Handle` in the same order, sends exactly `Handle`'s reply (or nothing when `Handle` gives no response), and leaves the response status at that reply's status, or unchanged when nothing is sent |
| AgentApiFacts.MethodGate | src/pages/api/agent.ts:14 | a method other than POST gets 405 `Method Not Allowed` as plain text, with no parse, OCR or completion; a POST always parses the form first |
| AgentApiFacts.ParseErrorGate | src/pages/api/agent.ts:16-17 | a form that fails to parse gets 500 `Parsing form error`, and neither OCR nor the completion runs |
| AgentApiFacts.DirectiveChoice | src/pages/api/agent.ts:33-38 | only the exact task strings `flowchart` and `pseudocode` select their directives; every other value, including a missing task, asks for code in the language |
| AgentApiFacts.DirectivesDistinct | src/pages/api/agent.ts:33-38 | two directives are equal exactly when they are for the same kind of task and, for code, the same language |
| AgentApiFacts.OcrLayout | src/pages/api/agent.ts:24-27 | the OCR input is the typed-in text, the `\n\nOCR:\n` separator and the recognised text, each intact and in that order |
| AgentApiFacts.PromptLayout | src/pages/api/agent.ts:29-39 | the prompt is the fixed head, the input verbatim, the fixed middle, the directive and the fixed tail, each at its position |
| AgentApiFacts.PromptInputInjective | src/pages/api/agent.ts:29-39 | with the same directive, different inputs give different prompts |
| AgentApiFacts.PromptDirectiveInjective | src/pages/api/agent.ts:29-39 | with the same input, different directives give different prompts |
| AgentApiFacts.InputWithoutImage | src/pages/api/agent.ts:18-39 | without an image there is no OCR call, and the one completion gets the prompt built from the raw `input` field (`undefined` when it is missing) |
| AgentApiFacts.InputWithImage | src/pages/api/agent.ts:21-39 | with an image, OCR reads the first file once, and the completion gets the prompt built from `input` plus the separator plus the recognised text |
| AgentApiFacts.OnlyFirstImage | src/pages/api/agent.ts:22 | sending several images behaves exactly like sending only the first |
| AgentApiFacts.NoResultIsTrimmed | src/pages/api/agent.ts:46-47 | trimming `No result.` leaves it unchanged |
| AgentApiFacts.EmptyCompletionReply | src/pages/api/agent.ts:46-47 | an empty or missing completion gets 200 with exactly `No result.` |
| AgentApiFacts.WhitespaceCompletionReply | src/pages/api/agent.ts:46-47 | a non-empty completion gets 200, with an empty result exactly when the content is only whitespace |
| AgentApiFacts.CleanCompletionReply | src/pages/api/agent.ts:47 | a completion without edge whitespace is returned exactly as generated |
| AgentApiFacts.FormRunCases | src/pages/api/agent.ts:18-51 | once the form has parsed, the run either stops at OCR with no response or makes one completion call and answers with its reply |
| AgentApiFacts.RunCases | src/pages/api/agent.ts:13-52 | every run is the 405, the parse-error 500, a run stopped at OCR with no response, or a run answered with the reply to its one completion |
| AgentApiFacts.AnswerIsCompletionReply | src/pages/api/agent.ts:40-50 | whenever the completion is called, the route's answer is the reply to that completion's outcome |
| AgentApiFacts.CallsInOrder | src/pages/api/agent.ts:13-52 | at most three foreign calls: the parse first and only once, OCR only second, the completion only last |
| AgentApiFacts.ResponseUnlessOcrFails | src/pages/api/agent.ts:21-50 | no response is written exactly when an image was sent and OCR fails or gets no file; every other request gets one reply |
| AgentApiFacts.EarlyAnswers | src/pages/api/agent.ts:14-17 | a reply written without a completion call is the 405 or the parse-error 500 |
| PseudocodeAgent.FormData.constructor | src/components/PseudocodeAgent.tsx:26 | a new form has no entries |
| PseudocodeAgent.FormData.Append | src/components/PseudocodeAgent.tsx:27-30 | appending adds exactly one entry at the end |
| PseudocodeAgent.FormEntries | src/components/PseudocodeAgent.tsx:26-30 | no contract of its own; `PseudocodeAgent.FormCarriesFields` states which fields it carries and how often |
| PseudocodeAgent.BuildForm | src/components/PseudocodeAgent.tsx:26-30 | the built form holds `input`, `language` and `task` with the page's values, then `image` when a file is selected |
| PseudocodeAgent.FormCarriesFields | src/components/PseudocodeAgent.tsx:26-30 | the posted form carries `input`, `language` and `task` exactly once each, and `image` once exactly when a file is selected |
| PseudocodeAgent.ResultField | src/components/PseudocodeAgent.tsx:32-34 | no contract of its own: `data.result`, or nothing when the fetch or JSON parse fails; `PseudocodeAgent.ShowsResult` and `ShowsFallback` state its effect |
| PseudocodeAgent.RunAgentEffect | src/components/PseudocodeAgent.tsx:32-43 | what is shown is never empty and is either the server's `result` or the fallback; in accessibility mode exactly that text is spoken, and otherwise nothing |
| PseudocodeAgent.ShowsResult | src/components/PseudocodeAgent.tsx:32-36 | a non-empty `result` is shown exactly, whatever the HTTP status |
| PseudocodeAgent.ShowsFallback | src/components/PseudocodeAgent.tsx:32-43 | a failed fetch, a body that is not JSON, or a missing or empty `result` shows the fixed fallback |
| PseudocodeAgent.StatusIgnored | src/components/PseudocodeAgent.tsx:32-35 | the HTTP status never changes what is shown or spoken |
| PseudocodeAgent.Render | src/components/PseudocodeAgent.tsx:108-115 | nothing renders for an empty result; a flowchart task sends the result to the diagram renderer; any other task shows it as text, unchanged |
| PseudocodeAgent.RunAlwaysRenders | src/components/PseudocodeAgent.tsx:34-43 | after a run the result area is never empty |
| EndToEnd.ReceivedForm | src/components/PseudocodeAgent.tsx:26-30 | the route parses the page's form into exactly the three text fields with the page's values, and the image exactly when a file is selected |
| EndToEnd.PromptForRun | src/pages/api/agent.ts:18-47 | a run without a file makes no OCR call, sends the page's text with the directive for its task and language (`python` for an empty language), and is answered with the reply to that completion |
| EndToEnd.PromptForRunWithImage | src/pages/api/agent.ts:21-39 | a run with a file has that file read by OCR once, then sends the page's text with the recognised text appended |
| EndToEnd.OcrFailureLeavesRunPending | src/pages/api/agent.ts:23 | a run whose OCR fails never gets an answer, so the page's fetch never settles |
| EndToEnd.CompletedRunAnswer | src/pages/api/agent.ts:40-50 | any run, with or without a file, whose last call is the completion is answered with the reply to that completion's outcome |
| EndToEnd.AnsweredRunShowsText | src/components/PseudocodeAgent.tsx:32-43 | the page gets an answer exactly when the route writes one, and then shows the route's non-empty `result` or, failing that, the fallback |
| EndToEnd.WhitespaceCompletionShowsFallback | src/pages/api/agent.ts:46-47 | a run, with or without a file, whose completion returns only whitespace has it trimmed to nothing by the route and shows the page's fallback |
| EndToEnd.EmptyCompletionShowsNoResult | src/pages/api/agent.ts:46 | a run, with or without a file, whose completion is empty or missing shows `No result.` |
| EndToEnd.CompletionFailureShownVerbatim | src/pages/api/agent.ts:48-49 | a run, with or without a file, whose completion fails shows the route's own message, which is not the page's fallback |
| EndToEnd.ParseErrorShownVerbatim | src/pages/api/agent.ts:17 | the parse-error 500 is shown on the page as `Parsing form error` |
| EndToEnd.MethodNotAllowedShowsFallback | src/pages/api/agent.ts:14 | the plain-text 405 body is not JSON, so the page would show its fallback |

## Left out

- OCR internals (`src/pages/api/agent.ts:7-12`): creating the Tesseract worker, recognition and termination are a foreign library. OCR is a function from the uploaded file to `OcrOk(text)` or `OcrErr`.
- The chat-completion client (`src/pages/api/agent.ts:6`, `41-45`): the API key, the model name and the temperature are opaque. The call is a function from the prompt to the first choice's content, or a failure.
- Form parsing (`src/pages/api/agent.ts:15-16`): the parser is a foreign library, and its result is part of the request. Text fields are single strings, as the casts in the route assume. Multi-valued text fields are not modelled. On the page-to-route path, a later entry under the same name wins.
- The asynchronous structure: the unhandled rejection after an OCR failure is modelled only as "no response". On the page, a fetch that never settles is `None`, and the fetch's own timeout or abort behaviour is not modelled.
- React state and batching: a run reads the task as an explicit argument. The stale `task` seen when a button calls `setTask` and then `handleRunAgent` in the same tick (`src/components/PseudocodeAgent.tsx:103-105`) is not modelled.
- Speech synthesis and dictation (`src/components/PseudocodeAgent.tsx:15-18`, `47-60`): a run records the text it asks to speak. It does not model speech throwing, which would replace the shown result with the fallback.
- JSON bodies whose `result` is not a string (the route only ever sends strings), and the plain-text 405 body, which is treated as failing to parse as JSON.
- EndToEnd.Submit: the page's own form always parses. A parser failure on that form (a size limit, say) gets the same 500 as any other parse error, which `AgentApiFacts.ParseErrorGate` and `EndToEnd.ParseErrorShownVerbatim` state.
- Mermaid rendering, the presentational components, the layout and their `Math.random` identifiers are browser or library glue.
- Trim: Unicode general category Zs is written out as a fixed list of code points, as of Unicode 15.

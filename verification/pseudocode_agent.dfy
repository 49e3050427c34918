/**
 * The slice of the `PseudocodeAgent` page that decides what is sent and what
 * is shown: the form a run posts, the text a run displays (and speaks, in
 * accessibility mode), and which view renders that text.
 */
module PseudocodeAgent {
  import opened JsStrings

  const Fallback := "Something went wrong. You are safe. This is not your fault. Please try again."

  /** The three tasks the page can ask for. */
  datatype Task = Code | Pseudocode | Flowchart

  function TaskName(t: Task): string {
    match t
    case Code => "code"
    case Pseudocode => "pseudocode"
    case Flowchart => "flowchart"
  }

  /** A file picked in the browser. */
  datatype LocalFile = LocalFile(name: string)

  /** The page state a run reads; `task` is the value the run sees. */
  datatype UiState = UiState(input: string, language: string, file: Option<LocalFile>, task: Task,
                             accessibilityMode: bool)

  datatype FormValue = TextValue(text: string) | FileValue(file: LocalFile)
  datatype Entry = Entry(name: string, value: FormValue)

  /** A multipart form under construction: entries in the order they were appended. */
  class FormData {
    var entries: seq<Entry>

    constructor ()
      ensures entries == []
    {
      entries := [];
    }

    method Append(name: string, value: FormValue)
      modifies this
      ensures entries == old(entries) + [Entry(name, value)]
    {
      entries := entries + [Entry(name, value)];
    }
  }

  /** The entries a run posts: the three text fields, then the image when a file is selected. */
  function FormEntries(s: UiState): seq<Entry> {
    [Entry("input", TextValue(s.input)), Entry("language", TextValue(s.language)),
     Entry("task", TextValue(TaskName(s.task)))]
    + (if s.file.Some? then [Entry("image", FileValue(s.file.value))] else [])
  }

  /** The form a run builds by successive appends. */
  method BuildForm(s: UiState) returns (form: FormData)
    ensures fresh(form)
    ensures form.entries == FormEntries(s)
  {
    form := new FormData();
    form.Append("input", TextValue(s.input));
    form.Append("language", TextValue(s.language));
    form.Append("task", TextValue(TaskName(s.task)));
    if s.file.Some? {
      form.Append("image", FileValue(s.file.value));
    }
  }

  /** The values one entry posts under `name`. */
  function Posted(e: Entry, name: string): seq<FormValue> {
    if e.name == name then [e.value] else []
  }

  /** Every value posted under `name`, in order. */
  function ValuesOf(entries: seq<Entry>, name: string): (vs: seq<FormValue>)
    ensures |vs| <= |entries|
  {
    if entries == [] then []
    else Posted(entries[0], name) + ValuesOf(entries[1..], name)
  }

  /** The values under a name in two lists of entries, one after the other. */
  lemma {:induction false} ValuesOfAppend(a: seq<Entry>, b: seq<Entry>, name: string)
    ensures ValuesOf(a + b, name) == ValuesOf(a, name) + ValuesOf(b, name)
  {
    if a == [] {
      assert a + b == b;
    } else {
      var ab := a + b;
      assert ab[0] == a[0] && ab[1..] == a[1..] + b;
      ValuesOfAppend(a[1..], b, name);
    }
  }

  /** The values of a single entry. */
  lemma ValuesOfOne(e: Entry, name: string)
    ensures ValuesOf([e], name) == Posted(e, name)
  {
    assert [e][1..] == [];
  }

  /**
   * The posted form carries `input`, `language` and `task` once each, with the
   * page's values, and `image` once exactly when a file is selected.
   */
  lemma FormCarriesFields(s: UiState)
    ensures ValuesOf(FormEntries(s), "input") == [TextValue(s.input)]
    ensures ValuesOf(FormEntries(s), "language") == [TextValue(s.language)]
    ensures ValuesOf(FormEntries(s), "task") == [TextValue(TaskName(s.task))]
    ensures ValuesOf(FormEntries(s), "image") == if s.file.Some? then [FileValue(s.file.value)] else []
  {
    FieldValues(s, "input");
    FieldValues(s, "language");
    FieldValues(s, "task");
    FieldValues(s, "image");
  }

  /** The values under one name, entry by entry. */
  lemma FieldValues(s: UiState, name: string)
    ensures var e := FormEntries(s);
            ValuesOf(e, name) == Posted(e[0], name) + Posted(e[1], name) + Posted(e[2], name)
                                 + (if s.file.Some? then Posted(e[3], name) else [])
  {
    var e := FormEntries(s);
    var tail := e[3..];
    assert e == [e[0]] + [e[1]] + [e[2]] + tail;
    ValuesOfAppend([e[0]] + [e[1]] + [e[2]], tail, name);
    ValuesOfAppend([e[0]] + [e[1]], [e[2]], name);
    ValuesOfAppend([e[0]], [e[1]], name);
    ValuesOfOne(e[0], name);
    ValuesOfOne(e[1], name);
    ValuesOfOne(e[2], name);
    if s.file.Some? {
      assert tail == [e[3]];
      ValuesOfOne(e[3], name);
    }
  }

  /** What `res.json()` gives: a failure to parse, or an object whose `result` is a string or absent. */
  datatype JsonReply = NotJson | JsonObject(result: Option<string>)

  /** The fetch either throws (network failure) or yields a status and a body. */
  datatype FetchOutcome = NetworkError | Fetched(status: int, json: JsonReply)

  /** `data.result` when fetching and parsing succeed; `None` where either throws. The status is not read. */
  function ResultField(o: FetchOutcome): Option<string> {
    match o
    case Fetched(_, JsonObject(r)) => r
    case _ => None
  }

  /** What a run leaves on the page: the displayed result and the text sent to speech, if any. */
  datatype RunEffect = RunEffect(shown: string, spoken: Option<string>)

  /**
   * A run shows the server's `result` when it is a non-empty string and the
   * fixed fallback otherwise; in accessibility mode it speaks exactly what
   * it shows, and otherwise nothing.
   */
  function RunAgentEffect(o: FetchOutcome, accessibilityMode: bool): (e: RunEffect)
    ensures e.shown != ""
    ensures e.shown == Fallback || Some(e.shown) == ResultField(o)
    ensures accessibilityMode ==> e.spoken == Some(e.shown)
    ensures !accessibilityMode ==> e.spoken == None
  {
    var shown := Or(ResultField(o), Fallback);
    RunEffect(shown, if accessibilityMode then Some(shown) else None)
  }

  /** A non-empty `result` is shown exactly, whatever the HTTP status. */
  lemma ShowsResult(status: int, result: string, accessibilityMode: bool)
    requires result != ""
    ensures RunAgentEffect(Fetched(status, JsonObject(Some(result))), accessibilityMode).shown == result
  {
  }

  /** A missing or empty `result`, a body that is not JSON, or a failed fetch all show the fallback. */
  lemma ShowsFallback(o: FetchOutcome, accessibilityMode: bool)
    requires o.NetworkError? || o.json.NotJson? || o.json.result.None? || o.json.result.value == ""
    ensures RunAgentEffect(o, accessibilityMode).shown == Fallback
  {
  }

  /** The HTTP status never changes what a run shows or speaks. */
  lemma StatusIgnored(s1: int, s2: int, json: JsonReply, accessibilityMode: bool)
    ensures RunAgentEffect(Fetched(s1, json), accessibilityMode) == RunAgentEffect(Fetched(s2, json), accessibilityMode)
  {
  }

  /** The result area: nothing, the flowchart renderer, or preformatted text. */
  datatype View = Hidden | Diagram(code: string) | Preformatted(text: string)

  /**
   * The result area shows nothing for an empty result; otherwise a flowchart
   * task hands the result to the diagram renderer and every other task shows
   * it as plain text, unchanged either way.
   */
  function Render(result: string, task: Task): (v: View)
    ensures v.Hidden? <==> result == ""
    ensures v.Diagram? <==> result != "" && task == Flowchart
    ensures v.Diagram? ==> v.code == result
    ensures v.Preformatted? ==> v.text == result
  {
    if result == "" then Hidden
    else if task == Flowchart then Diagram(result)
    else Preformatted(result)
  }

  /** After a run the result area is never empty. */
  lemma RunAlwaysRenders(o: FetchOutcome, accessibilityMode: bool, task: Task)
    ensures !Render(RunAgentEffect(o, accessibilityMode).shown, task).Hidden?
  {
  }
}

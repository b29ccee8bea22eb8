/** The pieces of a chat turn that meta_frontend.py and meta_frontend_patched.py share:
    normalising the model's `content`, finding a tool call in the content text, the
    fan-out from a `listDir` result to one reader call per recognised file, and the
    texts of the assistant turn. */
module ChatCommon {
  import opened Wrappers
  import opened Text
  import opened JsonValue
  import opened JsonRpc
  import opened Transcript

  const ApiUrl: string := "https://api.llama.com/v1/chat/completions"
  const McpUrl: string := "http://localhost:8090/mcp"

  /** How a turn ended, as the page shows it: the script ran to `st.rerun()`, stopped at
      `st.stop()`, or an `except` clause displayed the error message. */
  datatype Report = Completed | Stopped | Failed(message: string)

  /** The message of the outer `except` clause that catches an inference failure. */
  function InferenceErrorText(e: PyError): string {
    match e
    case HttpError(t) => "HTTP Error Occurred: " + t
    case RequestError(t) => "API Request Error: " + t
    case Raised(t) => Unexpected(t)
  }

  function Unexpected(t: string): string {
    "An unexpected error occurred: " + t
  }

  // ---------------------------------------------------------------- content

  /** `content_text`: a dict gives its `"text"` (default "") stripped, a string is
      stripped, anything else is `str(...)`; a dict whose `"text"` is not a string
      raises the AttributeError of `.strip()`. */
  function NormaliseContent(codec: Codec, content: Json): (r: Result<string, string>)
    ensures content.JStr? ==> r == Success(PyStrip(content.s))
    ensures content.JObj? && !HasKey(content.fields, "text") ==> r == Success("")
    ensures content.JObj? && Lookup(content.fields, "text").Some? && Lookup(content.fields, "text").value.JStr? ==>
              r == Success(PyStrip(Lookup(content.fields, "text").value.s))
    ensures r.Failure? <==> content.JObj? && Lookup(content.fields, "text").Some? && !Lookup(content.fields, "text").value.JStr?
    ensures !content.JObj? && !content.JStr? ==> r == Success(PyStr(codec, content))
    ensures r.Success? && (content.JObj? || content.JStr?) ==> Trimmed(r.value, IsPySpace)
  {
    match content
    case JObj(fields) =>
      var text := Lookup(fields, "text").GetOr(JStr(""));
      if text.JStr? then Success(PyStrip(text.s)) else Failure(NoAttribute(text, "strip"))
    case JStr(s) => Success(PyStrip(s))
    case _ => Success(PyStr(codec, content))
  }

  /** The content of the plain-text answer: the normalised text for a dict or a string,
      the placeholder for anything else. */
  function PlainContent(content: Json, contentText: string): (r: string)
    ensures !content.JObj? && !content.JStr? ==> r == "[Unrecognized content type]"
    ensures content.JObj? || content.JStr? ==> r == contentText
  {
    if content.JObj? || content.JStr? then contentText else "[Unrecognized content type]"
  }

  // ---------------------------------------------------------------- finding the tool call

  /** The second source of a tool call: the content text parsed as JSON, if that gives a
      dict with a `"tool_call"` key. A parse failure is swallowed and counts as "none". */
  function JsonToolCall(codec: Codec, contentText: string): (r: Json)
    ensures Truthy(r) ==> codec.loads(contentText).Success? && codec.loads(contentText).value.JObj?
                          && Lookup(codec.loads(contentText).value.fields, "tool_call") == Some(r)
    ensures codec.loads(contentText).Failure? ==> r == JNull
    ensures codec.loads(contentText).Success? && !codec.loads(contentText).value.JObj? ==> r == JNull
    ensures codec.loads(contentText).Success? && codec.loads(contentText).value.JObj? ==>
              r == Lookup(codec.loads(contentText).value.fields, "tool_call").GetOr(JNull)
  {
    match codec.loads(contentText)
    case Success(JObj(fields)) => Lookup(fields, "tool_call").GetOr(JNull)
    case _ => JNull
  }

  /** The structured `tool_call` field wins; only when it is falsy is the content text
      consulted. */
  function FirstToolCall(structured: Json, codec: Codec, contentText: string): (r: Json)
    ensures Truthy(structured) ==> r == structured
    ensures !Truthy(structured) ==> r == JsonToolCall(codec, contentText)
  {
    if Truthy(structured) then structured else JsonToolCall(codec, contentText)
  }

  // ---------------------------------------------------------------- listDir fan-out

  const Downloads: string := "/Users/ethancheung/Downloads/"

  /** The reader tool for a file name: `.pdf`, `.docx`, `.xlsx` and `.txt` matched as
      written, `.png`, `.jpg` and `.jpeg` matched on the lower-cased name; None means
      the file is skipped. */
  function ReaderFor(filename: string): (r: Option<string>)
    ensures EndsWith(filename, ".pdf") ==> r == Some("readPDF")
    ensures r.None? <==> !EndsWith(filename, ".pdf") && !EndsWith(filename, ".docx") && !EndsWith(filename, ".xlsx")
                         && !EndsWith(filename, ".txt") && !ImageName(filename)
    ensures r.Some? ==> r.value in {"readPDF", "readDocx", "readExcel", "readTextFile", "readImageText"}
  {
    if EndsWith(filename, ".pdf") then Some("readPDF")
    else if EndsWith(filename, ".docx") then Some("readDocx")
    else if EndsWith(filename, ".xlsx") then Some("readExcel")
    else if EndsWith(filename, ".txt") then Some("readTextFile")
    else if ImageName(filename) then Some("readImageText")
    else None
  }

  /** The suffixes are tried in the source's order, so the first that matches decides. */
  lemma ReaderForSuffixes(filename: string)
    ensures EndsWith(filename, ".pdf") ==> ReaderFor(filename) == Some("readPDF")
    ensures !EndsWith(filename, ".pdf") && EndsWith(filename, ".docx") ==> ReaderFor(filename) == Some("readDocx")
    ensures (!EndsWith(filename, ".pdf") && !EndsWith(filename, ".docx") && EndsWith(filename, ".xlsx")) ==> ReaderFor(filename) == Some("readExcel")
    ensures (!EndsWith(filename, ".pdf") && !EndsWith(filename, ".docx") && !EndsWith(filename, ".xlsx")
             && EndsWith(filename, ".txt")) ==> ReaderFor(filename) == Some("readTextFile")
    ensures (!EndsWith(filename, ".pdf") && !EndsWith(filename, ".docx") && !EndsWith(filename, ".xlsx")
             && !EndsWith(filename, ".txt") && ImageName(filename)) ==> ReaderFor(filename) == Some("readImageText")
  {
  }

  /** `filename.lower().endswith(('.png', '.jpg', '.jpeg'))`. */
  predicate ImageName(filename: string) {
    var l := Lower(filename);
    EndsWith(l, ".png") || EndsWith(l, ".jpg") || EndsWith(l, ".jpeg")
  }

  /** `{"tool_call": {"name": tool, "arguments": {"path": path}}}`. */
  function FollowUp(tool: string, filename: string): Json {
    Obj1("tool_call", JObj([Field("name", JStr(tool)), Field("arguments", Obj1("path", JStr(Downloads + filename)))]))
  }

  /** `file_tool_calls` for the items of a `listDir` result, in order; an item that is not a
      string raises the AttributeError of `.endswith`. */
  function PlanFollowUps(items: seq<Json>): (r: Result<seq<Json>, string>)
    ensures r.Success? ==> |r.value| <= |items|
  {
    if items == [] then Success([])
    else if !items[0].JStr? then Failure(NoAttribute(items[0], "endswith"))
    else
      var rest :- PlanFollowUps(items[1..]);
      match ReaderFor(items[0].s)
      case Some(tool) => Success([FollowUp(tool, items[0].s)] + rest)
      case None => Success(rest)
  }

  /** `calls` put in front of a successful plan. */
  function Prepend(calls: seq<Json>, r: Result<seq<Json>, string>): Result<seq<Json>, string> {
    match r
    case Success(more) => Success(calls + more)
    case Failure(e) => Failure(e)
  }

  /** The loop over `tool_result` that fills `file_tool_calls`. */
  method PlanFileToolCalls(items: seq<Json>) returns (r: Result<seq<Json>, string>)
    ensures r == PlanFollowUps(items)
  {
    var calls: seq<Json> := [];
    var i := 0;
    assert items[0..] == items;
    PrependEmpty(PlanFollowUps(items));
    while i < |items|
      invariant 0 <= i <= |items|
      invariant PlanFollowUps(items) == Prepend(calls, PlanFollowUps(items[i..]))
    {
      var filename := items[i];
      var rest := items[i..];
      assert rest[0] == filename && rest[1..] == items[i + 1..];
      if !filename.JStr? {
        assert PlanFollowUps(rest) == Failure(NoAttribute(filename, "endswith"));
        return Failure(NoAttribute(filename, "endswith"));
      }
      var tool := ReaderFor(filename.s);
      if tool.Some? {
        PrependOne(calls, FollowUp(tool.value, filename.s), PlanFollowUps(items[i + 1..]));
        calls := calls + [FollowUp(tool.value, filename.s)];
      }
      i := i + 1;
    }
    assert items[i..] == [];
    assert calls + [] == calls;
    r := Success(calls);
  }

  lemma PrependEmpty(r: Result<seq<Json>, string>)
    ensures Prepend([], r) == r
  {
    if r.Success? {
      assert [] + r.value == r.value;
    }
  }

  lemma PrependOne(calls: seq<Json>, c: Json, r: Result<seq<Json>, string>)
    ensures Prepend(calls, Prepend([c], r)) == Prepend(calls + [c], r)
  {
    if r.Success? {
      assert calls + ([c] + r.value) == (calls + [c]) + r.value;
    }
  }

  /** The names of the items that get a reader call. */
  function Recognised(items: seq<Json>): (names: seq<string>)
    ensures forall k :: 0 <= k < |names| ==> ReaderFor(names[k]).Some?
  {
    if items == [] then []
    else if items[0].JStr? && ReaderFor(items[0].s).Some? then [items[0].s] + Recognised(items[1..])
    else Recognised(items[1..])
  }

  /** The plan succeeds exactly when every item is a string, and then holds one call per
      recognised file, in file order, each naming that file's reader and its path under
      the downloads folder. */
  lemma {:induction false} PlanFollowUpsSpec(items: seq<Json>)
    ensures PlanFollowUps(items).Success? <==> forall i :: 0 <= i < |items| ==> items[i].JStr?
    ensures PlanFollowUps(items).Success? ==>
              var calls := PlanFollowUps(items).value;
              var names := Recognised(items);
              |calls| == |names|
              && forall j :: 0 <= j < |calls| ==> calls[j] == FollowUp(ReaderFor(names[j]).value, names[j])
  {
    PlanSucceedsIff(items);
    if PlanFollowUps(items).Success? {
      PlanCalls(items);
    }
  }

  lemma {:induction false} PlanSucceedsIff(items: seq<Json>)
    ensures PlanFollowUps(items).Success? <==> forall i :: 0 <= i < |items| ==> items[i].JStr?
  {
    if items != [] {
      var rest := items[1..];
      PlanSucceedsIff(rest);
      assert forall i :: 1 <= i < |items| ==> items[i] == rest[i - 1];
    }
  }

  lemma {:induction false} PlanCalls(items: seq<Json>)
    requires PlanFollowUps(items).Success?
    ensures var calls := PlanFollowUps(items).value;
            var names := Recognised(items);
            |calls| == |names|
            && forall j :: 0 <= j < |calls| ==> calls[j] == FollowUp(ReaderFor(names[j]).value, names[j])
  {
    if items != [] {
      var rest := items[1..];
      PlanCalls(rest);
      var name := items[0].s;
      var more := PlanFollowUps(rest).value;
      if ReaderFor(name).Some? {
        var c := FollowUp(ReaderFor(name).value, name);
        assert PlanFollowUps(items).value == [c] + more;
        assert Recognised(items) == [name] + Recognised(rest);
      } else {
        assert PlanFollowUps(items).value == more;
        assert Recognised(items) == Recognised(rest);
      }
    }
  }

  /** The plan fails at the first item that is not a string, with that item's error. */
  lemma {:induction false} PlanFailsAt(items: seq<Json>, i: nat)
    requires i < |items| && !items[i].JStr? && forall k :: 0 <= k < i ==> items[k].JStr?
    ensures PlanFollowUps(items) == Failure(NoAttribute(items[i], "endswith"))
  {
    if i > 0 {
      var rest := items[1..];
      assert forall k :: 0 <= k < i - 1 ==> rest[k] == items[k + 1];
      PlanFailsAt(rest, i - 1);
    }
  }

  /** One step of the plan: a string item contributes its reader call, if any, in front
      of the plan for the rest. */
  lemma PlanFollowUpsCons(name: string, rest: seq<Json>)
    ensures PlanFollowUps([JStr(name)] + rest)
            == Prepend(if ReaderFor(name).Some? then [FollowUp(ReaderFor(name).value, name)] else [], PlanFollowUps(rest))
  {
    assert ([JStr(name)] + rest)[1..] == rest;
    PrependEmpty(PlanFollowUps(rest));
  }

  /** Three files, of which one is skipped; the image suffix is matched in any case. */
  lemma PlanFollowUpsExample()
    ensures PlanFollowUps([JStr("a.pdf"), JStr("c.zip"), JStr("D.PNG")])
            == Success([FollowUp("readPDF", "a.pdf"), FollowUp("readImageText", "D.PNG")])
  {
    assert EndsWith("a.pdf", ".pdf");
    assert Lower("D.PNG") == "d.png";
    assert ImageName("D.PNG");
    assert !EndsWith("c.zip", ".pdf") && !EndsWith("c.zip", ".docx") && !EndsWith("c.zip", ".xlsx");
    assert Lower("c.zip") == "c.zip";
    assert !EndsWith("c.zip", ".txt") && !ImageName("c.zip");
    assert !EndsWith("D.PNG", ".pdf") && !EndsWith("D.PNG", ".docx") && !EndsWith("D.PNG", ".xlsx");
    assert !EndsWith("D.PNG", ".txt");
    var d := FollowUp("readImageText", "D.PNG");
    var a := FollowUp("readPDF", "a.pdf");
    assert ReaderFor("D.PNG") == Some("readImageText");
    assert ReaderFor("c.zip") == None;
    assert ReaderFor("a.pdf") == Some("readPDF");
    PlanFollowUpsCons("D.PNG", []);
    assert [JStr("D.PNG")] + [] == [JStr("D.PNG")];
    assert PlanFollowUps([]) == Success([]);
    assert [d] + [] == [d];
    assert PlanFollowUps([JStr("D.PNG")]) == Success([d]);
    PlanFollowUpsCons("c.zip", [JStr("D.PNG")]);
    assert PlanFollowUps([JStr("c.zip"), JStr("D.PNG")]) == Success([d]);
    PlanFollowUpsCons("a.pdf", [JStr("c.zip"), JStr("D.PNG")]);
    assert [JStr("a.pdf")] + [JStr("c.zip"), JStr("D.PNG")] == [JStr("a.pdf"), JStr("c.zip"), JStr("D.PNG")];
    assert [a] + [d] == [a, d];
  }

  /** The follow-up user turns, one `json.dumps(call)` each. */
  function FollowUpTurns(codec: Codec, calls: seq<Json>): (ts: seq<Turn>)
    ensures |ts| == |calls|
    ensures forall k :: 0 <= k < |ts| ==> ts[k] == Turn(User, JStr(codec.dumps(calls[k])), None)
  {
    seq(|calls|, k requires 0 <= k < |calls| => Turn(User, JStr(codec.dumps(calls[k])), None))
  }

  // ---------------------------------------------------------------- assistant texts

  /** "`name` result:" followed by the indented JSON of the result. */
  function ResultText(check: string, codec: Codec, name: string, result: Json): string {
    check + " `" + name + "` result:\n\n" + codec.dumpsIndented(result)
  }

  /** The `listDir` summary, ending with the number of calls planned. */
  function ListDirText(check: string, codec: Codec, name: string, result: Json, planned: nat): string {
    ResultText(check, codec, name, result) + "\n\nReady to analyze each file: " + NatToString(planned) + " tool calls planned."
  }

  function ToolErrorText(cross: string, message: string): string {
    cross + " Tool call error: " + message
  }
}

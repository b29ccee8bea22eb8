/** One chat turn of meta_frontend_patched.py. It differs from meta_frontend.py in what it
    leaves out: no repair of the tool call, no Cypher-block fallback, no direct save to
    Neo4j. The tool name is whatever `tool_call.get("name")` holds, sent unchanged as the
    JSON-RPC method, and the check mark and cross are the real U+2705 and U+274C. */
module PatchedFrontend {
  import opened Wrappers
  import opened Text
  import opened JsonValue
  import opened JsonRpc
  import opened Transcript
  import opened ChatCommon
  import opened Cypher
  import MetaFrontend

  const Check: string := "\U{2705}"
  const Cross: string := "\U{274C}"

  /** The replies of the two endpoints a turn may reach. */
  datatype Replies = Replies(inference: HttpReply, tool: HttpReply)

  /** What a turn does besides appending the user's turn: the turns appended after it, the
      request posted to the tool server, and how the run ended. */
  datatype Effect = Effect(after: seq<Turn>, toolRequest: Option<Json>, report: Report)

  /** What the model's answer asks for. */
  datatype Decision =
    | Halt                                         // empty completion message
    | Answer(text: string, stop: Json)             // a plain reply
    | CallTool(toolCall: seq<Field>, stop: Json)   // a tool call to make

  /** Lines 284-312 and 349-355: the completion message is read, and the content text is parsed for a
      tool call when there is no structured one. */
  function Decide(codec: Codec, result: Json): (r: Result<Decision, string>)
    ensures !result.JObj? ==> r == Failure(NoAttribute(result, "get"))
    ensures result.JObj? && !Truthy(Lookup(result.fields, "completion_message").GetOr(JObj([]))) ==> r == Success(Halt)
    ensures r.Success? && r.value.CallTool? ==> r.value.toolCall != []
  {
    if !result.JObj? then Failure(NoAttribute(result, "get"))
    else
      var cm := Lookup(result.fields, "completion_message").GetOr(JObj([]));
      if !Truthy(cm) then Success(Halt)
      else if !cm.JObj? then Failure(NoAttribute(cm, "get"))
      else ReadMessage(codec, cm.fields)
  }

  /** A completion message that is a non-empty dict. A tool call that is not a dict makes
      `.get` raise outside the tool's own `try`. */
  function ReadMessage(codec: Codec, cm: seq<Field>): (r: Result<Decision, string>)
    ensures r.Success? && r.value.CallTool? ==> r.value.toolCall != []
    ensures var content := Lookup(cm, "content").GetOr(JObj([]));
            NormaliseContent(codec, content).Failure? ==> r == Failure(NormaliseContent(codec, content).error)
    ensures var content := Lookup(cm, "content").GetOr(JObj([]));
            var stop := Lookup(cm, "stop_reason").GetOr(JStr("tool_or_response"));
            NormaliseContent(codec, content).Success? ==>
              var contentText := NormaliseContent(codec, content).value;
              var toolCall := FirstToolCall(Lookup(cm, "tool_call").GetOr(JNull), codec, contentText);
              (!Truthy(toolCall) ==> r == Success(Answer(PlainContent(content, contentText), stop)))
              && (Truthy(toolCall) && toolCall.JObj? ==> r == Success(CallTool(toolCall.fields, stop)))
              && (Truthy(toolCall) && !toolCall.JObj? ==> r == Failure(NoAttribute(toolCall, "get")))
  {
    var content := Lookup(cm, "content").GetOr(JObj([]));
    var structured := Lookup(cm, "tool_call").GetOr(JNull);
    var stop := Lookup(cm, "stop_reason").GetOr(JStr("tool_or_response"));
    var contentText :- NormaliseContent(codec, content);
    var toolCall := FirstToolCall(structured, codec, contentText);
    if !Truthy(toolCall) then Success(Answer(PlainContent(content, contentText), stop))
    else if !toolCall.JObj? then Failure(NoAttribute(toolCall, "get"))
    else Success(CallTool(toolCall.fields, stop))
  }

  /** What the tool branch leaves behind: the request posted, the follow-up user turns and
      the assistant text. */
  datatype ToolEnd = ToolEnd(request: Json, followUps: seq<Turn>, reply: string)

  /** `tool_call.get("name")`: any value, `None` when absent. */
  function ToolName(toolCall: seq<Field>): Json {
    Lookup(toolCall, "name").GetOr(JNull)
  }

  /** The inner `try` of lines 313-348: every exception raised by the call or by the
      `listDir` fan-out becomes the "Tool call error" text. The client is created afresh
      on every run of the script, so its one request carries id 1. */
  function ToolStep(codec: Codec, toolCall: seq<Field>, tool: HttpReply): (e: ToolEnd)
    ensures e.request == Envelope(1, ToolName(toolCall), ArgumentsOf(toolCall))
    ensures CallOutcome(codec, McpUrl, tool).Failure? ==>
              e == ToolEnd(e.request, [], ToolErrorText(Cross, ErrorText(CallOutcome(codec, McpUrl, tool).error)))
    ensures e.followUps != [] ==> ToolName(toolCall) == JStr("listDir")
    ensures forall k :: 0 <= k < |e.followUps| ==> e.followUps[k].role == User
    ensures CallOutcome(codec, McpUrl, tool).Success? ==>
              var result := CallOutcome(codec, McpUrl, tool).value;
              (!(ToolName(toolCall) == JStr("listDir") && result.JArr?) ==>
                 e == ToolEnd(e.request, [], ResultText(Check, codec, PyStr(codec, ToolName(toolCall)), result)))
              && (ToolName(toolCall) == JStr("listDir") && result.JArr? && PlanFollowUps(result.items).Failure? ==>
                    e == ToolEnd(e.request, [], ToolErrorText(Cross, PlanFollowUps(result.items).error)))
  {
    var name := ToolName(toolCall);
    var request := Envelope(1, name, ArgumentsOf(toolCall));
    match CallOutcome(codec, McpUrl, tool)
    case Failure(err) => ToolEnd(request, [], ToolErrorText(Cross, ErrorText(err)))
    case Success(result) =>
      if name == JStr("listDir") && result.JArr? then
        match PlanFollowUps(result.items)
        case Failure(t) => ToolEnd(request, [], ToolErrorText(Cross, t))
        case Success(calls) =>
          ToolEnd(request, FollowUpTurns(codec, calls), ListDirText(Check, codec, PyStr(codec, name), result, |calls|))
      else ToolEnd(request, [], ResultText(Check, codec, PyStr(codec, name), result))
  }

  /** The turn once the model's answer has been read into `decision`. */
  function DecisionEffect(codec: Codec, decision: Result<Decision, string>, tool: HttpReply): (e: Effect)
    ensures !e.report.Completed? ==> e.after == []
    ensures e.report.Completed? ==> AssistantLast(e.after)
    ensures e.toolRequest.Some? <==> decision.Success? && decision.value.CallTool?
    ensures e.toolRequest.Some? ==> IdOf(e.toolRequest.value) == Some(JNum(1)) && e.report == Completed
  {
    match decision
    case Failure(t) => Effect([], None, Failed(Unexpected(t)))
    case Success(Halt) => Effect([], None, Stopped)
    case Success(Answer(text, stop)) => Effect([AssistantTurn(text, stop)], None, Completed)
    case Success(CallTool(toolCall, stop)) =>
      var t := ToolStep(codec, toolCall, tool);
      Effect(t.followUps + [AssistantTurn(t.reply, stop)], Some(t.request), Completed)
  }

  /** The turn as a function of the replies: a run either fails or stops with nothing
      appended after the user's turn, or completes with the follow-up user turns and one
      assistant turn last; once a tool is called the run always completes. */
  function HandleTurnSpec(codec: Codec, replies: Replies): (e: Effect)
    ensures !e.report.Completed? ==> e.after == []
    ensures e.report.Completed? ==> AssistantLast(e.after)
    ensures Post(ApiUrl, replies.inference).Failure? ==>
              e == Effect([], None, Failed(InferenceErrorText(Post(ApiUrl, replies.inference).error)))
    ensures e.toolRequest.Some? ==> IdOf(e.toolRequest.value) == Some(JNum(1)) && e.report == Completed
  {
    match Post(ApiUrl, replies.inference)
    case Failure(err) => Effect([], None, Failed(InferenceErrorText(err)))
    case Success(result) => DecisionEffect(codec, Decide(codec, result), replies.tool)
  }

  /** The inner `try` run imperatively: a fresh client posts the one tool request. */
  method CallToolServer(codec: Codec, toolCall: seq<Field>, tool: HttpReply) returns (end: ToolEnd)
    ensures end == ToolStep(codec, toolCall, tool)
  {
    var name := ToolName(toolCall);
    var client := new McpHttpClient(McpUrl, codec);
    var request, outcome := client.SendRequest(name, ArgumentsOf(toolCall), tool);
    if outcome.Failure? {
      return ToolEnd(request, [], ToolErrorText(Cross, ErrorText(outcome.error)));
    }
    var result := outcome.value;
    if name == JStr("listDir") && result.JArr? {
      var planned := PlanFileToolCalls(result.items);
      if planned.Failure? {
        return ToolEnd(request, [], ToolErrorText(Cross, planned.error));
      }
      end := ToolEnd(request, FollowUpTurns(codec, planned.value), ListDirText(Check, codec, PyStr(codec, name), result, |planned.value|));
    } else {
      end := ToolEnd(request, [], ResultText(Check, codec, PyStr(codec, name), result));
    }
  }

  /** Lines 284-364 run against the history, which already holds the user's turn. */
  method Respond(conversation: Conversation, codec: Codec, decision: Result<Decision, string>, tool: HttpReply)
    returns (toolRequest: Option<Json>, report: Report)
    modifies conversation
    ensures var e := DecisionEffect(codec, decision, tool);
            conversation.turns == old(conversation.turns) + e.after && toolRequest == e.toolRequest && report == e.report
  {
    if decision.Failure? {
      return None, Failed(Unexpected(decision.error));
    }
    match decision.value
    case Halt =>
      return None, Stopped;
    case Answer(text, stop) =>
      conversation.Append(AssistantTurn(text, stop));
      return None, Completed;
    case CallTool(toolCall, stop) =>
      var end := CallToolServer(codec, toolCall, tool);
      conversation.AppendReplies(end.followUps, AssistantTurn(end.reply, stop));
      return Some(end.request), Completed;
  }

  /** The handler run against the session history: the prompt is appended, the window is
      sent, and the turns the answer produces are appended one by one, follow-ups first. */
  method HandleTurn(conversation: Conversation, codec: Codec, systemPrompt: string, prompt: string, replies: Replies)
    returns (messages: seq<Turn>, toolRequest: Option<Json>, report: Report)
    modifies conversation
    ensures messages == Outbound(systemPrompt, Window(old(conversation.turns) + [UserTurn(prompt)]))
    ensures conversation.turns == old(conversation.turns) + [UserTurn(prompt)] + HandleTurnSpec(codec, replies).after
    ensures toolRequest == HandleTurnSpec(codec, replies).toolRequest
    ensures report == HandleTurnSpec(codec, replies).report
  {
    conversation.Append(UserTurn(prompt));
    messages := Outbound(systemPrompt, Window(conversation.turns));
    var inference := Post(ApiUrl, replies.inference);
    if inference.Failure? {
      return messages, None, Failed(InferenceErrorText(inference.error));
    }
    var decision := Decide(codec, inference.value);
    toolRequest, report := Respond(conversation, codec, decision, replies.tool);
  }

  // ---------------------------------------------------------------- properties of a turn

  /** A `listDir` result made of file names yields one follow-up user turn per recognised
      file, in order, each the JSON of that file's reader call, and an assistant text that
      counts exactly those calls. */
  lemma ListDirFansOut(codec: Codec, toolCall: seq<Field>, tool: HttpReply, items: seq<Json>)
    requires ToolName(toolCall) == JStr("listDir")
    requires CallOutcome(codec, McpUrl, tool) == Success(JArr(items))
    requires forall i :: 0 <= i < |items| ==> items[i].JStr?
    ensures var e := ToolStep(codec, toolCall, tool);
            var names := Recognised(items);
            |e.followUps| == |names|
            && (forall j :: 0 <= j < |names| ==>
                  e.followUps[j] == Turn(User, JStr(codec.dumps(FollowUp(ReaderFor(names[j]).value, names[j]))), None))
            && e.reply == ListDirText(Check, codec, "listDir", JArr(items), |names|)
  {
    PlanFollowUpsSpec(items);
  }

  /** A tool call found in the content text that is not a dict is not caught by the tool's
      `try`: the run ends in the outer handler and nothing is appended after the user's
      turn. */
  lemma NonDictToolCallFails(codec: Codec, replies: Replies, text: string, call: Json)
    requires Truthy(call) && !call.JObj?
    requires codec.loads(text) == Success(Obj1("tool_call", call))
    requires replies.inference == Answered(200, "OK", Success(Obj1("completion_message", Obj1("content", JStr(text)))))
    requires Trimmed(text, IsPySpace)
    ensures HandleTurnSpec(codec, replies) == Effect([], None, Failed(Unexpected(NoAttribute(call, "get"))))
  {
    var cm := Obj1("content", JStr(text));
    var result := Obj1("completion_message", cm);
    assert Post(ApiUrl, replies.inference) == Success(result);
    ContentCallRead(codec, text, call);
    assert Lookup(result.fields, "completion_message") == Some(cm);
    assert Decide(codec, result) == Failure(NoAttribute(call, "get"));
  }

  /** The content text parses to a dict whose `tool_call` is not a dict. */
  lemma ContentCallRead(codec: Codec, text: string, call: Json)
    requires Truthy(call) && !call.JObj?
    requires codec.loads(text) == Success(Obj1("tool_call", call))
    requires Trimmed(text, IsPySpace)
    ensures ReadMessage(codec, [Field("content", JStr(text))]) == Failure(NoAttribute(call, "get"))
  {
    var cm := [Field("content", JStr(text))];
    assert Lookup(cm, "content") == Some(JStr(text));
    assert Lookup(cm, "tool_call") == None;
    assert Lookup(cm, "stop_reason") == None;
    ContentTextKept(codec, text);
    ContentToolCall(codec, text, call);
  }

  lemma ContentTextKept(codec: Codec, text: string)
    requires Trimmed(text, IsPySpace)
    ensures NormaliseContent(codec, JStr(text)) == Success(text)
  {
    StripOfTrimmed(text, IsPySpace);
  }

  lemma ContentToolCall(codec: Codec, text: string, call: Json)
    requires codec.loads(text) == Success(Obj1("tool_call", call))
    ensures FirstToolCall(JNull, codec, text) == call
  {
    assert Lookup(Obj1("tool_call", call).fields, "tool_call") == Some(call);
  }

  /** For a tool call whose name is a string without surrounding whitespace, both
      front-ends post the same JSON-RPC request. */
  lemma SameToolRequest(env: MetaFrontend.Env, toolCall: seq<Field>, initial: string, tool: HttpReply, neo4j: HttpReply, name: string)
    requires Lookup(toolCall, "name") == Some(JStr(name))
    requires Trimmed(name, IsPySpace)
    ensures MetaFrontend.ToolStep(env, toolCall, initial, tool, neo4j).toolRequest
            == Some(ToolStep(env.codec, toolCall, tool).request)
  {
    StripOfTrimmed(name, IsPySpace);
    MetaToolRequest(env, toolCall, initial, tool, neo4j, name);
    PatchedToolRequest(env.codec, toolCall, tool, name);
  }

  lemma MetaToolRequest(env: MetaFrontend.Env, toolCall: seq<Field>, initial: string, tool: HttpReply, neo4j: HttpReply, name: string)
    requires MetaFrontend.ToolName(toolCall) == Success(name)
    ensures MetaFrontend.ToolStep(env, toolCall, initial, tool, neo4j).toolRequest == Some(Envelope(1, JStr(name), ArgumentsOf(toolCall)))
  {
  }

  lemma PatchedToolRequest(codec: Codec, toolCall: seq<Field>, tool: HttpReply, name: string)
    requires Lookup(toolCall, "name") == Some(JStr(name))
    ensures ToolStep(codec, toolCall, tool).request == Envelope(1, JStr(name), ArgumentsOf(toolCall))
  {
  }
}

/** One chat turn of meta_frontend.py: the user's prompt is appended to the history, the
    recent history is sent to the model, and the model's answer is turned into an
    assistant turn, possibly after calling one tool on the MCP file server (found in the
    structured `tool_call`, in the content text parsed as JSON, or in a delimited Cypher
    block). Every network exchange is an input: the reply of the inference API, of the
    tool server, and of the direct Neo4j save. */
module MetaFrontend {
  import opened Wrappers
  import opened Text
  import opened JsonValue
  import opened JsonRpc
  import opened Transcript
  import opened Cypher
  import opened ChatCommon

  /** The check mark and the cross as this file spells them: the UTF-8 bytes of U+2705 and
      U+274C decoded as Mac Roman. */
  const Check: string := "\U{201A}\U{FA}\U{D6}"
  const Cross: string := "\U{201A}\U{F9}\U{E5}"

  /** What the script reaches outside itself besides the network: the JSON codec, the
      system prompt text, the delimited-block search (group 1 of the first match, if any)
      and the `unicode_escape` decoder. */
  datatype Env = Env(
    codec: Codec,
    systemPrompt: string,
    cypherBlock: string -> Option<string>,
    unicodeEscape: string -> Result<string, string>)

  /** The replies of the three endpoints a turn may reach, in the order it reaches them. */
  datatype Replies = Replies(inference: HttpReply, tool: HttpReply, neo4j: HttpReply)

  /** What a turn does besides appending the user's turn: the turns appended after it, the
      JSON-RPC request posted to the tool server, the request posted straight to
      `saveToNeo4j`, and how the run ended. */
  datatype Effect = Effect(after: seq<Turn>, toolRequest: Option<Json>, neo4jRequest: Option<Json>, report: Report)

  // ---------------------------------------------------------------- reading the answer

  /** What the model's answer asks for. */
  datatype Decision =
    | Halt                                                       // empty completion message
    | Answer(text: string, stop: Json)                           // a plain reply
    | CallTool(toolCall: seq<Field>, initial: string, stop: Json) // a tool call to make

  /** `assistant_content` before the tool branch: "Tool `name` executed." for a tool call,
      the stripped text of a dict or string content, a placeholder otherwise. */
  function InitialContent(codec: Codec, toolCall: Json, content: Json): (r: Result<string, string>)
    ensures Truthy(toolCall) && toolCall.JObj? && !HasKey(toolCall.fields, "name") ==> r == Failure(KeyErrorText("name"))
    ensures !Truthy(toolCall) && (content.JObj? || content.JStr?) ==> r == NormaliseContent(codec, content)
    ensures !Truthy(toolCall) && !content.JObj? && !content.JStr? ==> r == Success("[No assistant response generated]")
  {
    if Truthy(toolCall) then
      var name :- Subscript(toolCall, "name");
      Success(Announcement(PyStr(codec, name)))
    else if content.JObj? || content.JStr? then NormaliseContent(codec, content)
    else Success("[No assistant response generated]")
  }

  /** The assistant text that announces a tool call by name. */
  function Announcement(name: string): string {
    Check + " Tool `" + name + "` executed."
  }

  /** The third source of a tool call: a delimited Cypher block in the content text becomes
      a `saveToNeo4j` call; without one the (falsy) call found so far is kept. */
  function BlockFallback(env: Env, contentText: string, none: Json): (r: Result<Json, string>)
    ensures env.cypherBlock(contentText).None? ==> r == Success(none)
    ensures env.cypherBlock(contentText).Some? ==>
              (r.Success? <==> BlockPayload(env.cypherBlock(contentText).value, env.unicodeEscape).Success?)
    ensures env.cypherBlock(contentText).Some? && r.Success? ==>
              r.value.JObj? && Lookup(r.value.fields, "name") == Some(JStr("saveToNeo4j"))
              && CypherOf(r.value) == Some(BlockPayload(env.cypherBlock(contentText).value, env.unicodeEscape).value)
  {
    match env.cypherBlock(contentText)
    case None => Success(none)
    case Some(group) =>
      var payload :- BlockPayload(group, env.unicodeEscape);
      Success(BlockToolCall(payload))
  }

  /** Lines 463-529 of the handler: the completion message is read, a structured tool call
      is patched, and the content text is searched for a tool call when there is none. A
      `Failure` carries the text of the exception, which the outer handler reports. */
  function Decide(env: Env, result: Json): (r: Result<Decision, string>)
    ensures !result.JObj? ==> r == Failure(NoAttribute(result, "get"))
    ensures result.JObj? && !Truthy(Lookup(result.fields, "completion_message").GetOr(JObj([]))) ==> r == Success(Halt)
    ensures r.Success? && r.value.CallTool? ==> r.value.toolCall != []
  {
    if !result.JObj? then Failure(NoAttribute(result, "get"))
    else
      var cm := Lookup(result.fields, "completion_message").GetOr(JObj([]));
      if !Truthy(cm) then Success(Halt)
      else if !cm.JObj? then Failure(NoAttribute(cm, "get"))
      else ReadMessage(env, cm.fields)
  }

  /** A completion message that is a non-empty dict: its structured tool call, if any, is
      patched before anything else is read. */
  function ReadMessage(env: Env, cm: seq<Field>): (r: Result<Decision, string>)
    ensures r.Success? && r.value.CallTool? ==> r.value.toolCall != []
    ensures var structured := Lookup(cm, "tool_call").GetOr(JNull);
            Truthy(structured) && PatchToolCall(structured).Failure? ==> r == Failure(PatchToolCall(structured).error)
    ensures var structured := Lookup(cm, "tool_call").GetOr(JNull);
            Truthy(structured) && PatchToolCall(structured).Success? ==>
              r == ReadPatched(env, Lookup(cm, "content").GetOr(JObj([])), PatchToolCall(structured).value,
                               Lookup(cm, "stop_reason").GetOr(JStr("tool_or_response")))
    ensures var structured := Lookup(cm, "tool_call").GetOr(JNull);
            !Truthy(structured) ==>
              r == ReadPatched(env, Lookup(cm, "content").GetOr(JObj([])), structured,
                               Lookup(cm, "stop_reason").GetOr(JStr("tool_or_response")))
  {
    var content := Lookup(cm, "content").GetOr(JObj([]));
    var structured := Lookup(cm, "tool_call").GetOr(JNull);
    var stop := Lookup(cm, "stop_reason").GetOr(JStr("tool_or_response"));
    var patched :- if Truthy(structured) then PatchToolCall(structured) else Success(structured);
    ReadPatched(env, content, patched, stop)
  }

  /** The message once the structured call is patched: the announcement, the content text,
      and the tool call from the first source that has one. */
  function ReadPatched(env: Env, content: Json, patched: Json, stop: Json): (r: Result<Decision, string>)
    ensures r.Success? && r.value.CallTool? ==> r.value.toolCall != []
    ensures InitialContent(env.codec, patched, content).Failure? ==> r == Failure(InitialContent(env.codec, patched, content).error)
    ensures r.Success? ==>
              InitialContent(env.codec, patched, content).Success? && NormaliseContent(env.codec, content).Success?
              && FindToolCall(env, patched, NormaliseContent(env.codec, content).value).Success?
    ensures r.Success? ==>
              var contentText := NormaliseContent(env.codec, content).value;
              var toolCall := FindToolCall(env, patched, contentText).value;
              (!Truthy(toolCall) ==> r.value == Answer(PlainContent(content, contentText), stop))
              && (Truthy(toolCall) ==> toolCall.JObj? && r.value == CallTool(toolCall.fields, InitialContent(env.codec, patched, content).value, stop))
    ensures InitialContent(env.codec, patched, content).Success? && NormaliseContent(env.codec, content).Success?
            && FindToolCall(env, patched, NormaliseContent(env.codec, content).value).Success? ==>
              var toolCall := FindToolCall(env, patched, NormaliseContent(env.codec, content).value).value;
              r.Failure? <==> Truthy(toolCall) && !toolCall.JObj?
  {
    var initial :- InitialContent(env.codec, patched, content);
    var contentText :- NormaliseContent(env.codec, content);
    var toolCall :- FindToolCall(env, patched, contentText);
    if !Truthy(toolCall) then Success(Answer(PlainContent(content, contentText), stop))
    else if !toolCall.JObj? then Failure(NoAttribute(toolCall, "get"))
    else Success(CallTool(toolCall.fields, initial, stop))
  }

  /** The three sources of a tool call, tried in order: the (patched) structured call, the
      content text as JSON, a delimited Cypher block. */
  function FindToolCall(env: Env, patched: Json, contentText: string): (r: Result<Json, string>)
    ensures Truthy(patched) ==> r == Success(patched)
    ensures !Truthy(patched) && Truthy(JsonToolCall(env.codec, contentText)) ==> r == Success(JsonToolCall(env.codec, contentText))
    ensures !Truthy(patched) && !Truthy(JsonToolCall(env.codec, contentText)) ==>
              r == BlockFallback(env, contentText, JsonToolCall(env.codec, contentText))
  {
    var found := FirstToolCall(patched, env.codec, contentText);
    if Truthy(found) then Success(found) else BlockFallback(env, contentText, found)
  }

  // ---------------------------------------------------------------- the tool branch

  /** What the tool branch leaves behind: the request posted to the tool server, the
      follow-up user turns, the assistant text (None when `st.stop()` ends the run), and
      the request posted straight to `saveToNeo4j`. */
  datatype ToolEnd = ToolEnd(toolRequest: Option<Json>, followUps: seq<Turn>, reply: Option<string>, neo4jRequest: Option<Json>)

  /** `tool_call.get("name", "").strip()`. */
  function ToolName(toolCall: seq<Field>): (r: Result<string, string>)
    ensures r.Success? ==> Trimmed(r.value, IsPySpace)
    ensures !HasKey(toolCall, "name") ==> r == Success("")
  {
    var name := Lookup(toolCall, "name").GetOr(JStr(""));
    if name.JStr? then Success(PyStrip(name.s)) else Failure(NoAttribute(name, "strip"))
  }

  /** The request the `saveToNeo4j` branch posts itself, keys in source order. */
  function SaveRequest(cypher: Json): (q: Json)
    ensures q.JObj? && Keys(q.fields) == ["jsonrpc", "method", "params", "id"]
    ensures Lookup(q.fields, "method") == Some(JStr("saveToNeo4j"))
    ensures Lookup(q.fields, "params") == Some(Obj1("cypher", cypher))
  {
    var fields := [Field("jsonrpc", JStr("2.0")), Field("method", JStr("saveToNeo4j")),
                   Field("params", Obj1("cypher", cypher)), Field("id", JNum(1))];
    LookupAt(fields, 1, "method");
    LookupAt(fields, 2, "params");
    JObj(fields)
  }

  /** The `saveToNeo4j` branch: an empty Cypher text stops the run; otherwise the text is
      posted, and only a transport failure or an undecodable successful reply turns the
      reply into an error; a refused save leaves the assistant text as it was. */
  function SaveStep(args: Json, initial: string, neo4j: HttpReply): (e: ToolEnd)
    ensures e.toolRequest == None && e.followUps == []
    ensures e.reply.None? <==> args.JObj? && !Truthy(Lookup(args.fields, "cypher").GetOr(JStr("")))
    ensures e.neo4jRequest.Some? ==>
              args.JObj? && HasKey(args.fields, "cypher") && e.neo4jRequest == Some(SaveRequest(Lookup(args.fields, "cypher").value))
    ensures e.neo4jRequest.Some? && neo4j.Answered? && (400 <= neo4j.status < 600 || neo4j.body.Success?) ==>
              e.reply == Some(initial)
  {
    match PyGet(args, "cypher", JStr(""))
    case Failure(t) => ToolEnd(None, [], Some(ToolErrorText(Cross, t)), None)
    case Success(cypher) =>
      if !Truthy(cypher) then ToolEnd(None, [], None, None)
      else
        var request := SaveRequest(cypher);
        match neo4j
        case Unreachable(m) => ToolEnd(None, [], Some(ToolErrorText(Cross, m)), Some(request))
        case Answered(status, reason, body) =>
          if StatusError(McpUrl, status, reason).None? && body.Failure? then
            ToolEnd(None, [], Some(ToolErrorText(Cross, body.error)), Some(request))
          else ToolEnd(None, [], Some(initial), Some(request))
  }

  /** Lines 543-605, once the tool server has answered with `result`. A `saveToNeo4j`
      call is patched again, and the arguments read afterwards are those of the patched
      call (the dict is shared); `listDir` with a list plans one reader call per file. */
  function AfterToolCall(env: Env, toolCall: seq<Field>, name: string, result: Json, initial: string, neo4j: HttpReply)
    : (e: ToolEnd)
    ensures e.toolRequest == None
    ensures e.followUps != [] ==> name == "listDir" && result.JArr?
    ensures forall k :: 0 <= k < |e.followUps| ==> e.followUps[k].role == User
    ensures e.neo4jRequest.Some? ==> name == "saveToNeo4j"
    ensures e.reply.None? ==> name == "saveToNeo4j"
    ensures name != "saveToNeo4j" && !(name == "listDir" && result.JArr?) ==>
              e == ToolEnd(None, [], Some(ResultText(Check, env.codec, name, result)), None)
    ensures name == "listDir" && result.JArr? && PlanFollowUps(result.items).Failure? ==>
              e == ToolEnd(None, [], Some(ToolErrorText(Cross, PlanFollowUps(result.items).error)), None)
    ensures name == "saveToNeo4j" && PatchToolCall(JObj(toolCall)).Failure? ==>
              e == ToolEnd(None, [], Some(ToolErrorText(Cross, PatchToolCall(JObj(toolCall)).error)), None)
  {
    if name == "saveToNeo4j" then
      match PatchToolCall(JObj(toolCall))
      case Failure(t) => ToolEnd(None, [], Some(ToolErrorText(Cross, t)), None)
      case Success(patched) => SaveStep(ArgumentsOf(patched.fields), initial, neo4j)
    else if name == "listDir" && result.JArr? then
      match PlanFollowUps(result.items)
      case Failure(t) => ToolEnd(None, [], Some(ToolErrorText(Cross, t)), None)
      case Success(calls) =>
        ToolEnd(None, FollowUpTurns(env.codec, calls), Some(ListDirText(Check, env.codec, name, result, |calls|)), None)
    else ToolEnd(None, [], Some(ResultText(Check, env.codec, name, result)), None)
  }

  /** The inner `try` of lines 537-607: every exception in it becomes the assistant's
      "Tool call error" text. The client is created afresh on every run of the script, so
      its one request carries id 1. */
  function ToolStep(env: Env, toolCall: seq<Field>, initial: string, tool: HttpReply, neo4j: HttpReply): (e: ToolEnd)
    ensures e.toolRequest.Some? <==> ToolName(toolCall).Success?
    ensures e.toolRequest.Some? ==>
              e.toolRequest == Some(Envelope(1, JStr(ToolName(toolCall).value), ArgumentsOf(toolCall)))
    ensures e.toolRequest.Some? && CallOutcome(env.codec, McpUrl, tool).Failure? ==>
              e == ToolEnd(e.toolRequest, [], Some(ToolErrorText(Cross, ErrorText(CallOutcome(env.codec, McpUrl, tool).error))), None)
    ensures forall k :: 0 <= k < |e.followUps| ==> e.followUps[k].role == User
    ensures e.neo4jRequest.Some? ==> ToolName(toolCall) == Success("saveToNeo4j")
    ensures e.reply.None? ==> ToolName(toolCall) == Success("saveToNeo4j")
    ensures ToolName(toolCall).Success? && CallOutcome(env.codec, McpUrl, tool).Success? ==>
              var name, result := ToolName(toolCall).value, CallOutcome(env.codec, McpUrl, tool).value;
              (name != "saveToNeo4j" && !(name == "listDir" && result.JArr?) ==>
                 e.reply == Some(ResultText(Check, env.codec, name, result)) && e.followUps == [] && e.neo4jRequest == None)
              && (name == "listDir" && result.JArr? && PlanFollowUps(result.items).Failure? ==>
                    e.reply == Some(ToolErrorText(Cross, PlanFollowUps(result.items).error)) && e.followUps == [])
  {
    match ToolName(toolCall)
    case Failure(t) => ToolEnd(None, [], Some(ToolErrorText(Cross, t)), None)
    case Success(name) =>
      var request := Envelope(1, JStr(name), ArgumentsOf(toolCall));
      match CallOutcome(env.codec, McpUrl, tool)
      case Failure(err) => ToolEnd(Some(request), [], Some(ToolErrorText(Cross, ErrorText(err))), None)
      case Success(result) => AfterToolCall(env, toolCall, name, result, initial, neo4j).(toolRequest := Some(request))
  }

  // ---------------------------------------------------------------- the whole turn

  /** The ending of a turn whose tool branch ran: the follow-ups and the assistant turn
      are appended only when the branch produced an assistant text. */
  function ToolEffect(t: ToolEnd, stop: Json): (e: Effect)
    requires forall k :: 0 <= k < |t.followUps| ==> t.followUps[k].role == User
    ensures e.report.Completed? <==> t.reply.Some?
    ensures !e.report.Completed? ==> e.after == []
    ensures e.report.Completed? ==> AssistantLast(e.after)
    ensures e.toolRequest == t.toolRequest && e.neo4jRequest == t.neo4jRequest
  {
    match t.reply
    case None => Effect([], t.toolRequest, t.neo4jRequest, Stopped)
    case Some(text) => Effect(t.followUps + [AssistantTurn(text, stop)], t.toolRequest, t.neo4jRequest, Completed)
  }

  /** The turn once the model's answer has been read into `decision`. */
  function DecisionEffect(env: Env, decision: Result<Decision, string>, replies: Replies): (e: Effect)
    ensures !e.report.Completed? ==> e.after == []
    ensures e.report.Completed? ==> AssistantLast(e.after)
    ensures e.toolRequest.Some? ==> IdOf(e.toolRequest.value) == Some(JNum(1))
    ensures e.neo4jRequest.Some? ==> e.toolRequest.Some? && Lookup(e.toolRequest.value.fields, "method") == Some(JStr("saveToNeo4j"))
  {
    match decision
    case Failure(t) => Effect([], None, None, Failed(Unexpected(t)))
    case Success(Halt) => Effect([], None, None, Stopped)
    case Success(Answer(text, stop)) => Effect([AssistantTurn(text, stop)], None, None, Completed)
    case Success(CallTool(toolCall, initial, stop)) =>
      ToolEffect(ToolStep(env, toolCall, initial, replies.tool, replies.neo4j), stop)
  }

  /** The turn as a function of the replies: after the user's turn, the history grows by
      the follow-up user turns and one assistant turn last, and only when the run
      completes; a failed inference call is reported with the text of its `except`
      clause. */
  function HandleTurnSpec(env: Env, replies: Replies): (e: Effect)
    ensures !e.report.Completed? ==> e.after == []
    ensures e.report.Completed? ==> AssistantLast(e.after)
    ensures Post(ApiUrl, replies.inference).Failure? ==>
              e == Effect([], None, None, Failed(InferenceErrorText(Post(ApiUrl, replies.inference).error)))
    ensures e.toolRequest.Some? ==> IdOf(e.toolRequest.value) == Some(JNum(1))
    ensures e.neo4jRequest.Some? ==> e.toolRequest.Some? && Lookup(e.toolRequest.value.fields, "method") == Some(JStr("saveToNeo4j"))
  {
    match Post(ApiUrl, replies.inference)
    case Failure(err) => Effect([], None, None, Failed(InferenceErrorText(err)))
    case Success(result) => DecisionEffect(env, Decide(env, result), replies)
  }

  /** The inner `try` run imperatively: a fresh client posts the one tool request. */
  method CallToolServer(env: Env, toolCall: seq<Field>, initial: string, replies: Replies) returns (end: ToolEnd)
    ensures end == ToolStep(env, toolCall, initial, replies.tool, replies.neo4j)
  {
    var name := ToolName(toolCall);
    if name.Failure? {
      return ToolEnd(None, [], Some(ToolErrorText(Cross, name.error)), None);
    }
    var client := new McpHttpClient(McpUrl, env.codec);
    var request, outcome := client.SendRequest(JStr(name.value), ArgumentsOf(toolCall), replies.tool);
    if outcome.Failure? {
      end := ToolEnd(Some(request), [], Some(ToolErrorText(Cross, ErrorText(outcome.error))), None);
    } else {
      end := AfterToolCall(env, toolCall, name.value, outcome.value, initial, replies.neo4j);
      end := end.(toolRequest := Some(request));
    }
  }

  /** Lines 463-623 run against the history, which already holds the user's turn. */
  method Respond(conversation: Conversation, env: Env, decision: Result<Decision, string>, replies: Replies)
    returns (toolRequest: Option<Json>, neo4jRequest: Option<Json>, report: Report)
    modifies conversation
    ensures var e := DecisionEffect(env, decision, replies);
            conversation.turns == old(conversation.turns) + e.after
            && toolRequest == e.toolRequest && neo4jRequest == e.neo4jRequest && report == e.report
  {
    if decision.Failure? {
      return None, None, Failed(Unexpected(decision.error));
    }
    match decision.value
    case Halt =>
      return None, None, Stopped;
    case Answer(text, stop) =>
      conversation.Append(AssistantTurn(text, stop));
      return None, None, Completed;
    case CallTool(toolCall, initial, stop) =>
      var end := CallToolServer(env, toolCall, initial, replies);
      assert DecisionEffect(env, decision, replies) == ToolEffect(end, stop);
      toolRequest, neo4jRequest := end.toolRequest, end.neo4jRequest;
      if end.reply.None? {
        return toolRequest, neo4jRequest, Stopped;
      }
      conversation.AppendReplies(end.followUps, AssistantTurn(end.reply.value, stop));
      report := Completed;
  }

  /** The handler run against the session history: the prompt is appended, the window is
      sent, and the turns the answer produces are appended one by one, follow-ups first. */
  method HandleTurn(conversation: Conversation, env: Env, prompt: string, replies: Replies)
    returns (messages: seq<Turn>, toolRequest: Option<Json>, neo4jRequest: Option<Json>, report: Report)
    modifies conversation
    ensures messages == Outbound(env.systemPrompt, Window(old(conversation.turns) + [UserTurn(prompt)]))
    ensures conversation.turns == old(conversation.turns) + [UserTurn(prompt)] + HandleTurnSpec(env, replies).after
    ensures toolRequest == HandleTurnSpec(env, replies).toolRequest
    ensures neo4jRequest == HandleTurnSpec(env, replies).neo4jRequest
    ensures report == HandleTurnSpec(env, replies).report
  {
    conversation.Append(UserTurn(prompt));
    messages := Outbound(env.systemPrompt, Window(conversation.turns));
    var inference := Post(ApiUrl, replies.inference);
    if inference.Failure? {
      return messages, None, None, Failed(InferenceErrorText(inference.error));
    }
    var decision := Decide(env, inference.value);
    toolRequest, neo4jRequest, report := Respond(conversation, env, decision, replies);
  }

  // ---------------------------------------------------------------- properties of a turn

  /** An exception raised by the tool server never escapes the tool branch: the run
      completes with one assistant turn reporting it, and no follow-ups. */
  lemma ToolServerFailureReported(env: Env, toolCall: seq<Field>, initial: string, stop: Json, replies: Replies)
    requires ToolName(toolCall).Success? && CallOutcome(env.codec, McpUrl, replies.tool).Failure?
    ensures DecisionEffect(env, Success(CallTool(toolCall, initial, stop)), replies)
            == Effect([AssistantTurn(ToolErrorText(Cross, ErrorText(CallOutcome(env.codec, McpUrl, replies.tool).error)), stop)],
                      Some(Envelope(1, JStr(ToolName(toolCall).value), ArgumentsOf(toolCall))), None, Completed)
  {
    var text := ToolErrorText(Cross, ErrorText(CallOutcome(env.codec, McpUrl, replies.tool).error));
    var request := Envelope(1, JStr(ToolName(toolCall).value), ArgumentsOf(toolCall));
    var t := ToolStep(env, toolCall, initial, replies.tool, replies.neo4j);
    assert t == ToolEnd(Some(request), [], Some(text), None);
    assert [] + [AssistantTurn(text, stop)] == [AssistantTurn(text, stop)];
    assert ToolEffect(t, stop) == Effect([AssistantTurn(text, stop)], Some(request), None, Completed);
  }

  /** A structured tool call whose first patch raises is outside the tool's own `try`:
      the outer handler reports the error and nothing is appended after the user's
      turn, and no request reaches either server. */
  lemma FirstPatchFailureReported(env: Env, replies: Replies, result: Json, cm: seq<Field>)
    requires Post(ApiUrl, replies.inference) == Success(result)
    requires result.JObj? && Lookup(result.fields, "completion_message") == Some(JObj(cm))
    requires Truthy(Lookup(cm, "tool_call").GetOr(JNull))
    requires PatchToolCall(Lookup(cm, "tool_call").GetOr(JNull)).Failure?
    ensures HandleTurnSpec(env, replies)
            == Effect([], None, None, Failed(Unexpected(PatchToolCall(Lookup(cm, "tool_call").GetOr(JNull)).error)))
  {
    assert cm != [];
    assert Decide(env, result) == ReadMessage(env, cm);
  }

  /** A `listDir` result holding an item that is not a string makes `.endswith` raise
      inside the tool's `try`: the assistant text reports the first such item. */
  lemma ListDirNonStringItem(env: Env, toolCall: seq<Field>, initial: string, tool: HttpReply, neo4j: HttpReply,
                             items: seq<Json>, i: nat)
    requires ToolName(toolCall) == Success("listDir")
    requires CallOutcome(env.codec, McpUrl, tool) == Success(JArr(items))
    requires i < |items| && !items[i].JStr? && forall k :: 0 <= k < i ==> items[k].JStr?
    ensures ToolStep(env, toolCall, initial, tool, neo4j).reply == Some(ToolErrorText(Cross, NoAttribute(items[i], "endswith")))
    ensures ToolStep(env, toolCall, initial, tool, neo4j).followUps == []
  {
    PlanFailsAt(items, i);
  }

  /** A `listDir` result made of file names yields one follow-up user turn per recognised
      file, in order, each the JSON of that file's reader call, and then the assistant
      turn whose text counts exactly those calls. */
  lemma ListDirFansOut(env: Env, toolCall: seq<Field>, initial: string, stop: Json, replies: Replies, items: seq<Json>)
    requires ToolName(toolCall) == Success("listDir")
    requires CallOutcome(env.codec, McpUrl, replies.tool) == Success(JArr(items))
    requires forall i :: 0 <= i < |items| ==> items[i].JStr?
    ensures var e := DecisionEffect(env, Success(CallTool(toolCall, initial, stop)), replies);
            var names := Recognised(items);
            e.report == Completed && |e.after| == |names| + 1
            && (forall j :: 0 <= j < |names| ==>
                  e.after[j] == Turn(User, JStr(env.codec.dumps(FollowUp(ReaderFor(names[j]).value, names[j]))), None))
            && e.after[|names|] == AssistantTurn(ListDirText(Check, env.codec, "listDir", JArr(items), |names|), stop)
  {
    var t := ToolStep(env, toolCall, initial, replies.tool, replies.neo4j);
    ListDirEnd(env, toolCall, initial, replies.neo4j, items);
    assert t.followUps == FollowUpTurns(env.codec, PlanFollowUps(items).value);
    assert t.reply == Some(ListDirText(Check, env.codec, "listDir", JArr(items), |Recognised(items)|));
    assert DecisionEffect(env, Success(CallTool(toolCall, initial, stop)), replies) == ToolEffect(t, stop);
  }

  /** The `listDir` branch once the server has answered with a list of file names. */
  lemma ListDirEnd(env: Env, toolCall: seq<Field>, initial: string, neo4j: HttpReply, items: seq<Json>)
    requires forall i :: 0 <= i < |items| ==> items[i].JStr?
    ensures PlanFollowUps(items).Success?
    ensures |PlanFollowUps(items).value| == |Recognised(items)|
    ensures forall j :: 0 <= j < |Recognised(items)| ==>
              PlanFollowUps(items).value[j] == FollowUp(ReaderFor(Recognised(items)[j]).value, Recognised(items)[j])
    ensures AfterToolCall(env, toolCall, "listDir", JArr(items), initial, neo4j)
            == ToolEnd(None, FollowUpTurns(env.codec, PlanFollowUps(items).value),
                       Some(ListDirText(Check, env.codec, "listDir", JArr(items), |Recognised(items)|)), None)
  {
    PlanFollowUpsSpec(items);
  }

  /** A plain text answer without a tool call becomes one assistant turn holding the
      stripped text and the model's stop reason. */
  lemma PlainReply(env: Env, replies: Replies)
    requires replies.inference
             == Answered(200, "OK", Success(Obj1("completion_message", JObj([Field("content", JStr("hello")), Field("stop_reason", JStr("stop"))]))))
    requires env.codec.loads("hello").Failure? && env.cypherBlock("hello").None?
    ensures HandleTurnSpec(env, replies) == Effect([AssistantTurn("hello", JStr("stop"))], None, None, Completed)
  {
    var cm := JObj([Field("content", JStr("hello")), Field("stop_reason", JStr("stop"))]);
    var result := Obj1("completion_message", cm);
    assert Post(ApiUrl, replies.inference) == Success(result);
    assert Keys(cm.fields) == ["content", "stop_reason"];
    LookupAt(cm.fields, 1, "stop_reason");
    StripOfTrimmed("hello", IsPySpace);
    assert NormaliseContent(env.codec, JStr("hello")) == Success("hello");
    assert Decide(env, result) == Success(Answer("hello", JStr("stop")));
  }

  /** A structured `saveToNeo4j` call whose Cypher text is only a start-marker line is
      cleaned to the empty text by the first patch and posted so to the tool server; the
      second patch then raises, and the turn reports that error instead of saving. */
  lemma MarkersOnlyCallPostsEmptyCypher(env: Env, replies: Replies)
    requires replies.inference
             == Answered(200, "OK", Success(Obj1("completion_message", Obj1("tool_call", BlockToolCall(StartMarkerOnly)))))
    requires CallOutcome(env.codec, McpUrl, replies.tool).Success?
    ensures var e := HandleTurnSpec(env, replies);
            e.toolRequest == Some(Envelope(1, JStr("saveToNeo4j"), Obj1("cypher", JStr(""))))
            && e.after == [AssistantTurn(ToolErrorText(Cross, EmptyCypher), JStr("tool_or_response"))]
            && e.neo4jRequest == None
  {
    var result := Obj1("completion_message", Obj1("tool_call", BlockToolCall(StartMarkerOnly)));
    assert Post(ApiUrl, replies.inference) == Success(result);
    var patched := MarkersOnlyDecision(env);
    var initial := Announcement("saveToNeo4j");
    MarkersOnlyToolStep(env, patched, initial, replies);
    var t := ToolStep(env, patched, initial, replies.tool, replies.neo4j);
    assert HandleTurnSpec(env, replies) == ToolEffect(t, JStr("tool_or_response"));
    assert [] + [AssistantTurn(ToolErrorText(Cross, EmptyCypher), JStr("tool_or_response"))]
           == [AssistantTurn(ToolErrorText(Cross, EmptyCypher), JStr("tool_or_response"))];
  }

  /** The first patch empties the marker-only Cypher text and the call is made as patched. */
  lemma MarkersOnlyDecision(env: Env) returns (patched: seq<Field>)
    ensures ArgumentsOf(patched) == Obj1("cypher", JStr(""))
    ensures ToolName(patched) == Success("saveToNeo4j")
    ensures PatchToolCall(JObj(patched)) == Failure(EmptyCypher)
    ensures Decide(env, Obj1("completion_message", Obj1("tool_call", BlockToolCall(StartMarkerOnly))))
            == Success(CallTool(patched, Announcement("saveToNeo4j"), JStr("tool_or_response")))
  {
    var tc := BlockToolCall(StartMarkerOnly);
    MarkersOnlyPayload();
    patched := PatchToolCall(tc).value.fields;
    assert ArgumentsOf(patched) == Obj1("cypher", JStr(""));
    StripOfTrimmed("saveToNeo4j", IsPySpace);
    assert Lookup(patched, "name") == Some(JStr("saveToNeo4j"));
    StructuredCallDecided(env, tc, patched, "saveToNeo4j");
  }

  /** A completion message holding only a structured tool call asks for that call as
      patched, announced by its name, with the default stop reason. */
  lemma StructuredCallDecided(env: Env, tc: Json, patched: seq<Field>, name: string)
    requires Truthy(tc) && PatchToolCall(tc) == Success(JObj(patched))
    requires Lookup(patched, "name") == Some(JStr(name))
    ensures Decide(env, Obj1("completion_message", Obj1("tool_call", tc)))
            == Success(CallTool(patched, Announcement(name), JStr("tool_or_response")))
  {
    var cm := Obj1("tool_call", tc);
    OnlyToolCall(tc);
    PatchedCallAnnounced(env, patched, name);
    assert ReadMessage(env, cm.fields) == ReadPatched(env, JObj([]), JObj(patched), JStr("tool_or_response"));
  }

  /** A patched call with a name, and no content, is made as it is and announced by name. */
  lemma PatchedCallAnnounced(env: Env, patched: seq<Field>, name: string)
    requires Lookup(patched, "name") == Some(JStr(name))
    ensures ReadPatched(env, JObj([]), JObj(patched), JStr("tool_or_response"))
            == Success(CallTool(patched, Announcement(name), JStr("tool_or_response")))
  {
    assert NormaliseContent(env.codec, JObj([])) == Success("");
    assert Subscript(JObj(patched), "name") == Success(JStr(name));
  }

  /** A message with only `tool_call` reads as having empty content and the default stop. */
  lemma OnlyToolCall(tc: Json)
    ensures Lookup(Obj1("tool_call", tc).fields, "content") == None
    ensures Lookup(Obj1("tool_call", tc).fields, "stop_reason") == None
    ensures Lookup(Obj1("tool_call", tc).fields, "tool_call") == Some(tc)
  {
  }

  /** The tool request carries the emptied text, and the second patch turns the answer into
      the error text. */
  lemma MarkersOnlyToolStep(env: Env, patched: seq<Field>, initial: string, replies: Replies)
    requires ArgumentsOf(patched) == Obj1("cypher", JStr(""))
    requires ToolName(patched) == Success("saveToNeo4j")
    requires PatchToolCall(JObj(patched)) == Failure(EmptyCypher)
    requires CallOutcome(env.codec, McpUrl, replies.tool).Success?
    ensures ToolStep(env, patched, initial, replies.tool, replies.neo4j)
            == ToolEnd(Some(Envelope(1, JStr("saveToNeo4j"), Obj1("cypher", JStr("")))), [], Some(ToolErrorText(Cross, EmptyCypher)), None)
  {
  }
}

# mcp-graph-agent, modelled in Dafny

The repository is a small tool-calling chat agent. Its parts:

- **Streamlit front-ends** that send a conversation to a Llama chat-completion endpoint:
  - `llama_chat_weather.py` is a plain chat. When a prompt asks about "weather in" a city, it calls the weather service instead.
  - `meta_frontend_patched.py` and `meta_frontend.py` turn the model's answer into a tool call where possible. The call goes to a JSON-RPC tool server. A `listDir` result fans out into follow-up reader calls. `meta_frontend.py` also recovers a `saveToNeo4j` call from the message content, as JSON or as a delimited Cypher block, and cleans its Cypher text.
- **JSON-RPC clients:**
  - `mcp_client.py`, and its copies inside both meta front-ends, posts requests over HTTP.
  - `mcp_debug_client.py` writes one request per line to a child server's stdin and reads one reply line from its stdout.
- **The tool server** `simple-mcp-fileserver/simple-mcp-fileserver.js` is an Express route. It dispatches on the JSON-RPC method name to file, document, weather, Neo4j and PDF-loader handlers.
- **The PDF loader** `my_real_pdf_loader.py` has three functions modelled here:
  - `conform` normalises the graph JSON that an LLM produced;
  - `safe_json_loads_and_conform` wraps it;
  - `load_company_names` and `allowed_set` read the list of allowed companies.

How the project is laid out:

- **Value code** becomes datatypes, functions and lemmas: JSON values, envelopes, text clean-up and the decisions a handler takes.
- **State that the source changes step by step** becomes classes with `modifies` clauses:
  - the session's conversation history;
  - the HTTP client's request counter;
  - the pipe client's streams;
  - the Express response and the Neo4j session.
- **Loops** become methods proved against the specification functions: the reader-call plan, `conform`, `load_company_names` and `sorted`.
- **Outside effects** are inputs. Every network reply, file-system result, JSON codec and regex search that the model cannot see is a parameter. Each turn of a front-end is a function of those replies, and the handler method is proved to append exactly what that function says.

Modules:

| module | file | models |
|---|---|---|
| `Wrappers` | `wrappers.dfy` | Option and Result |
| `Text` | `text.dfy` | Python and JavaScript string built-ins: `strip`, `trim`, `rstrip`, `lower`/`upper`, `splitlines`, `find`, `replace`, `join`, `str(int)` |
| `JsonValue` | `json.dfy` | decoded JSON with dicts as ordered items; `dict.get`, `d[k]`, `d[k] = v`, truthiness, `str()` |
| `Transcript` | `transcript.dfy` | the session history and the window of the last 20 turns |
| `ChatCommon` | `chat_common.dfy` | what both meta front-ends share: content normalisation, tool-call lookup in the content, the `listDir` fan-out |
| `Cypher` | `cypher.dfy` | `format_cypher_for_json`, `patch_tool_call` and its marker regexes, quote collapsing, the delimited-block payload |
| `MetaFrontend` | `meta_frontend.dfy` | one chat turn of `meta_frontend.py` |
| `PatchedFrontend` | `patched_frontend.dfy` | one chat turn of `meta_frontend_patched.py` |
| `WeatherChat` | `weather_chat.dfy` | one chat turn of `llama_chat_weather.py` and its `get_weather` |
| `JsonRpc` | `rpc_client.dfy` | `MCPHttpClient` and the response decoding shared by every client |
| `JsonRpcPipe` | `rpc_debug_client.dfy` | `MCPClient` over a line-oriented pipe |
| `FileServer` | `file_server.dfy` | the `/mcp` route and `saveToNeo4j` of the tool server |
| `PdfLoader` | `pdf_loader.dfy` | `conform`, `safe_json_loads_and_conform`, `load_company_names`, `allowed_set` |

## Model

| member | source | states |
|---|---|---|
| Text.PyStrip | meta_frontend.py:22 | `str.strip()` leaves no Python white space at either end and never lengthens the text; `Text.StripIsSlice` shows the result is the contiguous middle slice. |
| Text.StripIsSlice | meta_frontend.py:22 | The stripped text is the slice that remains after removing every leading and every trailing character that satisfies the predicate. |
| Text.StripOfTrimmed | meta_frontend_patched.py:296 | Stripping a text that is already trimmed returns it unchanged. |
| Text.JsTrim | simple-mcp-fileserver/simple-mcp-fileserver.js:219 | `trim()` leaves no JavaScript white space or line terminator at either end. |
| Text.RStripChar | llama_chat_weather.py:73 | `rstrip("?")` returns a prefix of the text that does not end in `?`, and every dropped character is a `?`. |
| Text.SplitLines | meta_frontend.py:22 | `splitlines()` yields lines that contain no line boundary. |
| Text.SplitLinesKeepText | meta_frontend.py:22 | For every text, the lines concatenated in order are exactly the text's characters other than line boundaries: splitting loses the boundaries and nothing else. |
| Text.SplitLinesRejoin | meta_frontend.py:22 | For a text whose only boundaries are `\n` and which does not end with one, `"\n".join(s.splitlines())` gives the text back. |
| Text.IndexFrom | llama_chat_weather.py:73 | Finds the first occurrence at or after a position: the result is an occurrence, and None means that no occurrence starts there or later. |
| Text.ReplaceChar | simple-mcp-fileserver/simple-mcp-fileserver.js:218 | Replacing a character that does not occur leaves the text unchanged. |
| Text.ReplaceCharAppend | meta_frontend.py:24 | A character replacement distributes over concatenation. |
| Text.UpperIdempotent | my_real_pdf_loader.py:39 | Upper-casing twice is the same as upper-casing once. |
| Text.NatToString | meta_frontend.py:574 | `str(n)` of a count is a non-empty string of decimal digits, with a leading zero only for 0. |
| Text.NatToStringValue | meta_frontend.py:574 | The digits of `str(n)` read back as n, so the count shown is the number of calls planned. |
| JsonValue.Lookup | meta_frontend.py:463 | A key is found exactly when the dict has it. |
| JsonValue.LookupAt | mcp_client.py:22 | With no earlier binding of the key, the lookup returns the value at that position. |
| JsonValue.Put | my_real_pdf_loader.py:86-88 | `d[k] = v` rebinds an existing key in place or appends a new key last; `k` now maps to `v` and every other key keeps its value. |
| JsonValue.PutNew | my_real_pdf_loader.py:93 | Binding a key that the dict lacks appends it as the last item. |
| JsonValue.PyGet | meta_frontend.py:463 | `.get(key, default)` raises unless the value is a dict, then returns the bound value or the default. |
| JsonValue.Subscript | mcp_client.py:22 | `d[key]` succeeds exactly on a dict that has the key. |
| JsonValue.PyIn | mcp_client.py:20 | `'error' in result` on a dict is key membership. |
| Transcript.Window | llama_chat_weather.py:82 | `history[-20:]` has min(n, 20) entries and is the suffix of the history. |
| Transcript.Outbound | llama_chat_weather.py:83 | The request's messages are the system prompt followed by the window. |
| Transcript.WindowKeepsNewest | meta_frontend.py:263-265 | The user's new turn is always the last message sent, and at most 20 history entries are sent. |
| Transcript.WindowIdempotent | meta_frontend.py:265 | Taking the window of a window changes nothing. |
| Transcript.WindowOrder | meta_frontend.py:265 | History entry i sits in the window at i minus the number of dropped entries: order is kept and only the oldest entries are dropped. |
| Transcript.Conversation.constructor | llama_chat_weather.py:53-54 | A new session starts with an empty history. |
| Transcript.Conversation.Append | llama_chat_weather.py:68 | `append` adds exactly one turn at the end. |
| Transcript.Conversation.AppendReplies | meta_frontend.py:576-622 | The follow-up turns are appended in order, then the assistant turn. |
| Transcript.Conversation.Clear | llama_chat_weather.py:118-119 | "Clear Conversation History" empties the history. |
| ChatCommon.NormaliseContent | meta_frontend.py:484-490 | `content_text`: a string is stripped; a dict's `text` (default "") is stripped; a dict whose `text` is not a string raises, and only that case raises; any other value is `str(...)`; a dict or string gives a trimmed text. |
| ChatCommon.PlainContent | meta_frontend.py:608-614 | A dict or string answer gives the normalised text; any other content gives "[Unrecognized content type]". |
| ChatCommon.JsonToolCall | meta_frontend.py:492-503 | When the content text parses to a dict, the call is exactly that dict's `tool_call`, or none when the key is absent. Content that parses to anything else gives none, and a parse failure is swallowed and gives none. |
| ChatCommon.FirstToolCall | meta_frontend_patched.py:289-304 | A truthy structured `tool_call` wins; otherwise the call comes from the content text. |
| ChatCommon.ReaderFor | meta_frontend.py:558-569 | `.pdf` selects readPDF. A file is skipped exactly when it has none of the five suffixes (image suffixes are matched on the lower-cased name). Otherwise one of the five reader tools is selected. |
| ChatCommon.ReaderForSuffixes | meta_frontend.py:558-569 | The suffixes are tried in source order: `.pdf` selects readPDF, then `.docx` readDocx, `.xlsx` readExcel, `.txt` readTextFile, and an image suffix of the lower-cased name readImageText. |
| ChatCommon.PlanFollowUps | meta_frontend.py:555-570 | A successful plan never has more calls than files. |
| ChatCommon.PlanFileToolCalls | meta_frontend.py:555-570 | The loop builds exactly the plan `PlanFollowUps` specifies, including the error raised by a non-string item. |
| ChatCommon.Recognised | meta_frontend.py:556-569 | Every file name kept has a reader. |
| ChatCommon.PlanFollowUpsSpec | meta_frontend.py:554-570 | The plan succeeds exactly when every listed item is a string. It then holds one call per recognised file, in file order, each naming that file's reader and its path in the downloads folder. |
| ChatCommon.PlanFailsAt | meta_frontend.py:556-558 | The plan fails at the first item that is not a string, with that item's `.endswith` error. |
| ChatCommon.PlanSucceedsIff | meta_frontend.py:556-558 | `.endswith` raises on the first non-string item, so the plan succeeds iff all items are strings. |
| ChatCommon.PlanCalls | meta_frontend.py:556-570 | A successful plan has one call per recognised file, in order, with the right reader and path. |
| ChatCommon.PlanFollowUpsCons | meta_frontend.py:556-570 | One loop step: a string item adds its reader call, if any, in front of the plan for the rest. |
| ChatCommon.PlanFollowUpsExample | meta_frontend.py:558-569 | `a.pdf`, `c.zip`, `D.PNG` plan readPDF and readImageText; the zip file is skipped. |
| ChatCommon.FollowUpTurns | meta_frontend.py:576-577 | One user turn per planned call, holding `json.dumps(call)`, in order. |
| Cypher.KeptLines | meta_frontend.py:22 | Every kept line is non-empty, stripped and free of line boundaries, and every line of the stripped block that is not blank is kept, stripped. |
| Cypher.KeepNonBlank | meta_frontend.py:22 | The filter keeps at most as many lines as it is given; each kept line is a non-blank stripped line, and the stripped form of every non-blank line is kept. |
| Cypher.KeepNonBlankAppend | meta_frontend.py:22 | Filtering a concatenation is filtering each part and concatenating: the kept lines come out in input order. |
| Cypher.KeepNonBlankOne | meta_frontend.py:22 | A single line is kept, stripped, exactly when it is not blank. |
| Cypher.StripNoBreak | meta_frontend.py:22 | Stripping a line introduces no line boundary. |
| Cypher.EscapeForJson | meta_frontend.py:24 | Escaping never shortens the text. |
| Cypher.ChainedReplaceIsEscape | meta_frontend.py:24 | The two chained `replace` calls equal a one-pass escape: backslash doubled, quote preceded by a backslash. |
| Cypher.FormatCypherForJson | meta_frontend.py:17-25 | The result is the escape of the kept lines joined by a space, or by the two characters backslash-n. |
| Cypher.UnescapeEscape | meta_frontend.py:24 | Unescaping an escaped text gives back the original. |
| Cypher.FormatRoundTrip | meta_frontend.py:17-25 | Decoding the output of `format_cypher_for_json` gives back the kept lines joined by the separator. |
| Cypher.StarRun | meta_frontend.py:40 | Counts the maximal run of `*` at a position: every counted character is a star, and the next one is not. |
| Cypher.StarRunExact | meta_frontend.py:40 | A run of exactly n stars, bounded by a non-star or the end, is measured as n. |
| Cypher.WordOnLine | meta_frontend.py:40 | The lazy `.*?WORD` step ends at an occurrence of the word in any case, at or after its start. |
| Cypher.StarsOnLine | meta_frontend.py:40 | The lazy `.*?\*{6,}` step ends at a run of at least six stars, at or after its start. |
| Cypher.MarkerMatchAt | meta_frontend.py:40-41 | A match of the marker pattern at i ends strictly after i and within the text. |
| Cypher.RemoveMarkersFrom | meta_frontend.py:40-41 | `re.sub` of the marker pattern never lengthens the rest of the text. |
| Cypher.RemoveMarkers | meta_frontend.py:40-41 | Removing markers never lengthens the text. |
| Cypher.RemoveMarkersFromUnmentioned | meta_frontend.py:40-41 | With no case-insensitive mention of the word, the substitution copies the rest of the text. |
| Cypher.RemoveMarkersUnmentioned | meta_frontend.py:40-41 | A text that never mentions the marker word is untouched. |
| Cypher.CleanMarkers | meta_frontend.py:40-42 | The cleaned Cypher text has no surrounding white space. |
| Cypher.CleanMarkersUnmentioned | meta_frontend.py:40-42 | When neither marker word is mentioned, cleaning is just `strip()`. |
| Cypher.PatchToolCall | meta_frontend.py:28-47 | A non-dict raises "Expected tool_call to be a dictionary."; a dict not named saveToNeo4j comes back unchanged; a successful patch keeps the dict's keys. |
| Cypher.PatchSucceedsIff | meta_frontend.py:32-37 | On saveToNeo4j, patching succeeds exactly when `arguments` is a dict whose `cypher` is a non-blank string. |
| Cypher.PatchStoresCleaned | meta_frontend.py:39-45 | A successful patch stores the cleaned text, with no surrounding space, under `cypher`, and `arguments` keeps its keys. |
| Cypher.PatchOnlyTrims | meta_frontend.py:39-45 | Without either marker word, patching succeeds and only strips the Cypher text. |
| Cypher.StartMarkerMatch | meta_frontend.py:40 | A line made only of the start marker is one whole match of the start pattern. |
| Cypher.StartMarkerCleaned | meta_frontend.py:40-42 | That line cleans to the empty text. |
| Cypher.MarkersOnlyPayload | meta_frontend.py:36-42 | The blank check runs before the markers are removed, so a markers-only payload is patched to "" and a second patch raises: `patch_tool_call` is not idempotent. |
| Cypher.PatchToEmpty | meta_frontend.py:36-44 | Any payload that is not blank but cleans to "" is patched once into an empty query that a second patch refuses. |
| Cypher.EmptyCypherRefused | meta_frontend.py:36-37 | An empty Cypher text raises "Cypher must be a non-empty string.". |
| Cypher.QuoteRun | meta_frontend.py:513 | The length of the quote run at a position stays within the text. |
| Cypher.QuoteRunSpec | meta_frontend.py:513 | The run is made of `'` and is not followed by one. |
| Cypher.CollapseQuotesFrom | meta_frontend.py:513 | A character other than a quote is copied to the front of the result. |
| Cypher.QuotePiece | meta_frontend.py:513 | A run of three or more quotes becomes exactly `''`; a run of at most two is copied as it is. |
| Cypher.CollapsedHasNoTriple | meta_frontend.py:513 | After `re.sub(r"''{2,}", "''", ...)` no three quotes stand in a row. |
| Cypher.CollapseQuotes | meta_frontend.py:513 | The collapsed text has no three quotes in a row. |
| Cypher.CollapseLongRun | meta_frontend.py:513 | A run of three or more quotes is replaced by exactly `''` and the scan resumes after the whole run. |
| Cypher.CollapseQuotesFromShortRuns | meta_frontend.py:513 | A text with no three quotes in a row is returned unchanged. |
| Cypher.CollapseQuotesIdempotent | meta_frontend.py:513 | Collapsing twice equals collapsing once. |
| Cypher.CollapseQuotesExample | meta_frontend.py:513 | `a''''b''c` becomes `a''b''c`. |
| Cypher.BlockPayload | meta_frontend.py:512-515 | The payload exists exactly when `unicode_escape` decodes the stripped, collapsed group; it is then "MATCH (n) DETACH DELETE n" plus a newline, followed by the decoded text. |
| Cypher.BlockToolCall | meta_frontend.py:518-521 | The recovered call is `{"name": "saveToNeo4j", "arguments": {"cypher": payload}}` with keys in that order. |
| MetaFrontend.InitialContent | meta_frontend.py:469-481 | A tool call without `name` raises KeyError('name'). Without a tool call, dict and string content give the normalised text; other content gives "[No assistant response generated]". |
| MetaFrontend.BlockFallback | meta_frontend.py:504-521 | Without a delimited block the call found so far is kept. With a block, the fallback succeeds exactly when its payload decodes, and then yields a saveToNeo4j call that carries that payload. |
| MetaFrontend.Decide | meta_frontend.py:463-529 | A result that is not a dict raises on `.get`; an empty or missing completion message halts; a decided tool call is never empty. |
| MetaFrontend.ReadMessage | meta_frontend.py:467-474 | A truthy structured call whose first patch raises makes the whole reading fail with that error. Otherwise the message is read with the patched call, or with the falsy call as it is. A decided call is never empty. |
| MetaFrontend.ReadPatched | meta_frontend.py:475-529 | A failing announcement fails the reading. Otherwise, with the content text and the call found by FindToolCall: a falsy call gives the plain answer (PlainContent) with the stop reason, and a dict call gives that call with the announcement. Reading fails exactly when the call found is truthy but not a dict. |
| MetaFrontend.FindToolCall | meta_frontend.py:492-521 | The three sources are tried in order: the patched structured call wins, then a truthy call parsed from the content, and otherwise the Cypher-block fallback (BlockFallback). |
| MetaFrontend.ToolName | meta_frontend.py:539 | `tool_call.get("name", "").strip()` is trimmed, and "" when there is no name. |
| MetaFrontend.SaveRequest | meta_frontend.py:585-593 | The direct save request has keys jsonrpc, method, params, id in that order; its method is saveToNeo4j and its params are `{"cypher": cypher}`. |
| MetaFrontend.SaveStep | meta_frontend.py:578-600 | An empty Cypher text stops the run. A request is posted only with the call's `cypher`. A refused save, or a decodable successful save, keeps the assistant text unchanged. |
| MetaFrontend.AfterToolCall | meta_frontend.py:543-605 | A result for any tool other than saveToNeo4j, and other than a listDir list, becomes the "`name` result:" text with the indented JSON. A listDir list with a non-string item gives the "Tool call error" text. A failing second patch of saveToNeo4j gives its error text. Follow-ups come only from a listDir list and are user turns. Only saveToNeo4j posts a direct save or stops the run. |
| MetaFrontend.ToolStep | meta_frontend.py:537-607 | A request is posted exactly when the name reads. It is the JSON-RPC request with id 1, the name and the call's arguments. Any exception from the server becomes the "Tool call error" text with no follow-ups. A result other than a listDir list, for a tool other than saveToNeo4j, becomes the "`name` result:" text. A failed listDir plan becomes the error text. |
| MetaFrontend.ToolEffect | meta_frontend.py:616-623 | The run completes exactly when the branch produced an assistant text, and then appends the follow-ups and one assistant turn last; otherwise it appends nothing. |
| MetaFrontend.DecisionEffect | meta_frontend.py:530-623 | Nothing is appended unless the run completes, and then the assistant turn is last. A tool request carries id 1. A direct save happens only after a saveToNeo4j tool request. |
| MetaFrontend.HandleTurnSpec | meta_frontend.py:442-646 | The properties of `DecisionEffect`, plus: an inference failure appends nothing and reports the text of the matching `except` clause (HTTP Error, API Request Error, unexpected error). |
| MetaFrontend.CallToolServer | meta_frontend.py:537-607 | The inner `try`, run against a fresh client, leaves what `ToolStep` specifies. |
| MetaFrontend.Respond | meta_frontend.py:530-623 | The history grows by exactly the turns `DecisionEffect` specifies; the requests and the report match it. |
| MetaFrontend.HandleTurn | meta_frontend.py:261-623 | The window of the history including the user's prompt is sent. The history becomes the old history, the user's turn, then the turns `HandleTurnSpec` specifies. |
| MetaFrontend.ToolServerFailureReported | meta_frontend.py:606-607 | An exception raised by the tool server completes the run with exactly one assistant turn reporting it, and no follow-ups. |
| MetaFrontend.FirstPatchFailureReported | meta_frontend.py:471-472 | A structured call whose first patch raises is outside the tool's `try`. The turn appends nothing after the user's turn, posts nothing, and reports "An unexpected error occurred:" with the patch error (line 642). |
| MetaFrontend.ListDirNonStringItem | meta_frontend.py:555-569 | A listDir list with a non-string item gives the "Tool call error" text for the first such item, with no follow-ups. |
| MetaFrontend.ListDirFansOut | meta_frontend.py:554-577 | A listDir result of file names appends one user turn per recognised file, in order, holding that file's reader call. The assistant turn that follows counts exactly those calls. |
| MetaFrontend.ListDirEnd | meta_frontend.py:554-577 | The listDir branch plans the recognised files and ends with the counted summary text. |
| MetaFrontend.PlainReply | meta_frontend.py:608-622 | A plain "hello" answer appends one assistant turn "hello" with the model's stop reason. |
| MetaFrontend.MarkersOnlyCallPostsEmptyCypher | meta_frontend.py:471-544 | A structured saveToNeo4j call whose Cypher text is only a start marker is posted to the tool server with cypher "". The second patch then raises, so the turn reports that error and no direct save is made. |
| MetaFrontend.MarkersOnlyDecision | meta_frontend.py:471-477 | The first patch empties the markers-only text and the call is decided as patched. |
| MetaFrontend.StructuredCallDecided | meta_frontend.py:471-477 | A message holding only a structured call decides that call as patched, announced by name, with the default stop reason. |
| MetaFrontend.PatchedCallAnnounced | meta_frontend.py:475-477 | A named call with no content is made as it is and announced by its name. |
| MetaFrontend.OnlyToolCall | meta_frontend.py:467-468 | A message with only `tool_call` has no content and no stop reason. |
| MetaFrontend.MarkersOnlyToolStep | meta_frontend.py:537-607 | The emptied call is posted, and the second patch turns the answer into the error text. |
| PatchedFrontend.Decide | meta_frontend_patched.py:284-312 | A result that is not a dict raises on `.get`; an empty completion message halts; a decided tool call is never empty. |
| PatchedFrontend.ReadMessage | meta_frontend_patched.py:288-312 | A failing content read fails the reading. Otherwise, with the first call found (structured, then parsed from the content): a falsy call gives the plain answer with the stop reason, a dict call is decided, and any other truthy call raises on `.get`. A decided call is never empty. |
| PatchedFrontend.ToolStep | meta_frontend_patched.py:313-348 | The posted request is the one with id 1, the raw name and the arguments. An exception from the server becomes the "Tool call error" text with no follow-ups. A result other than a listDir list becomes "✅ `name` result:" with the indented JSON, and a failed listDir plan becomes the error text. Follow-ups happen only for listDir and are user turns. |
| PatchedFrontend.DecisionEffect | meta_frontend_patched.py:313-364 | Nothing is appended unless the run completes, and the assistant turn is last. A tool request is made exactly for a decided tool call; it carries id 1, and the run then completes. |
| PatchedFrontend.HandleTurnSpec | meta_frontend_patched.py:263-387 | The properties of `DecisionEffect`, plus: an inference failure appends nothing and reports the text of its `except` clause. |
| PatchedFrontend.CallToolServer | meta_frontend_patched.py:313-348 | The inner `try` leaves what `ToolStep` specifies. |
| PatchedFrontend.Respond | meta_frontend_patched.py:313-364 | The history grows by exactly the turns `DecisionEffect` specifies. |
| PatchedFrontend.HandleTurn | meta_frontend_patched.py:116-364 | The window including the prompt is sent. The history becomes the old history, the user's turn, then the turns `HandleTurnSpec` specifies. |
| PatchedFrontend.ListDirFansOut | meta_frontend_patched.py:318-341 | One user turn per recognised file, in order, and a summary counting exactly those calls. |
| PatchedFrontend.NonDictToolCallFails | meta_frontend_patched.py:300-384 | A non-dict `tool_call` parsed from the content raises outside the tool's `try`: the turn fails as unexpected and nothing follows the user's turn. |
| PatchedFrontend.ContentCallRead | meta_frontend_patched.py:300-315 | Such a call makes `tool_call.get` raise AttributeError. |
| PatchedFrontend.ContentTextKept | meta_frontend_patched.py:295-296 | A trimmed string content is its own content text. |
| PatchedFrontend.ContentToolCall | meta_frontend_patched.py:300-304 | Without a structured call, the call is the parsed content's `tool_call`. |
| PatchedFrontend.SameToolRequest | meta_frontend_patched.py:314-317 | For a trimmed string name, both meta front-ends post the same JSON-RPC request. |
| PatchedFrontend.MetaToolRequest | meta_frontend.py:539-541 | `meta_frontend.py` posts id 1, the stripped name and the arguments. |
| PatchedFrontend.PatchedToolRequest | meta_frontend_patched.py:314-317 | `meta_frontend_patched.py` posts id 1, the name as given and the arguments. |
| WeatherChat.SplitSecond | llama_chat_weather.py:73 | `split("weather in")[1]` is the text after the first occurrence, up to the next one or the end, and contains no occurrence itself. |
| WeatherChat.FirstOccurrence | llama_chat_weather.py:73 | The position found is an occurrence, and no earlier one exists. |
| WeatherChat.ContainsFound | llama_chat_weather.py:71-73 | A text that contains the separator has a first index. |
| WeatherChat.NoOccurrenceBetween | llama_chat_weather.py:73 | A stretch in which no occurrence starts contains no occurrence. |
| WeatherChat.City | llama_chat_weather.py:73 | The city is the second split segment, stripped, with its trailing `?` dropped. It contains no "weather in", does not start with white space and does not end in `?`. |
| WeatherChat.CleanedSegment | llama_chat_weather.py:73 | Stripping and `rstrip("?")` keep a slice, so no "weather in" appears and no leading space is left. |
| WeatherChat.CityExample | llama_chat_weather.py:71-73 | "Weather in Paris?" is a weather prompt for the city "paris". |
| WeatherChat.Capitalize | llama_chat_weather.py:43 | `capitalize()` upper-cases the first character and lower-cases the rest, keeping the length. |
| WeatherChat.ShapeWeather | llama_chat_weather.py:38-46 | A shaped answer has exactly the keys location, temperature, description, humidity, wind_speed in order; a body that is not a dict raises. |
| WeatherChat.WeatherObject | llama_chat_weather.py:40-46 | The returned dict has the five keys in source order, with string values. |
| WeatherChat.WeatherError | llama_chat_weather.py:47-50 | A reply other than 200 gives a dict with the single key `error`. |
| WeatherChat.GetWeather | llama_chat_weather.py:30-50 | A transport failure raises. Any status but 200 gives the `error` dict without reading the body. A 200 reply is decoded and shaped. A success has either the error key or the five weather keys. |
| WeatherChat.MessageContent | llama_chat_weather.py:106 | A result that is not a dict raises AttributeError. The chained `.get` succeeds exactly when the completion message, default `{}`, is a dict. |
| WeatherChat.ReplyContent | llama_chat_weather.py:107 | A dict content gives its `text` as it is, or "[No response]" when absent. A string is stripped. Anything else is exactly `str(content).strip()`. |
| WeatherChat.WeatherEffect | llama_chat_weather.py:72-80 | The lookup completes exactly when `get_weather` returns, appending one assistant turn with the indented JSON; otherwise it reports "Weather lookup failed: ..." and appends nothing. |
| WeatherChat.InferenceEffect | llama_chat_weather.py:91-116 | The turn completes exactly when the post and the content read succeed. It then appends the reply content. A failed post appends nothing and reports "Error: ..." with its text. |
| WeatherChat.HandleTurnSpec | llama_chat_weather.py:66-116 | A completed run appends exactly one assistant turn; any other run appends nothing. A weather prompt takes the weather path and never calls the model; any other prompt takes the inference path. |
| WeatherChat.HandleTurn | llama_chat_weather.py:66-111 | A city is looked up exactly for a weather prompt, and then no model request is sent. Otherwise the system prompt and the window including the prompt are sent. The history becomes the old history, the user's turn, then what `HandleTurnSpec` specifies. |
| WeatherChat.AppendEffect | llama_chat_weather.py:76-77 | The assistant turn of a completed run is appended; nothing otherwise. |
| JsonRpc.StatusError | mcp_client.py:18 | `raise_for_status()` raises exactly for statuses 400-599. |
| JsonRpc.Post | mcp_client.py:17-19 | A 4xx or 5xx status raises HTTPError. A post succeeds exactly when the server answered with a non-error status and a JSON body. |
| JsonRpc.ParamsOrEmpty | mcp_client.py:15 | `params or {}`: truthy params are sent as they are; falsy params are replaced by `{}`. |
| JsonRpc.Envelope | mcp_client.py:11-16 | The request has keys jsonrpc, id, method, params in that order, with "2.0", the id, the method and `params or {}`. |
| JsonRpc.Interpret | mcp_client.py:19-22 | A response with an `error` key raises. Without one, decoding succeeds exactly when a `result` key exists, and returns that result. |
| JsonRpc.RemoteErrorRaised | mcp_client.py:20-21 | A well-formed error response raises exactly "[code] message". |
| JsonRpc.CallOutcomeSpec | mcp_client.py:17-22 | A call returns exactly when the post gave a JSON body that decodes to a result, and returns that result. A 4xx or 5xx status raises HTTPError before the body is read. |
| JsonRpc.McpHttpClient.constructor | mcp_client.py:5-7 | A new client has counter 0 and has sent nothing. |
| JsonRpc.McpHttpClient.SendRequest | mcp_client.py:9-22 | The counter is incremented first, so it advances even when the call fails. The request posted carries the new counter as id. The outcome is `CallOutcome` of the reply. |
| JsonRpc.CallInSequence | mcp_client.py:9-16 | The k-th request of a fresh client carries id k (from 1) and that call's method and params, whatever earlier calls returned or raised. |
| JsonRpcPipe.ReadLine | mcp_debug_client.py:46 | `readline()` takes the next line, or "" at the end of the stream. |
| JsonRpcPipe.ExecuteParams | mcp_debug_client.py:34-38 | The execute params have keys resource, tool, params in order, with `params or {}`. |
| JsonRpcPipe.LineOutcome | mcp_debug_client.py:45-50 | An undecodable line raises the decoder's error; otherwise the line is decoded as a JSON-RPC response. |
| JsonRpcPipe.McpClient.constructor | mcp_debug_client.py:11-20 | A new client has counter 0, has written nothing, and sees the server's whole output. |
| JsonRpcPipe.McpClient.SendRequestJson | mcp_debug_client.py:40-43 | Exactly one line is written: the JSON text plus a newline. |
| JsonRpcPipe.McpClient.GetResponse | mcp_debug_client.py:45-50 | Exactly one line is consumed and decoded; nothing is written. |
| JsonRpcPipe.McpClient.SendRawRequest | mcp_debug_client.py:22-31 | The id is incremented before the write. One line holding the request with that id is written, and one reply line is consumed and decoded. |
| JsonRpcPipe.McpClient.SendRequest | mcp_debug_client.py:33-38 | The request always uses the method `execute`, with the resource, tool and params; one line is written and one is read. |
| JsonRpcPipe.ExecuteParamsSentVerbatim | mcp_debug_client.py:34-38 | The execute params are never falsy, so `or {}` never replaces them. |
| JsonRpcPipe.TwoRequests | mcp_debug_client.py:63-72 | Two calls write two lines and consume two replies; the second call's outcome is the second line's, and the third line stays unread. |
| FileServer.Prop | simple-mcp-fileserver/simple-mcp-fileserver.js:91 | `v.key` throws a TypeError exactly for `undefined` and `null`, and reads an object's own binding. |
| FileServer.Member | simple-mcp-fileserver/simple-mcp-fileserver.js:102 | A non-throwing read agrees with `Prop`. |
| FileServer.Prefix | simple-mcp-fileserver/simple-mcp-fileserver.js:128 | `slice(0, n)` is the prefix of exactly min(n, length) elements. |
| FileServer.UpperFirst | simple-mcp-fileserver/simple-mcp-fileserver.js:195 | The first character is upper-cased and the rest kept, with the same length. |
| FileServer.Wrap | simple-mcp-fileserver/simple-mcp-fileserver.js:93-97 | The envelope has jsonrpc "2.0", the payload under its kind, and the id, which is left out when undefined. |
| FileServer.ResultEnvelope | simple-mcp-fileserver/simple-mcp-fileserver.js:97 | A well-formed result envelope carrying the result. |
| FileServer.ErrorEnvelope | simple-mcp-fileserver/simple-mcp-fileserver.js:93 | A well-formed error envelope carrying `{code, message}`. |
| FileServer.Settle | simple-mcp-fileserver/simple-mcp-fileserver.js:91-100 | A callback result is sent as the result. A callback error is sent as code 1 with its message. A synchronous TypeError is thrown. |
| FileServer.StringsJson | simple-mcp-fileserver/simple-mcp-fileserver.js:119 | The file names become a JSON array of the same strings, in order. |
| FileServer.Capabilities | simple-mcp-fileserver/simple-mcp-fileserver.js:73-81 | The six capabilities are listed in order, each supported. |
| FileServer.InitializeResult | simple-mcp-fileserver/simple-mcp-fileserver.js:72-85 | The initialize result has capabilities, serverName "simple-mcp-fileserver", version "1.0.0" and mcp, in that order. |
| FileServer.ReadFileReply | simple-mcp-fileserver/simple-mcp-fileserver.js:90-100 | A missing `params` throws. Otherwise the file read is settled. |
| FileServer.WriteFileReply | simple-mcp-fileserver/simple-mcp-fileserver.js:101-111 | A missing `params` throws. Otherwise the write of `params.content` is settled with "ok". |
| FileServer.ListDirReply | simple-mcp-fileserver/simple-mcp-fileserver.js:112-122 | A missing `params` throws. Otherwise the listing is settled as a string array. |
| FileServer.Extract | simple-mcp-fileserver/simple-mcp-fileserver.js:125-126 | The `params.path` error is caught along with the extractor's error. |
| FileServer.TextReply | simple-mcp-fileserver/simple-mcp-fileserver.js:123-157 | readPDF and readDocx answer with the first min(3000, length) characters of the text, or with code 1 and the error message. |
| FileServer.RowsReply | simple-mcp-fileserver/simple-mcp-fileserver.js:158-171 | readExcel answers with the first min(50, count) rows, or with code 1. |
| FileServer.Describe | simple-mcp-fileserver/simple-mcp-fileserver.js:195 | A string description is capitalised; a read succeeds only on a string. |
| FileServer.Description | simple-mcp-fileserver/simple-mcp-fileserver.js:195 | The description of the first weather entry, with its first letter upper-cased. |
| FileServer.WeatherObject | simple-mcp-fileserver/simple-mcp-fileserver.js:192-198 | The weather object has the five keys in source order. |
| FileServer.ShapeWeather | simple-mcp-fileserver/simple-mcp-fileserver.js:190-198 | A shaped body has the five keys; a null body throws "Cannot read properties of null (reading 'name')". |
| FileServer.UpstreamMessage | simple-mcp-fileserver/simple-mcp-fileserver.js:206 | The upstream data's truthy `message` wins over the error's own message. |
| FileServer.StatusOr500 | simple-mcp-fileserver/simple-mcp-fileserver.js:205 | A missing (zero) status becomes 500; any other status is kept. |
| FileServer.WeatherEnvelope | simple-mcp-fileserver/simple-mcp-fileserver.js:189-210 | Each outcome maps to its envelope: an upstream refusal keeps its status and message; no response gives 500; a body that fails to shape gives 500 with the TypeError; a shaped body is the result. |
| FileServer.WeatherReply | simple-mcp-fileserver/simple-mcp-fileserver.js:172-210 | A missing `params` throws. Otherwise the fetch for `params.location` is answered. |
| FileServer.RemoveWordFrom | simple-mcp-fileserver/simple-mcp-fileserver.js:216-217 | The substitution never lengthens the rest of the text. A character that starts no match is copied first. |
| FileServer.RemoveWordFromUnmatched | simple-mcp-fileserver/simple-mcp-fileserver.js:216-217 | With no whole-word match from a position on, the rest of the text is copied unchanged. |
| FileServer.RemoveWord | simple-mcp-fileserver/simple-mcp-fileserver.js:216-217 | Removing a whole word never lengthens the text, leaves a text without matches unchanged, and leaves no whole-word match of BEGIN or COMMIT (of any word made of word characters). |
| FileServer.NoMatchRemains | simple-mcp-fileserver/simple-mcp-fileserver.js:216-217 | What is left from a position holds no whole-word match, except possibly at its start when the character before the position is a word character. |
| FileServer.CleanCypher | simple-mcp-fileserver/simple-mcp-fileserver.js:215-219 | The cleaned query has no `;`, no surrounding white space, and is no longer than the input. |
| FileServer.ReplaceCharDrops | simple-mcp-fileserver/simple-mcp-fileserver.js:218 | `replace(/;/g, '')` removes every semicolon. |
| FileServer.StripKeepsAbsent | simple-mcp-fileserver/simple-mcp-fileserver.js:219 | Trimming adds no character. |
| FileServer.SliceKeepsAbsent | simple-mcp-fileserver/simple-mcp-fileserver.js:219 | A slice holds no character the whole text lacks. |
| FileServer.CleanedCypher | simple-mcp-fileserver/simple-mcp-fileserver.js:212-219 | A string `cypher` parameter is cleaned. A missing `params` throws. |
| FileServer.Neo4jEnvelope | simple-mcp-fileserver/simple-mcp-fileserver.js:36-41 | A successful run answers `{summary}`; a failure answers code 500 with its message. |
| FileServer.SaveReply | simple-mcp-fileserver/simple-mcp-fileserver.js:211-221 | A cleaning failure is thrown; otherwise the Neo4j envelope of the cleaned query is the reply. |
| FileServer.LoaderReply | simple-mcp-fileserver/simple-mcp-fileserver.js:223-246 | A missing `params` throws. A failed run answers code 1 with stderr; a successful run answers stdout. |
| FileServer.FileRoute | simple-mcp-fileserver/simple-mcp-fileserver.js:90-171 | Every file branch answers with a well-formed envelope carrying the request's id; only the unguarded branches can throw. |
| FileServer.ServiceRoute | simple-mcp-fileserver/simple-mcp-fileserver.js:172-247 | Every service branch answers with a well-formed envelope. |
| FileServer.Route | simple-mcp-fileserver/simple-mcp-fileserver.js:69-254 | Every answer is a well-formed envelope. An unknown method gets -32601 "Method not found". Only the unguarded branches can throw. |
| FileServer.Dispatch | simple-mcp-fileserver/simple-mcp-fileserver.js:65-255 | The same, for a body whose `method` may be missing or not a string, which is also answered as not found. |
| FileServer.RouteInitialize | simple-mcp-fileserver/simple-mcp-fileserver.js:69-89 | `initialize` is answered with the capabilities result and the request's id. |
| FileServer.FileRouteBranches | simple-mcp-fileserver/simple-mcp-fileserver.js:90-171 | A file method is routed to the file branches, and each name reaches its own handler: readFile, writeFile and listDir their replies, readPDF and readDocx the first 3000 characters of the PDF and docx text, readExcel the first 50 rows. |
| FileServer.ServiceRouteBranches | simple-mcp-fileserver/simple-mcp-fileserver.js:172-246 | A service method is routed to the service branches: get_weather to the weather reply, saveToNeo4j to the save reply, processPdf to the loader reply. |
| FileServer.DispatchRoutes | simple-mcp-fileserver/simple-mcp-fileserver.js:65-69 | A body with a string `method` is answered by the route for that name, with the body's `params` and `id`. |
| FileServer.HttpResponse.constructor | simple-mcp-fileserver/simple-mcp-fileserver.js:65 | A new response has no headers set and nothing sent. |
| FileServer.HttpResponse.SetHeader | simple-mcp-fileserver/simple-mcp-fileserver.js:67 | One header is recorded; nothing is sent. |
| FileServer.HttpResponse.SendJson | simple-mcp-fileserver/simple-mcp-fileserver.js:89 | `res.json` sends exactly one envelope. |
| FileServer.HttpResponse.Fail | simple-mcp-fileserver/simple-mcp-fileserver.js:212 | An error thrown by the route is sent as exactly one failure. |
| FileServer.Session.constructor | simple-mcp-fileserver/simple-mcp-fileserver.js:26 | A new session is open and has run nothing. |
| FileServer.Session.Run | simple-mcp-fileserver/simple-mcp-fileserver.js:36 | One query runs in an open session and is recorded. |
| FileServer.Session.Close | simple-mcp-fileserver/simple-mcp-fileserver.js:43 | The session is closed and its queries are kept. |
| FileServer.SaveToNeo4j | simple-mcp-fileserver/simple-mcp-fileserver.js:25-45 | One query runs in a fresh session, which ends closed whatever the outcome. Exactly one reply, the Neo4j envelope, is sent. |
| FileServer.Handle | simple-mcp-fileserver/simple-mcp-fileserver.js:65-255 | The content type is set first, then exactly one reply is sent: the one `Dispatch` specifies. |
| FileServer.HandleSave | simple-mcp-fileserver/simple-mcp-fileserver.js:211-221 | The saveToNeo4j branch sends exactly the reply `SaveReply` specifies. |
| FileServer.SaveDispatched | simple-mcp-fileserver/simple-mcp-fileserver.js:211-221 | Dispatching saveToNeo4j is `SaveReply` of the body's params and id. |
| FileServer.ClientSeesMethodNotFound | simple-mcp-fileserver/simple-mcp-fileserver.js:250-254 | A request that the Python client builds for an unrouted method is answered with -32601 and its id. The client then raises "[-32601] Method not found". |
| FileServer.UnknownRequestNotFound | simple-mcp-fileserver/simple-mcp-fileserver.js:250-254 | An unrouted method is answered with the not-found envelope and the request's id. |
| FileServer.NotFoundRaised | simple-mcp-fileserver/simple-mcp-fileserver.js:251 | The not-found envelope makes the client raise "[-32601] Method not found". |
| FileServer.ClientReceivesResult | simple-mcp-fileserver/simple-mcp-fileserver.js:97 | A result envelope decodes, in the client, to exactly its result. |
| FileServer.CleanCypherKeepsCleanText | simple-mcp-fileserver/simple-mcp-fileserver.js:215-219 | A query with no `;`, no surrounding space and no whole-word BEGIN or COMMIT is unchanged. |
| FileServer.WeatherShaped | simple-mcp-fileserver/simple-mcp-fileserver.js:192-198 | A documented upstream body gives "name, country", "temp °F", the capitalised description, "humidity%" and "speed mph". |
| FileServer.WeatherReadsSucceed | simple-mcp-fileserver/simple-mcp-fileserver.js:192-198 | Every read of such a body succeeds. |
| FileServer.WeatherDataReads | simple-mcp-fileserver/simple-mcp-fileserver.js:193-197 | Each of the nested reads finds its field. |
| FileServer.WeatherTopReads | simple-mcp-fileserver/simple-mcp-fileserver.js:193-197 | The top-level members of the documented body. |
| FileServer.CleanCypherExample | simple-mcp-fileserver/simple-mcp-fileserver.js:215-219 | "begin x" cleans to "x": keywords match in any case, and the space they leave is trimmed. |
| FileServer.RemoveBeginExample | simple-mcp-fileserver/simple-mcp-fileserver.js:216 | Removing "begin" from "begin x" leaves " x". |
| PdfLoader.ValueFor | my_real_pdf_loader.py:85-88 | An empty `properties` list becomes `{}`. |
| PdfLoader.ConformedValues | my_real_pdf_loader.py:84-88 | One conformed value per item. |
| PdfLoader.Conform | my_real_pdf_loader.py:81-100 | Scalars come back unchanged; a list keeps its length; a dict stays a dict. |
| PdfLoader.SafeJsonLoadsAndConform | my_real_pdf_loader.py:102-106 | Unparsable content gives None; parsable content gives its conformed value. |
| PdfLoader.ConformValue | my_real_pdf_loader.py:81-100 | The loops compute exactly `Conform`. |
| PdfLoader.PutKeepsDistinct | my_real_pdf_loader.py:86-88 | Binding a key keeps the dict's keys distinct. |
| PdfLoader.BindInOrder | my_real_pdf_loader.py:84-88 | With distinct keys, the loop lays out the items in their original order with their new values. |
| PdfLoader.KeepAllowedFacts | my_real_pdf_loader.py:91 | The comprehension keeps exactly the allowed keys, with their values. |
| PdfLoader.KeepAllowedDistinct | my_real_pdf_loader.py:91 | The comprehension keeps keys distinct. |
| PdfLoader.RestrictShape | my_real_pdf_loader.py:89-95 | A graph object ends with exactly the two keys `entities` and `relations`. Each keeps the list it held, and becomes `[]` when it was missing or not a list. |
| PdfLoader.RestrictKeys | my_real_pdf_loader.py:89-95 | Exactly the allowed keys remain. Each keeps the list it held, and becomes `[]` when it was missing or not a list. |
| PdfLoader.RestrictDistinct | my_real_pdf_loader.py:89-95 | The restricted object has distinct keys. |
| PdfLoader.ConformKeepsKeys | my_real_pdf_loader.py:84-96 | A non-graph dict keeps its keys in order, each bound to its conformed value. |
| PdfLoader.ConformList | my_real_pdf_loader.py:97-98 | A list is conformed element by element, in order. |
| PdfLoader.EmptyPropertiesBecomeDict | my_real_pdf_loader.py:85-86 | An empty `properties` list becomes `{}`. |
| PdfLoader.ConformGraph | my_real_pdf_loader.py:89-95 | A dict with `entities` or `relations` comes out with exactly those two keys. Each holds the conformed list it was given, or `[]` when it was missing or not a list. |
| PdfLoader.LookupConformed | my_real_pdf_loader.py:84-88 | After the loop, a graph key holds the conformed value of its item, and it is a list exactly when the item was one. |
| PdfLoader.LoadCompanyNames | my_real_pdf_loader.py:26-36 | A missing file gives []. Otherwise the names come out strictly increasing, and are exactly the stripped, non-empty `name` cells. |
| PdfLoader.NamesOfStep | my_real_pdf_loader.py:32-35 | Each row adds its stripped name when it passes `if name:`. |
| PdfLoader.SortNames | my_real_pdf_loader.py:36 | `sorted(names)` is increasing and has exactly the set's members. |
| PdfLoader.Least | my_real_pdf_loader.py:36 | The result is the least member of the set. |
| PdfLoader.BelowIrreflexive | my_real_pdf_loader.py:36 | Python string order is irreflexive. |
| PdfLoader.BelowTransitive | my_real_pdf_loader.py:36 | Python string order is transitive. |
| PdfLoader.BelowTotal | my_real_pdf_loader.py:36 | Python string order is total. |
| PdfLoader.NamesOfMembers | my_real_pdf_loader.py:31-35 | A name is loaded exactly when some listed row strips to it. |
| PdfLoader.NamesOfSound | my_real_pdf_loader.py:31-35 | Every loaded name comes from some listed row. |
| PdfLoader.NamesOfComplete | my_real_pdf_loader.py:31-35 | Every listed row's name is loaded. |
| PdfLoader.NamesStripped | my_real_pdf_loader.py:35 | Every loaded name has no surrounding white space. |
| PdfLoader.BlankNameLoadsEmpty | my_real_pdf_loader.py:33-35 | A whitespace-only cell passes `if name:` and loads as "". |
| PdfLoader.IncreasingDistinct | my_real_pdf_loader.py:36 | The sorted names have no duplicates. |
| PdfLoader.IncreasingUnique | my_real_pdf_loader.py:36 | `sorted` of a set is determined by its members. |
| PdfLoader.AllowedSet | my_real_pdf_loader.py:39 | Every loaded name's upper case is in `allowed_set`. |
| PdfLoader.AllowedSetUpper | my_real_pdf_loader.py:39 | Every member of `allowed_set` is upper case and is the upper case of a loaded name. |

## Left out

- Route, Dispatch: their own contracts state the envelope shape, the not-found answer and which branches can throw. Which handler each routed name reaches is stated by the lemmas RouteInitialize, FileRouteBranches, ServiceRouteBranches and DispatchRoutes.
- SplitLines: its own contract states only that no line holds a boundary. That the lines hold every other character in order is the lemma SplitLinesKeepText. Which boundary separated two lines is recovered only for `\n`-only texts, by SplitLinesRejoin.
- CollapseQuotes: its own contract states only that no three quotes remain in a row. The exact rule is stated per run: QuotePiece and CollapseLongRun for long runs, CollapseQuotesFromShortRuns for texts without a long run.
- Network, files and processes are inputs. That covers:
  - the Llama endpoint, the tool server and the weather service replies (`HttpReply`, `WeatherReply`, `Fetch`);
  - the file system, pdf-parse, mammoth, xlsx, the Neo4j driver and `child_process.exec` (the `World` record);
  - the child server's output lines.
- The Streamlit UI is not modelled: titles, captions, spinners, `st.error`/`st.success`/`st.json` displays, and the re-rendering of the history. Only the session history and how the run ends (completed, stopped, or the error message shown) are kept.
- The DEBUG_MODE displays are not modelled. They only show values. The displays of the payload, the result, the tool call and the Cypher text (meta_frontend.py:216, 461, 534-535 and 584; meta_frontend_patched.py:282) have no `try` around them, but they receive JSON values or strings, which they show without raising. The displays that decode a response body (meta_frontend.py:218-223 and 627-633) catch their own errors.
- Streamlit re-executes the script on every input, so each front-end creates a new `MCPHttpClient` per turn. Its one request therefore carries id 1, and the counter across turns is not modelled.
- The system prompts and the `tools` catalogues are constant texts, passed in or left out. The model's reply to them is an input.
- JSON decoding and encoding (`json.loads`, `json.dumps`, the indented dump), `str()` of non-string values and `unicode_escape` are parameters (`Codec`, `Env`). Their text formats are not modelled.
- The delimited-block regex of meta_frontend.py:506-510 is a parameter (`Env.cypherBlock`). The model gets the first group of the first match, or nothing.
- Cypher.MarkerMatchAt: the marker regexes of meta_frontend.py:40-41 are modelled by their characterisation. That is: the greedy star run, the first reachable occurrence of the word, and the first reachable run of six or more stars, with `.` never crossing a newline. The regex engine itself is not modelled.
- Case mapping (`lower`, `upper`, `capitalize`, `toUpperCase`, `re.IGNORECASE`) covers ASCII letters only. For the marker words, the case-insensitive match also accepts KELVIN SIGN and LATIN SMALL LETTER LONG S, as Python does.
- Numbers are whole numbers. Floats and the formatting of temperatures, humidity and wind speed come from `IntToString`, which differs from JavaScript and Python for non-integers.
- CSV parsing (`csv.DictReader`) is not modelled. The file is given as the sequence of its `name` cells, or None when the path does not exist.
- PdfLoader.ConformKeepsKeys, PdfLoader.ConformGraph, PdfLoader.RestrictShape: these assume distinct keys, as every Python dict has. A JSON object with a repeated key is decoded by `json.loads` keeping the last value; the model does not re-derive that.
- The pipeline run, the embedder, the Neo4j writes of the loader and `run_pipeline_on_file` are not modelled. They are library calls.
- The `/health` route, CORS headers, `listen` and the environment-variable port of the tool server are not modelled.
- The stderr logging thread, `subprocess.Popen`, `close()` and `time.sleep` of the pipe client are not modelled.
- `get_weather`'s request parameters (API key, units) and the server's `weatherParams` are not modelled. The model gets the outcome of the request.
- MetaFrontend.Decide, PatchedFrontend.Decide: their own ensures state only the halting, error and non-empty-call cases. The rest of the answer is stated by ReadMessage, ReadPatched and FindToolCall.
- Prefix: counts Unicode scalar values, where JavaScript's `slice` counts UTF-16 code units. For text with characters beyond U+FFFF, JavaScript keeps fewer characters and can split a surrogate pair; the model does neither.
- TextReply: its 3000-character cut inherits Prefix's counting. It is in scalar values, not UTF-16 code units.
- Index0: `s[0]` of a string is the first scalar value, not the first UTF-16 code unit. It is a lone high surrogate in JavaScript when the text starts beyond U+FFFF.
- UpperFirst: `charAt(0)` and `slice(1)` split at the first scalar value, not at the first UTF-16 code unit, for the same reason.
- Python errors other than those the source catches or raises are reported by their message text. The exception class is kept only where an `except` clause distinguishes it (HTTPError, RequestException, other).

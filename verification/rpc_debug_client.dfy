/** `MCPClient` of mcp_debug_client.py: JSON-RPC 2.0 over the standard streams of a
    spawned server, one request line written and one response line read per call. The
    process is abstracted as the lines written to its stdin and the lines it still has to
    offer on stdout. */
module JsonRpcPipe {
  import opened Wrappers
  import opened JsonValue
  import opened JsonRpc

  /** `readline()` on the server's stdout: the next line, or "" at end of stream. */
  function ReadLine(pending: seq<string>): (r: (string, seq<string>))
    ensures pending == [] ==> r == ("", [])
    ensures pending != [] ==> r == (pending[0], pending[1..])
  {
    if pending == [] then ("", []) else (pending[0], pending[1..])
  }

  /** The params of `send_request(resource, tool, params)`, keys in source order. */
  function ExecuteParams(resource: Json, tool: Json, params: Json): (p: Json)
    ensures p.JObj? && Keys(p.fields) == ["resource", "tool", "params"]
    ensures Lookup(p.fields, "resource") == Some(resource)
    ensures Lookup(p.fields, "tool") == Some(tool)
    ensures Lookup(p.fields, "params") == Some(ParamsOrEmpty(params))
  {
    var fields := [Field("resource", resource), Field("tool", tool), Field("params", ParamsOrEmpty(params))];
    LookupAt(fields, 1, "tool");
    LookupAt(fields, 2, "params");
    JObj(fields)
  }

  /** What `_get_response` returns or raises for the line it read. */
  function LineOutcome(codec: Codec, line: string): (r: Result<Json, string>)
    ensures codec.loads(line).Failure? ==> r == Failure(codec.loads(line).error)
    ensures codec.loads(line).Success? ==> r == Interpret(codec, codec.loads(line).value)
  {
    var response :- codec.loads(line);
    Interpret(codec, response)
  }

  /** One request as written to the server's stdin: its JSON text and a newline. */
  function WireLine(codec: Codec, request: Json): string {
    codec.dumps(request) + "\n"
  }

  class McpClient {
    const codec: Codec
    var requestId: nat
    /** Everything written to the server's stdin, one entry per write. */
    var written: seq<string>
    /** The lines the server has produced that have not been read yet. */
    var pending: seq<string>

    /** The counter equals the number of requests written. */
    predicate Valid()
      reads this
    {
      requestId == |written|
    }

    constructor(codec: Codec, serverOutput: seq<string>)
      ensures this.codec == codec && requestId == 0 && written == [] && pending == serverOutput
      ensures Valid()
    {
      this.codec := codec;
      requestId := 0;
      written := [];
      pending := serverOutput;
    }

    /** `_send_request_json`: one line, the JSON text and a newline, then a flush. */
    method SendRequestJson(request: Json)
      modifies this
      ensures written == old(written) + [WireLine(codec, request)]
      ensures requestId == old(requestId) && pending == old(pending)
    {
      written := written + [WireLine(codec, request)];
    }

    /** `_get_response`: consumes exactly one line (nothing at end of stream). */
    method GetResponse() returns (r: Result<Json, string>)
      modifies this
      ensures (r, pending) == (LineOutcome(codec, ReadLine(old(pending)).0), ReadLine(old(pending)).1)
      ensures written == old(written) && requestId == old(requestId)
    {
      var line: string;
      line, pending := ReadLine(pending).0, ReadLine(pending).1;
      r := LineOutcome(codec, line);
    }

    /** `send_raw_request(method, params)`: the id is incremented before the write. */
    method SendRawRequest(name: Json, params: Json) returns (r: Result<Json, string>)
      requires Valid()
      modifies this
      ensures Valid()
      ensures requestId == old(requestId) + 1
      ensures written == old(written) + [WireLine(codec, Envelope(requestId, name, params))]
      ensures pending == ReadLine(old(pending)).1
      ensures r == LineOutcome(codec, ReadLine(old(pending)).0)
    {
      requestId := requestId + 1;
      var request := Envelope(requestId, name, params);
      SendRequestJson(request);
      r := GetResponse();
    }

    /** `send_request(resource, tool, params)`: always the method 'execute'. */
    method SendRequest(resource: Json, tool: Json, params: Json) returns (r: Result<Json, string>)
      requires Valid()
      modifies this
      ensures Valid()
      ensures requestId == old(requestId) + 1
      ensures written == old(written)
                         + [WireLine(codec, Envelope(requestId, JStr("execute"), ExecuteParams(resource, tool, params)))]
      ensures pending == ReadLine(old(pending)).1
      ensures r == LineOutcome(codec, ReadLine(old(pending)).0)
    {
      r := SendRawRequest(JStr("execute"), ExecuteParams(resource, tool, params));
    }
  }

  /** The params object of an 'execute' request is never falsy, so it is sent as built. */
  lemma ExecuteParamsSentVerbatim(resource: Json, tool: Json, params: Json)
    ensures ParamsOrEmpty(ExecuteParams(resource, tool, params)) == ExecuteParams(resource, tool, params)
  {
  }

  /** Each call consumes exactly one response line: two calls against a server that
      produced three lines leave the third unread, and the two calls wrote two lines. */
  method TwoRequests(codec: Codec, l1: string, l2: string, l3: string, resource: Json, tool: Json, params: Json)
    returns (written: seq<string>, left: seq<string>, r2: Result<Json, string>)
    ensures |written| == 2 && left == [l3]
    ensures r2 == LineOutcome(codec, l2)
  {
    var client := new McpClient(codec, [l1, l2, l3]);
    var r1 := client.SendRawRequest(JStr("list_tools"), Obj1("resource", JStr("file://")));
    assert client.requestId == 1 && client.pending == [l2, l3];
    r2 := client.SendRequest(resource, tool, params);
    written, left := client.written, client.pending;
  }
}

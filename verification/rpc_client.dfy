/** The JSON-RPC 2.0 HTTP client `MCPHttpClient` (mcp_client.py, and the identical copies
    inside meta_frontend.py and meta_frontend_patched.py). The HTTP POST itself is an
    input: the reply the server gave, or the transport failure. */
module JsonRpc {
  import opened Wrappers
  import opened Text
  import opened JsonValue

  /** What `requests.post(...)` produced: a transport failure (connection refused, timeout)
      with the text of the raised exception, or an HTTP reply whose body either decodes
      as JSON or makes `response.json()` raise with the given text. */
  datatype HttpReply =
    | Unreachable(message: string)
    | Answered(status: int, reason: string, body: Result<Json, string>)

  /** The class of exception a step raised, which decides the `except` clause that catches
      it, with the text `str(e)` would give. */
  datatype PyError =
    | HttpError(text: string)     // requests.exceptions.HTTPError from raise_for_status()
    | RequestError(text: string)  // any other requests.exceptions.RequestException
    | Raised(text: string)        // any other Exception

  function ErrorText(e: PyError): string {
    match e
    case HttpError(t) => t
    case RequestError(t) => t
    case Raised(t) => t
  }

  /** `response.raise_for_status()`: the message requests formats for 4xx and 5xx replies,
      or None when the status is not an error. */
  function StatusError(url: string, status: int, reason: string): (r: Option<string>)
    ensures r.Some? <==> 400 <= status < 600
  {
    if 400 <= status < 500 then Some(IntToString(status) + " Client Error: " + reason + " for url: " + url)
    else if 500 <= status < 600 then Some(IntToString(status) + " Server Error: " + reason + " for url: " + url)
    else None
  }

  /** `requests.post(...)`, `response.raise_for_status()`, `response.json()`. A failing
      `response.json()` raises requests' JSONDecodeError, which is a RequestException. */
  function Post(url: string, reply: HttpReply): (r: Result<Json, PyError>)
    ensures reply.Answered? && 400 <= reply.status < 600 ==>
              r == Failure(HttpError(StatusError(url, reply.status, reply.reason).value))
    ensures r.Success? <==> reply.Answered? && !(400 <= reply.status < 600) && reply.body.Success?
  {
    match reply
    case Unreachable(m) => Failure(RequestError(m))
    case Answered(status, reason, body) =>
      match StatusError(url, status, reason)
      case Some(t) => Failure(HttpError(t))
      case None =>
        match body
        case Failure(m) => Failure(RequestError(m))
        case Success(j) => Success(j)
  }

  /** `params or {}`. */
  function ParamsOrEmpty(params: Json): (p: Json)
    ensures Truthy(params) ==> p == params
    ensures !Truthy(params) ==> p == JObj([])
  {
    if Truthy(params) then params else JObj([])
  }

  /** The request object of section 4 of the JSON-RPC 2.0 Specification, keys in the
      order the client writes them. */
  function Envelope(id: int, name: Json, params: Json): (e: Json)
    ensures e.JObj? && Keys(e.fields) == ["jsonrpc", "id", "method", "params"]
    ensures Lookup(e.fields, "jsonrpc") == Some(JStr("2.0"))
    ensures Lookup(e.fields, "id") == Some(JNum(id))
    ensures Lookup(e.fields, "method") == Some(name)
    ensures Lookup(e.fields, "params") == Some(ParamsOrEmpty(params))
  {
    var fields := [Field("jsonrpc", JStr("2.0")), Field("id", JNum(id)), Field("method", name),
                   Field("params", ParamsOrEmpty(params))];
    LookupAt(fields, 2, "method");
    LookupAt(fields, 3, "params");
    JObj(fields)
  }

  /** The text of `Exception(f"[{error['code']}] {error['message']}")`. */
  function RemoteErrorText(codec: Codec, code: Json, message: Json): string {
    "[" + PyStr(codec, code) + "] " + PyStr(codec, message)
  }

  /** Decoding of a response object (section 5 of the JSON-RPC 2.0 Specification) as the
      clients do it: `'error' in result` raises "[code] message", otherwise
      `result['result']` is returned; every Python error on the way is raised too. */
  function Interpret(codec: Codec, response: Json): (r: Result<Json, string>)
    ensures response.JObj? && !HasKey(response.fields, "error") ==>
              (r.Success? <==> HasKey(response.fields, "result"))
    ensures response.JObj? && !HasKey(response.fields, "error") && HasKey(response.fields, "result") ==>
              r == Success(Lookup(response.fields, "result").value)
    ensures response.JObj? && HasKey(response.fields, "error") ==> r.Failure?
  {
    var hasError :- PyIn("error", response);
    if hasError then
      var err :- Subscript(response, "error");
      var code :- Subscript(err, "code");
      var message :- Subscript(err, "message");
      Failure(RemoteErrorText(codec, code, message))
    else
      Subscript(response, "result")
  }

  /** A well-formed error response yields exactly the "[code] message" text. */
  lemma RemoteErrorRaised(codec: Codec, id: Json, code: int, message: string)
    ensures Interpret(codec, JObj([Field("jsonrpc", JStr("2.0")),
                                   Field("error", JObj([Field("code", JNum(code)), Field("message", JStr(message))])),
                                   Field("id", id)]))
            == Failure("[" + IntToString(code) + "] " + message)
  {
    var err := JObj([Field("code", JNum(code)), Field("message", JStr(message))]);
    var resp := JObj([Field("jsonrpc", JStr("2.0")), Field("error", err), Field("id", id)]);
    assert Keys(resp.fields) == ["jsonrpc", "error", "id"];
    LookupAt(resp.fields, 1, "error");
    LookupAt(err.fields, 0, "code");
    LookupAt(err.fields, 1, "message");
  }

  /** What `send_request` returns or raises, once the request has been posted. */
  function CallOutcome(codec: Codec, url: string, reply: HttpReply): Result<Json, PyError> {
    var body :- Post(url, reply);
    match Interpret(codec, body)
    case Success(v) => Success(v)
    case Failure(t) => Failure(Raised(t))
  }

  /** A call returns a value exactly when the POST produced a JSON body and that body
      decodes to a result, and the value is the decoded result; a 4xx or 5xx status is
      raised as an HTTPError before the body is looked at. */
  lemma CallOutcomeSpec(codec: Codec, url: string, reply: HttpReply)
    ensures var r := CallOutcome(codec, url, reply);
            (r.Success? <==> Post(url, reply).Success? && Interpret(codec, Post(url, reply).value).Success?)
            && (r.Success? ==> r.value == Interpret(codec, Post(url, reply).value).value)
    ensures reply.Answered? && 400 <= reply.status < 600 ==>
              CallOutcome(codec, url, reply).Failure? && CallOutcome(codec, url, reply).error.HttpError?
  {
  }

  /** The `"id"` member of a request, if it is an object carrying one. */
  function IdOf(request: Json): Option<Json> {
    if request.JObj? then Lookup(request.fields, "id") else None
  }

  /** `MCPHttpClient`: the endpoint URL and the counter of requests made. */
  class McpHttpClient {
    const url: string
    const codec: Codec
    var requestId: nat
    /** Every request posted so far, oldest first. */
    ghost var sent: seq<Json>

    /** The counter equals the number of requests sent, and the k-th request (from 1)
        carried id k. */
    ghost predicate Valid()
      reads this
    {
      requestId == |sent| && forall k :: 0 <= k < |sent| ==> IdOf(sent[k]) == Some(JNum(k + 1))
    }

    constructor(url: string, codec: Codec)
      ensures this.url == url && this.codec == codec
      ensures requestId == 0 && sent == []
      ensures Valid()
    {
      this.url := url;
      this.codec := codec;
      requestId := 0;
      sent := [];
    }

    /** `send_request(method, params)` with `name` the method: the counter is incremented first, so it advances
        even when the call then fails; `request` is what was posted and `r` what the
        call returned (`Success`) or raised (`Failure`). */
    method SendRequest(name: Json, params: Json, reply: HttpReply) returns (request: Json, r: Result<Json, PyError>)
      requires Valid()
      modifies this
      ensures Valid()
      ensures requestId == old(requestId) + 1
      ensures request == Envelope(requestId, name, params)
      ensures sent == old(sent) + [request]
      ensures r == CallOutcome(codec, url, reply)
    {
      requestId := requestId + 1;
      request := Envelope(requestId, name, params);
      sent := sent + [request];
      var body := Post(url, reply);
      if body.Failure? {
        return request, Failure(body.error);
      }
      var outcome := Interpret(codec, body.value);
      if outcome.Failure? {
        return request, Failure(Raised(outcome.error));
      }
      r := Success(outcome.value);
    }
  }

  /** The k-th request of a fresh client carries id k (from 1), whatever the calls
      returned or raised: `calls` are the (method, params, reply) triples in order. */
  method CallInSequence(url: string, codec: Codec, calls: seq<(Json, Json, HttpReply)>)
    returns (requests: seq<Json>)
    ensures |requests| == |calls|
    ensures forall k :: 0 <= k < |requests| ==> IdOf(requests[k]) == Some(JNum(k + 1))
    ensures forall k :: 0 <= k < |requests| ==> requests[k] == Envelope(k + 1, calls[k].0, calls[k].1)
  {
    var client := new McpHttpClient(url, codec);
    requests := [];
    for i := 0 to |calls|
      invariant client.Valid() && client.sent == requests && |requests| == i
      invariant forall k :: 0 <= k < i ==> requests[k] == Envelope(k + 1, calls[k].0, calls[k].1)
    {
      var request, r := client.SendRequest(calls[i].0, calls[i].1, calls[i].2);
      requests := requests + [request];
    }
  }
}

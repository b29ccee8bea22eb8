/** The `/mcp` route of simple-mcp-fileserver.js: a JSON-RPC 2.0 dispatcher that routes
    on the request's `method`, answers with an envelope echoing the request's `id`, and
    hands the real work to the file system, pdf-parse, mammoth, xlsx, axios, the Neo4j
    driver and a child process. Those are abstracted as a `World` of outcomes.

    JavaScript values are decoded JSON plus `undefined`: `JsVal` is `None` for
    `undefined`. A property read on `undefined` or `null` throws a TypeError; thrown
    synchronously inside the route it reaches Express, which answers 500 instead of an
    envelope (a `Failure` reply). */
module FileServer {
  import opened Wrappers
  import opened Text
  import opened JsonValue
  import JsonRpc

  type JsVal = Option<Json>

  /** The TypeError text of `v.key` when `v` is `undefined` or `null`. */
  function ReadError(what: string, key: string): string {
    "Cannot read properties of " + what + " (reading '" + key + "')"
  }

  /** `v.key` for a key that names no built-in property: an object's own binding,
      `undefined` for any other value, and a TypeError for `undefined` and `null`. */
  function Prop(v: JsVal, key: string): (r: Result<JsVal, string>)
    ensures r.Failure? <==> v == None || v == Some(JNull)
    ensures v.Some? && v.value.JObj? ==> r == Success(Lookup(v.value.fields, key))
  {
    match v
    case None => Failure(ReadError("undefined", key))
    case Some(JNull) => Failure(ReadError("null", key))
    case Some(JObj(fields)) => Success(Lookup(fields, key))
    case Some(_) => Success(None)
  }

  /** `v.key` once `v` is known to be neither `undefined` nor `null`. */
  function Member(v: JsVal, key: string): (r: JsVal)
    ensures v.Some? && v.value.JObj? ==> r == Lookup(v.value.fields, key)
    ensures Prop(v, key).Success? ==> r == Prop(v, key).value
  {
    if v.Some? && v.value.JObj? then Lookup(v.value.fields, key) else None
  }

  /** `v[0]`. */
  function Index0(v: JsVal): Result<JsVal, string> {
    match v
    case None => Failure(ReadError("undefined", "0"))
    case Some(JNull) => Failure(ReadError("null", "0"))
    case Some(JArr(items)) => Success(if items == [] then None else Some(items[0]))
    case Some(JStr(s)) => Success(if s == [] then None else Some(JStr([s[0]])))
    case Some(JObj(fields)) => Success(Lookup(fields, "0"))
    case Some(_) => Success(None)
  }

  /** JavaScript truthiness: unlike Python, empty arrays and objects are truthy. */
  predicate JsTruthy(j: Json) {
    match j
    case JNull => false
    case JBool(b) => b
    case JNum(n) => n != 0
    case JStr(s) => s != []
    case JArr(_) => true
    case JObj(_) => true
  }

  /** `String(j)`, which a template literal interpolates: arrays join their elements
      with commas (null elements as ""), objects print as "[object Object]". */
  function JsonString(j: Json): string
    decreases j
  {
    match j
    case JNull => "null"
    case JBool(b) => if b then "true" else "false"
    case JNum(n) => IntToString(n)
    case JStr(s) => s
    case JArr(items) =>
      Join(seq(|items|, i requires 0 <= i < |items| => if items[i].JNull? then "" else JsonString(items[i])), ",")
    case JObj(_) => "[object Object]"
  }

  function JsString(v: JsVal): string {
    if v.None? then "undefined" else JsonString(v.value)
  }

  /** `s.slice(0, n)` on a string or an array. */
  function Prefix<T>(s: seq<T>, n: nat): (r: seq<T>)
    ensures |r| == if |s| <= n then |s| else n
    ensures r == s[..|r|]
  {
    if |s| <= n then s else s[..n]
  }

  /** `s.charAt(0).toUpperCase() + s.slice(1)` (ASCII letters). */
  function UpperFirst(s: string): (r: string)
    ensures |r| == |s|
    ensures s != [] ==> r[0] == UpperChar(s[0]) && r[1..] == s[1..]
  {
    if s == [] then [] else [UpperChar(s[0])] + s[1..]
  }

  // ---------------------------------------------------------------------------------
  // Envelopes

  /** `{jsonrpc: '2.0', <kind>: ..., id}` after `JSON.stringify`, which leaves out an
      `id` that is `undefined`. */
  predicate WellFormed(e: Json, kind: string, id: JsVal) {
    && e.JObj?
    && Keys(e.fields) == ["jsonrpc", kind] + (if id.Some? then ["id"] else [])
    && Lookup(e.fields, "jsonrpc") == Some(JStr("2.0"))
    && Lookup(e.fields, "id") == id
  }

  function IdFields(id: JsVal): seq<Field> {
    if id.Some? then [Field("id", id.value)] else []
  }

  function Wrap(kind: string, payload: Json, id: JsVal): (e: Json)
    requires kind != "jsonrpc" && kind != "id"
    ensures WellFormed(e, kind, id)
    ensures Lookup(e.fields, kind) == Some(payload)
  {
    var fields := [Field("jsonrpc", JStr("2.0")), Field(kind, payload)] + IdFields(id);
    assert Keys(fields) == ["jsonrpc", kind] + (if id.Some? then ["id"] else []);
    LookupAt(fields, 1, kind);
    assert Lookup(fields, "id") == id by {
      if id.Some? { LookupAt(fields, 2, "id"); }
    }
    JObj(fields)
  }

  function ResultEnvelope(result: Json, id: JsVal): (e: Json)
    ensures WellFormed(e, "result", id)
    ensures Lookup(e.fields, "result") == Some(result)
  {
    Wrap("result", result, id)
  }

  function ErrorObject(code: Json, message: Json): Json {
    JObj([Field("code", code), Field("message", message)])
  }

  function ErrorEnvelope(code: int, message: Json, id: JsVal): (e: Json)
    ensures WellFormed(e, "error", id)
    ensures Lookup(e.fields, "error") == Some(ErrorObject(JNum(code), message))
  {
    Wrap("error", ErrorObject(JNum(code), message), id)
  }

  /** The error a failing file, PDF, Word, Excel or loader handler answers with. */
  function CodeOne(message: string, id: JsVal): Json {
    ErrorEnvelope(1, JStr(message), id)
  }

  /** Section 5.1 of the JSON-RPC 2.0 Specification: the method does not exist. */
  function NotFound(id: JsVal): Json {
    ErrorEnvelope(-32601, JStr("Method not found"), id)
  }

  // ---------------------------------------------------------------------------------
  // The handlers' effects

  /** A callback-style file operation: its result, the error passed to the callback,
      or a TypeError thrown synchronously for a bad argument. */
  datatype Outcome<T> = Done(value: T) | Failed(message: string) | Thrown(message: string)

  /** What axios delivers: the decoded body, an error with an upstream response, or an
      error without one. */
  datatype Fetch =
    | Fetched(data: Json)
    | Refused(status: int, data: Json, message: string)
    | NoResponse(message: string)

  /** What `child_process.exec` passes to its callback. */
  datatype ExecRun = ExecRun(failed: bool, stdout: string, stderr: string)

  datatype World = World(
    readFile: JsVal -> Outcome<string>,
    writeFile: (JsVal, JsVal) -> Outcome<()>,
    readDir: JsVal -> Outcome<seq<string>>,
    pdfText: JsVal -> Result<string, string>,
    docxText: JsVal -> Result<string, string>,
    sheetRows: JsVal -> Result<seq<Json>, string>,
    weather: JsVal -> Fetch,
    runCypher: string -> Result<Json, string>,
    exec: string -> ExecRun)

  /** The route's answer: an envelope, or the message of an error that escaped the
      route, which Express turns into a 500 page. */
  type Reply = Result<Json, string>

  /** How a callback-style operation is answered. */
  function Settle<T>(o: Outcome<T>, id: JsVal, encode: T -> Json): (r: Reply)
    ensures o.Done? ==> r == Success(ResultEnvelope(encode(o.value), id))
    ensures o.Failed? ==> r == Success(CodeOne(o.message, id))
    ensures o.Thrown? ==> r == Failure(o.message)
  {
    match o
    case Done(v) => Success(ResultEnvelope(encode(v), id))
    case Failed(t) => Success(CodeOne(t, id))
    case Thrown(t) => Failure(t)
  }

  function StringsJson(names: seq<string>): (r: Json)
    ensures r.JArr? && |r.items| == |names|
    ensures forall i :: 0 <= i < |names| ==> r.items[i] == JStr(names[i])
  {
    JArr(seq(|names|, i requires 0 <= i < |names| => JStr(names[i])))
  }

  // ---------------------------------------------------------------------------------
  // initialize

  const ServerMethods: seq<string> := ["readFile", "writeFile", "listDir", "get_weather", "saveToNeo4j", "processPdf"]

  function Capability(description: string): Json {
    JObj([Field("supported", JBool(true)), Field("description", JStr(description))])
  }

  function Capabilities(): (r: Json)
    ensures r.JObj? && Keys(r.fields) == ServerMethods
    ensures forall i :: 0 <= i < |r.fields| ==> r.fields[i].value.JObj? && Lookup(r.fields[i].value.fields, "supported") == Some(JBool(true))
  {
    var fields := [
      Field("readFile", Capability("Read a file from disk")),
      Field("writeFile", Capability("Write a file to disk")),
      Field("listDir", Capability("List directory contents")),
      Field("get_weather", Capability("Get the current weather conditions for a location")),
      Field("saveToNeo4j", Capability("Save Cypher query to Neo4j via HTTP")),
      Field("processPdf", Capability("Process a PDF file into Neo4j using the GraphRAG pipeline"))];
    JObj(fields)
  }

  function InitializeResult(): (r: Json)
    ensures r.JObj? && Keys(r.fields) == ["capabilities", "serverName", "version", "mcp"]
    ensures Lookup(r.fields, "capabilities") == Some(Capabilities())
    ensures Lookup(r.fields, "serverName") == Some(JStr("simple-mcp-fileserver"))
    ensures Lookup(r.fields, "version") == Some(JStr("1.0.0"))
  {
    var fields := [Field("capabilities", Capabilities()), Field("serverName", JStr("simple-mcp-fileserver")),
                   Field("version", JStr("1.0.0")), Field("mcp", JStr("filesystem"))];
    LookupAt(fields, 1, "serverName");
    LookupAt(fields, 2, "version");
    JObj(fields)
  }

  // ---------------------------------------------------------------------------------
  // File, PDF, Word and Excel branches

  function ReadFileReply(params: JsVal, id: JsVal, world: World): (r: Reply)
    ensures Prop(params, "path").Failure? ==> r == Failure(Prop(params, "path").error)
    ensures Prop(params, "path").Success? ==> r == Settle(world.readFile(Prop(params, "path").value), id, s => JStr(s))
  {
    var path :- Prop(params, "path");
    Settle(world.readFile(path), id, s => JStr(s))
  }

  function WriteFileReply(params: JsVal, id: JsVal, world: World): (r: Reply)
    ensures Prop(params, "path").Failure? ==> r == Failure(Prop(params, "path").error)
    ensures Prop(params, "path").Success? ==>
              r == Settle(world.writeFile(Prop(params, "path").value, Member(params, "content")), id, _ => JStr("ok"))
  {
    var path :- Prop(params, "path");
    var content := Member(params, "content");
    Settle(world.writeFile(path, content), id, _ => JStr("ok"))
  }

  function ListDirReply(params: JsVal, id: JsVal, world: World): (r: Reply)
    ensures Prop(params, "path").Failure? ==> r == Failure(Prop(params, "path").error)
    ensures Prop(params, "path").Success? ==> r == Settle(world.readDir(Prop(params, "path").value), id, StringsJson)
  {
    var path :- Prop(params, "path");
    Settle(world.readDir(path), id, StringsJson)
  }

  /** The text a path-reading extractor gives, or the message of the error it raised;
      the `params.path` read sits inside the `try`, so its TypeError is caught too. */
  function Extract<T>(params: JsVal, extractor: JsVal -> Result<T, string>): (r: Result<T, string>)
    ensures Prop(params, "path").Failure? ==> r == Failure(Prop(params, "path").error)
    ensures Prop(params, "path").Success? ==> r == extractor(Prop(params, "path").value)
  {
    var path :- Prop(params, "path");
    extractor(path)
  }

  /** readPDF and readDocx: the first 3000 characters, or error code 1. */
  function TextReply(params: JsVal, id: JsVal, extractor: JsVal -> Result<string, string>): (e: Json)
    ensures Extract(params, extractor).Failure? ==> e == CodeOne(Extract(params, extractor).error, id)
    ensures Extract(params, extractor).Success? ==>
              var text := Extract(params, extractor).value;
              e == ResultEnvelope(JStr(text[..if |text| <= 3000 then |text| else 3000]), id)
  {
    match Extract(params, extractor)
    case Failure(t) => CodeOne(t, id)
    case Success(text) => ResultEnvelope(JStr(Prefix(text, 3000)), id)
  }

  /** readExcel: the first 50 rows of the first sheet, or error code 1. */
  function RowsReply(params: JsVal, id: JsVal, world: World): (e: Json)
    ensures Extract(params, world.sheetRows).Failure? ==> e == CodeOne(Extract(params, world.sheetRows).error, id)
    ensures Extract(params, world.sheetRows).Success? ==>
              var rows := Extract(params, world.sheetRows).value;
              e == ResultEnvelope(JArr(rows[..if |rows| <= 50 then |rows| else 50]), id)
  {
    match Extract(params, world.sheetRows)
    case Failure(t) => CodeOne(t, id)
    case Success(rows) => ResultEnvelope(JArr(Prefix(rows, 50)), id)
  }

  // ---------------------------------------------------------------------------------
  // get_weather

  /** `data.weather[0].description.charAt(0).toUpperCase() + ....slice(1)`. */
  function Describe(description: JsVal): (r: Result<string, string>)
    ensures description.Some? && description.value.JStr? ==> r == Success(UpperFirst(description.value.s))
    ensures r.Success? ==> description.Some? && description.value.JStr?
  {
    match description
    case None => Failure(ReadError("undefined", "charAt"))
    case Some(JNull) => Failure(ReadError("null", "charAt"))
    case Some(JStr(s)) => Success(UpperFirst(s))
    case Some(_) => Failure("data.weather[0].description.charAt is not a function")
  }

  /** `data.weather[0].description`, capitalised. */
  function Description(weather: JsVal): (r: Result<string, string>)
    ensures weather.Some? && weather.value.JArr? && weather.value.items != [] && weather.value.items[0].JObj?
            && Lookup(weather.value.items[0].fields, "description").Some?
            && Lookup(weather.value.items[0].fields, "description").value.JStr? ==>
              r == Success(UpperFirst(Lookup(weather.value.items[0].fields, "description").value.s))
  {
    var first :- Index0(weather);
    var description :- Prop(first, "description");
    Describe(description)
  }

  /** The object literal of lines 192-198, once every read has succeeded. */
  function WeatherObject(name: JsVal, country: JsVal, temp: JsVal, description: string, humidity: JsVal, speed: JsVal): (w: Json)
    ensures w.JObj? && Keys(w.fields) == ["location", "temperature", "description", "humidity", "wind_speed"]
  {
    JObj([
      Field("location", JStr(JsString(name) + ", " + JsString(country))),
      Field("temperature", JStr(JsString(temp) + " \U{B0}F")),
      Field("description", JStr(description)),
      Field("humidity", JStr(JsString(humidity) + "%")),
      Field("wind_speed", JStr(JsString(speed) + " mph"))])
  }

  /** The weather object built from the upstream body, its reads failing in source
      order (the `humidity` read cannot fail once `main` has been read). */
  function ShapeWeather(data: Json): (r: Result<Json, string>)
    ensures r.Success? ==> r.value.JObj? && Keys(r.value.fields) == ["location", "temperature", "description", "humidity", "wind_speed"]
    ensures data.JNull? ==> r == Failure(ReadError("null", "name"))
  {
    var d := Some(data);
    var name :- Prop(d, "name");
    var country :- Prop(Member(d, "sys"), "country");
    var temp :- Prop(Member(d, "main"), "temp");
    var description :- Description(Member(d, "weather"));
    var speed :- Prop(Member(d, "wind"), "speed");
    Success(WeatherObject(name, country, temp, description, Member(Member(d, "main"), "humidity"), speed))
  }

  /** `err.response?.data?.message || err.message`. */
  function UpstreamMessage(data: Json, message: string): (m: Json)
    ensures data.JObj? && HasKey(data.fields, "message") && JsTruthy(Lookup(data.fields, "message").value) ==>
              m == Lookup(data.fields, "message").value
    ensures !(data.JObj? && HasKey(data.fields, "message") && JsTruthy(Lookup(data.fields, "message").value)) ==>
              m == JStr(message)
  {
    var upstream := if data.JObj? then Lookup(data.fields, "message") else None;
    if upstream.Some? && JsTruthy(upstream.value) then upstream.value else JStr(message)
  }

  /** `err.response?.status || 500`. */
  function StatusOr500(status: int): (code: int)
    ensures status != 0 ==> code == status
    ensures status == 0 ==> code == 500
  {
    if status != 0 then status else 500
  }

  /** What the promise chain answers once axios has settled. */
  function WeatherEnvelope(fetch: Fetch, id: JsVal): (e: Json)
    ensures fetch.Refused? ==> e == ErrorEnvelope(StatusOr500(fetch.status), UpstreamMessage(fetch.data, fetch.message), id)
    ensures fetch.NoResponse? ==> e == ErrorEnvelope(500, JStr(fetch.message), id)
    ensures fetch.Fetched? && ShapeWeather(fetch.data).Failure? ==>
              e == ErrorEnvelope(500, JStr(ShapeWeather(fetch.data).error), id)
    ensures fetch.Fetched? && ShapeWeather(fetch.data).Success? ==> e == ResultEnvelope(ShapeWeather(fetch.data).value, id)
  {
    match fetch
    case Fetched(data) =>
      (match ShapeWeather(data)
       case Success(w) => ResultEnvelope(w, id)
       case Failure(t) => ErrorEnvelope(500, JStr(t), id))
    case Refused(status, data, message) => ErrorEnvelope(StatusOr500(status), UpstreamMessage(data, message), id)
    case NoResponse(message) => ErrorEnvelope(500, JStr(message), id)
  }

  function WeatherReply(params: JsVal, id: JsVal, world: World): (r: Reply)
    ensures Prop(params, "location").Failure? ==> r == Failure(Prop(params, "location").error)
    ensures Prop(params, "location").Success? ==> r == Success(WeatherEnvelope(world.weather(Prop(params, "location").value), id))
  {
    var location :- Prop(params, "location");
    Success(WeatherEnvelope(world.weather(location), id))
  }

  // ---------------------------------------------------------------------------------
  // saveToNeo4j

  predicate IsWordChar(c: char) {
    ('a' <= c <= 'z') || ('A' <= c <= 'Z') || ('0' <= c <= '9') || c == '_'
  }

  /** `/\bW\b/i` matches at `i`: `w` in any ASCII letter case, with a word boundary on
      both sides (`w` is made of word characters). */
  predicate WordAt(s: string, w: string, i: int) {
    && 0 <= i && i + |w| <= |s|
    && (forall k :: 0 <= k < |w| ==> LowerChar(s[i + k]) == LowerChar(w[k]))
    && (i == 0 || !IsWordChar(s[i - 1]))
    && (i + |w| == |s| || !IsWordChar(s[i + |w|]))
  }

  /** `s.replace(/\bW\b/gi, '')` from position `i` on: every match, scanning left to
      right and resuming after each one, is dropped. */
  function RemoveWordFrom(s: string, w: string, i: nat): (r: string)
    requires w != [] && i <= |s|
    ensures |r| <= |s| - i
    ensures i < |s| && !WordAt(s, w, i) ==> r != [] && r[0] == s[i]
    decreases |s| - i
  {
    if i == |s| then []
    else if WordAt(s, w, i) then RemoveWordFrom(s, w, i + |w|)
    else [s[i]] + RemoveWordFrom(s, w, i + 1)
  }

  /** `w` is made of word characters, as BEGIN and COMMIT are. */
  predicate IsWord(w: string) {
    w != [] && forall k :: 0 <= k < |w| ==> IsWordChar(w[k])
  }

  /** The whole-word matches of a word are removed for good: the removal joins two
      non-word characters, so no new match forms. */
  function RemoveWord(s: string, w: string): (r: string)
    requires w != []
    ensures |r| <= |s|
    ensures (forall j :: 0 <= j < |s| ==> !WordAt(s, w, j)) ==> r == s
    ensures IsWord(w) ==> forall j :: 0 <= j < |r| ==> !WordAt(r, w, j)
  {
    RemoveWordFromUnmatched(s, w, 0);
    if IsWord(w) then NoMatchRemains(s, w, 0); RemoveWordFrom(s, w, 0)
    else RemoveWordFrom(s, w, 0)
  }

  /** Without a match from `i` on, the rest of the text is copied as it is. */
  lemma {:induction false} RemoveWordFromUnmatched(s: string, w: string, i: nat)
    requires w != [] && i <= |s|
    ensures (forall j :: i <= j < |s| ==> !WordAt(s, w, j)) ==> RemoveWordFrom(s, w, i) == s[i..]
    decreases |s| - i
  {
    if i < |s| && forall j :: i <= j < |s| ==> !WordAt(s, w, j) {
      RemoveWordFromUnmatched(s, w, i + 1);
      assert s[i..] == [s[i]] + s[i + 1..];
    }
  }

  /** A character that folds to a word character is one. */
  lemma FoldedWordChar(c: char, d: char)
    requires LowerChar(c) == LowerChar(d) && IsWordChar(d)
    ensures IsWordChar(c)
  {
  }

  /** `r` holds no match of `w`, except perhaps one at its start when the character before
      it may be a word character (`leftBoundary` is false). */
  predicate NoMatchIn(r: string, w: string, leftBoundary: bool) {
    && (forall j :: 0 < j < |r| ==> !WordAt(r, w, j))
    && (leftBoundary ==> !WordAt(r, w, 0))
  }

  /** What is left from `i` on holds no match, except perhaps one at its start when the
      character before `i` is a word character. */
  lemma {:induction false} NoMatchRemains(s: string, w: string, i: nat)
    requires IsWord(w) && i <= |s|
    ensures NoMatchIn(RemoveWordFrom(s, w, i), w, i == 0 || !IsWordChar(s[i - 1]))
    decreases |s| - i
  {
    if i == |s| {
    } else if WordAt(s, w, i) {
      NoMatchRemains(s, w, i + |w|);
      NoMatchAfterRemoval(s, w, i);
    } else {
      NoMatchRemains(s, w, i + 1);
      NoMatchAfterCopy(s, w, i);
    }
  }

  /** A non-word character starts no match of a word. */
  lemma NoMatchAtNonWordChar(s: string, w: string, k: nat)
    requires IsWord(w) && k < |s| && !IsWordChar(s[k])
    ensures !WordAt(s, w, k)
  {
    assert LowerChar(s[k]) == s[k];
    assert IsWordChar(LowerChar(w[0]));
  }

  /** A removed match is followed by a non-word character, which starts no match. */
  lemma NoMatchAfterRemoval(s: string, w: string, i: nat)
    requires IsWord(w) && i < |s| && WordAt(s, w, i)
    requires NoMatchIn(RemoveWordFrom(s, w, i + |w|), w, false)
    ensures NoMatchIn(RemoveWordFrom(s, w, i), w, true)
  {
    var k := i + |w|;
    var rest := RemoveWordFrom(s, w, k);
    assert RemoveWordFrom(s, w, i) == rest;
    if k < |s| {
      NoMatchAtNonWordChar(s, w, k);
      assert rest[0] == s[k];
      NoMatchAtNonWordChar(rest, w, 0);
    }
  }

  /** A copied character keeps the matches after it out, and starts none itself. */
  lemma NoMatchAfterCopy(s: string, w: string, i: nat)
    requires IsWord(w) && i < |s| && !WordAt(s, w, i)
    requires NoMatchIn(RemoveWordFrom(s, w, i + 1), w, !IsWordChar(s[i]))
    ensures NoMatchIn(RemoveWordFrom(s, w, i), w, i == 0 || !IsWordChar(s[i - 1]))
  {
    var r, rest := RemoveWordFrom(s, w, i), RemoveWordFrom(s, w, i + 1);
    assert r == [s[i]] + rest;
    forall j | 0 < j < |r|
      ensures !WordAt(r, w, j)
    {
      MatchShifted(s[i], rest, w, j);
    }
    StartMatchInSource(s, w, i);
  }

  /** A match after the first character of `[c] + rest` is one in `rest`. */
  lemma MatchShifted(c: char, rest: string, w: string, j: nat)
    requires 0 < j
    ensures WordAt([c] + rest, w, j) ==> WordAt(rest, w, j - 1)
    ensures WordAt([c] + rest, w, j) && j == 1 ==> !IsWordChar(c)
  {
    var r := [c] + rest;
    if WordAt(r, w, j) {
      forall k | 0 <= k < |w|
        ensures LowerChar(rest[j - 1 + k]) == LowerChar(w[k])
      {
        assert r[j + k] == rest[j - 1 + k];
      }
      if j > 1 {
        assert r[j - 1] == rest[j - 2];
      }
      if j + |w| < |r| {
        assert r[j + |w|] == rest[j - 1 + |w|];
      }
    }
  }

  /** A match at the start of a character of `s` followed by what is left after it is a
      match in `s` itself. */
  lemma StartMatchInSource(s: string, w: string, i: nat)
    requires IsWord(w) && i < |s|
    ensures (i == 0 || !IsWordChar(s[i - 1])) && WordAt([s[i]] + RemoveWordFrom(s, w, i + 1), w, 0) ==> WordAt(s, w, i)
  {
    var r := [s[i]] + RemoveWordFrom(s, w, i + 1);
    if (i == 0 || !IsWordChar(s[i - 1])) && WordAt(r, w, 0) {
      assert r[1..] == RemoveWordFrom(s, w, i + 1);
      MatchCopied(s, w, i, r, 1);
    }
  }

  /** While the characters of a match at the start of `r` are word characters, no match
      starts among them in `s`, so they are copied from `s` one by one; the match is one
      in `s`. */
  lemma {:induction false} MatchCopied(s: string, w: string, i: nat, r: string, m: nat)
    requires IsWord(w) && i < |s| && (i == 0 || !IsWordChar(s[i - 1]))
    requires WordAt(r, w, 0)
    requires 1 <= m <= |w| && i + m <= |s|
    requires forall t :: 0 <= t < m ==> r[t] == s[i + t]
    requires r[m..] == RemoveWordFrom(s, w, i + m)
    ensures WordAt(s, w, i)
    decreases |w| - m
  {
    assert r[m - 1] == s[i + m - 1];
    assert LowerChar(r[m - 1]) == LowerChar(w[m - 1]);
    FoldedWordChar(s[i + m - 1], w[m - 1]);
    var k := i + m;
    if k < |s| {
      CopiedAfterWordChar(s, w, k);
      assert r[m] == r[m..][0] == s[k];
    }
    if m == |w| {
      MatchAtEnd(s, w, i, r);
    } else {
      assert r[m + 1..] == r[m..][1..];
      MatchCopied(s, w, i, r, m + 1);
    }
  }

  /** After a word character no match starts, so the next character is copied. */
  lemma CopiedAfterWordChar(s: string, w: string, k: nat)
    requires IsWord(w) && 0 < k < |s| && IsWordChar(s[k - 1])
    ensures RemoveWordFrom(s, w, k) == [s[k]] + RemoveWordFrom(s, w, k + 1)
  {
    assert !WordAt(s, w, k);
  }

  /** All of `w` copied from `s`, followed by a non-word character or the end: a match. */
  lemma MatchAtEnd(s: string, w: string, i: nat, r: string)
    requires IsWord(w) && i + |w| <= |s| && (i == 0 || !IsWordChar(s[i - 1]))
    requires WordAt(r, w, 0)
    requires forall t :: 0 <= t < |w| ==> r[t] == s[i + t]
    requires i + |w| < |s| ==> |w| < |r| && r[|w|] == s[i + |w|]
    ensures WordAt(s, w, i)
  {
    forall t | 0 <= t < |w|
      ensures LowerChar(s[i + t]) == LowerChar(w[t])
    {
      assert r[t] == s[i + t];
    }
  }

  /** The clean-up chain of lines 215-219: whole-word BEGIN, then COMMIT, then every
      ';', then surrounding white space. */
  function CleanCypher(s: string): (r: string)
    ensures ';' !in r
    ensures Trimmed(r, IsJsSpace)
    ensures |r| <= |s|
  {
    var t := ReplaceChar(RemoveWord(RemoveWord(s, "BEGIN"), "COMMIT"), ';', "");
    ReplaceCharDrops(RemoveWord(RemoveWord(s, "BEGIN"), "COMMIT"), ';');
    var r := JsTrim(t);
    StripKeepsAbsent(t, r, ';');
    r
  }

  lemma {:induction false} ReplaceCharDrops(s: string, c: char)
    ensures c !in ReplaceChar(s, c, "") && |ReplaceChar(s, c, "")| <= |s|
  {
    if s != [] {
      ReplaceCharDrops(s[1..], c);
    }
  }

  /** A trimmed slice holds no character the whole text lacks. */
  lemma StripKeepsAbsent(t: string, r: string, c: char)
    requires c !in t && r == Strip(t, IsJsSpace)
    ensures c !in r
  {
    var lo := |t| - |TrimStart(t, IsJsSpace)|;
    StripIsSlice(t, IsJsSpace);
    SliceKeepsAbsent(t, r, lo, c);
  }

  lemma SliceKeepsAbsent(t: string, r: string, lo: int, c: char)
    requires 0 <= lo <= |t| - |r| && r == t[lo..lo + |r|] && c !in t
    ensures c !in r
  {
    forall k | 0 <= k < |r| ensures r[k] != c {
      assert r[k] == t[lo + k];
    }
  }

  /** `let { cypher } = params; cypher = cypher.replace(...)...trim()`. */
  function CleanedCypher(params: JsVal): (r: Result<string, string>)
    ensures params.Some? && params.value.JObj? && Lookup(params.value.fields, "cypher").Some?
            && Lookup(params.value.fields, "cypher").value.JStr? ==>
              r == Success(CleanCypher(Lookup(params.value.fields, "cypher").value.s))
    ensures params == None || params == Some(JNull) ==> r.Failure?
  {
    match params
    case None => Failure("Cannot destructure property 'cypher' of 'params' as it is undefined.")
    case Some(JNull) => Failure("Cannot destructure property 'cypher' of 'params' as it is null.")
    case Some(_) =>
      match Member(params, "cypher")
      case None => Failure(ReadError("undefined", "replace"))
      case Some(JNull) => Failure(ReadError("null", "replace"))
      case Some(JStr(text)) => Success(CleanCypher(text))
      case Some(_) => Failure("cypher.replace is not a function")
  }

  /** What `saveToNeo4j(cypher, res, id)` answers. */
  function Neo4jEnvelope(cypher: string, id: JsVal, world: World): (e: Json)
    ensures world.runCypher(cypher).Success? ==> e == ResultEnvelope(Obj1("summary", world.runCypher(cypher).value), id)
    ensures world.runCypher(cypher).Failure? ==> e == ErrorEnvelope(500, JStr(world.runCypher(cypher).error), id)
  {
    match world.runCypher(cypher)
    case Success(summary) => ResultEnvelope(Obj1("summary", summary), id)
    case Failure(t) => ErrorEnvelope(500, JStr(t), id)
  }

  function SaveReply(params: JsVal, id: JsVal, world: World): (r: Reply)
    ensures CleanedCypher(params).Failure? ==> r == Failure(CleanedCypher(params).error)
    ensures CleanedCypher(params).Success? ==> r == Success(Neo4jEnvelope(CleanedCypher(params).value, id, world))
  {
    var cypher :- CleanedCypher(params);
    Success(Neo4jEnvelope(cypher, id, world))
  }

  // ---------------------------------------------------------------------------------
  // processPdf

  /** The shell command line, with the path interpolated between double quotes. */
  function LoaderCommand(path: JsVal): string {
    "python3 run_pdf_loader.py \"" + JsString(path) + "\""
  }

  function LoaderReply(params: JsVal, id: JsVal, world: World): (r: Reply)
    ensures params == None || params == Some(JNull) ==> r.Failure?
    ensures r.Success? ==> (var run := world.exec(LoaderCommand(Prop(params, "path").value));
                            r.value == if run.failed then CodeOne(run.stderr, id) else ResultEnvelope(JStr(run.stdout), id))
  {
    var path :- match params
                case None => Failure("Cannot destructure property 'path' of 'params' as it is undefined.")
                case Some(JNull) => Failure("Cannot destructure property 'path' of 'params' as it is null.")
                case _ => Prop(params, "path");
    var run := world.exec(LoaderCommand(path));
    Success(if run.failed then CodeOne(run.stderr, id) else ResultEnvelope(JStr(run.stdout), id))
  }

  // ---------------------------------------------------------------------------------
  // The route

  /** `const { method, params, id } = req.body`; express.json() yields an object or an
      array, and an array has none of the three. */
  function BodyField(body: Json, key: string): JsVal {
    if body.JObj? then Lookup(body.fields, key) else None
  }

  function MethodName(body: Json): Option<string> {
    var m := BodyField(body, "method");
    if m.Some? && m.value.JStr? then Some(m.value.s) else None
  }

  const Routed: set<string> := {"initialize", "readFile", "writeFile", "listDir", "readPDF", "readDocx",
                                "readExcel", "get_weather", "saveToNeo4j", "processPdf"}

  /** The branches that read `params` outside any `try`. */
  const Unguarded: set<string> := {"readFile", "writeFile", "listDir", "get_weather", "saveToNeo4j", "processPdf"}

  /** An envelope carries `jsonrpc`, the request's `id` and exactly one of `result`
      and `error`. */
  predicate Enveloped(r: Reply, id: JsVal) {
    r.Success? ==> WellFormed(r.value, "result", id) || WellFormed(r.value, "error", id)
  }

  /** The branches that work on files: readFile, writeFile, listDir, readPDF, readDocx
      and readExcel. */
  function FileRoute(name: string, params: JsVal, id: JsVal, world: World): (r: Reply)
    requires name in {"readFile", "writeFile", "listDir", "readPDF", "readDocx", "readExcel"}
    ensures Enveloped(r, id)
    ensures r.Failure? ==> name in Unguarded
  {
    if name == "readFile" then ReadFileReply(params, id, world)
    else if name == "writeFile" then WriteFileReply(params, id, world)
    else if name == "listDir" then ListDirReply(params, id, world)
    else if name == "readPDF" then Success(TextReply(params, id, world.pdfText))
    else if name == "readDocx" then Success(TextReply(params, id, world.docxText))
    else Success(RowsReply(params, id, world))
  }

  /** The branches that call out to services: get_weather, saveToNeo4j and processPdf. */
  function ServiceRoute(name: string, params: JsVal, id: JsVal, world: World): (r: Reply)
    requires name in {"get_weather", "saveToNeo4j", "processPdf"}
    ensures Enveloped(r, id)
  {
    if name == "get_weather" then WeatherReply(params, id, world)
    else if name == "saveToNeo4j" then SaveReply(params, id, world)
    else LoaderReply(params, id, world)
  }

  /** The if/else chain on a string method name. */
  function Route(name: string, params: JsVal, id: JsVal, world: World): (r: Reply)
    ensures Enveloped(r, id)
    ensures name !in Routed ==> r == Success(NotFound(id))
    ensures r.Failure? ==> name in Unguarded
  {
    if name == "initialize" then Success(ResultEnvelope(InitializeResult(), id))
    else if name in {"readFile", "writeFile", "listDir", "readPDF", "readDocx", "readExcel"} then
      FileRoute(name, params, id, world)
    else if name in {"get_weather", "saveToNeo4j", "processPdf"} then ServiceRoute(name, params, id, world)
    else Success(NotFound(id))
  }

  /** The answer of the route, lines 65-255; a method that is not a string matches no
      branch. */
  function Dispatch(body: Json, world: World): (r: Reply)
    ensures Enveloped(r, BodyField(body, "id"))
    ensures MethodName(body).None? || MethodName(body).value !in Routed ==> r == Success(NotFound(BodyField(body, "id")))
    ensures r.Failure? ==> MethodName(body).Some? && MethodName(body).value in Unguarded
  {
    match MethodName(body)
    case None => Success(NotFound(BodyField(body, "id")))
    case Some(name) => Route(name, BodyField(body, "params"), BodyField(body, "id"), world)
  }

  /** `initialize` is answered with the capabilities result. */
  lemma RouteInitialize(params: JsVal, id: JsVal, world: World)
    ensures Route("initialize", params, id, world) == Success(ResultEnvelope(InitializeResult(), id))
  {
  }

  /** Each file method name reaches its own handler, in the order of the if/else chain
      on `method`. */
  lemma FileRouteBranches(name: string, params: JsVal, id: JsVal, world: World)
    requires name in {"readFile", "writeFile", "listDir", "readPDF", "readDocx", "readExcel"}
    ensures Route(name, params, id, world) == FileRoute(name, params, id, world)
    ensures name == "readFile" ==> FileRoute(name, params, id, world) == ReadFileReply(params, id, world)
    ensures name == "writeFile" ==> FileRoute(name, params, id, world) == WriteFileReply(params, id, world)
    ensures name == "listDir" ==> FileRoute(name, params, id, world) == ListDirReply(params, id, world)
    ensures name == "readPDF" ==> FileRoute(name, params, id, world) == Success(TextReply(params, id, world.pdfText))
    ensures name == "readDocx" ==> FileRoute(name, params, id, world) == Success(TextReply(params, id, world.docxText))
    ensures name == "readExcel" ==> FileRoute(name, params, id, world) == Success(RowsReply(params, id, world))
  {
  }

  /** Each service method name reaches its own handler. */
  lemma ServiceRouteBranches(name: string, params: JsVal, id: JsVal, world: World)
    requires name in {"get_weather", "saveToNeo4j", "processPdf"}
    ensures Route(name, params, id, world) == ServiceRoute(name, params, id, world)
    ensures name == "get_weather" ==> ServiceRoute(name, params, id, world) == WeatherReply(params, id, world)
    ensures name == "saveToNeo4j" ==> ServiceRoute(name, params, id, world) == SaveReply(params, id, world)
    ensures name == "processPdf" ==> ServiceRoute(name, params, id, world) == LoaderReply(params, id, world)
  {
    ServiceNameDistinct(name);
  }

  /** The service names start with a letter no other routed name starts with. */
  lemma ServiceNameDistinct(name: string)
    requires name in {"get_weather", "saveToNeo4j", "processPdf"}
    ensures name != "initialize" && name !in {"readFile", "writeFile", "listDir", "readPDF", "readDocx", "readExcel"}
  {
    assert name[0] in {'g', 's', 'p'};
  }

  /** A body whose `method` is a string is answered by the route for that name, with the
      body's own `params` and `id`. */
  lemma DispatchRoutes(body: Json, world: World)
    requires MethodName(body).Some?
    ensures Dispatch(body, world) == Route(MethodName(body).value, BodyField(body, "params"), BodyField(body, "id"), world)
  {
  }

  // ---------------------------------------------------------------------------------
  // The response object and the Neo4j session

  /** The Express response: the headers set and what was sent, one reply per request. */
  class HttpResponse {
    var headers: seq<(string, string)>
    var sent: seq<Reply>

    constructor()
      ensures headers == [] && sent == []
    {
      headers := [];
      sent := [];
    }

    method SetHeader(name: string, value: string)
      modifies this
      ensures headers == old(headers) + [(name, value)] && sent == old(sent)
    {
      headers := headers + [(name, value)];
    }

    /** `res.json(envelope)`. */
    method SendJson(envelope: Json)
      modifies this
      ensures sent == old(sent) + [Success(envelope)] && headers == old(headers)
    {
      sent := sent + [Success(envelope)];
    }

    /** Express's own handler for an error thrown by the route. */
    method Fail(message: string)
      modifies this
      ensures sent == old(sent) + [Failure(message)] && headers == old(headers)
    {
      sent := sent + [Failure(message)];
    }
  }

  /** A driver session: open from creation until closed, with the queries it ran. */
  class Session {
    var open: bool
    var queries: seq<string>

    constructor()
      ensures open && queries == []
    {
      open := true;
      queries := [];
    }

    method Run(cypher: string, world: World) returns (r: Result<Json, string>)
      requires open
      modifies this
      ensures open && queries == old(queries) + [cypher]
      ensures r == world.runCypher(cypher)
    {
      queries := queries + [cypher];
      r := world.runCypher(cypher);
    }

    method Close()
      modifies this
      ensures !open && queries == old(queries)
    {
      open := false;
    }
  }

  /** `saveToNeo4j(cypher, res, id)`, lines 25-45: one query in a fresh session, one
      reply, and the session closed whatever the outcome. */
  method SaveToNeo4j(cypher: string, res: HttpResponse, id: JsVal, world: World) returns (session: Session)
    modifies res
    ensures fresh(session) && !session.open && session.queries == [cypher]
    ensures res.sent == old(res.sent) + [Success(Neo4jEnvelope(cypher, id, world))]
    ensures res.headers == old(res.headers)
  {
    session := new Session();
    var result := session.Run(cypher, world);
    match result {
      case Success(summary) => res.SendJson(ResultEnvelope(Obj1("summary", summary), id));
      case Failure(t) => res.SendJson(ErrorEnvelope(500, JStr(t), id));
    }
    session.Close();
  }

  /** The `/mcp` route: the content type is set first, then exactly one reply is sent,
      the one `Dispatch` describes. */
  method Handle(res: HttpResponse, body: Json, world: World)
    modifies res
    ensures res.headers == old(res.headers) + [("Content-Type", "application/json")]
    ensures res.sent == old(res.sent) + [Dispatch(body, world)]
  {
    res.SetHeader("Content-Type", "application/json");
    if MethodName(body) == Some("saveToNeo4j") {
      SaveDispatched(body, world);
      HandleSave(res, BodyField(body, "params"), BodyField(body, "id"), world);
    } else {
      match Dispatch(body, world) {
        case Success(e) => res.SendJson(e);
        case Failure(t) => res.Fail(t);
      }
    }
  }

  /** The `saveToNeo4j` branch: a missing `cypher` parameter is thrown, otherwise the
      query runs in a session of its own and its envelope is sent. */
  method HandleSave(res: HttpResponse, params: JsVal, id: JsVal, world: World)
    modifies res
    ensures res.headers == old(res.headers)
    ensures res.sent == old(res.sent) + [SaveReply(params, id, world)]
  {
    match CleanedCypher(params) {
      case Failure(t) => res.Fail(t);
      case Success(cypher) =>
        var session := SaveToNeo4j(cypher, res, id, world);
    }
  }

  // ---------------------------------------------------------------------------------
  // Properties

  lemma SaveDispatched(body: Json, world: World)
    requires MethodName(body) == Some("saveToNeo4j")
    ensures Dispatch(body, world) == SaveReply(BodyField(body, "params"), BodyField(body, "id"), world)
  {
    var params, id := BodyField(body, "params"), BodyField(body, "id");
    assert Route("saveToNeo4j", params, id, world) == ServiceRoute("saveToNeo4j", params, id, world);
  }

  /** A request the Python clients build for a method the server does not route is
      answered with -32601 and the client's id, and the client raises "[code] message"
      with that code and "Method not found". */
  lemma ClientSeesMethodNotFound(codec: Codec, n: int, name: string, params: Json, world: World)
    requires name !in Routed
    ensures Dispatch(JsonRpc.Envelope(n, JStr(name), params), world) == Success(NotFound(Some(JNum(n))))
    ensures JsonRpc.Interpret(codec, NotFound(Some(JNum(n)))) == Failure("[" + IntToString(-32601) + "] " + "Method not found")
  {
    UnknownRequestNotFound(n, name, params, world);
    NotFoundRaised(codec, Some(JNum(n)));
  }

  lemma UnknownRequestNotFound(n: int, name: string, params: Json, world: World)
    requires name !in Routed
    ensures Dispatch(JsonRpc.Envelope(n, JStr(name), params), world) == Success(NotFound(Some(JNum(n))))
  {
    var request := JsonRpc.Envelope(n, JStr(name), params);
    assert MethodName(request) == Some(name);
  }

  lemma NotFoundRaised(codec: Codec, id: JsVal)
    requires id.Some?
    ensures JsonRpc.Interpret(codec, NotFound(id)) == Failure("[" + IntToString(-32601) + "] " + "Method not found")
  {
    assert NotFound(id) == JObj([Field("jsonrpc", JStr("2.0")),
                                 Field("error", JObj([Field("code", JNum(-32601)), Field("message", JStr("Method not found"))])),
                                 Field("id", id.value)]);
    JsonRpc.RemoteErrorRaised(codec, id.value, -32601, "Method not found");
  }

  /** A result envelope decodes, on the client side, to exactly its result. */
  lemma ClientReceivesResult(codec: Codec, result: Json, n: int)
    ensures JsonRpc.Interpret(codec, ResultEnvelope(result, Some(JNum(n)))) == Success(result)
  {
    var e := ResultEnvelope(result, Some(JNum(n)));
    assert Keys(e.fields) == ["jsonrpc", "result", "id"];
    assert !HasKey(e.fields, "error");
  }

  /** A text with no semicolon, no surrounding white space and no whole-word BEGIN or
      COMMIT goes through the clean-up unchanged. */
  lemma CleanCypherKeepsCleanText(s: string)
    requires ';' !in s && Trimmed(s, IsJsSpace)
    requires forall j :: 0 <= j < |s| ==> !WordAt(s, "BEGIN", j) && !WordAt(s, "COMMIT", j)
    ensures CleanCypher(s) == s
  {
    assert RemoveWord(s, "BEGIN") == s;
    assert RemoveWord(s, "COMMIT") == s;
    StripOfTrimmed(s, IsJsSpace);
  }

  /** An upstream body of the documented shape, with string name, country and
      description and whole-number readings. */
  function WeatherData(name: string, country: string, temp: int, description: string, humidity: int, speed: int): Json {
    JObj([Field("name", JStr(name)),
          Field("sys", Obj1("country", JStr(country))),
          Field("main", JObj([Field("temp", JNum(temp)), Field("humidity", JNum(humidity))])),
          Field("weather", JArr([Obj1("description", JStr(description))])),
          Field("wind", Obj1("speed", JNum(speed)))])
  }

  /** Such a body is shaped into "name, country", "temp °F", the description with its
      first letter upper-cased, "humidity%" and "speed mph". */
  lemma WeatherShaped(name: string, country: string, temp: int, description: string, humidity: int, speed: int)
    ensures ShapeWeather(WeatherData(name, country, temp, description, humidity, speed))
            == Success(JObj([
                 Field("location", JStr(name + ", " + country)),
                 Field("temperature", JStr(IntToString(temp) + " \U{B0}F")),
                 Field("description", JStr(UpperFirst(description))),
                 Field("humidity", JStr(IntToString(humidity) + "%")),
                 Field("wind_speed", JStr(IntToString(speed) + " mph"))]))
  {
    WeatherReadsSucceed(name, country, temp, description, humidity, speed);
  }

  lemma WeatherReadsSucceed(name: string, country: string, temp: int, description: string, humidity: int, speed: int)
    ensures ShapeWeather(WeatherData(name, country, temp, description, humidity, speed))
            == Success(WeatherObject(Some(JStr(name)), Some(JStr(country)), Some(JNum(temp)),
                                     UpperFirst(description), Some(JNum(humidity)), Some(JNum(speed))))
  {
    WeatherDataReads(name, country, temp, description, humidity, speed);
  }

  /** Each read of lines 193-197 finds its field in such a body. */
  lemma WeatherDataReads(name: string, country: string, temp: int, description: string, humidity: int, speed: int)
    ensures Prop(Some(WeatherData(name, country, temp, description, humidity, speed)), "name") == Success(Some(JStr(name)))
    ensures Prop(Member(Some(WeatherData(name, country, temp, description, humidity, speed)), "sys"), "country") == Success(Some(JStr(country)))
    ensures Prop(Member(Some(WeatherData(name, country, temp, description, humidity, speed)), "main"), "temp") == Success(Some(JNum(temp)))
    ensures Description(Member(Some(WeatherData(name, country, temp, description, humidity, speed)), "weather")) == Success(UpperFirst(description))
    ensures Member(Member(Some(WeatherData(name, country, temp, description, humidity, speed)), "main"), "humidity") == Some(JNum(humidity))
    ensures Prop(Member(Some(WeatherData(name, country, temp, description, humidity, speed)), "wind"), "speed") == Success(Some(JNum(speed)))
  {
    WeatherTopReads(name, country, temp, description, humidity, speed);
    var main := JObj([Field("temp", JNum(temp)), Field("humidity", JNum(humidity))]);
    LookupAt(main.fields, 1, "humidity");
  }

  lemma WeatherTopReads(name: string, country: string, temp: int, description: string, humidity: int, speed: int)
    ensures Prop(Some(WeatherData(name, country, temp, description, humidity, speed)), "name") == Success(Some(JStr(name)))
    ensures Member(Some(WeatherData(name, country, temp, description, humidity, speed)), "sys") == Some(Obj1("country", JStr(country)))
    ensures Member(Some(WeatherData(name, country, temp, description, humidity, speed)), "main")
            == Some(JObj([Field("temp", JNum(temp)), Field("humidity", JNum(humidity))]))
    ensures Member(Some(WeatherData(name, country, temp, description, humidity, speed)), "weather")
            == Some(JArr([Obj1("description", JStr(description))]))
    ensures Member(Some(WeatherData(name, country, temp, description, humidity, speed)), "wind") == Some(Obj1("speed", JNum(speed)))
  {
    var data := WeatherData(name, country, temp, description, humidity, speed);
    LookupAt(data.fields, 1, "sys");
    LookupAt(data.fields, 2, "main");
    LookupAt(data.fields, 3, "weather");
    LookupAt(data.fields, 4, "wind");
  }

  /** A keyword goes in any letter case, and the white space it leaves is trimmed. */
  lemma CleanCypherExample()
    ensures CleanCypher("begin x") == "x"
  {
    RemoveBeginExample();
    assert !WordAt(" x", "COMMIT", 0) && !WordAt(" x", "COMMIT", 1);
    assert RemoveWord(" x", "COMMIT") == " x";
    assert ReplaceChar(" x", ';', "") == " x";
    assert JsTrim(" x") == "x";
  }

  lemma RemoveBeginExample()
    ensures RemoveWord("begin x", "BEGIN") == " x"
  {
    var s := "begin x";
    assert WordAt(s, "BEGIN", 0);
    assert !WordAt(s, "BEGIN", 5) && !WordAt(s, "BEGIN", 6);
    assert RemoveWordFrom(s, "BEGIN", 6) == "x";
    assert RemoveWordFrom(s, "BEGIN", 5) == " x";
  }
}

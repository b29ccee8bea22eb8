/** One chat turn of llama_chat_weather.py. A prompt that mentions "weather in" is
    answered from the weather service for the city named after it, without asking the
    model; any other prompt is sent to the model without tools. Each successful path
    appends exactly one assistant turn; a failure appends nothing. */
module WeatherChat {
  import opened Wrappers
  import opened Text
  import opened JsonValue
  import opened JsonRpc
  import opened Transcript
  import opened ChatCommon

  const SystemPrompt: string := "You are a helpful assistant that provides concise answers."
  const Trigger: string := "weather in"

  // ---------------------------------------------------------------- the city

  /** `"weather in" in prompt.lower()`. */
  predicate IsWeatherPrompt(prompt: string) {
    Contains(Lower(prompt), Trigger)
  }

  /** `s.split(sep)[1]`: the text between the first and the second occurrence of `sep`,
      or up to the end when there is no second one. */
  function SplitSecond(s: string, sep: string): (r: string)
    requires sep != [] && Contains(s, sep)
    ensures !Contains(r, sep)
    ensures exists i :: OccursAt(s, sep, i) && (forall k :: 0 <= k < i ==> !OccursAt(s, sep, k))
                        && i + |sep| + |r| <= |s| && r == s[i + |sep|..i + |sep| + |r|]
  {
    var i := FirstOccurrence(s, sep);
    var from := i + |sep|;
    match IndexFrom(s, sep, from)
    case Some(j) =>
      var r := s[from..j];
      NoOccurrenceBetween(s, sep, from, j);
      assert r == s[i + |sep|..i + |sep| + |r|];
      r
    case None =>
      var r := s[from..];
      NoOccurrenceBetween(s, sep, from, |s|);
      assert r == s[i + |sep|..i + |sep| + |r|];
      r
  }

  /** The position of the first occurrence of `sep` in a string that contains it. */
  function FirstOccurrence(s: string, sep: string): (i: nat)
    requires Contains(s, sep)
    ensures OccursAt(s, sep, i) && forall k :: 0 <= k < i ==> !OccursAt(s, sep, k)
  {
    ContainsFound(s, sep);
    IndexFrom(s, sep, 0).value
  }

  lemma ContainsFound(s: string, sep: string)
    requires Contains(s, sep)
    ensures IndexFrom(s, sep, 0).Some?
  {
    var i :| 0 <= i <= |s| - |sep| && OccursAt(s, sep, i);
  }

  /** A stretch of `s` in which no occurrence of `sep` starts contains no `sep` as a
      substring ending inside it. */
  lemma NoOccurrenceBetween(s: string, sep: string, lo: nat, hi: nat)
    requires lo <= hi <= |s| && sep != []
    requires forall k :: lo <= k < hi ==> !OccursAt(s, sep, k)
    ensures !Contains(s[lo..hi], sep)
  {
    var t := s[lo..hi];
    forall k | 0 <= k <= |t| - |sep|
      ensures !OccursAt(t, sep, k)
    {
      var u, v := t[k..k + |sep|], s[lo + k..lo + k + |sep|];
      forall m | 0 <= m < |sep| ensures u[m] == v[m] {
        assert u[m] == t[k + m] == s[lo + k + m];
      }
      assert u == v;
      assert !OccursAt(s, sep, lo + k);
    }
  }

  /** `prompt.lower().split("weather in")[1].strip().rstrip("?")`: the text after the first
      "weather in", with no "weather in" in it, no surrounding whitespace before the
      question marks are dropped, and no question mark at its end. */
  function City(prompt: string): (city: string)
    requires IsWeatherPrompt(prompt)
    ensures !Contains(city, Trigger)
    ensures city == [] || !IsPySpace(city[0])
    ensures city == [] || city[|city| - 1] != '?'
    ensures city == RStripChar(PyStrip(SplitSecond(Lower(prompt), Trigger)), '?')
  {
    var segment := SplitSecond(Lower(prompt), Trigger);
    CleanedSegment(segment);
    RStripChar(PyStrip(segment), '?')
  }

  /** Stripping and dropping trailing question marks keep a slice of the segment, so no
      "weather in" can appear, and the first character stays the stripped one. */
  lemma CleanedSegment(segment: string)
    requires !Contains(segment, Trigger)
    ensures var city := RStripChar(PyStrip(segment), '?');
            !Contains(city, Trigger) && (city == [] || !IsPySpace(city[0]))
  {
    var stripped := PyStrip(segment);
    var city := RStripChar(stripped, '?');
    var lo := |segment| - |TrimStart(segment, IsPySpace)|;
    StripIsSlice(segment, IsPySpace);
    assert stripped == segment[lo..lo + |stripped|];
    assert city == stripped[..|city|];
    assert city == segment[lo..lo + |city|];
    SliceFree(segment, Trigger, lo, lo + |city|);
  }

  /** A capitalised prompt with a question mark. */
  lemma CityExample()
    ensures IsWeatherPrompt("Weather in Paris?")
    ensures City("Weather in Paris?") == "paris"
  {
    LowerExample();
    SplitExample();
    StripExample();
  }

  lemma LowerExample()
    ensures Lower("Weather in Paris?") == "weather in paris?"
  {
  }

  lemma SplitExample()
    ensures Contains("weather in paris?", Trigger)
    ensures SplitSecond("weather in paris?", Trigger) == " paris?"
  {
    var l := "weather in paris?";
    assert OccursAt(l, Trigger, 0);
    assert FirstOccurrence(l, Trigger) == 0;
    assert IndexFrom(l, Trigger, 10) == None;
  }

  lemma StripExample()
    ensures RStripChar(PyStrip(" paris?"), '?') == "paris"
  {
    PyStripExample();
    var s := "paris?";
    assert s[..|s| - 1] == "paris";
    assert RStripChar(s, '?') == TrimEnd("paris", x => x == '?');
  }

  lemma PyStripExample()
    ensures PyStrip(" paris?") == "paris?"
  {
    var s := " paris?";
    var t := TrimStart(s, IsPySpace);
    assert IsPySpace(s[0]) && !IsPySpace(s[1]);
    assert |t| == 6;
    assert t == s[1..] == "paris?";
    TrimEndOfTrimmed(t, IsPySpace);
  }

  // ---------------------------------------------------------------- get_weather

  /** What `requests.get` to the weather service produced: a transport failure, or a status
      and the body text (`response.json()` decodes that text). */
  datatype WeatherReply =
    | WeatherFailed(message: string)
    | WeatherAnswered(status: int, text: string)

  /** `str.capitalize()` (ASCII letters): the first character upper-cased, the rest
      lower-cased. */
  function Capitalize(s: string): (r: string)
    ensures |r| == |s|
    ensures s != [] ==> r[0] == UpperChar(s[0]) && r[1..] == Lower(s[1..])
  {
    if s == [] then [] else [UpperChar(s[0])] + Lower(s[1..])
  }

  /** The five fields read from a 200 reply, in source order; the first missing key or
      wrong type raises. */
  function ShapeWeather(codec: Codec, data: Json): (r: Result<Json, string>)
    ensures r.Success? ==> r.value.JObj? && Keys(r.value.fields) == ["location", "temperature", "description", "humidity", "wind_speed"]
    ensures !data.JObj? ==> r.Failure?
  {
    var name :- Subscript(data, "name");
    var sys :- Subscript(data, "sys");
    var country :- Subscript(sys, "country");
    var main :- Subscript(data, "main");
    var temp :- Subscript(main, "temp");
    var weather :- Subscript(data, "weather");
    var first :- SubscriptFirst(weather);
    var description :- Subscript(first, "description");
    if !description.JStr? then Failure(NoAttribute(description, "capitalize"))
    else
      var humidity :- Subscript(main, "humidity");
      var wind :- Subscript(data, "wind");
      var speed :- Subscript(wind, "speed");
      Success(WeatherObject(PyStr(codec, name) + ", " + PyStr(codec, country),
                            PyStr(codec, temp) + " \U{B0}F",
                            Capitalize(description.s),
                            PyStr(codec, humidity) + "%",
                            PyStr(codec, speed) + " mph"))
  }

  /** The dict `get_weather` returns for a 200 reply, every value a string. */
  function WeatherObject(location: string, temperature: string, description: string, humidity: string,
                         windSpeed: string): (j: Json)
    ensures j.JObj? && Keys(j.fields) == ["location", "temperature", "description", "humidity", "wind_speed"]
    ensures Lookup(j.fields, "location") == Some(JStr(location))
    ensures Lookup(j.fields, "wind_speed") == Some(JStr(windSpeed))
  {
    var fields := [Field("location", JStr(location)), Field("temperature", JStr(temperature)),
                   Field("description", JStr(description)), Field("humidity", JStr(humidity)),
                   Field("wind_speed", JStr(windSpeed))];
    LookupAt(fields, 4, "wind_speed");
    JObj(fields)
  }

  /** The error dict of a reply that is not 200. */
  function WeatherError(status: int, text: string): (e: Json)
    ensures e.JObj? && Keys(e.fields) == ["error"]
  {
    Obj1("error", JStr("HTTP " + IntToString(status) + ": " + text))
  }

  /** `get_weather(location)` once the reply is known: any status but 200 gives a dict with
      the single key "error" and does not look at the body; a 200 reply is decoded and
      shaped. */
  function GetWeather(codec: Codec, reply: WeatherReply): (r: Result<Json, string>)
    ensures reply.WeatherFailed? ==> r == Failure(reply.message)
    ensures reply.WeatherAnswered? && reply.status != 200 ==> r == Success(WeatherError(reply.status, reply.text))
    ensures reply.WeatherAnswered? && reply.status == 200 ==>
              r == (match codec.loads(reply.text)
                    case Failure(m) => Failure(m)
                    case Success(data) => ShapeWeather(codec, data))
    ensures r.Success? ==>
              (r.value.JObj? && Keys(r.value.fields) in {["error"], ["location", "temperature", "description", "humidity", "wind_speed"]})
  {
    match reply
    case WeatherFailed(m) => Failure(m)
    case WeatherAnswered(status, text) =>
      if status == 200 then
        var data :- codec.loads(text);
        ShapeWeather(codec, data)
      else Success(WeatherError(status, text))
  }

  // ---------------------------------------------------------------- the turn

  /** What a turn appends after the user's turn, and how the run ended. */
  datatype Effect = Effect(after: seq<Turn>, report: Report)

  /** `result.get('completion_message', {}).get('content', {})`. */
  function MessageContent(result: Json): (r: Result<Json, string>)
    ensures !result.JObj? ==> r == Failure(NoAttribute(result, "get"))
    ensures r.Success? <==> result.JObj? && Lookup(result.fields, "completion_message").GetOr(JObj([])).JObj?
  {
    if !result.JObj? then Failure(NoAttribute(result, "get"))
    else
      var cm := Lookup(result.fields, "completion_message").GetOr(JObj([]));
      if !cm.JObj? then Failure(NoAttribute(cm, "get"))
      else Success(Lookup(cm.fields, "content").GetOr(JObj([])))
  }

  /** The assistant content for the model's `content`: the `"text"` of a dict, of any type
      and not stripped, "[No response]" when absent; `str(...)` stripped for anything
      else. */
  function ReplyContent(codec: Codec, content: Json): (r: Json)
    ensures content.JObj? && HasKey(content.fields, "text") ==> r == Lookup(content.fields, "text").value
    ensures content.JObj? && !HasKey(content.fields, "text") ==> r == JStr("[No response]")
    ensures !content.JObj? ==> r.JStr? && Trimmed(r.s, IsPySpace)
    ensures content.JStr? ==> r == JStr(PyStrip(content.s))
    ensures !content.JObj? ==> r == JStr(PyStrip(PyStr(codec, content)))
  {
    if content.JObj? then Lookup(content.fields, "text").GetOr(JStr("[No response]"))
    else JStr(PyStrip(PyStr(codec, content)))
  }

  /** An assistant turn of this front-end, which records no stop reason. */
  function Reply(content: Json): Turn {
    Turn(Assistant, content, None)
  }

  /** Lines 72-80: the weather lookup, its JSON shown indented. */
  function WeatherEffect(codec: Codec, reply: WeatherReply): (e: Effect)
    ensures e.report.Completed? <==> GetWeather(codec, reply).Success?
    ensures e.report.Completed? ==> e.after == [Reply(JStr(codec.dumpsIndented(GetWeather(codec, reply).value)))]
    ensures !e.report.Completed? ==>
              e == Effect([], Failed("Weather lookup failed: " + GetWeather(codec, reply).error))
  {
    match GetWeather(codec, reply)
    case Failure(t) => Effect([], Failed("Weather lookup failed: " + t))
    case Success(w) => Effect([Reply(JStr(codec.dumpsIndented(w)))], Completed)
  }

  /** Lines 91-116: the model's reply, or "Error: " and the text of whatever was raised. */
  function InferenceEffect(codec: Codec, reply: HttpReply): (e: Effect)
    ensures e.report.Completed? <==> Post(ApiUrl, reply).Success? && MessageContent(Post(ApiUrl, reply).value).Success?
    ensures e.report.Completed? ==> e.after == [Reply(ReplyContent(codec, MessageContent(Post(ApiUrl, reply).value).value))]
    ensures Post(ApiUrl, reply).Failure? ==> e == Effect([], Failed("Error: " + ErrorText(Post(ApiUrl, reply).error)))
  {
    match Post(ApiUrl, reply)
    case Failure(err) => Effect([], Failed("Error: " + ErrorText(err)))
    case Success(result) =>
      match MessageContent(result)
      case Failure(t) => Effect([], Failed("Error: " + t))
      case Success(content) => Effect([Reply(ReplyContent(codec, content))], Completed)
  }

  /** The turn: one assistant turn exactly when the run completes, none otherwise. */
  function HandleTurnSpec(codec: Codec, prompt: string, weather: WeatherReply, inference: HttpReply): (e: Effect)
    ensures e.report.Completed? ==> |e.after| == 1 && e.after[0].role == Assistant && e.after[0].stopReason == None
    ensures !e.report.Completed? ==> e.after == [] && e.report.Failed?
    ensures IsWeatherPrompt(prompt) ==> e == WeatherEffect(codec, weather)
    ensures !IsWeatherPrompt(prompt) ==> e == InferenceEffect(codec, inference)
  {
    if IsWeatherPrompt(prompt) then WeatherEffect(codec, weather) else InferenceEffect(codec, inference)
  }

  /** The handler run against the session history. The weather path looks up the city and
      never calls the model; the other path sends the system prompt and the window of the
      history, which already holds the user's turn. */
  method HandleTurn(conversation: Conversation, codec: Codec, prompt: string, weather: WeatherReply, inference: HttpReply)
    returns (city: Option<string>, messages: Option<seq<Turn>>, report: Report)
    modifies conversation
    ensures IsWeatherPrompt(prompt) <==> city.Some?
    ensures city.Some? ==> city.value == City(prompt) && messages == None
    ensures city.None? ==> messages == Some(Outbound(SystemPrompt, Window(old(conversation.turns) + [UserTurn(prompt)])))
    ensures conversation.turns == old(conversation.turns) + [UserTurn(prompt)] + HandleTurnSpec(codec, prompt, weather, inference).after
    ensures report == HandleTurnSpec(codec, prompt, weather, inference).report
  {
    conversation.Append(UserTurn(prompt));
    var e: Effect;
    if IsWeatherPrompt(prompt) {
      city, messages := Some(City(prompt)), None;
      e := WeatherEffect(codec, weather);
    } else {
      city, messages := None, Some(Outbound(SystemPrompt, Window(conversation.turns)));
      e := InferenceEffect(codec, inference);
    }
    AppendEffect(conversation, e);
    report := e.report;
  }

  /** The assistant turn, if the run completed, is appended. */
  method AppendEffect(conversation: Conversation, e: Effect)
    requires e.report.Completed? ==> |e.after| == 1
    requires !e.report.Completed? ==> e.after == []
    modifies conversation
    ensures conversation.turns == old(conversation.turns) + e.after
  {
    if e.report.Completed? {
      conversation.Append(e.after[0]);
      assert [e.after[0]] == e.after;
    }
  }
}

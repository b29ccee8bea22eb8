/** Cypher payload repair in meta_frontend.py: `format_cypher_for_json`, the marker
    clean-up of `patch_tool_call`, and the payload built from a delimited
    "CYPHER BLOCK START ... CYPHER BLOCK END" block in the model's text. */
module Cypher {
  import opened Wrappers
  import opened Text
  import opened JsonValue

  // ---------------------------------------------------------------- format_cypher_for_json

  /** A line `format_cypher_for_json` keeps: non-empty, stripped, one line. */
  predicate KeptLine(line: string) {
    line != [] && Trimmed(line, IsPySpace) && NoBreak(line)
  }

  /** The stripped, non-blank lines of the stripped block, in order. */
  function KeptLines(block: string): (lines: seq<string>)
    ensures forall i :: 0 <= i < |lines| ==> KeptLine(lines[i])
    ensures forall i :: 0 <= i < |SplitLines(PyStrip(block))| && PyStrip(SplitLines(PyStrip(block))[i]) != [] ==>
              PyStrip(SplitLines(PyStrip(block))[i]) in lines
  {
    var split := SplitLines(PyStrip(block));
    assert forall i :: 0 <= i < |split| ==> NoBreak(split[i]);
    KeepNonBlank(split)
  }

  /** No character of `s` is a line boundary. */
  predicate NoBreak(s: string) {
    forall k :: 0 <= k < |s| ==> !IsLineBreak(s[k])
  }

  /** Stripping keeps a line free of line boundaries, since it only takes a slice. */
  lemma StripNoBreak(s: string)
    requires NoBreak(s)
    ensures NoBreak(PyStrip(s))
  {
    var r := PyStrip(s);
    var lo := |s| - |TrimStart(s, IsPySpace)|;
    StripIsSlice(s, IsPySpace);
    forall k | 0 <= k < |r| ensures !IsLineBreak(r[k]) {
      assert r[k] == s[lo + k];
    }
  }

  /** `[line.strip() for line in lines if line.strip()]`. */
  function KeepNonBlank(lines: seq<string>): (kept: seq<string>)
    requires forall i :: 0 <= i < |lines| ==> NoBreak(lines[i])
    ensures |kept| <= |lines|
    ensures forall i :: 0 <= i < |kept| ==> KeptLine(kept[i])
    ensures forall i :: 0 <= i < |lines| && PyStrip(lines[i]) != [] ==> PyStrip(lines[i]) in kept
  {
    if lines == [] then []
    else
      var t := PyStrip(lines[0]);
      StripNoBreak(lines[0]);
      var rest := KeepNonBlank(lines[1..]);
      if t == [] then rest else ConsKept(t, rest); [t] + rest
  }

  /** The filter works line by line: filtering two blocks of lines and concatenating the
      results equals filtering their concatenation, so the kept lines keep their order. */
  lemma {:induction false} KeepNonBlankAppend(a: seq<string>, b: seq<string>)
    requires forall j :: 0 <= j < |a| ==> NoBreak(a[j])
    requires forall j :: 0 <= j < |b| ==> NoBreak(b[j])
    ensures forall j :: 0 <= j < |a + b| ==> NoBreak((a + b)[j])
    ensures KeepNonBlank(a + b) == KeepNonBlank(a) + KeepNonBlank(b)
  {
    if a == [] {
      assert a + b == b;
    } else {
      assert (a + b)[1..] == a[1..] + b;
      KeepNonBlankAppend(a[1..], b);
    }
  }

  /** One line is kept, stripped, exactly when it is not blank. */
  lemma KeepNonBlankOne(line: string)
    requires NoBreak(line)
    ensures KeepNonBlank([line]) == if PyStrip(line) == [] then [] else [PyStrip(line)]
  {
    assert [line][1..] == [];
  }

  lemma ConsKept(t: string, rest: seq<string>)
    requires KeptLine(t) && forall i :: 0 <= i < |rest| ==> KeptLine(rest[i])
    ensures forall i :: 0 <= i < |[t] + rest| ==> KeptLine(([t] + rest)[i])
  {
  }

  /** The separator between kept lines: a space, or backslash-n as two characters. */
  function LineSeparator(useNewlines: bool): string {
    if useNewlines then ['\\', 'n'] else " "
  }

  /** The escape for one character: a backslash is doubled and a double quote gets a
      backslash in front. */
  function EscapeChar(c: char): string {
    if c == '\\' then ['\\', '\\'] else if c == '"' then ['\\', '"'] else [c]
  }

  /** `s.replace("\\", "\\\\").replace('"', '\\"')`, one character at a time. */
  function EscapeForJson(s: string): (r: string)
    ensures |r| >= |s|
  {
    if s == [] then [] else EscapeChar(s[0]) + EscapeForJson(s[1..])
  }

  /** The two chained `str.replace` calls are the one-pass escape. */
  lemma {:induction false} ChainedReplaceIsEscape(s: string)
    ensures ReplaceChar(ReplaceChar(s, '\\', ['\\', '\\']), '"', ['\\', '"']) == EscapeForJson(s)
  {
    if s != [] {
      var a := ReplaceChar(s, '\\', ['\\', '\\']);
      assert s == [s[0]] + s[1..];
      ReplaceCharAppend([s[0]], s[1..], '\\', ['\\', '\\']);
      var head := ReplaceChar([s[0]], '\\', ['\\', '\\']);
      assert [s[0]][1..] == [];
      assert head == (if s[0] == '\\' then ['\\', '\\'] else [s[0]]);
      ReplaceCharAppend(head, ReplaceChar(s[1..], '\\', ['\\', '\\']), '"', ['\\', '"']);
      var q := ReplaceChar(head, '"', ['\\', '"']);
      if s[0] == '\\' {
        assert head[1..] == ['\\'];
        assert q == ['\\', '\\'];
      } else {
        assert q == EscapeChar(s[0]);
      }
      ChainedReplaceIsEscape(s[1..]);
    }
  }

  /** `format_cypher_for_json(block, use_newlines)`. */
  function FormatCypherForJson(block: string, useNewlines: bool): (r: string)
    ensures r == EscapeForJson(Join(KeptLines(block), LineSeparator(useNewlines)))
  {
    var joined := Join(KeptLines(block), LineSeparator(useNewlines));
    ChainedReplaceIsEscape(joined);
    ReplaceChar(ReplaceChar(joined, '\\', ['\\', '\\']), '"', ['\\', '"'])
  }

  /** Reading an escaped string back: a backslash followed by a backslash or a double
      quote stands for that second character. */
  function Unescape(t: string): string {
    if |t| >= 2 && t[0] == '\\' && (t[1] == '\\' || t[1] == '"') then [t[1]] + Unescape(t[2..])
    else if t == [] then []
    else [t[0]] + Unescape(t[1..])
  }

  /** Undoing the two escapes recovers the joined text. */
  lemma {:induction false} UnescapeEscape(s: string)
    ensures Unescape(EscapeForJson(s)) == s
  {
    if s != [] {
      var rest := EscapeForJson(s[1..]);
      assert EscapeForJson(s) == EscapeChar(s[0]) + rest;
      if s[0] == '\\' || s[0] == '"' {
        assert (EscapeChar(s[0]) + rest)[2..] == rest;
      } else {
        assert (EscapeChar(s[0]) + rest)[1..] == rest;
      }
      UnescapeEscape(s[1..]);
    }
  }

  /** The output of `format_cypher_for_json` decodes back to the kept lines joined by the
      separator. */
  lemma FormatRoundTrip(block: string, useNewlines: bool)
    ensures Unescape(FormatCypherForJson(block, useNewlines)) == Join(KeptLines(block), LineSeparator(useNewlines))
  {
    UnescapeEscape(Join(KeptLines(block), LineSeparator(useNewlines)));
  }

  // ---------------------------------------------------------------- marker removal

  const BlockStart: string := "CYPHER BLOCK START"
  const BlockEnd: string := "CYPHER BLOCK END"

  /** Case-insensitive equality of a text character with an ASCII pattern character, as
      Python's `re.IGNORECASE` decides it for the letters of the marker words: ASCII case,
      plus KELVIN SIGN for k and LATIN SMALL LETTER LONG S for s. */
  predicate CiCharEq(c: char, p: char) {
    LowerChar(c) == LowerChar(p)
    || (LowerChar(p) == 'k' && c == '\U{212a}')
    || (LowerChar(p) == 's' && c == '\U{17f}')
  }

  predicate CiOccursAt(s: string, w: string, i: int) {
    0 <= i && i + |w| <= |s| && forall k :: 0 <= k < |w| ==> CiCharEq(s[i + k], w[k])
  }

  /** `w` occurs in `s` in some letter case. */
  predicate MentionsCi(s: string, w: string) {
    exists i | 0 <= i <= |s| - |w| :: CiOccursAt(s, w, i)
  }

  /** The number of consecutive `*` starting at `i`. */
  function StarRun(s: string, i: nat): (n: nat)
    ensures i + n <= |s| || n == 0
    ensures forall k :: i <= k < i + n ==> s[k] == '*'
    ensures i + n < |s| ==> s[i + n] != '*'
    decreases |s| - i
  {
    if i < |s| && s[i] == '*' then 1 + StarRun(s, i + 1) else 0
  }

  /** A run of exactly `n` stars at `i`. */
  lemma {:induction false} StarRunExact(s: string, i: nat, n: nat)
    requires i + n <= |s| && forall k :: i <= k < i + n ==> s[k] == '*'
    requires i + n == |s| || s[i + n] != '*'
    ensures StarRun(s, i) == n
    decreases n
  {
    if n > 0 {
      StarRunExact(s, i + 1, n - 1);
    }
  }

  /** Where `.*?WORD` first succeeds from `from`: the first case-insensitive occurrence of
      `w` at or after `from` reached without crossing a newline. */
  function WordOnLine(s: string, w: string, from: nat): (r: Option<nat>)
    ensures r.Some? ==> from <= r.value && CiOccursAt(s, w, r.value)
    decreases |s| - from
  {
    if from + |w| > |s| then None
    else if CiOccursAt(s, w, from) then Some(from)
    else if s[from] == '\n' then None
    else WordOnLine(s, w, from + 1)
  }

  /** Where `.*?\*{6,}` first succeeds from `from`: the first run of six or more stars
      reached without crossing a newline. */
  function StarsOnLine(s: string, from: nat): (r: Option<nat>)
    ensures r.Some? ==> from <= r.value && StarRun(s, r.value) >= 6
    decreases |s| - from
  {
    if from >= |s| then None
    else if StarRun(s, from) >= 6 then Some(from)
    else if s[from] == '\n' then None
    else StarsOnLine(s, from + 1)
  }

  /** The end of the match of `\*{6,}.*?WORD.*?\*{6,}` (IGNORECASE, `.` not matching a
      newline) that Python's backtracking finds at position `i`, if any: the greedy star
      run, the first reachable occurrence of the word, then the first reachable run of at
      least six stars, taken whole. Giving back stars or taking a later occurrence of the
      word can never succeed where these choices fail, because everything between stays
      on the same line. */
  function MarkerMatchAt(s: string, w: string, i: nat): (r: Option<nat>)
    ensures r.Some? ==> i < r.value <= |s|
  {
    if StarRun(s, i) < 6 then None
    else
      match WordOnLine(s, w, i + StarRun(s, i))
      case None => None
      case Some(p) =>
        match StarsOnLine(s, p + |w|)
        case None => None
        case Some(q) => Some(q + StarRun(s, q))
  }

  /** `re.sub(pattern, "", s[i:])` for the marker pattern of word `w`, scanning left to right. */
  function RemoveMarkersFrom(s: string, w: string, i: nat): (r: string)
    ensures |r| <= |s| - i || i >= |s|
    decreases |s| - i
  {
    if i >= |s| then []
    else
      match MarkerMatchAt(s, w, i)
      case Some(e) => RemoveMarkersFrom(s, w, e)
      case None => [s[i]] + RemoveMarkersFrom(s, w, i + 1)
  }

  function RemoveMarkers(s: string, w: string): (r: string)
    ensures |r| <= |s|
  {
    RemoveMarkersFrom(s, w, 0)
  }

  /** A text that never mentions the word, in any letter case, is left untouched. */
  lemma {:induction false} RemoveMarkersFromUnmentioned(s: string, w: string, i: nat)
    requires !MentionsCi(s, w)
    ensures RemoveMarkersFrom(s, w, i) == if i < |s| then s[i..] else []
    decreases |s| - i
  {
    if i < |s| {
      if StarRun(s, i) >= 6 {
        var p := WordOnLine(s, w, i + StarRun(s, i));
        if p.Some? {
          assert false;
        }
      }
      RemoveMarkersFromUnmentioned(s, w, i + 1);
      assert s[i..] == [s[i]] + s[i + 1..];
    }
  }

  lemma RemoveMarkersUnmentioned(s: string, w: string)
    requires !MentionsCi(s, w)
    ensures RemoveMarkers(s, w) == s
  {
    RemoveMarkersFromUnmentioned(s, w, 0);
  }

  /** The clean-up `patch_tool_call` applies to a `saveToNeo4j` Cypher text: both marker
      substitutions, then `strip()`. */
  function CleanMarkers(cypher: string): (r: string)
    ensures Trimmed(r, IsPySpace)
  {
    PyStrip(RemoveMarkers(RemoveMarkers(cypher, BlockStart), BlockEnd))
  }

  /** Without a mention of either marker word, only trimming happens. */
  lemma CleanMarkersUnmentioned(cypher: string)
    requires !MentionsCi(cypher, BlockStart) && !MentionsCi(cypher, BlockEnd)
    ensures CleanMarkers(cypher) == PyStrip(cypher)
  {
    RemoveMarkersUnmentioned(cypher, BlockStart);
    RemoveMarkersUnmentioned(cypher, BlockEnd);
  }

  // ---------------------------------------------------------------- patch_tool_call

  const NotADict: string := "Expected tool_call to be a dictionary."
  const EmptyCypher: string := "Cypher must be a non-empty string."

  /** The `arguments` dict `tool_call.get("arguments", {})` gives. */
  function ArgumentsOf(fields: seq<Field>): Json {
    Lookup(fields, "arguments").GetOr(JObj([]))
  }

  /** `patch_tool_call(tool_call)`: the returned dict, or the text of the exception raised. */
  function PatchToolCall(toolCall: Json): (r: Result<Json, string>)
    ensures !toolCall.JObj? ==> r == Failure(NotADict)
    ensures toolCall.JObj? && Lookup(toolCall.fields, "name") != Some(JStr("saveToNeo4j")) ==> r == Success(toolCall)
    ensures r.Success? ==> r.value.JObj? && Keys(r.value.fields) == Keys(toolCall.fields)
  {
    if !toolCall.JObj? then Failure(NotADict)
    else if Lookup(toolCall.fields, "name") != Some(JStr("saveToNeo4j")) then Success(toolCall)
    else
      var args := ArgumentsOf(toolCall.fields);
      if !args.JObj? then Failure(NoAttribute(args, "get"))
      else
        var cypher := Lookup(args.fields, "cypher").GetOr(JStr(""));
        if !cypher.JStr? || PyStrip(cypher.s) == [] then Failure(EmptyCypher)
        else
          var newArgs := JObj(Put(args.fields, "cypher", JStr(CleanMarkers(cypher.s))));
          assert HasKey(toolCall.fields, "arguments");
          Success(JObj(Put(toolCall.fields, "arguments", newArgs)))
  }

  /** The Cypher text a `saveToNeo4j` call carries, if its arguments hold a string. */
  function CypherOf(toolCall: Json): Option<string> {
    if toolCall.JObj? && ArgumentsOf(toolCall.fields).JObj? then
      match Lookup(ArgumentsOf(toolCall.fields).fields, "cypher")
      case Some(JStr(c)) => Some(c)
      case _ => None
    else None
  }

  /** On `saveToNeo4j`, patching succeeds exactly when `arguments` (default `{}`) is a
      dict whose `cypher` is a string that is not blank. */
  lemma PatchSucceedsIff(toolCall: Json)
    requires toolCall.JObj? && Lookup(toolCall.fields, "name") == Some(JStr("saveToNeo4j"))
    ensures PatchToolCall(toolCall).Success? <==>
              ArgumentsOf(toolCall.fields).JObj? && CypherOf(toolCall).Some? && PyStrip(CypherOf(toolCall).value) != []
  {
  }

  /** A successful patch of a `saveToNeo4j` call stores the cleaned text, which has no
      surrounding whitespace, under `cypher`, and the `arguments` dict keeps its keys. */
  lemma PatchStoresCleaned(toolCall: Json, c: string)
    requires toolCall.JObj? && Lookup(toolCall.fields, "name") == Some(JStr("saveToNeo4j"))
    requires PatchToolCall(toolCall).Success?
    requires CypherOf(toolCall) == Some(c)
    ensures CypherOf(PatchToolCall(toolCall).value) == Some(CleanMarkers(c))
    ensures Trimmed(CleanMarkers(c), IsPySpace)
    ensures ArgumentsOf(PatchToolCall(toolCall).value.fields).JObj?
    ensures Keys(ArgumentsOf(PatchToolCall(toolCall).value.fields).fields) == Keys(ArgumentsOf(toolCall.fields).fields)
  {
    var args := ArgumentsOf(toolCall.fields);
    assert Lookup(args.fields, "cypher") == Some(JStr(c));
    var newArgs := JObj(Put(args.fields, "cypher", JStr(CleanMarkers(c))));
    var patched := JObj(Put(toolCall.fields, "arguments", newArgs));
    assert PatchToolCall(toolCall) == Success(patched);
    assert ArgumentsOf(patched.fields) == newArgs;
  }

  /** Without a mention of either marker word, patching only trims the Cypher text. */
  lemma PatchOnlyTrims(toolCall: Json, c: string)
    requires toolCall.JObj? && Lookup(toolCall.fields, "name") == Some(JStr("saveToNeo4j"))
    requires CypherOf(toolCall) == Some(c) && PyStrip(c) != []
    requires !MentionsCi(c, BlockStart) && !MentionsCi(c, BlockEnd)
    ensures PatchToolCall(toolCall).Success?
    ensures CypherOf(PatchToolCall(toolCall).value) == Some(PyStrip(c))
  {
    PatchSucceedsIff(toolCall);
    PatchStoresCleaned(toolCall, c);
    CleanMarkersUnmentioned(c);
  }

  function Stars(n: nat): (r: string)
    ensures |r| == n && forall k :: 0 <= k < n ==> r[k] == '*'
  {
    seq(n, _ => '*')
  }

  /** "******CYPHER BLOCK START******". */
  const StartMarkerOnly: string := Stars(6) + BlockStart + Stars(6)

  /** The whole of `StartMarkerOnly` is one match of the start-marker pattern. */
  lemma StartMarkerMatch()
    ensures MarkerMatchAt(StartMarkerOnly, BlockStart, 0) == Some(30)
  {
    var c := StartMarkerOnly;
    assert |c| == 30;
    StarRunExact(c, 0, 6);
    forall k | 0 <= k < |BlockStart| ensures CiCharEq(c[6 + k], BlockStart[k]) {
      assert c[6 + k] == BlockStart[k];
    }
    assert CiOccursAt(c, BlockStart, 6);
    assert WordOnLine(c, BlockStart, 6) == Some(6);
    StarRunExact(c, 24, 6);
    assert StarsOnLine(c, 24) == Some(24);
  }

  lemma StartMarkerCleaned()
    ensures CleanMarkers(StartMarkerOnly) == []
  {
    StartMarkerMatch();
    assert RemoveMarkersFrom(StartMarkerOnly, BlockStart, 30) == [];
    assert RemoveMarkers(StartMarkerOnly, BlockStart) == [];
    assert RemoveMarkers([], BlockEnd) == [];
  }

  /** A payload made only of a start marker passes the emptiness check, since that check
      runs before the markers are removed, and comes out as the empty string; patching
      the result again raises. So `patch_tool_call` is not idempotent. */
  lemma MarkersOnlyPayload()
    ensures PatchedOnceToEmpty(StartMarkerOnly)
  {
    StartMarkerCleaned();
    PatchToEmpty(StartMarkerOnly);
  }

  /** The block payload `c` is patched once into an empty query, which a second patch refuses. */
  predicate PatchedOnceToEmpty(c: string)
  {
    var tc := BlockToolCall(c);
    && PatchToolCall(tc).Success?
    && CypherOf(PatchToolCall(tc).value) == Some("")
    && PatchToolCall(PatchToolCall(tc).value) == Failure(EmptyCypher)
  }

  /** A payload that is not blank but cleans up to nothing is patched once and refused
      the second time. */
  lemma PatchToEmpty(c: string)
    requires PyStrip(c) != [] && CleanMarkers(c) == []
    ensures PatchedOnceToEmpty(c)
  {
    var tc := BlockToolCall(c);
    PatchSucceedsIff(tc);
    PatchStoresCleaned(tc, c);
    var patched := PatchToolCall(tc).value;
    assert Lookup(patched.fields, "name") == Some(JStr("saveToNeo4j"));
    EmptyCypherRefused(patched);
  }

  lemma EmptyCypherRefused(tc: Json)
    requires tc.JObj? && Lookup(tc.fields, "name") == Some(JStr("saveToNeo4j")) && CypherOf(tc) == Some("")
    ensures PatchToolCall(tc) == Failure(EmptyCypher)
  {
    assert Lookup(ArgumentsOf(tc.fields).fields, "cypher") == Some(JStr([]));
    assert PyStrip([]) == [];
  }

  // ---------------------------------------------------------------- delimited-block payload

  /** The number of consecutive `'` starting at `i`. */
  function QuoteRun(s: string, i: nat): (n: nat)
    ensures i + n <= |s| || n == 0
    decreases |s| - i
  {
    if i < |s| && s[i] == '\'' then 1 + QuoteRun(s, i + 1) else 0
  }

  /** The run is made of quotes and is not followed by one. */
  lemma {:induction false} QuoteRunSpec(s: string, i: nat)
    ensures var n := QuoteRun(s, i);
            (forall k :: i <= k < i + n ==> s[k] == '\'') && (i + n < |s| ==> s[i + n] != '\'')
    decreases |s| - i
  {
    if i < |s| && s[i] == '\'' {
      QuoteRunSpec(s, i + 1);
    }
  }

  /** Three `'` in a row start at `k`. */
  predicate TripleAt(s: string, k: int)
    requires 0 <= k && k + 2 < |s|
  {
    s[k] == '\'' && s[k + 1] == '\'' && s[k + 2] == '\''
  }

  /** No three `'` in a row. */
  predicate NoTripleQuote(s: string) {
    forall k :: 0 <= k && k + 2 < |s| ==> !TripleAt(s, k)
  }

  /** `re.sub(r"''{2,}", "''", s[i:])`: every run of three or more `'` becomes exactly two;
      shorter runs are copied. */
  function CollapseQuotesFrom(s: string, i: nat): (r: string)
    ensures i < |s| && s[i] != '\'' ==> r != [] && r[0] == s[i]
    decreases |s| - i
  {
    if i >= |s| then []
    else if s[i] != '\'' then [s[i]] + CollapseQuotesFrom(s, i + 1)
    else QuotePiece(s, i) + CollapseQuotesFrom(s, i + QuoteRun(s, i))
  }

  /** What the run of quotes at `i` becomes: two quotes for a run of three or more, the
      run itself otherwise. */
  function QuotePiece(s: string, i: nat): (piece: string)
    requires i < |s| && s[i] == '\''
    ensures 1 <= |piece| <= 2 && forall k :: 0 <= k < |piece| ==> piece[k] == '\''
    ensures QuoteRun(s, i) <= 2 ==> piece == s[i..i + QuoteRun(s, i)]
    ensures QuoteRun(s, i) >= 3 ==> piece == ['\'', '\'']
  {
    var n := QuoteRun(s, i);
    QuoteRunSpec(s, i);
    if n >= 3 then ['\'', '\''] else s[i..i + n]
  }

  /** The collapsed text has no three quotes in a row. */
  lemma {:induction false} CollapsedHasNoTriple(s: string, i: nat)
    ensures NoTripleQuote(CollapseQuotesFrom(s, i))
    decreases |s| - i, 1
  {
    if i < |s| {
      if s[i] != '\'' {
        OtherNoTriple(s, i);
      } else {
        QuoteNoTriple(s, i);
      }
    }
  }

  lemma {:induction false} OtherNoTriple(s: string, i: nat)
    requires i < |s| && s[i] != '\''
    ensures NoTripleQuote(CollapseQuotesFrom(s, i))
    decreases |s| - i, 0
  {
    CollapsedHasNoTriple(s, i + 1);
    OtherCopied(s, i);
    NoTripleAfterOther(s[i], CollapseQuotesFrom(s, i + 1));
  }

  lemma {:induction false} QuoteNoTriple(s: string, i: nat)
    requires i < |s| && s[i] == '\''
    ensures NoTripleQuote(CollapseQuotesFrom(s, i))
    decreases |s| - i, 0
  {
    QuoteRunSpec(s, i);
    QuoteRunBounds(s, i);
    CollapsedHasNoTriple(s, i + QuoteRun(s, i));
    QuotePieceNoTriple(s, i);
  }

  lemma QuotePieceNoTriple(s: string, i: nat)
    requires i < |s| && s[i] == '\''
    requires var n := QuoteRun(s, i); i + n < |s| ==> s[i + n] != '\''
    requires NoTripleQuote(CollapseQuotesFrom(s, i + QuoteRun(s, i)))
    ensures NoTripleQuote(CollapseQuotesFrom(s, i))
  {
    var rest := CollapseQuotesFrom(s, i + QuoteRun(s, i));
    assert rest == [] || rest[0] != '\'';
    NoTripleAfterQuotes(QuotePiece(s, i), rest);
  }

  /** A character other than a quote in front of a text without a triple adds none. */
  lemma NoTripleAfterOther(c: char, rest: string)
    requires c != '\'' && NoTripleQuote(rest)
    ensures NoTripleQuote([c] + rest)
  {
    var r := [c] + rest;
    forall k | 0 <= k && k + 2 < |r|
      ensures !TripleAt(r, k)
    {
      if k >= 1 {
        assert !TripleAt(rest, k - 1);
        assert r[k] == rest[k - 1] && r[k + 1] == rest[k] && r[k + 2] == rest[k + 1];
      }
    }
  }

  /** At most two quotes followed by a text that does not start with one leave no triple. */
  lemma NoTripleAfterQuotes(piece: string, rest: string)
    requires |piece| <= 2 && forall k :: 0 <= k < |piece| ==> piece[k] == '\''
    requires rest == [] || rest[0] != '\''
    requires NoTripleQuote(rest)
    ensures NoTripleQuote(piece + rest)
  {
    var r := piece + rest;
    forall k | 0 <= k && k + 2 < |r|
      ensures !TripleAt(r, k)
    {
      if k >= |piece| {
        assert !TripleAt(rest, k - |piece|);
        assert r[k] == rest[k - |piece|] && r[k + 1] == rest[k + 1 - |piece|] && r[k + 2] == rest[k + 2 - |piece|];
      } else if |piece| - k == 1 {
        assert r[k + 1] == rest[0];
      } else {
        assert r[k + 2] == rest[0];
      }
    }
  }

  function CollapseQuotes(s: string): (r: string)
    ensures NoTripleQuote(r)
  {
    CollapsedHasNoTriple(s, 0);
    CollapseQuotesFrom(s, 0)
  }

  /** A run of three or more quotes becomes exactly two, and the scan resumes after the
      whole run. */
  lemma CollapseLongRun(s: string, i: nat)
    requires QuoteRun(s, i) >= 3
    ensures CollapseQuotesFrom(s, i) == ['\'', '\''] + CollapseQuotesFrom(s, i + QuoteRun(s, i))
  {
  }

  /** Runs of one or two quotes are untouched: a text without three quotes in a row is
      returned unchanged. */
  lemma {:induction false} CollapseQuotesFromShortRuns(s: string, i: int)
    requires NoTripleQuote(s) && 0 <= i <= |s|
    ensures CollapseQuotesFrom(s, i) == s[i..]
    decreases |s| - i, 1
  {
    if i < |s| {
      if s[i] != '\'' {
        OtherKept(s, i);
      } else {
        ShortRunKept(s, i);
      }
    }
  }

  lemma {:induction false} OtherKept(s: string, i: int)
    requires NoTripleQuote(s) && 0 <= i < |s| && s[i] != '\''
    ensures CollapseQuotesFrom(s, i) == s[i..]
    decreases |s| - i, 0
  {
    OtherCopied(s, i);
    CollapseQuotesFromShortRuns(s, i + 1);
    DropCons(s, i);
    Rejoin(CollapseQuotesFrom(s, i), [s[i]], CollapseQuotesFrom(s, i + 1), s[i + 1..], s[i..]);
  }

  lemma {:induction false} ShortRunKept(s: string, i: int)
    requires NoTripleQuote(s) && 0 <= i < |s| && s[i] == '\''
    ensures CollapseQuotesFrom(s, i) == s[i..]
    decreases |s| - i, 0
  {
    ShortQuoteRun(s, i);
    QuoteRunBounds(s, i);
    CollapseQuotesFromShortRuns(s, i + QuoteRun(s, i));
    ShortRunCopied(s, i);
  }

  lemma QuoteRunBounds(s: string, i: int)
    requires 0 <= i < |s| && s[i] == '\''
    ensures 1 <= QuoteRun(s, i) && i + QuoteRun(s, i) <= |s|
  {
  }

  /** A character other than a quote is copied as it is. */
  lemma OtherCopied(s: string, i: int)
    requires 0 <= i < |s| && s[i] != '\''
    ensures CollapseQuotesFrom(s, i) == [s[i]] + CollapseQuotesFrom(s, i + 1)
  {
  }

  /** A run of one or two quotes is copied as it is. */
  lemma ShortRunCopied(s: string, i: int)
    requires 0 <= i < |s| && s[i] == '\'' && QuoteRun(s, i) <= 2
    requires 1 <= QuoteRun(s, i) && i + QuoteRun(s, i) <= |s|
    requires CollapseQuotesFrom(s, i + QuoteRun(s, i)) == s[i + QuoteRun(s, i)..]
    ensures CollapseQuotesFrom(s, i) == s[i..]
  {
    var n := QuoteRun(s, i);
    assert CollapseQuotesFrom(s, i) == QuotePiece(s, i) + CollapseQuotesFrom(s, i + n);
    DropSplit(s, i, i + n);
  }

  /** In a text without a triple, every run of quotes has at most two. */
  lemma ShortQuoteRun(s: string, i: nat)
    requires NoTripleQuote(s)
    ensures QuoteRun(s, i) <= 2
  {
    QuoteRunSpec(s, i);
    if QuoteRun(s, i) >= 3 {
      assert TripleAt(s, i);
    }
  }

  /** Collapsing is idempotent. */
  lemma CollapseQuotesIdempotent(s: string)
    ensures CollapseQuotes(CollapseQuotes(s)) == CollapseQuotes(s)
  {
    CollapseQuotesFromShortRuns(CollapseQuotes(s), 0);
  }

  /** A run of four quotes becomes two; a run of two is kept. */
  lemma CollapseQuotesExample()
    ensures CollapseQuotes("a''''b''c") == "a''b''c"
  {
    var s := "a''''b''c";
    assert QuoteRun(s, 1) == 4;
    assert QuoteRun(s, 6) == 2;
    assert CollapseQuotesFrom(s, 8) == "c";
    assert CollapseQuotesFrom(s, 6) == "''c";
    assert CollapseQuotesFrom(s, 5) == "b''c";
    assert CollapseQuotesFrom(s, 1) == "''b''c";
  }

  const ClearAllPrefix: string := "MATCH (n) DETACH DELETE n\n"

  /** The Cypher text built from the first group of a delimited block: stripped, quote
      runs collapsed, decoded with `unicode_escape` (an input, which fails with the
      decoder's message), then prefixed with the statement that deletes every node. */
  function BlockPayload(group: string, unicodeEscape: string -> Result<string, string>): (r: Result<string, string>)
    ensures r.Success? <==> unicodeEscape(CollapseQuotes(PyStrip(group))).Success?
    ensures r.Success? ==> |r.value| >= |ClearAllPrefix| && r.value[..|ClearAllPrefix|] == ClearAllPrefix
                           && r.value[|ClearAllPrefix|..] == unicodeEscape(CollapseQuotes(PyStrip(group))).value
  {
    var decoded :- unicodeEscape(CollapseQuotes(PyStrip(group)));
    Success(ClearAllPrefix + decoded)
  }

  /** `{"name": "saveToNeo4j", "arguments": {"cypher": payload}}`. */
  function BlockToolCall(payload: string): (tc: Json)
    ensures tc.JObj? && Keys(tc.fields) == ["name", "arguments"]
    ensures Lookup(tc.fields, "name") == Some(JStr("saveToNeo4j"))
    ensures CypherOf(tc) == Some(payload)
    ensures ArgumentsOf(tc.fields).JObj? && Keys(ArgumentsOf(tc.fields).fields) == ["cypher"]
  {
    var args := JObj([Field("cypher", JStr(payload))]);
    var fields := [Field("name", JStr("saveToNeo4j")), Field("arguments", args)];
    LookupAt(fields, 1, "arguments");
    JObj(fields)
  }
}

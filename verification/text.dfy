/** String primitives with the semantics of the Python and JavaScript built-ins the
    scripts call: `str.strip`, `str.lower`, `str.splitlines`, `str.replace` with a
    one-character pattern, `str.split`, `String.prototype.trim`, and decimal formatting
    of integers. Case mapping is modelled for ASCII letters only. */
module Text {
  import opened Wrappers

  /** The characters Python's `str.isspace()` accepts (and hence `str.strip()` removes). */
  predicate IsPySpace(c: char) {
    c == ' ' || ('\t' <= c <= '\r') || ('\U{1c}' <= c <= '\U{1f}') || c == '\U{85}' || c == '\U{a0}'
    || c == '\U{1680}' || ('\U{2000}' <= c <= '\U{200a}') || c == '\U{2028}' || c == '\U{2029}'
    || c == '\U{202f}' || c == '\U{205f}' || c == '\U{3000}'
  }

  /** The characters JavaScript's `String.prototype.trim()` removes (WhiteSpace and LineTerminator). */
  predicate IsJsSpace(c: char) {
    c == ' ' || ('\t' <= c <= '\r') || c == '\U{a0}' || c == '\U{1680}' || ('\U{2000}' <= c <= '\U{200a}')
    || c == '\U{2028}' || c == '\U{2029}' || c == '\U{202f}' || c == '\U{205f}' || c == '\U{3000}'
    || c == '\U{feff}'
  }

  /** The line boundaries of Python's `str.splitlines()`. */
  predicate IsLineBreak(c: char) {
    c == '\n' || c == '\r' || c == '\U{0b}' || c == '\U{0c}' || ('\U{1c}' <= c <= '\U{1e}') || c == '\U{85}'
    || c == '\U{2028}' || c == '\U{2029}'
  }

  lemma LineBreakIsSpace(c: char)
    requires IsLineBreak(c)
    ensures IsPySpace(c)
  {
  }

  // ---------------------------------------------------------------- trimming

  /** Drops the longest prefix whose characters all satisfy `p`. */
  function TrimStart(s: string, p: char -> bool): (r: string)
    ensures |r| <= |s|
    ensures r == [] || !p(r[0])
  {
    if s != [] && p(s[0]) then TrimStart(s[1..], p) else s
  }

  /** What `TrimStart` removes is a prefix of characters satisfying `p`. */
  lemma {:induction false} TrimStartSuffix(s: string, p: char -> bool)
    ensures var r := TrimStart(s, p);
            r == s[|s| - |r|..] && forall i :: 0 <= i < |s| - |r| ==> p(s[i])
  {
    if s != [] && p(s[0]) {
      TrimStartSuffix(s[1..], p);
      var r := TrimStart(s, p);
      assert r == TrimStart(s[1..], p);
      forall i | 0 <= i < |s| - |r| ensures p(s[i]) {
        if i > 0 {
          assert s[i] == s[1..][i - 1];
        }
      }
    }
  }

  /** Drops the longest suffix whose characters all satisfy `p`. */
  function TrimEnd(s: string, p: char -> bool): (r: string)
    ensures |r| <= |s|
    ensures r == [] || !p(r[|r| - 1])
  {
    if s != [] && p(s[|s| - 1]) then TrimEnd(s[..|s| - 1], p) else s
  }

  /** What `TrimEnd` removes is a suffix of characters satisfying `p`. */
  lemma {:induction false} TrimEndPrefix(s: string, p: char -> bool)
    ensures var r := TrimEnd(s, p);
            r == s[..|r|] && forall i :: |r| <= i < |s| ==> p(s[i])
  {
    if s != [] && p(s[|s| - 1]) {
      TrimEndPrefix(s[..|s| - 1], p);
      var r := TrimEnd(s, p);
      assert r == TrimEnd(s[..|s| - 1], p);
      forall i | |r| <= i < |s| ensures p(s[i]) {
        if i < |s| - 1 {
          assert s[i] == s[..|s| - 1][i];
        }
      }
    }
  }

  /** Neither end of `s` satisfies `p`. */
  predicate Trimmed(s: string, p: char -> bool) {
    s == [] || (!p(s[0]) && !p(s[|s| - 1]))
  }

  /** `r` is the slice of `s` that starts at `lo`, and everything around it satisfies `p`. */
  predicate SliceBetween(s: string, r: string, lo: int, p: char -> bool) {
    0 <= lo <= |s| - |r| && r == s[lo..lo + |r|]
    && (forall i :: 0 <= i < lo ==> p(s[i]))
    && (forall i :: lo + |r| <= i < |s| ==> p(s[i]))
  }

  /** Both ends trimmed (`StripIsSlice` below: what is removed is every leading and
      every trailing character that satisfies `p`). */
  function Strip(s: string, p: char -> bool): (r: string)
    ensures Trimmed(r, p)
    ensures |r| <= |s|
  {
    var t := TrimStart(s, p);
    var r := TrimEnd(t, p);
    TrimStartSuffix(s, p);
    TrimEndPrefix(t, p);
    StripSlice(s, t, r, p);
    r
  }

  /** The stripped text is the contiguous slice of `s` left after removing every
      leading and every trailing character that satisfies `p`. */
  lemma StripIsSlice(s: string, p: char -> bool)
    ensures SliceBetween(s, Strip(s, p), |s| - |TrimStart(s, p)|, p)
  {
    var t := TrimStart(s, p);
    TrimStartSuffix(s, p);
    TrimEndPrefix(t, p);
    StripSlice(s, t, TrimEnd(t, p), p);
  }

  /** A prefix `r` of a suffix `t` of `s`, each cut where `p` stops holding, is a
      trimmed slice of `s` with only characters satisfying `p` around it. */
  lemma StripSlice(s: string, t: string, r: string, p: char -> bool)
    requires |t| <= |s| && t == s[|s| - |t|..] && forall i :: 0 <= i < |s| - |t| ==> p(s[i])
    requires |r| <= |t| && r == t[..|r|] && forall i :: |r| <= i < |t| ==> p(t[i])
    requires (t == [] || !p(t[0])) && (r == [] || !p(r[|r| - 1]))
    ensures SliceBetween(s, r, |s| - |t|, p)
    ensures Trimmed(r, p)
  {
    if r != [] {
      assert r[0] == t[0];
    }
    var lo := |s| - |t|;
    assert r == s[lo..lo + |r|];
    forall i | lo + |r| <= i < |s| ensures p(s[i]) {
      assert s[i] == t[i - lo];
    }
  }

  lemma {:induction false} TrimStartOfTrimmed(s: string, p: char -> bool)
    requires s == [] || !p(s[0])
    ensures TrimStart(s, p) == s
  {
  }

  lemma {:induction false} TrimEndOfTrimmed(s: string, p: char -> bool)
    requires s == [] || !p(s[|s| - 1])
    ensures TrimEnd(s, p) == s
  {
  }

  /** Stripping changes nothing on a string that is already trimmed; in particular
      stripping is idempotent. */
  lemma StripOfTrimmed(s: string, p: char -> bool)
    requires Trimmed(s, p)
    ensures Strip(s, p) == s
  {
    TrimStartOfTrimmed(s, p);
    TrimEndOfTrimmed(s, p);
  }

  /** A string made only of characters satisfying `p` strips to nothing. */
  lemma StripOfAll(s: string, p: char -> bool)
    requires forall k :: 0 <= k < |s| ==> p(s[k])
    ensures Strip(s, p) == []
  {
    TrimStartOfAll(s, p);
  }

  lemma {:induction false} TrimStartOfAll(s: string, p: char -> bool)
    requires forall k :: 0 <= k < |s| ==> p(s[k])
    ensures TrimStart(s, p) == []
  {
    if s != [] {
      assert forall k :: 0 <= k < |s[1..]| ==> s[1..][k] == s[k + 1];
      TrimStartOfAll(s[1..], p);
    }
  }

  /** Python's `str.strip()` with no argument. */
  function PyStrip(s: string): (r: string)
    ensures Trimmed(r, IsPySpace)
    ensures |r| <= |s|
  {
    Strip(s, IsPySpace)
  }

  /** JavaScript's `String.prototype.trim()`. */
  function JsTrim(s: string): (r: string)
    ensures Trimmed(r, IsJsSpace)
    ensures |r| <= |s|
  {
    Strip(s, IsJsSpace)
  }

  /** Python's `str.rstrip(c)` with a one-character argument. */
  function RStripChar(s: string, c: char): (r: string)
    ensures r == [] || r[|r| - 1] != c
    ensures |r| <= |s| && r == s[..|r|]
    ensures forall i :: |r| <= i < |s| ==> s[i] == c
  {
    TrimEndPrefix(s, x => x == c);
    TrimEnd(s, x => x == c)
  }

  // ---------------------------------------------------------------- case mapping

  function LowerChar(c: char): char {
    if 'A' <= c <= 'Z' then (c as int + 32) as char else c
  }

  function UpperChar(c: char): char {
    if 'a' <= c <= 'z' then (c as int - 32) as char else c
  }

  /** `str.lower()` (ASCII letters). */
  function Lower(s: string): string {
    seq(|s|, i requires 0 <= i < |s| => LowerChar(s[i]))
  }

  /** `str.upper()` (ASCII letters). */
  function Upper(s: string): string {
    seq(|s|, i requires 0 <= i < |s| => UpperChar(s[i]))
  }

  /** Upper-casing is idempotent: every upper-cased string is its own upper case. */
  lemma UpperIdempotent(s: string)
    ensures Upper(Upper(s)) == Upper(s)
  {
    var u := Upper(s);
    assert forall i :: 0 <= i < |u| ==> UpperChar(u[i]) == u[i];
  }

  // ---------------------------------------------------------------- searching

  predicate OccursAt(s: string, w: string, i: int) {
    0 <= i && i + |w| <= |s| && s[i..i + |w|] == w
  }

  /** Python's `w in s` for strings. */
  predicate Contains(s: string, w: string) {
    exists i | 0 <= i <= |s| - |w| :: OccursAt(s, w, i)
  }

  /** A string without `w` has no slice containing `w`. */
  lemma SliceFree(s: string, w: string, lo: int, hi: int)
    requires 0 <= lo <= hi <= |s|
    requires !Contains(s, w)
    ensures !Contains(s[lo..hi], w)
  {
    var t := s[lo..hi];
    forall i | 0 <= i <= |t| - |w|
      ensures !OccursAt(t, w, i)
    {
      var u, v := t[i..i + |w|], s[lo + i..lo + i + |w|];
      forall k | 0 <= k < |w|
        ensures u[k] == v[k]
      {
        assert u[k] == t[i + k] == s[lo + i + k];
      }
      assert u == v;
      assert !OccursAt(s, w, lo + i);
    }
  }

  /** The first occurrence of `w` at or after `from` (Python's `str.find(w, from)`). */
  function IndexFrom(s: string, w: string, from: nat): (r: Option<nat>)
    ensures r.Some? ==> from <= r.value && OccursAt(s, w, r.value)
                        && forall k :: from <= k < r.value ==> !OccursAt(s, w, k)
    ensures r.None? ==> forall k :: from <= k ==> !OccursAt(s, w, k)
    decreases |s| - from
  {
    if from + |w| > |s| then None
    else if s[from..from + |w|] == w then Some(from)
    else IndexFrom(s, w, from + 1)
  }

  /** `s.endswith(suffix)`. */
  predicate EndsWith(s: string, suffix: string) {
    |suffix| <= |s| && s[|s| - |suffix|..] == suffix
  }

  // ---------------------------------------------------------------- building

  /** `s.replace(c, rep)` for a one-character pattern `c`. */
  function ReplaceChar(s: string, c: char, rep: string): (r: string)
    ensures c !in s ==> r == s
  {
    if s == [] then [] else (if s[0] == c then rep else [s[0]]) + ReplaceChar(s[1..], c, rep)
  }

  lemma {:induction false} ReplaceCharAppend(a: string, b: string, c: char, rep: string)
    ensures ReplaceChar(a + b, c, rep) == ReplaceChar(a, c, rep) + ReplaceChar(b, c, rep)
  {
    if a != [] {
      assert (a + b)[1..] == a[1..] + b;
      ReplaceCharAppend(a[1..], b, c, rep);
    } else {
      assert a + b == b;
    }
  }

  /** `sep.join(parts)`. */
  function Join(parts: seq<string>, sep: string): string {
    if |parts| == 0 then ""
    else if |parts| == 1 then parts[0]
    else parts[0] + sep + Join(parts[1..], sep)
  }

  /** Index of the first line boundary of `s`, or `|s|` when there is none. */
  function LineEnd(s: string): (n: nat)
    ensures n <= |s|
    ensures n < |s| ==> IsLineBreak(s[n])
    ensures forall i :: 0 <= i < n ==> !IsLineBreak(s[i])
  {
    if s == [] || IsLineBreak(s[0]) then 0 else 1 + LineEnd(s[1..])
  }

  /** Python's `str.splitlines()`: "\r\n" is one boundary and a final boundary does not
      open an empty last line. */
  function SplitLines(s: string): (lines: seq<string>)
    ensures forall i, k :: 0 <= i < |lines| && 0 <= k < |lines[i]| ==> !IsLineBreak(lines[i][k])
    decreases |s|
  {
    if s == [] then []
    else
      var n := LineEnd(s);
      if n == |s| then [s]
      else
        [s[..n]] + SplitLines(s[BoundaryEnd(s, n)..])
  }

  /** The lines one after another, with nothing between them. */
  function Concat(lines: seq<string>): string {
    if lines == [] then [] else lines[0] + Concat(lines[1..])
  }

  /** The characters of `s` that are not line boundaries, in order. */
  function DropBreaks(s: string): (r: string)
    ensures |r| <= |s|
  {
    if s == [] then [] else (if IsLineBreak(s[0]) then [] else [s[0]]) + DropBreaks(s[1..])
  }

  lemma {:induction false} DropBreaksAppend(a: string, b: string)
    ensures DropBreaks(a + b) == DropBreaks(a) + DropBreaks(b)
  {
    if a != [] {
      assert (a + b)[1..] == a[1..] + b;
      DropBreaksAppend(a[1..], b);
    } else {
      assert a + b == b;
    }
  }

  lemma {:induction false} DropBreaksNone(s: string)
    requires forall k :: 0 <= k < |s| ==> !IsLineBreak(s[k])
    ensures DropBreaks(s) == s
  {
    if s != [] {
      DropBreaksNone(s[1..]);
    }
  }

  /** Where the first boundary of `s` ends: after "\r\n", or after one character. */
  function BoundaryEnd(s: string, n: nat): nat
    requires n < |s|
  {
    if s[n] == '\r' && n + 1 < |s| && s[n + 1] == '\n' then n + 2 else n + 1
  }

  /** A boundary, "\r\n" included, contributes no character. */
  lemma BoundaryDropped(s: string, n: nat, next: nat)
    requires n < |s| && IsLineBreak(s[n])
    requires next == n + 1 || (next == n + 2 && next <= |s| && s[n + 1] == '\n')
    ensures DropBreaks(s[n..next]) == []
  {
    var t := s[n..next];
    if next == n + 2 {
      assert t == [s[n], s[n + 1]];
      BreaksDropped(s[n], s[n + 1]);
    } else {
      assert t == [s[n]];
      BreakDropped(s[n]);
    }
  }

  lemma BreakDropped(c: char)
    requires IsLineBreak(c)
    ensures DropBreaks([c]) == []
  {
    assert [c][1..] == [];
  }

  lemma BreaksDropped(c: char, d: char)
    requires IsLineBreak(c) && d == '\n'
    ensures DropBreaks([c, d]) == []
  {
    assert [c, d][1..] == [d];
    BreakDropped(d);
  }

  /** One line in front of the lines of the rest. */
  lemma SplitLinesCons(s: string)
    requires s != [] && LineEnd(s) < |s|
    ensures SplitLines(s) == [s[..LineEnd(s)]] + SplitLines(s[BoundaryEnd(s, LineEnd(s))..])
  {
  }

  lemma ConcatCons(line: string, lines: seq<string>)
    ensures Concat([line] + lines) == line + Concat(lines)
  {
    assert ([line] + lines)[1..] == lines;
  }

  /** The characters kept by one line, its boundary and the lines after it. */
  /** The first line holds no boundary. */
  lemma FirstLineKept(s: string)
    ensures DropBreaks(s[..LineEnd(s)]) == s[..LineEnd(s)]
  {
    DropBreaksNone(s[..LineEnd(s)]);
  }

  lemma DropAroundBoundary(head: string, brk: string, tail: string)
    requires DropBreaks(head) == head && DropBreaks(brk) == []
    ensures DropBreaks(head + brk + tail) == head + DropBreaks(tail)
  {
    DropBreaksAppend(head, brk);
    DropBreaksAppend(head + brk, tail);
  }

  /** Dropping the boundaries of a text whose first line ends before its end: the first
      line, then what the rest after the boundary keeps. */
  lemma DropBreaksAtBoundary(s: string)
    requires LineEnd(s) < |s|
    ensures DropBreaks(s) == s[..LineEnd(s)] + DropBreaks(s[BoundaryEnd(s, LineEnd(s))..])
  {
    var n := LineEnd(s);
    var next := BoundaryEnd(s, n);
    BoundaryDropped(s, n, next);
    FirstLineKept(s);
    DropAroundBoundary(s[..n], s[n..next], s[next..]);
    SliceThree(s, n, next);
  }

  lemma SliceThree(s: string, n: nat, next: nat)
    requires n <= next <= |s|
    ensures s == s[..n] + s[n..next] + s[next..]
  {
  }

  lemma BrokenLineKept(s: string, n: nat, next: nat)
    requires s != [] && n == LineEnd(s) && n < |s| && next == BoundaryEnd(s, n)
    requires Concat(SplitLines(s[next..])) == DropBreaks(s[next..])
    ensures Concat(SplitLines(s)) == DropBreaks(s)
  {
    SplitLinesCons(s);
    ConcatCons(s[..n], SplitLines(s[next..]));
    DropBreaksAtBoundary(s);
  }

  /** The lines hold every character of the text that is not a line boundary, in order:
      splitting loses only the boundaries. */
  lemma {:induction false} SplitLinesKeepText(s: string)
    ensures Concat(SplitLines(s)) == DropBreaks(s)
    decreases |s|
  {
    if s != [] {
      var n := LineEnd(s);
      if n == |s| {
        DropBreaksNone(s);
        ConcatCons(s, []);
      } else {
        var next := BoundaryEnd(s, n);
        SplitLinesKeepText(s[next..]);
        BrokenLineKept(s, n, next);
      }
    }
  }

  /** Every line boundary of `s` is a `\n`, and `s` does not end with one. */
  predicate NewlinesInside(s: string) {
    && (forall k :: 0 <= k < |s| && IsLineBreak(s[k]) ==> s[k] == '\n')
    && (s == [] || s[|s| - 1] != '\n')
  }

  /** What follows a boundary inside such a text is again such a text, and not empty. */
  lemma NewlinesInsideRest(s: string, n: nat)
    requires NewlinesInside(s) && n < |s| && IsLineBreak(s[n])
    ensures s[n] == '\n' && NewlinesInside(s[n + 1..]) && s[n + 1..] != []
  {
    var rest := s[n + 1..];
    forall k | 0 <= k < |rest| && IsLineBreak(rest[k]) ensures rest[k] == '\n' {
      assert rest[k] == s[n + 1 + k];
    }
  }

  lemma JoinCons(line: string, lines: seq<string>, sep: string)
    requires lines != []
    ensures Join([line] + lines, sep) == line + sep + Join(lines, sep)
  {
    assert ([line] + lines)[1..] == lines;
  }

  /** The lines of a text whose only boundaries are single `\n`s, and which does not
      end with one, joined by `\n` give the text back. */
  lemma {:induction false} SplitLinesRejoin(s: string)
    requires NewlinesInside(s)
    ensures Join(SplitLines(s), "\n") == s
    decreases |s|
  {
    if s != [] {
      var n := LineEnd(s);
      if n < |s| {
        NewlinesInsideRest(s, n);
        var rest := s[n + 1..];
        assert BoundaryEnd(s, n) == n + 1;
        SplitLinesRejoin(rest);
        SplitLinesCons(s);
        assert SplitLines(rest) != [];
        JoinCons(s[..n], SplitLines(rest), "\n");
        SliceThree(s, n, n + 1);
        assert s[n..n + 1] == "\n";
      } else {
        assert SplitLines(s) == [s];
      }
    }
  }

  // ---------------------------------------------------------------- numbers

  function DigitChar(d: nat): char
    requires d < 10
  {
    ['0', '1', '2', '3', '4', '5', '6', '7', '8', '9'][d]
  }

  /** Decimal digits of `n`, as `str(n)` prints them: no leading zero except for 0
      itself, and NatToStringValue shows they denote `n`. */
  function NatToString(n: nat): (r: string)
    ensures |r| >= 1
    ensures forall i :: 0 <= i < |r| ==> '0' <= r[i] <= '9'
    ensures r[0] == '0' <==> n == 0
  {
    if n < 10 then [DigitChar(n)] else NatToString(n / 10) + [DigitChar(n % 10)]
  }

  /** The number a string of decimal digits denotes, most significant digit first. */
  function DecimalValue(s: string): nat
    requires forall i :: 0 <= i < |s| ==> '0' <= s[i] <= '9'
  {
    if s == [] then 0 else 10 * DecimalValue(s[..|s| - 1]) + (s[|s| - 1] as int - '0' as int)
  }

  /** The digits `str(n)` prints read back as `n`. */
  lemma {:induction false} NatToStringValue(n: nat)
    ensures DecimalValue(NatToString(n)) == n
  {
    var r := NatToString(n);
    if n >= 10 {
      NatToStringValue(n / 10);
      assert r[..|r| - 1] == NatToString(n / 10);
    }
  }

  /** `str(i)` for a Python int, `String(i)` for a JavaScript integer. */
  function IntToString(i: int): string {
    if i < 0 then "-" + NatToString(-i) else NatToString(i)
  }
}

/** The pure parts of my_real_pdf_loader.py: `conform`, which normalises the JSON the
    knowledge-graph extractor returns, `safe_json_loads_and_conform`, and the
    company-name list `load_company_names` reads from a CSV file. */
module PdfLoader {
  import opened Wrappers
  import opened Text
  import opened JsonValue

  // ---------------------------------------------------------------------------------
  // conform

  /** No key is bound twice, as in every Python dict. */
  predicate DistinctKeys(fields: seq<Field>) {
    forall i, j :: 0 <= i < j < |fields| ==> fields[i].key != fields[j].key
  }

  predicate Allowed(key: string) {
    key == "entities" || key == "relations"
  }

  predicate Triggered(fields: seq<Field>) {
    HasKey(fields, "entities") || HasKey(fields, "relations")
  }

  predicate IsList(v: Option<Json>) {
    v.Some? && v.value.JArr?
  }

  /** The value `conform` stores for `key`: `{}` for an empty `properties` list, the
      conformed value otherwise. */
  function ValueFor(key: string, v: Json): (r: Json)
    ensures key == "properties" && v == JArr([]) ==> r == JObj([])
    decreases v, 3
  {
    if key == "properties" && v == JArr([]) then JObj([]) else Conform(v)
  }

  /** The value `conform` stores for each item of a dict, in order. */
  function ConformedValues(fields: seq<Field>): (r: seq<Json>)
    ensures |r| == |fields|
    decreases JObj(fields), 1
  {
    seq(|fields|, i requires 0 <= i < |fields| => ValueFor(fields[i].key, fields[i].value))
  }

  /** `new_obj` after the loop of lines 84-88 has stored `vals[i]` under the key of
      each of the first `n` items. */
  function Bind(fields: seq<Field>, vals: seq<Json>, n: int): seq<Field>
    requires 0 <= n <= |fields| && |vals| == |fields|
  {
    if n == 0 then [] else Put(Bind(fields, vals, n - 1), fields[n - 1].key, vals[n - 1])
  }

  /** The dict comprehension of line 91: the items whose key is allowed, in order. */
  function KeepAllowed(fields: seq<Field>): seq<Field> {
    if fields == [] then []
    else if Allowed(fields[0].key) then [fields[0]] + KeepAllowed(fields[1..])
    else KeepAllowed(fields[1..])
  }

  /** Lines 89-95: once `entities` or `relations` is present, only those two keys stay,
      and each is made a list. */
  function Restrict(obj: seq<Field>): seq<Field> {
    if Triggered(obj) then
      var kept := KeepAllowed(obj);
      var withEntities := if IsList(Lookup(kept, "entities")) then kept else Put(kept, "entities", JArr([]));
      if IsList(Lookup(withEntities, "relations")) then withEntities else Put(withEntities, "relations", JArr([]))
    else obj
  }

  /** `conform(obj)`, lines 81-100: values other than dicts and lists come back
      unchanged, a list keeps its length, and a dict stays a dict. */
  function Conform(j: Json): (r: Json)
    ensures !j.JObj? && !j.JArr? ==> r == j
    ensures j.JArr? ==> r.JArr? && |r.items| == |j.items|
    ensures j.JObj? ==> r.JObj?
    decreases j, 2
  {
    match j
    case JObj(fields) => JObj(Restrict(Bind(fields, ConformedValues(fields), |fields|)))
    case JArr(items) => JArr(seq(|items|, i requires 0 <= i < |items| => Conform(items[i])))
    case _ => j
  }

  /** `safe_json_loads_and_conform(content)`: None (JSON null) instead of any error. */
  function SafeJsonLoadsAndConform(codec: Codec, content: string): (r: Json)
    ensures codec.loads(content).Failure? ==> r == JNull
    ensures codec.loads(content).Success? ==> r == Conform(codec.loads(content).value)
  {
    match codec.loads(content)
    case Failure(_) => JNull
    case Success(v) => Conform(v)
  }

  /** The loop itself: `conform` as the source runs it, building `new_obj` item by
      item and the list element by element. */
  method ConformValue(obj: Json) returns (r: Json)
    ensures r == Conform(obj)
    decreases obj
  {
    match obj {
      case JObj(fields) =>
        var newObj: seq<Field> := [];
        for i := 0 to |fields|
          invariant newObj == Bind(fields, ConformedValues(fields), i)
        {
          var k, v := fields[i].key, fields[i].value;
          var c: Json;
          if k == "properties" && v == JArr([]) {
            c := JObj([]);
          } else {
            c := ConformValue(v);
          }
          newObj := Put(newObj, k, c);
        }
        r := JObj(Restrict(newObj));
      case JArr(items) =>
        var out: seq<Json> := [];
        for i := 0 to |items|
          invariant |out| == i
          invariant forall m :: 0 <= m < i ==> out[m] == Conform(items[m])
        {
          var c := ConformValue(items[i]);
          out := out + [c];
        }
        r := JArr(out);
      case _ =>
        r := obj;
    }
  }

  // ---------------------------------------------------------------------------------
  // Properties of conform

  lemma KeyAt(fields: seq<Field>, i: int)
    requires 0 <= i < |fields|
    ensures HasKey(fields, fields[i].key)
  {
    assert Keys(fields)[i] == fields[i].key;
  }

  lemma PutKeepsDistinct(fields: seq<Field>, key: string, value: Json)
    requires DistinctKeys(fields)
    ensures DistinctKeys(Put(fields, key, value))
  {
    var r := Put(fields, key, value);
    forall i, j | 0 <= i < j < |r| ensures r[i].key != r[j].key {
      assert r[i].key == Keys(r)[i] && r[j].key == Keys(r)[j];
      if j < |fields| {
        assert Keys(fields)[i] == fields[i].key && Keys(fields)[j] == fields[j].key;
      } else {
        assert Keys(fields)[i] == fields[i].key;
      }
    }
  }

  /** The items of `fields` in order, the first `n` of them, each with its value
      replaced by the one in `vals`. */
  function WithValues(fields: seq<Field>, vals: seq<Json>, n: int): (r: seq<Field>)
    requires 0 <= n <= |fields| && |vals| == |fields|
    ensures |r| == n
  {
    seq(n, i requires 0 <= i < n => Field(fields[i].key, vals[i]))
  }

  /** Each of the first `n` keys differs from every key before it. */
  predicate FreshUpTo(fields: seq<Field>, n: int)
    requires 0 <= n <= |fields|
  {
    n == 0 || (FreshUpTo(fields, n - 1) && forall i :: 0 <= i < n - 1 ==> fields[i].key != fields[n - 1].key)
  }

  lemma {:induction false} DistinctFresh(fields: seq<Field>, n: int)
    requires 0 <= n <= |fields| && DistinctKeys(fields)
    ensures FreshUpTo(fields, n)
  {
    if n > 0 {
      DistinctFresh(fields, n - 1);
    }
  }

  /** With distinct keys every `new_obj[k] = ...` of the loop binds a new key, so the
      loop lays the items out in their original order. */
  lemma {:induction false} BindInOrder(fields: seq<Field>, vals: seq<Json>, n: int)
    requires 0 <= n <= |fields| && |vals| == |fields| && FreshUpTo(fields, n)
    ensures Bind(fields, vals, n) == WithValues(fields, vals, n)
  {
    if n > 0 {
      BindInOrder(fields, vals, n - 1);
      WithValuesFresh(fields, vals, n);
      PutNew(WithValues(fields, vals, n - 1), fields[n - 1].key, vals[n - 1]);
      WithValuesSnoc(fields, vals, n);
    }
  }

  lemma WithValuesFresh(fields: seq<Field>, vals: seq<Json>, n: int)
    requires 0 < n <= |fields| && |vals| == |fields|
    requires forall i :: 0 <= i < n - 1 ==> fields[i].key != fields[n - 1].key
    ensures !HasKey(WithValues(fields, vals, n - 1), fields[n - 1].key)
  {
    var prev := WithValues(fields, vals, n - 1);
    forall i | 0 <= i < |prev| ensures Keys(prev)[i] != fields[n - 1].key {
      assert Keys(prev)[i] == fields[i].key;
    }
  }

  lemma WithValuesSnoc(fields: seq<Field>, vals: seq<Json>, n: int)
    requires 0 < n <= |fields| && |vals| == |fields|
    ensures WithValues(fields, vals, n) == WithValues(fields, vals, n - 1) + [Field(fields[n - 1].key, vals[n - 1])]
  {
  }

  lemma WithValuesKeys(fields: seq<Field>, vals: seq<Json>)
    requires |vals| == |fields|
    ensures Keys(WithValues(fields, vals, |fields|)) == Keys(fields)
  {
  }

  lemma DistinctByKeys(a: seq<Field>, b: seq<Field>)
    requires DistinctKeys(a) && Keys(a) == Keys(b)
    ensures DistinctKeys(b)
  {
    forall i, j | 0 <= i < j < |b| ensures b[i].key != b[j].key {
      assert Keys(b)[i] == b[i].key && Keys(b)[j] == b[j].key;
      assert Keys(a)[i] == a[i].key && Keys(a)[j] == a[j].key;
    }
  }

  /** The comprehension keeps exactly the allowed keys, with their values. */
  lemma {:induction false} KeepAllowedFacts(fields: seq<Field>, k: string)
    ensures HasKey(KeepAllowed(fields), k) <==> HasKey(fields, k) && Allowed(k)
    ensures Allowed(k) ==> Lookup(KeepAllowed(fields), k) == Lookup(fields, k)
  {
    if fields != [] {
      KeepAllowedFacts(fields[1..], k);
      var rest := KeepAllowed(fields[1..]);
      assert Keys(fields) == [fields[0].key] + Keys(fields[1..]);
      assert Keys([fields[0]] + rest) == [fields[0].key] + Keys(rest);
    }
  }

  lemma HeadKeyFresh(fields: seq<Field>)
    requires fields != [] && DistinctKeys(fields)
    ensures !HasKey(fields[1..], fields[0].key)
  {
    var t := fields[1..];
    forall i | 0 <= i < |t| ensures Keys(t)[i] != fields[0].key {
      assert t[i] == fields[i + 1];
    }
  }

  lemma {:induction false} KeepAllowedDistinct(fields: seq<Field>)
    requires DistinctKeys(fields)
    ensures DistinctKeys(KeepAllowed(fields))
  {
    if fields != [] {
      KeepAllowedDistinct(fields[1..]);
      var rest := KeepAllowed(fields[1..]);
      if Allowed(fields[0].key) {
        HeadKeyFresh(fields);
        forall j | 0 <= j < |rest| ensures rest[j].key != fields[0].key {
          KeyAt(rest, j);
          KeepAllowedFacts(fields[1..], rest[j].key);
        }
      }
    }
  }

  /** Distinct keys drawn from two names, both present, are exactly two. */
  lemma TwoKeys(r: seq<Field>)
    requires DistinctKeys(r)
    requires forall k :: HasKey(r, k) ==> Allowed(k)
    requires HasKey(r, "entities") && HasKey(r, "relations")
    ensures |r| == 2
  {
    if |r| > 2 {
      KeyAt(r, 0);
      KeyAt(r, 1);
      KeyAt(r, 2);
      assert false;
    }
  }

  /** Lines 89-95 on an object with distinct keys: exactly `entities` and `relations`,
      each keeping a list it already held and becoming `[]` otherwise. */
  lemma RestrictShape(obj: seq<Field>)
    requires DistinctKeys(obj) && Triggered(obj)
    ensures |Restrict(obj)| == 2
    ensures forall k :: HasKey(Restrict(obj), k) <==> Allowed(k)
    ensures IsList(Lookup(Restrict(obj), "entities")) && IsList(Lookup(Restrict(obj), "relations"))
    ensures IsList(Lookup(obj, "entities")) ==> Lookup(Restrict(obj), "entities") == Lookup(obj, "entities")
    ensures !IsList(Lookup(obj, "entities")) ==> Lookup(Restrict(obj), "entities") == Some(JArr([]))
    ensures IsList(Lookup(obj, "relations")) ==> Lookup(Restrict(obj), "relations") == Lookup(obj, "relations")
    ensures !IsList(Lookup(obj, "relations")) ==> Lookup(Restrict(obj), "relations") == Some(JArr([]))
  {
    RestrictKeys(obj);
    RestrictDistinct(obj);
    TwoKeys(Restrict(obj));
  }

  /** The comprehension and the two checks of lines 89-95: only the two keys remain, and
      each holds its list, or `[]` when it was missing or not a list. */
  lemma RestrictKeys(obj: seq<Field>)
    requires Triggered(obj)
    ensures forall k :: HasKey(Restrict(obj), k) <==> Allowed(k)
    ensures IsList(Lookup(Restrict(obj), "entities")) && IsList(Lookup(Restrict(obj), "relations"))
    ensures IsList(Lookup(obj, "entities")) ==> Lookup(Restrict(obj), "entities") == Lookup(obj, "entities")
    ensures !IsList(Lookup(obj, "entities")) ==> Lookup(Restrict(obj), "entities") == Some(JArr([]))
    ensures IsList(Lookup(obj, "relations")) ==> Lookup(Restrict(obj), "relations") == Lookup(obj, "relations")
    ensures !IsList(Lookup(obj, "relations")) ==> Lookup(Restrict(obj), "relations") == Some(JArr([]))
  {
    var kept := KeepAllowed(obj);
    forall k ensures HasKey(kept, k) <==> HasKey(obj, k) && Allowed(k) {
      KeepAllowedFacts(obj, k);
    }
    KeepAllowedFacts(obj, "entities");
    KeepAllowedFacts(obj, "relations");
  }

  lemma RestrictDistinct(obj: seq<Field>)
    requires DistinctKeys(obj) && Triggered(obj)
    ensures DistinctKeys(Restrict(obj))
  {
    var kept := KeepAllowed(obj);
    KeepAllowedDistinct(obj);
    PutKeepsDistinct(kept, "entities", JArr([]));
    var withEntities := if IsList(Lookup(kept, "entities")) then kept else Put(kept, "entities", JArr([]));
    PutKeepsDistinct(withEntities, "relations", JArr([]));
  }

  /** Lines 84-88 and 96: an object with neither `entities` nor `relations` keeps its
      keys in order, and each key is bound to its conformed value (an empty
      `properties` list becoming `{}`). */
  lemma ConformKeepsKeys(fields: seq<Field>)
    requires DistinctKeys(fields) && !Triggered(fields)
    ensures Conform(JObj(fields)).JObj?
    ensures Keys(Conform(JObj(fields)).fields) == Keys(fields)
    ensures forall i :: 0 <= i < |fields| ==>
              Conform(JObj(fields)).fields[i] == Field(fields[i].key, ValueFor(fields[i].key, fields[i].value))
  {
    var vals := ConformedValues(fields);
    DistinctFresh(fields, |fields|);
    BindInOrder(fields, vals, |fields|);
    WithValuesKeys(fields, vals);
    var c := WithValues(fields, vals, |fields|);
    assert !Triggered(c) by {
      assert HasKey(c, "entities") == HasKey(fields, "entities");
      assert HasKey(c, "relations") == HasKey(fields, "relations");
    }
    assert Conform(JObj(fields)) == JObj(Restrict(c));
  }

  /** Lines 97-98: a list is conformed element by element, in order. */
  lemma ConformList(items: seq<Json>, i: int)
    requires 0 <= i < |items|
    ensures Conform(JArr(items)).items[i] == Conform(items[i])
  {
  }

  /** Line 85: an empty `properties` list becomes an empty dict. */
  lemma EmptyPropertiesBecomeDict(fields: seq<Field>)
    requires DistinctKeys(fields) && !Triggered(fields)
    requires Lookup(fields, "properties") == Some(JArr([]))
    ensures Lookup(Conform(JObj(fields)).fields, "properties") == Some(JObj([]))
  {
    var i :| 0 <= i < |Keys(fields)| && Keys(fields)[i] == "properties";
    LookupAt(fields, i, "properties");
    ConformKeepsKeys(fields);
    var r := Conform(JObj(fields)).fields;
    assert r[i] == Field("properties", JObj([]));
    LookupAt(r, i, "properties");
  }

  /** Lines 89-95: an object with `entities` or `relations` comes out with exactly
      those two keys; each holds the conformed list it was given, or `[]` when it was
      missing or not a list. */
  lemma ConformGraph(fields: seq<Field>)
    requires DistinctKeys(fields) && Triggered(fields)
    ensures Conform(JObj(fields)).JObj?
    ensures |Conform(JObj(fields)).fields| == 2
    ensures forall key :: HasKey(Conform(JObj(fields)).fields, key) <==> Allowed(key)
    ensures IsList(Lookup(fields, "entities")) ==>
              Lookup(Conform(JObj(fields)).fields, "entities") == Some(Conform(Lookup(fields, "entities").value))
    ensures !IsList(Lookup(fields, "entities")) ==> Lookup(Conform(JObj(fields)).fields, "entities") == Some(JArr([]))
    ensures IsList(Lookup(fields, "relations")) ==>
              Lookup(Conform(JObj(fields)).fields, "relations") == Some(Conform(Lookup(fields, "relations").value))
    ensures !IsList(Lookup(fields, "relations")) ==> Lookup(Conform(JObj(fields)).fields, "relations") == Some(JArr([]))
  {
    var vals := ConformedValues(fields);
    DistinctFresh(fields, |fields|);
    BindInOrder(fields, vals, |fields|);
    WithValuesKeys(fields, vals);
    var c := WithValues(fields, vals, |fields|);
    DistinctByKeys(fields, c);
    assert Triggered(c);
    RestrictShape(c);
    LookupConformed(fields, "entities");
    LookupConformed(fields, "relations");
  }

  /** After the loop, a key holds the conformed value of its item; a graph key is never
      `properties`, and conforming keeps a value a list exactly when it was one. */
  lemma LookupConformed(fields: seq<Field>, k: string)
    requires DistinctKeys(fields) && Allowed(k)
    ensures var c := WithValues(fields, ConformedValues(fields), |fields|);
            (Lookup(fields, k).None? ==> Lookup(c, k).None?)
            && (Lookup(fields, k).Some? ==> Lookup(c, k) == Some(Conform(Lookup(fields, k).value)))
            && (IsList(Lookup(c, k)) <==> IsList(Lookup(fields, k)))
  {
    var vals := ConformedValues(fields);
    var c := WithValues(fields, vals, |fields|);
    WithValuesKeys(fields, vals);
    assert HasKey(c, k) == HasKey(fields, k);
    if HasKey(fields, k) {
      var i :| 0 <= i < |Keys(fields)| && Keys(fields)[i] == k;
      forall j | 0 <= j < i ensures fields[j].key != k {
        assert Keys(fields)[j] == fields[j].key;
      }
      LookupAt(fields, i, k);
      LookupAt(c, i, k);
    }
  }

  // ---------------------------------------------------------------------------------
  // load_company_names and allowed_set

  /** A row of the CSV file, as `row.get('name')` sees it: no value (a missing column
      or a short row) or the text of the cell. */
  type NameCell = Option<string>

  /** `if name:` on line 33: a present, non-empty cell. */
  predicate Listed(cell: NameCell) {
    cell.Some? && cell.value != ""
  }

  /** The set `names` after the loop of lines 31-34 has read `rows`. */
  function NamesOf(rows: seq<NameCell>): set<string> {
    if rows == [] then {}
    else
      var last := rows[|rows| - 1];
      NamesOf(rows[..|rows| - 1]) + if Listed(last) then {PyStrip(last.value)} else {}
  }

  /** Python's `<` on strings: code point by code point, a proper prefix first. */
  predicate Below(a: string, b: string) {
    if a == [] then b != []
    else if b == [] then false
    else a[0] < b[0] || (a[0] == b[0] && Below(a[1..], b[1..]))
  }

  /** In strictly increasing order, which also means without duplicates. */
  predicate Increasing(s: seq<string>) {
    forall i, j :: 0 <= i < j < |s| ==> Below(s[i], s[j])
  }

  /** `load_company_names(csv_path)`, lines 26-36: `file` is the file's rows, or None
      when no file exists at the path. */
  method LoadCompanyNames(file: Option<seq<NameCell>>) returns (names: seq<string>)
    ensures file.None? ==> names == []
    ensures file.Some? ==> Increasing(names) && (forall n :: n in names <==> n in NamesOf(file.value))
  {
    if file.None? {
      return [];
    }
    var rows := file.value;
    var found: set<string> := {};
    for i := 0 to |rows|
      invariant found == NamesOf(rows[..i])
    {
      NamesOfStep(rows, i);
      var name := rows[i];
      if Listed(name) {
        found := found + {PyStrip(name.value)};
      }
    }
    assert rows[..|rows|] == rows;
    names := SortNames(found);
  }

  lemma NamesOfStep(rows: seq<NameCell>, i: int)
    requires 0 <= i < |rows|
    ensures NamesOf(rows[..i + 1]) == NamesOf(rows[..i]) + if Listed(rows[i]) then {PyStrip(rows[i].value)} else {}
  {
    assert rows[..i + 1][..i] == rows[..i];
  }

  /** `sorted(names)` on a set of strings: the elements in increasing order. */
  method SortNames(s: set<string>) returns (r: seq<string>)
    ensures Increasing(r)
    ensures forall n :: n in r <==> n in s
  {
    r := [];
    var rest := s;
    while rest != {}
      invariant rest <= s
      invariant forall n :: n in s <==> n in r || n in rest
      invariant Increasing(r)
      invariant forall i, n :: 0 <= i < |r| && n in rest ==> Below(r[i], n)
      decreases |rest|
    {
      var m := Least(rest);
      r := r + [m];
      rest := rest - {m};
    }
  }

  /** The smallest element of a non-empty set of strings. */
  method Least(s: set<string>) returns (m: string)
    requires s != {}
    ensures m in s && forall n :: n in s && n != m ==> Below(m, n)
  {
    m :| m in s;
    var rest := s - {m};
    while rest != {}
      invariant m in s && rest <= s
      invariant forall n :: n in s && n !in rest && n != m ==> Below(m, n)
      decreases |rest|
    {
      var n :| n in rest;
      if Below(n, m) {
        forall x | x in s && x !in rest && x != n
          ensures Below(n, x)
        {
          if x != m {
            BelowTransitive(n, m, x);
          }
        }
        m := n;
      } else if n != m {
        BelowTotal(n, m);
      }
      rest := rest - {n};
    }
  }

  lemma {:induction false} BelowIrreflexive(a: string)
    ensures !Below(a, a)
  {
    if a != [] {
      BelowIrreflexive(a[1..]);
    }
  }

  lemma {:induction false} BelowTransitive(a: string, b: string, c: string)
    requires Below(a, b) && Below(b, c)
    ensures Below(a, c)
  {
    if a != [] && b != [] && c != [] && a[0] == b[0] == c[0] {
      BelowTransitive(a[1..], b[1..], c[1..]);
    }
  }

  lemma {:induction false} BelowTotal(a: string, b: string)
    requires a != b
    ensures Below(a, b) || Below(b, a)
  {
    if a != [] && b != [] && a[0] == b[0] {
      assert a == [a[0]] + a[1..] && b == [b[0]] + b[1..];
      BelowTotal(a[1..], b[1..]);
    }
  }

  /** Row `i` passes `if name:` and strips to `n`. */
  predicate LoadsAs(rows: seq<NameCell>, i: int, n: string) {
    0 <= i < |rows| && Listed(rows[i]) && PyStrip(rows[i].value) == n
  }

  /** A name is loaded exactly when some listed row strips to it. */
  lemma NamesOfMembers(rows: seq<NameCell>, n: string)
    ensures n in NamesOf(rows) <==> exists i :: LoadsAs(rows, i, n)
  {
    if n in NamesOf(rows) {
      NamesOfSound(rows, n);
    }
    if exists i :: LoadsAs(rows, i, n) {
      var i :| LoadsAs(rows, i, n);
      NamesOfComplete(rows, i, n);
    }
  }

  lemma {:induction false} NamesOfSound(rows: seq<NameCell>, n: string)
    requires n in NamesOf(rows)
    ensures exists i :: LoadsAs(rows, i, n)
  {
    var init := rows[..|rows| - 1];
    if n in NamesOf(init) {
      NamesOfSound(init, n);
      var i :| LoadsAs(init, i, n);
      assert LoadsAs(rows, i, n);
    } else {
      assert LoadsAs(rows, |rows| - 1, n);
    }
  }

  lemma {:induction false} NamesOfComplete(rows: seq<NameCell>, i: int, n: string)
    requires LoadsAs(rows, i, n)
    ensures n in NamesOf(rows)
  {
    var init := rows[..|rows| - 1];
    if i < |rows| - 1 {
      assert LoadsAs(init, i, n);
      NamesOfComplete(init, i, n);
    }
  }

  /** Every loaded name is stripped of surrounding whitespace. */
  lemma NamesStripped(rows: seq<NameCell>, n: string)
    requires n in NamesOf(rows)
    ensures Trimmed(n, IsPySpace)
  {
    NamesOfMembers(rows, n);
  }

  /** A cell of whitespace only passes `if name:` and then loads as the empty name. */
  lemma BlankNameLoadsEmpty(rows: seq<NameCell>, i: int)
    requires 0 <= i < |rows| && rows[i].Some? && rows[i].value != []
    requires forall k :: 0 <= k < |rows[i].value| ==> IsPySpace(rows[i].value[k])
    ensures "" in NamesOf(rows)
  {
    StripOfAll(rows[i].value, IsPySpace);
    assert LoadsAs(rows, i, "");
    NamesOfComplete(rows, i, "");
  }

  /** An increasing sequence has no duplicates. */
  lemma IncreasingDistinct(s: seq<string>, i: int, j: int)
    requires Increasing(s) && 0 <= i < j < |s|
    ensures s[i] != s[j]
  {
    BelowIrreflexive(s[i]);
  }

  /** `sorted` of a set is determined by the set: two increasing sequences with the
      same elements are equal. */
  lemma {:induction false} IncreasingUnique(a: seq<string>, b: seq<string>)
    requires Increasing(a) && Increasing(b)
    requires forall n :: n in a <==> n in b
    ensures a == b
  {
    assert a == [] <==> b == [] by {
      if a != [] {
        assert a[0] in a;
      }
      if b != [] {
        assert b[0] in b;
      }
    }
    if a != [] {
      if a[0] != b[0] {
        assert a[0] in b && b[0] in a;
        var i :| 0 <= i < |b| && b[i] == a[0];
        var j :| 0 <= j < |a| && a[j] == b[0];
        assert i > 0 && j > 0;
        assert Below(b[0], a[0]) && Below(a[0], b[0]);
        BelowTransitive(a[0], b[0], a[0]);
        BelowIrreflexive(a[0]);
      }
      forall n ensures n in a[1..] <==> n in b[1..] {
        HeadNotInTail(a, n);
        HeadNotInTail(b, n);
      }
      IncreasingUnique(a[1..], b[1..]);
    }
  }

  lemma HeadNotInTail(s: seq<string>, n: string)
    requires Increasing(s) && s != []
    ensures n in s[1..] <==> n in s && n != s[0]
  {
    if n in s[1..] {
      var k :| 0 <= k < |s[1..]| && s[1..][k] == n;
      IncreasingDistinct(s, 0, k + 1);
    }
    if n in s && n != s[0] {
      var k :| 0 <= k < |s| && s[k] == n;
      assert s[1..][k - 1] == n;
    }
  }

  /** `allowed_set`, line 39: the loaded names in upper case. */
  function AllowedSet(names: seq<string>): (r: set<string>)
    ensures forall n :: n in names ==> Upper(n) in r
  {
    set n | n in names :: Upper(n)
  }

  /** Every member of `allowed_set` is already upper case, and it is the upper case of
      a loaded name. */
  lemma AllowedSetUpper(names: seq<string>, u: string)
    requires u in AllowedSet(names)
    ensures Upper(u) == u
    ensures exists n :: n in names && Upper(n) == u
  {
    var n :| n in names && Upper(n) == u;
    UpperIdempotent(n);
  }
}

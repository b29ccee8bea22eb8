/** Decoded JSON values as the Python scripts hold them after `json.loads`, with the
    Python operations the scripts apply to them: `dict.get`, subscripting, `in`,
    truthiness, `str()` and dict assignment. Objects are ordered association lists, so
    that insertion order (which Python dicts keep) is part of the value. */
module JsonValue {
  import opened Wrappers
  import opened Text

  datatype Json =
    | JNull
    | JBool(b: bool)
    | JNum(n: int)
    | JStr(s: string)
    | JArr(items: seq<Json>)
    | JObj(fields: seq<Field>)

  datatype Field = Field(key: string, value: Json)

  /** The externals the scripts reach through the `json` module and `str()`:
      `loads` fails with the decoder's message, `dumps` is `json.dumps(x)`,
      `dumpsIndented` is `json.dumps(x, indent=2)`, and `containerStr` is `str(x)`
      for a list or a dict. */
  datatype Codec = Codec(
    loads: string -> Result<Json, string>,
    dumps: Json -> string,
    dumpsIndented: Json -> string,
    containerStr: Json -> string)

  function Keys(fields: seq<Field>): seq<string> {
    seq(|fields|, i requires 0 <= i < |fields| => fields[i].key)
  }

  predicate HasKey(fields: seq<Field>, key: string) {
    key in Keys(fields)
  }

  /** The value bound to `key` (the first binding; a Python dict has only one). */
  function Lookup(fields: seq<Field>, key: string): (r: Option<Json>)
    ensures r.Some? <==> HasKey(fields, key)
  {
    if fields == [] then None
    else
      assert Keys(fields) == [fields[0].key] + Keys(fields[1..]);
      if fields[0].key == key then Some(fields[0].value) else Lookup(fields[1..], key)
  }

  /** The binding at position `i` is the one found when no earlier field has the key. */
  lemma {:induction false} LookupAt(fields: seq<Field>, i: int, key: string)
    requires 0 <= i < |fields| && fields[i].key == key
    requires forall j :: 0 <= j < i ==> fields[j].key != key
    ensures Lookup(fields, key) == Some(fields[i].value)
  {
    if i > 0 {
      LookupAt(fields[1..], i - 1, key);
    }
  }

  /** `d[key] = value`: rebinds an existing key where it stands, or appends a new one. */
  function Put(fields: seq<Field>, key: string, value: Json): (r: seq<Field>)
    ensures Keys(r) == if HasKey(fields, key) then Keys(fields) else Keys(fields) + [key]
    ensures Lookup(r, key) == Some(value)
    ensures forall k :: k != key ==> Lookup(r, k) == Lookup(fields, k)
  {
    if fields == [] then [Field(key, value)]
    else
      Uncons(fields);
      KeysCons(fields[0], fields[1..]);
      LookupCons(fields[0], fields[1..]);
      if fields[0].key == key then
        var r := [Field(key, value)] + fields[1..];
        KeysCons(Field(key, value), fields[1..]);
        LookupCons(Field(key, value), fields[1..]);
        r
      else
        var rest := Put(fields[1..], key, value);
        var r := [fields[0]] + rest;
        KeysCons(fields[0], rest);
        LookupCons(fields[0], rest);
        Assoc([fields[0].key], Keys(fields[1..]), [key]);
        r
  }

  lemma KeysCons(f: Field, rest: seq<Field>)
    ensures Keys([f] + rest) == [f.key] + Keys(rest)
    ensures [f] + rest != [] && ([f] + rest)[0] == f && ([f] + rest)[1..] == rest
  {
  }

  lemma LookupCons(f: Field, rest: seq<Field>)
    ensures forall k :: Lookup([f] + rest, k) == if f.key == k then Some(f.value) else Lookup(rest, k)
  {
    assert ([f] + rest)[1..] == rest;
  }

  lemma Uncons<T>(s: seq<T>)
    requires s != []
    ensures s == [s[0]] + s[1..]
  {
  }

  lemma DropCons<T>(s: seq<T>, i: int)
    requires 0 <= i < |s|
    ensures s[i..] == [s[i]] + s[i + 1..]
  {
  }

  lemma DropSplit<T>(s: seq<T>, i: int, j: int)
    requires 0 <= i <= j <= |s|
    ensures s[i..] == s[i..j] + s[j..]
  {
  }

  lemma Rejoin<T>(x: seq<T>, a: seq<T>, b: seq<T>, c: seq<T>, y: seq<T>)
    requires x == a + b && b == c && y == a + c
    ensures x == y
  {
  }

  lemma Assoc<T>(a: seq<T>, b: seq<T>, c: seq<T>)
    ensures a + (b + c) == (a + b) + c
  {
  }

  /** Binding a key the dict does not have appends it as the last item. */
  lemma {:induction false} PutNew(fields: seq<Field>, key: string, value: Json)
    requires !HasKey(fields, key)
    ensures Put(fields, key, value) == fields + [Field(key, value)]
  {
    if fields != [] {
      var rest := fields[1..];
      assert Keys(fields) == [fields[0].key] + Keys(rest);
      assert fields[0].key != key;
      PutNew(rest, key, value);
      assert Put(fields, key, value) == [fields[0]] + Put(rest, key, value);
      ConsSnoc(fields, Field(key, value));
    }
  }

  lemma ConsSnoc<T>(s: seq<T>, x: T)
    requires s != []
    ensures [s[0]] + (s[1..] + [x]) == s + [x]
  {
  }

  /** Python truthiness of a decoded JSON value. */
  predicate Truthy(j: Json) {
    match j
    case JNull => false
    case JBool(b) => b
    case JNum(n) => n != 0
    case JStr(s) => s != []
    case JArr(items) => items != []
    case JObj(fields) => fields != []
  }

  /** `type(j).__name__`. */
  function TypeName(j: Json): string {
    match j
    case JNull => "NoneType"
    case JBool(_) => "bool"
    case JNum(_) => "int"
    case JStr(_) => "str"
    case JArr(_) => "list"
    case JObj(_) => "dict"
  }

  /** The text of the AttributeError raised by `j.attr` when `j` lacks the attribute. */
  function NoAttribute(j: Json, attr: string): string {
    "'" + TypeName(j) + "' object has no attribute '" + attr + "'"
  }

  /** The text of `KeyError(key)` for a key without quotes or backslashes. */
  function KeyErrorText(key: string): string {
    "'" + key + "'"
  }

  /** `j.get(key, default)`: AttributeError unless `j` is a dict. */
  function PyGet(j: Json, key: string, default: Json): (r: Result<Json, string>)
    ensures r.Success? <==> j.JObj?
    ensures j.JObj? && HasKey(j.fields, key) ==> r == Success(Lookup(j.fields, key).value)
    ensures j.JObj? && !HasKey(j.fields, key) ==> r == Success(default)
  {
    if j.JObj? then Success(Lookup(j.fields, key).GetOr(default)) else Failure(NoAttribute(j, "get"))
  }

  /** `j[key]` with a string key. */
  function Subscript(j: Json, key: string): (r: Result<Json, string>)
    ensures r.Success? <==> j.JObj? && HasKey(j.fields, key)
  {
    match j
    case JObj(fields) =>
      (match Lookup(fields, key)
       case Some(v) => Success(v)
       case None => Failure(KeyErrorText(key)))
    case JArr(_) => Failure("list indices must be integers or slices, not str")
    case JStr(_) => Failure("string indices must be integers, not 'str'")
    case _ => Failure("'" + TypeName(j) + "' object is not subscriptable")
  }

  /** `j[0]`. */
  function SubscriptFirst(j: Json): Result<Json, string> {
    match j
    case JArr(items) => if items == [] then Failure("list index out of range") else Success(items[0])
    case JStr(s) => if s == [] then Failure("string index out of range") else Success(JStr([s[0]]))
    case JObj(_) => Failure("0")  // decoded JSON keys are strings, never the int 0
    case _ => Failure("'" + TypeName(j) + "' object is not subscriptable")
  }

  /** `key in j` for a string `key`: membership for a dict (its keys) and a list, substring
      for a string, and a TypeError otherwise. */
  function PyIn(key: string, j: Json): (r: Result<bool, string>)
    ensures j.JObj? ==> r == Success(HasKey(j.fields, key))
  {
    match j
    case JObj(fields) => Success(HasKey(fields, key))
    case JArr(items) => Success(JStr(key) in items)
    case JStr(s) => Success(Contains(s, key))
    case _ => Failure("argument of type '" + TypeName(j) + "' is not iterable")
  }

  /** `str(j)`, which is also what an f-string interpolates. */
  function PyStr(codec: Codec, j: Json): string {
    match j
    case JNull => "None"
    case JBool(b) => if b then "True" else "False"
    case JNum(n) => IntToString(n)
    case JStr(s) => s
    case _ => codec.containerStr(j)
  }

  /** A dict literal with one key. */
  function Obj1(k: string, v: Json): Json {
    JObj([Field(k, v)])
  }
}

/** The payloads the gateway exchanges with its upstream services, as Python sees them
    after `response.json()`: a dict keeps its insertion order and may, when a payload is
    built in process, have a non-string key such as `None`. */
module Json {
  import opened Wrappers
  import opened Text

  datatype Json =
    | JNull
    | JBool(b: bool)
    | JInt(i: int)
      /** A Python `float`, carried by its `repr`: the model never computes with payload floats. */
    | JFloat(repr: string)
    | JStr(s: string)
    | JList(items: seq<Json>)
    | JDict(entries: seq<Entry>)

  datatype Entry = Entry(key: Json, value: Json)

  /** The value stored under `key`, if any; a Python dict has one entry per key, so the
      first match is the match. */
  function Lookup(entries: seq<Entry>, key: Json): (r: Option<Json>)
    ensures r.Some? <==> exists i :: 0 <= i < |entries| && entries[i].key == key
    ensures r.Some? ==> exists i :: 0 <= i < |entries| && entries[i] == Entry(key, r.value)
  {
    if entries == [] then None
    else if entries[0].key == key then Some(entries[0].value)
    else Lookup(entries[1..], key)
  }

  /** `d.get(name, default)` on a dict with entries `entries`. */
  function Get(entries: seq<Entry>, name: string, default: Json): Json
  {
    Lookup(entries, JStr(name)).GetOr(default)
  }

  predicate HasKey(entries: seq<Entry>, name: string)
  {
    Lookup(entries, JStr(name)).Some?
  }

  /** `{"detail": value}`, the wrapper the gateway puts around a non-dict payload. */
  function DetailDict(value: Json): Json
  {
    JDict([Entry(JStr("detail"), value)])
  }

  /** Python's `bool(value)`. */
  predicate Truthy(j: Json)
  {
    match j
    case JNull => false
    case JBool(b) => b
    case JInt(i) => i != 0
    case JFloat(r) => r != "0.0" && r != "-0.0"
    case JStr(s) => s != ""
    case JList(items) => items != []
    case JDict(entries) => entries != []
  }

  /** Python's `repr(value)`. Strings are quoted with single quotes and not escaped. */
  function Repr(j: Json): string
  {
    match j
    case JNull => "None"
    case JBool(b) => if b then "True" else "False"
    case JInt(i) => IntToDecimal(i)
    case JFloat(r) => r
    case JStr(s) => "'" + s + "'"
    case JList(items) =>
      "[" + Join(seq(|items|, k requires 0 <= k < |items| => Repr(items[k]))) + "]"
    case JDict(entries) =>
      "{" + Join(seq(|entries|, k requires 0 <= k < |entries| =>
                       Repr(entries[k].key) + ": " + Repr(entries[k].value))) + "}"
  }

  /** `", ".join(parts)`. */
  function Join(parts: seq<string>): string
  {
    if parts == [] then "" else if |parts| == 1 then parts[0] else parts[0] + ", " + Join(parts[1..])
  }

  /** Python's `str(value)`: a string is itself, everything else its `repr`. */
  function Str(j: Json): (r: string)
    ensures j.JStr? ==> r == j.s
    ensures j.JDict? ==> |r| >= 2 && r[0] == '{'
  {
    if j.JStr? then j.s else Repr(j)
  }

  /** `str(type(value))`. */
  function TypeRepr(j: Json): string
  {
    match j
    case JNull => "<class 'NoneType'>"
    case JBool(_) => "<class 'bool'>"
    case JInt(_) => "<class 'int'>"
    case JFloat(_) => "<class 'float'>"
    case JStr(_) => "<class 'str'>"
    case JList(_) => "<class 'list'>"
    case JDict(_) => "<class 'dict'>"
  }

  /** `str(payload.get("detail", payload))`: the detail text the services report for
      a failed call. */
  function DetailText(payload: seq<Entry>): string
  {
    Str(Get(payload, "detail", JDict(payload)))
  }

  /** `str(d.get(name, default))` with a string default. */
  function StrOr(entries: seq<Entry>, name: string, default: string): (r: string)
    ensures !HasKey(entries, name) ==> r == default
    ensures forall v :: Lookup(entries, JStr(name)) == Some(JStr(v)) ==> r == v
  {
    Str(Get(entries, name, JStr(default)))
  }

  /** `str(d[name]) if d.get(name) is not None else None`. */
  function OptionalStr(entries: seq<Entry>, name: string): (r: Option<string>)
    ensures r.None? <==> Lookup(entries, JStr(name)) == None || Lookup(entries, JStr(name)) == Some(JNull)
    ensures forall v :: Lookup(entries, JStr(name)) == Some(JStr(v)) ==> r == Some(v)
  {
    var v := Get(entries, name, JNull);
    if v != JNull then Some(Str(v)) else None
  }
}

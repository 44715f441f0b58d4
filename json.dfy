/** Decoded JSON as far as the bot looks into it. Decoding itself (`json.loads`,
    `response.json()`) is not modelled: its outcome is an input. */
module Json {
  import opened Wrappers
  import opened Text

  /** A decoded JSON value. Objects and arrays carry the text Python's `str()`
      prints for them; numbers, booleans and null are `Other` with theirs. */
  datatype Value =
    | Str(s: string)
    | Object(members: map<string, Value>, shown: string)
    | Array(items: seq<Value>, shown: string)
    | Other(shown: string)

  /** `str(v)`: what an f-string inserts for `v`. */
  function Show(v: Value): string {
    match v
    case Str(s) => s
    case Object(_, t) => t
    case Array(_, t) => t
    case Other(t) => t
  }

  /** `v[key]`: `None` where Python raises (a missing key, or `v` not an object). */
  function Get(v: Value, key: string): (r: Option<Value>)
    ensures r.Some? <==> v.Object? && key in v.members
  {
    if v.Object? && key in v.members then Some(v.members[key]) else None
  }

  /** `v[k1][k2]` */
  function GetPath(v: Value, k1: string, k2: string): (r: Option<Value>)
    ensures r.Some? ==> Get(v, k1).Some? && Get(Get(v, k1).value, k2) == r
  {
    match Get(v, k1)
    case None => None
    case Some(inner) => Get(inner, k2)
  }

  /** `v.get(key, default)`: `None` where `v` is no dictionary (AttributeError). */
  function GetOr(v: Value, key: string, default: Value): (r: Option<Value>)
    ensures r.Some? <==> v.Object?
    ensures r.Some? ==> r.value == if key in v.members then v.members[key] else default
  {
    if v.Object? then Some(if key in v.members then v.members[key] else default) else None
  }

  /** Python's `key in v` for a string `key`: a key of a dictionary, an element
      of a list, a substring of a string; `None` where it raises TypeError
      (numbers, booleans and null). */
  function Has(v: Value, key: string): (r: Option<bool>)
    ensures r.None? <==> v.Other?
    ensures v.Object? ==> r == Some(key in v.members)
  {
    match v
    case Object(m, _) => Some(key in m)
    case Array(items, _) => Some(Str(key) in items)
    case Str(s) => Some(Contains(s, key))
    case Other(_) => None
  }

  /** `bool(v)`: empty strings, lists and dictionaries are false, and so are
      null, false and zero, which `str()` prints as below. */
  predicate Truthy(v: Value) {
    match v
    case Str(s) => s != []
    case Object(m, _) => m != map[]
    case Array(items, _) => items != []
    case Other(shown) => shown != "None" && shown != "False" && shown != "0" && shown != "0.0" && shown != "-0.0"
  }

  /** `v[key]` with the exception Python raises: KeyError for a dictionary
      without the key, TypeError for a value that is no dictionary. */
  function Subscript(v: Value, key: string): (r: Result<Value>)
    ensures r.Ok? <==> Get(v, key).Some?
    ensures r.Ok? ==> Get(v, key) == Some(r.value)
    ensures r.Raised? ==> r.fault == (if v.Object? then Fault("KeyError") else Fault("TypeError"))
  {
    if !v.Object? then Raised(Fault("TypeError"))
    else if key in v.members then Ok(v.members[key])
    else Raised(Fault("KeyError"))
  }
}

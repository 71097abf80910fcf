/**
 * An abstract JSON document: what Python's `json.loads` returns and `json.dumps` accepts.
 * The text syntax of JSON is not modelled; a payload is either a document or unparsable text.
 */
module Json {
  import opened Wrappers

  datatype Value =
    | Null
    | Bool(b: bool)
    | Int(i: int)
    | Num(r: real)
    | Str(s: string)
    | Arr(items: seq<Value>)
    | Obj(fields: map<string, Value>)

  /** The outcome of `json.loads` on a received payload. */
  datatype Payload = Parsed(doc: Value) | Unparsable

  /** Python truthiness of a decoded JSON value: `not v`. */
  predicate Falsy(v: Value) {
    match v
    case Null => true
    case Bool(b) => !b
    case Int(i) => i == 0
    case Num(r) => r == 0.0
    case Str(s) => s == ""
    case Arr(items) => items == []
    case Obj(fields) => fields == map[]
  }

  /** `d.get(key, default)` on a dictionary; `os.getenv(name, default)` on the environment. */
  function Get<K, V>(d: map<K, V>, key: K, default: V): (v: V)
    ensures key in d ==> v == d[key]
    ensures key !in d ==> v == default
  {
    if key in d then d[key] else default
  }

  /** `d.get(key)` on a dictionary; `os.getenv(name)` on the environment: None when the key is absent. */
  function Lookup<K, V>(d: map<K, V>, key: K): (r: Option<V>)
    ensures r.Some? <==> key in d
    ensures r.Some? ==> r.value == d[key]
  {
    if key in d then Some(d[key]) else None
  }

  /** The decimal digits of `n`, as Python's `str(n)` writes them. */
  function NatToString(n: nat): (s: string)
    ensures |s| > 0
    ensures forall k :: 0 <= k < |s| ==> '0' <= s[k] <= '9'
    decreases n
  {
    if n < 10 then [(48 + n) as char] else NatToString(n / 10) + [(48 + n % 10) as char]
  }
}

/** Parsed JSON bodies, and the Python operators the scrapers apply to them:
    truthiness, `key in v`, `v[key]`, `v.get(key, default)` and iteration. */
module PyJson {
  import opened Wrappers

  /** A value produced by `response.json()`. Objects are keyed by their member names. */
  datatype Json =
    | JNull
    | JBool(b: bool)
    | JNum(n: int)
    | JStr(s: string)
    | JArr(items: seq<Json>)
    | JObj(fields: map<string, Json>)

  /** Python truthiness: `None`, `False`, `0` and empty strings, lists and dicts are false. */
  predicate Truthy(v: Json) {
    match v
    case JNull => false
    case JBool(b) => b
    case JNum(n) => n != 0
    case JStr(s) => s != ""
    case JArr(items) => items != []
    case JObj(fields) => fields != map[]
  }

  /** `if data:` where `data` may be Python's `None`. */
  predicate Present(data: Option<Json>) {
    data.Some? && Truthy(data.value)
  }

  /** `needle in hay` for two Python strings. */
  predicate IsSubstring(needle: string, hay: string)
    decreases |hay|
  {
    needle <= hay || (hay != [] && IsSubstring(needle, hay[1..]))
  }

  /** `key in v`: membership of a key in a dict, of an element in a list, of a substring
      in a string; a TypeError for `None`, booleans and numbers. */
  function In(key: string, v: Json): Result<bool> {
    match v
    case JObj(fields) => Ok(key in fields)
    case JArr(items) => Ok(JStr(key) in items)
    case JStr(s) => Ok(IsSubstring(key, s))
    case _ => Raised
  }

  /** `v[key]` with a string key: only a dict holding the key answers; anything else raises
      (KeyError for a dict without it, TypeError for every other value). */
  function Index(v: Json, key: string): Result<Json> {
    match v
    case JObj(fields) => if key in fields then Ok(fields[key]) else Raised
    case _ => Raised
  }

  /** `v.get(key, default)`: only dicts have the method (AttributeError otherwise). */
  function Get(v: Json, key: string, default: Json): Result<Json> {
    match v
    case JObj(fields) => Ok(if key in fields then fields[key] else default)
    case _ => Raised
  }

  /** The one-character strings of `s`, as iterating a Python string yields them. */
  function Chars(s: string): (r: seq<Json>)
    ensures |r| == |s|
    ensures forall i :: 0 <= i < |s| ==> r[i] == JStr([s[i]])
  {
    seq(|s|, i requires 0 <= i < |s| => JStr([s[i]]))
  }

  /** The elements `for x in v` (or `list.extend(v)`) visits: a list's items, a string's
      characters, nothing for an empty dict; `None`, booleans and numbers are not iterable.
      Objects carry no key order here, so a non-empty dict is treated as raising: every loop
      over one in the scrapers indexes its element, which fails on the first key. */
  function Elements(v: Json): (r: Result<seq<Json>>)
    ensures r.Ok? && Truthy(v) ==> r.value != []
    ensures r.Ok? && !Truthy(v) ==> r.value == []
  {
    match v
    case JArr(items) => Ok(items)
    case JStr(s) => Ok(Chars(s))
    case JObj(fields) => if fields == map[] then Ok([]) else Raised
    case _ => Raised
  }
}

/**
 * Decoded provider payloads as the dashboard script sees them: Python's
 * None, bool, int, float, str, list and dict. A dict is an association list
 * kept in insertion order (the order Python iterates it in). A Python dict
 * never repeats a key: `UniqueKeys` states this where a property needs it,
 * and a `JObj` that repeats a key stands for no Python value.
 *
 * The Python operators the script applies to these values are written out
 * here: truthiness (`if not x`), `key in x`, `x[key]`, iteration and
 * `isinstance(v, (int, float))`. Where Python raises, the result is `Raise`
 * with the text `str(e)` would give.
 */
module PyJson {

  datatype Option<+T> = None | Some(value: T)

  /** A value, or the Python exception that computing it raised. */
  datatype Result<+T> = Ok(value: T) | Raise(error: string)

  datatype Json =
    | JNull
    | JBool(b: bool)
    | JInt(i: int)
    | JFloat(f: real)   // IEEE rounding, NaN and infinities are not modelled
    | JStr(s: string)
    | JArr(items: seq<Json>)
    | JObj(fields: seq<(string, Json)>)

  type Obj = seq<(string, Json)>

  /** The keys of a dict, in iteration order. */
  function Keys(o: Obj): (ks: seq<string>)
    ensures |ks| == |o|
    ensures forall k :: 0 <= k < |o| ==> ks[k] == o[k].0
  {
    seq(|o|, k requires 0 <= k < |o| => o[k].0)
  }

  predicate UniqueKeys(o: Obj)
  {
    forall i, j :: 0 <= i < j < |o| ==> o[i].0 != o[j].0
  }

  /** The value stored under `key`, if any. */
  function Get(o: Obj, key: string): (r: Option<Json>)
    ensures r.Some? <==> key in Keys(o)
    ensures r.Some? ==> (key, r.value) in o
  {
    if o == [] then None
    else if o[0].0 == key then Some(o[0].1)
    else Get(o[1..], key)
  }

  /** Python's `d.get(key, default)`. */
  function GetOr(o: Obj, key: string, default: Json): Json
  {
    match Get(o, key)
    case Some(v) => v
    case None => default
  }

  /** Python's truth value of a decoded payload (what `if x` and `not x` test). */
  predicate Truthy(v: Json)
  {
    match v
    case JNull => false
    case JBool(b) => b
    case JInt(i) => i != 0
    case JFloat(f) => f != 0.0
    case JStr(s) => s != []
    case JArr(xs) => xs != []
    case JObj(o) => o != []
  }

  /** Python's `isinstance(v, (int, float))`; `bool` is a subclass of `int`. */
  predicate IsNumber(v: Json)
  {
    v.JBool? || v.JInt? || v.JFloat?
  }

  /** Python's `type(v).__name__`. */
  function TypeName(v: Json): string
  {
    match v
    case JNull => "NoneType"
    case JBool(_) => "bool"
    case JInt(_) => "int"
    case JFloat(_) => "float"
    case JStr(_) => "str"
    case JArr(_) => "list"
    case JObj(_) => "dict"
  }

  /** Python's `p in s` on two strings. */
  predicate IsSubstring(p: string, s: string)
  {
    p <= s || (s != [] && IsSubstring(p, s[1..]))
  }

  /** Python's `item in container` for a string `item`. */
  function Contains(container: Json, item: string): Result<bool>
  {
    match container
    case JObj(o) => Ok(item in Keys(o))
    case JArr(xs) => Ok(JStr(item) in xs)
    case JStr(s) => Ok(IsSubstring(item, s))
    case _ => Raise("argument of type '" + TypeName(container) + "' is not iterable")
  }

  /** Python's `container[key]` for a string `key`. */
  function Subscript(container: Json, key: string): Result<Json>
  {
    match container
    case JObj(o) =>
      (match Get(o, key)
       case Some(v) => Ok(v)
       case None => Raise("'" + key + "'"))
    case JArr(_) => Raise("list indices must be integers or slices, not str")
    case JStr(_) => Raise("string indices must be integers, not 'str'")
    case _ => Raise("'" + TypeName(container) + "' object is not subscriptable")
  }

  /** The elements `for x in v` visits: list items, dict keys, one-character strings. */
  function Iterate(v: Json): Result<seq<Json>>
  {
    match v
    case JArr(xs) => Ok(xs)
    case JObj(o) => Ok(seq(|o|, k requires 0 <= k < |o| => JStr(o[k].0)))
    case JStr(s) => Ok(seq(|s|, k requires 0 <= k < |s| => JStr([s[k]])))
    case _ => Raise("'" + TypeName(v) + "' object is not iterable")
  }
}

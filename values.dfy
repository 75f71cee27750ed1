/**
 * Python values as the pipeline sees them: the JSON-shaped data that
 * requests, LLM replies and stage results are made of, with the few
 * Python operations the code applies to them (dict lookup and update,
 * truthiness, the `in` operator) and the `{"error": msg}` record that
 * every stage uses to report a failure.
 */
module Values {
  import opened Text

  datatype Option<T> = None | Some(value: T)

  datatype Result<T, E> = Ok(value: T) | Err(error: E)

  /**
   * A JSON-compatible Python value. A dict keeps its entries in insertion
   * order; Python never repeats a key, and lookups here take the first
   * entry with the key.
   */
  datatype Json =
    | JNull
    | JBool(b: bool)
    | JInt(i: int)
    | JFloat(x: real)
    | JStr(s: string)
    | JArr(items: seq<Json>)
    | JObj(fields: seq<(string, Json)>)

  type Dict = seq<(string, Json)>

  /** The value stored under k, if any. */
  function Get(d: Dict, k: string): (r: Option<Json>)
    ensures r.Some? <==> exists i :: 0 <= i < |d| && d[i].0 == k
    ensures r.Some? ==> (k, r.value) in d
  {
    if |d| == 0 then None
    else if d[0].0 == k then Some(d[0].1)
    else Get(d[1..], k)
  }

  /** Python's `k in d` for a dict. */
  predicate HasKey(d: Dict, k: string)
  {
    Get(d, k).Some?
  }

  /** `d.get(k, default)`. */
  function GetOr(d: Dict, k: string, default: Json): Json
  {
    match Get(d, k)
    case Some(v) => v
    case None => default
  }

  /**
   * `d[k] = v`: the entry for k gets the new value in place, or a new entry
   * is appended; every other key keeps its value and the order is kept.
   */
  function Put(d: Dict, k: string, v: Json): (r: Dict)
    ensures Get(r, k) == Some(v)
    ensures forall k' :: k' != k ==> Get(r, k') == Get(d, k')
    ensures |r| == |d| + (if HasKey(d, k) then 0 else 1)
    ensures forall i :: 0 <= i < |r| && r[i].0 != k ==> i < |d| && r[i] == d[i]
  {
    if |d| == 0 then [(k, v)]
    else if d[0].0 == k then [(k, v)] + d[1..]
    else [d[0]] + Put(d[1..], k, v)
  }

  /** Python truthiness: None, False, zero, and empty strings, lists and dicts are falsy. */
  predicate Truthy(v: Json)
  {
    match v
    case JNull => false
    case JBool(b) => b
    case JInt(i) => i != 0
    case JFloat(x) => x != 0.0
    case JStr(s) => s != ""
    case JArr(items) => items != []
    case JObj(fields) => fields != []
  }

  /** A value that supports `needle in value` for a string needle; on any other value Python raises TypeError. */
  predicate Container(v: Json)
  {
    v.JObj? || v.JStr? || v.JArr?
  }

  /** `needle in v`: a key of a dict, a substring of a string, an element of a list. */
  predicate Member(needle: string, v: Json)
    requires Container(v)
  {
    match v
    case JObj(fields) => HasKey(fields, needle)
    case JStr(s) => Contains(s, needle)
    case JArr(items) => JStr(needle) in items
  }

  /** `len(v)`, or None where Python raises TypeError. */
  function Len(v: Json): Option<nat>
  {
    match v
    case JStr(s) => Some(|s|)
    case JArr(items) => Some(|items|)
    case JObj(fields) => Some(|fields|)
    case _ => None
  }

  /** `error_response(msg)`: a dict holding exactly one entry, "error", set to msg. */
  function ErrorResponse(msg: string): (r: Json)
    ensures r.JObj? && |r.fields| == 1
    ensures Get(r.fields, "error") == Some(JStr(msg))
  {
    JObj([("error", JStr(msg))])
  }

  /** `isinstance(v, dict) and "error" in v`: how the pipeline tells a failure from a result. */
  predicate IsErrorDict(v: Json)
  {
    v.JObj? && HasKey(v.fields, "error")
  }
}

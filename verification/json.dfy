/** JSON values as the Python code manipulates them after `json.loads`:
    dicts, lists, strings, ints, floats, booleans and `None`. */
module Json {
  import opened Wrappers

  datatype Json =
    | JNull
    | JBool(b: bool)
    | JInt(i: int)
      /** A float, `mantissa * 10^exponent`; only its zero-ness matters here. */
    | JFloat(mantissa: int, exponent: int)
    | JString(s: string)
    | JArray(items: seq<Json>)
    | JObject(fields: map<string, Json>)

  /** A Python dict with string keys. Key order is not modelled. */
  type Object = map<string, Json>

  /** Python truthiness of a JSON value (`bool(v)`). */
  predicate Truthy(v: Json) {
    match v
    case JNull => false
    case JBool(b) => b
    case JInt(i) => i != 0
    case JFloat(m, _) => m != 0
    case JString(s) => s != ""
    case JArray(xs) => xs != []
    case JObject(m) => m != map[]
  }

  /** `d.get(k)`: the value under `k`, or None. */
  function Get(d: Object, k: string): (r: Option<Json>)
    ensures r.Some? <==> k in d
    ensures r.Some? ==> r.value == d[k]
  {
    if k in d then Some(d[k]) else None
  }

  /** `{**base, **over}`: keys of both; where both have a key, `over` wins. */
  function Spread(base: Object, over: Object): (r: Object)
    ensures r.Keys == base.Keys + over.Keys
    ensures forall k :: k in over ==> r[k] == over[k]
    ensures forall k :: k in base && k !in over ==> r[k] == base[k]
  {
    base + over
  }

  /** `d.setdefault(k, v)` on a dict: adds `k` only when it is absent. */
  function SetDefault(d: Object, k: string, v: Json): (r: Object)
    ensures r.Keys == d.Keys + {k}
    ensures k in d ==> r == d
    ensures k !in d ==> r[k] == v
    ensures forall k' :: k' in d ==> r[k'] == d[k']
  {
    if k in d then d else d[k := v]
  }
}

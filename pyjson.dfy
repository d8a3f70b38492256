/**
 * The values the adapters see on the wire: what `json.loads` and the boto3
 * client hand back, and what the code builds as request bodies. Python's
 * `None` is `JNull`. Floating-point values (temperature, cfg scale,
 * similarity strength) are only ever passed through, so they are carried
 * as `real` literals and never computed with.
 */
module PyJson {
  import opened Wrappers

  datatype Json =
    | JNull
    | JBool(b: bool)
    | JInt(i: int)
    | JFloat(f: real)
    | JString(s: string)
    | JArray(items: seq<Json>)
    | JObject(fields: map<string, Json>)

  /** A subscript: `v["name"]` or `v[index]`. */
  datatype Sel = Key(name: string) | At(index: nat)

  /** The Python exceptions the adapters can raise or catch. */
  datatype PyError =
    | KeyError(sel: Sel)
    | IndexError
    | TypeError
    | AttributeError
    | ValueError(message: string)
    | FileNotFoundError(message: string)
    /** botocore's ClientError: the service rejected the request. */
    | ClientError(message: string)
    /** Any other failure of a remote call or of decoding its reply body. */
    | RemoteError(message: string)

  /**
   * Python subscription `v[sel]` on a decoded value: dicts take string keys
   * (an integer key is a KeyError, JSON keys being strings), lists and
   * strings take indices (a string yields a one-character string), and
   * everything else is not subscriptable.
   */
  function Subscript(v: Json, sel: Sel): (r: Result<Json, PyError>)
    ensures r.Success? ==>
              || (v.JObject? && sel.Key? && sel.name in v.fields && r.value == v.fields[sel.name])
              || (v.JArray? && sel.At? && sel.index < |v.items| && r.value == v.items[sel.index])
              || (v.JString? && sel.At? && sel.index < |v.s| && r.value == JString([v.s[sel.index]]))
  {
    match v
    case JObject(m) =>
      if sel.Key? && sel.name in m then Success(m[sel.name]) else Failure(KeyError(sel))
    case JArray(xs) =>
      if sel.Key? then Failure(TypeError)
      else if sel.index < |xs| then Success(xs[sel.index]) else Failure(IndexError)
    case JString(s) =>
      if sel.Key? then Failure(TypeError)
      else if sel.index < |s| then Success(JString([s[sel.index]])) else Failure(IndexError)
    case _ => Failure(TypeError)
  }

  /** `v.get(k, default)`: only dicts have a `get` method. */
  function Get(v: Json, k: string, default: Json): (r: Result<Json, PyError>)
    ensures r.Success? <==> v.JObject?
    ensures r.Success? ==> r.value == if k in v.fields then v.fields[k] else default
  {
    if v.JObject? then Success(if k in v.fields then v.fields[k] else default)
    else Failure(AttributeError)
  }

  /** Python truthiness of a decoded value. */
  predicate Truthy(v: Json)
  {
    match v
    case JNull => false
    case JBool(b) => b
    case JInt(i) => i != 0
    case JFloat(f) => f != 0.0
    case JString(s) => s != []
    case JArray(xs) => xs != []
    case JObject(m) => m != map[]
  }

  const EmptyObject: Json := JObject(map[])

  /** `{"text": t}`, the text part of system prompts and messages. */
  function TextPart(t: string): Json
  {
    JObject(map["text" := JString(t)])
  }

  /** The value under `k`, when `v` is a dict holding `k`. */
  function Field(v: Json, k: string): Option<Json>
  {
    if v.JObject? && k in v.fields then Some(v.fields[k]) else None
  }

  /** `v` is a dict whose keys are exactly `keys`. */
  predicate HasKeys(v: Json, keys: set<string>)
  {
    v.JObject? && v.fields.Keys == keys
  }

  /** The only element of `v`, when `v` is a one-element list. */
  function Only(v: Json): Option<Json>
  {
    if v.JArray? && |v.items| == 1 then Some(v.items[0]) else None
  }

  /** The contents of `v`, when `v` is a string. */
  function Str(v: Json): Option<string>
  {
    if v.JString? then Some(v.s) else None
  }

  /** The value reached from `v` through the dict keys `keys`, if every step is a dict holding the key. */
  function Dig(v: Json, keys: seq<string>): Option<Json>
    decreases |keys|
  {
    if keys == [] then Some(v)
    else
      var next :- Field(v, keys[0]);
      Dig(next, keys[1..])
  }

  /** The path `keys` leads to a dict that lacks `k`. */
  predicate MissingAt(v: Json, keys: seq<string>, k: string)
  {
    Dig(v, keys).Some? && Dig(v, keys).value.JObject? && k !in Dig(v, keys).value.fields
  }
}

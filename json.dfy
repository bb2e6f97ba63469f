/** The JSON values `json.loads` can hand back, and the `json` module as an abstract codec. */
module Json {
  import opened Bytes

  /** A parsed JSON document. Floating-point numbers are not part of this model. */
  datatype Json =
    | JNull
    | JBool(b: bool)
    | JInt(i: int)
    | JStr(s: string)
    | JArr(items: seq<Json>)
    | JObj(fields: map<string, Json>)

  /** `dumps(v)` is `json.dumps(v).encode()`; `loads(b)` is `json.loads(b.decode())`, None when
      either the UTF-8 decoding or the JSON parse raises. */
  datatype JsonCodec = JsonCodec(dumps: Json -> Bytes, loads: Bytes -> Option<Json>)

  /** What the model assumes of the library: parsing a dump gives the value back, and the empty
      document does not parse. */
  ghost predicate JsonSound(j: JsonCodec)
  {
    && (forall v :: j.loads(j.dumps(v)) == Some(v))
    && j.loads([]) == None
  }

  /** `[JStr(x) for x in xs]`: a list of Python strings as JSON. */
  function Strings(xs: seq<string>): (r: seq<Json>)
    ensures |r| == |xs|
    ensures forall i :: 0 <= i < |xs| ==> r[i] == JStr(xs[i])
  {
    if xs == [] then [] else [JStr(xs[0])] + Strings(xs[1..])
  }

  /** Python's `m.get(k, d)` on a JSON object. */
  function Get(m: map<string, Json>, k: string, d: Json): (r: Json)
    ensures k in m ==> r == m[k]
    ensures k !in m ==> r == d
  {
    if k in m then m[k] else d
  }

  /** Python's `n == v` for an int `n` and a parsed JSON value `v`: besides the integer itself,
      `True` equals 1 and `False` equals 0, because `bool` is a subclass of `int`. */
  predicate IntEquals(n: int, v: Json)
  {
    match v
    case JInt(i) => i == n
    case JBool(b) => (if b then 1 else 0) == n
    case _ => false
  }
}

/** Decoded JSON values, as `json.loads` produces them, and the typed
    reads of a decoded object that the SDK's records perform. Floating
    point numbers are modelled only as the SDK builds them itself: a whole
    number of thousandths. */
module Json {
  import opened Wrappers

  datatype Json =
    | JNull
    | JBool(b: bool)
    | JInt(i: int)
    | JDecimal(thousandths: int)
    | JStr(s: string)
    | JArr(items: seq<Json>)
    | JObj(fields: map<string, Json>)

  /** Python truthiness of a decoded value: `None`, `False`, zero and
      empty strings, lists and objects are falsy. */
  predicate JsonTruthy(j: Json) {
    match j
    case JNull => false
    case JBool(b) => b
    case JInt(i) => i != 0
    case JDecimal(t) => t != 0
    case JStr(s) => s != []
    case JArr(items) => items != []
    case JObj(fields) => fields != map[]
  }

  /** The JSON decoder: `None` stands for a `JSONDecodeError`. Decoding
      itself is outside the model, so every operation that decodes takes
      the decoder as a parameter. */
  type Decoder = string -> Option<Json>

  /** Reading `obj.get(key)` into a field typed `Optional[str]`: a missing
      key or `null` is `None`, a string is kept, anything else fails the
      record's validation (the failure carries the offending key). */
  function OptStr(obj: map<string, Json>, key: string): (r: Result<Option<string>, string>)
    ensures r.Success? && r.value.None? <==> key !in obj || obj[key] == JNull
    ensures r.Success? && r.value.Some? <==> key in obj && obj[key].JStr?
    ensures r.Success? && r.value.Some? ==> obj[key] == JStr(r.value.value)
    ensures r.Failure? ==> r.error == key
  {
    if key !in obj then Success(None)
    else match obj[key]
      case JNull => Success(None)
      case JStr(s) => Success(Some(s))
      case _ => Failure(key)
  }

  /** The JSON form of an optional string. */
  function OptStrJson(v: Option<string>): Json {
    match v
    case None => JNull
    case Some(s) => JStr(s)
  }

  /** Writing an optional string and reading it back gives it unchanged. */
  lemma OptStrRoundTrip(obj: map<string, Json>, key: string, v: Option<string>)
    ensures OptStr(obj[key := OptStrJson(v)], key) == Success(v)
  {
  }
}

/** An already-decoded JSON document and the typed accessors of Android's
    built-in org.json that the notes parser calls on it (`has`, `optInt`,
    `optDouble`, `optBoolean`, `optString`, `getJSONObject`,
    `getJSONArray`). Decoding JSON text is not part of this model. */
module Json {
  import opened Wrappers

  /** A JSON value. Numbers are exact rationals; objects map each key to its
      value (a later duplicate key overwrites an earlier one while decoding). */
  datatype Json =
    | Null
    | Bool(b: bool)
    | Num(n: real)
    | Str(s: string)
    | Arr(items: seq<Json>)
    | Obj(fields: map<string, Json>)

  type JsonObject = map<string, Json>

  /** The JSONException cases the parser can run into. */
  datatype JsonError =
    | NoValue(key: string)          // get* on a key the object does not have
    | KeyTypeMismatch(key: string)  // get* on a key whose value has another type
    | ElementTypeMismatch           // JSONArray.getJSONObject(i) on a non-object

  /** `optDouble(key, NaN)`: the number stored under `key`, None when the key
      is absent or holds a non-number. */
  function OptNumber(o: JsonObject, key: string): (r: Option<real>)
    ensures r.Some? <==> key in o && o[key].Num?
    ensures r.Some? ==> r.value == o[key].n
  {
    if key in o && o[key].Num? then Some(o[key].n) else None
  }

  /** Kotlin/Java conversion of a number to `Int`: truncation toward zero. */
  function TruncateToInt(x: real): (r: int)
    ensures 0.0 <= x ==> r as real <= x < r as real + 1.0
    ensures x < 0.0 ==> r as real - 1.0 < x <= r as real
  {
    if 0.0 <= x then x.Floor else -((-x).Floor)
  }

  /** `optInt(key, fallback)`: a number is truncated toward zero; anything
      else gives the fallback. */
  function OptInt(o: JsonObject, key: string, fallback: int): (r: int)
    ensures OptNumber(o, key).None? ==> r == fallback
    ensures OptNumber(o, key).Some? ==> r == TruncateToInt(OptNumber(o, key).value)
  {
    match OptNumber(o, key)
    case Some(x) => TruncateToInt(x)
    case None => fallback
  }

  /** `optBoolean(key, fallback)`. */
  function OptBoolean(o: JsonObject, key: string, fallback: bool): (r: bool)
    ensures (key in o && o[key].Bool?) ==> r == o[key].b
    ensures !(key in o && o[key].Bool?) ==> r == fallback
  {
    if key in o && o[key].Bool? then o[key].b else fallback
  }

  /** `optString(key, fallback)` without its fallback: None means the
      fallback is used. Android's org.json turns a JSON null into the text
      "null" and a boolean into "true" or "false". */
  function OptString(o: JsonObject, key: string): (r: Option<string>)
    ensures key !in o ==> r.None?
    ensures key in o && o[key].Str? ==> r == Some(o[key].s)
    ensures key in o && o[key].Null? ==> r == Some("null")
    ensures key in o && o[key].Bool? ==> r == Some(if o[key].b then "true" else "false")
    ensures key in o && (o[key].Num? || o[key].Arr? || o[key].Obj?) ==> r.None?
  {
    if key !in o then None
    else match o[key]
      case Str(s) => Some(s)
      case Null => Some("null")
      case Bool(b) => Some(if b then "true" else "false")
      case _ => None
  }

  /** `getJSONObject(key)`. */
  function GetObject(o: JsonObject, key: string): (r: Result<JsonObject, JsonError>)
    ensures r.Success? <==> key in o && o[key].Obj?
    ensures r.Success? ==> r.value == o[key].fields
    ensures key !in o ==> r == Failure(NoValue(key))
    ensures key in o && !o[key].Obj? ==> r == Failure(KeyTypeMismatch(key))
  {
    if key !in o then Failure(NoValue(key))
    else match o[key]
      case Obj(m) => Success(m)
      case _ => Failure(KeyTypeMismatch(key))
  }

  /** `getJSONArray(key)`. */
  function GetArray(o: JsonObject, key: string): (r: Result<seq<Json>, JsonError>)
    ensures r.Success? <==> key in o && o[key].Arr?
    ensures r.Success? ==> r.value == o[key].items
    ensures key !in o ==> r == Failure(NoValue(key))
    ensures key in o && !o[key].Arr? ==> r == Failure(KeyTypeMismatch(key))
  {
    if key !in o then Failure(NoValue(key))
    else match o[key]
      case Arr(a) => Success(a)
      case _ => Failure(KeyTypeMismatch(key))
  }

  /** `JSONArray.getJSONObject(i)`; the parser only asks for indices that exist. */
  function ElementObject(a: seq<Json>, i: nat): (r: Result<JsonObject, JsonError>)
    requires i < |a|
    ensures r.Success? <==> a[i].Obj?
    ensures r.Success? ==> r.value == a[i].fields
    ensures r.Failure? ==> r.error == ElementTypeMismatch
  {
    match a[i]
    case Obj(m) => Success(m)
    case _ => Failure(ElementTypeMismatch)
  }
}

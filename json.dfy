/**
 * JSON values as the edge functions see them after `JSON.parse` / `req.json()`,
 * with JavaScript's `undefined` as `None`, JavaScript truthiness, and the two
 * property reads the functions perform (`v.key`, `v[i]`), which throw a
 * TypeError on `null` and `undefined`.
 */
module Json {
  import opened Wrappers
  import opened Decimal

  /** Numbers are modelled as integers (NaN and fractions are not represented). */
  datatype Json =
    | JNull
    | JBool(b: bool)
    | JNumber(n: int)
    | JString(s: string)
    | JArray(items: seq<Json>)
    | JObject(fields: map<string, Json>)

  /** The result of evaluating an expression that may throw. */
  datatype Eval<+T> = Threw | Ok(value: T)

  /** JavaScript truthiness of a possibly-undefined value. */
  predicate Truthy(v: Option<Json>) {
    match v
    case None => false
    case Some(JNull) => false
    case Some(JBool(b)) => b
    case Some(JNumber(n)) => n != 0
    case Some(JString(s)) => s != ""
    case Some(JArray(_)) => true
    case Some(JObject(_)) => true
  }

  /**
   * `v.key`. Only objects carry the keys the functions read; on other non-null
   * values the read gives `undefined`. None of those keys is inherited from
   * `Object.prototype`.
   */
  function GetProp(v: Option<Json>, key: string): (r: Eval<Option<Json>>)
    ensures r.Threw? <==> v.None? || v == Some(JNull)
    ensures r.Ok? && r.value.Some? ==> v.value.JObject? && key in v.value.fields && r.value.value == v.value.fields[key]
  {
    match v
    case None => Threw
    case Some(JNull) => Threw
    case Some(JObject(fields)) => Ok(if key in fields then Some(fields[key]) else None)
    case Some(_) => Ok(None)
  }

  /** `v[i]`: an array element, a one-character string, or the object property named by `i`. */
  function GetIndex(v: Option<Json>, i: nat): (r: Eval<Option<Json>>)
    ensures r.Threw? <==> v.None? || v == Some(JNull)
  {
    match v
    case None => Threw
    case Some(JNull) => Threw
    case Some(JArray(items)) => Ok(if i < |items| then Some(items[i]) else None)
    case Some(JString(s)) => Ok(if i < |s| then Some(JString([s[i]])) else None)
    case Some(JObject(fields)) =>
      var key := DecimalString(i);
      Ok(if key in fields then Some(fields[key]) else None)
    case Some(_) => Ok(None)
  }

  /** `{ error: message }`. */
  function ErrorBody(message: string): Json {
    JObject(map["error" := JString(message)])
  }
}

/** The JavaScript value that `response.json()` produces, and the two property reads made on it. */
module JsonValues {
  import opened Wrappers

  /**
   * A value parsed from JSON text. A number is the exact real its literal denotes; a literal
   * too large for a double, which JavaScript reads as an infinity, is kept as that exact value.
   */
  datatype Json =
    | JNull
    | JBool(b: bool)
    | JNumber(n: real)
    | JString(s: string)
    | JArray(items: seq<Json>)
    | JObject(fields: map<string, Json>)

  /** The two properties the controller reads from a prediction payload. */
  predicate IsPredictionKey(key: string) {
    key == "age" || key == "gender"
  }

  /** The message of the TypeError a property read on `null` throws (V8's wording). */
  function NullReadMessage(key: string): string {
    "Cannot read properties of null (reading '" + key + "')"
  }

  /**
   * `value.key`: `None` stands for `undefined`. Only an object has an own property
   * of either key; a read on any other non-null value yields `undefined`, and a read
   * on `null` throws a TypeError.
   */
  function Get(value: Json, key: string): (r: Result<Option<Json>>)
    requires IsPredictionKey(key)
    ensures r.Thrown? <==> value.JNull?
    ensures r.Thrown? ==> r.message == NullReadMessage(key)
    ensures r.Ok? ==> (r.value.Some? <==> value.JObject? && key in value.fields)
    ensures r.Ok? && r.value.Some? ==> r.value.value == value.fields[key]
  {
    match value
    case JNull => Thrown(NullReadMessage(key))
    case JObject(fields) => Ok(if key in fields then Some(fields[key]) else None)
    case _ => Ok(None)
  }

  /** The `typeof` operator on a value read from a parsed JSON document (`None` is `undefined`). */
  function TypeOf(v: Option<Json>): (t: string)
    ensures t == "number" <==> v.Some? && v.value.JNumber?
    ensures t == "string" <==> v.Some? && v.value.JString?
    ensures t == "undefined" <==> v.None?
  {
    match v
    case None => "undefined"
    case Some(JNull) => "object"
    case Some(JBool(_)) => "boolean"
    case Some(JNumber(_)) => "number"
    case Some(JString(_)) => "string"
    case Some(JArray(_)) => "object"
    case Some(JObject(_)) => "object"
  }

  /** `list.includes(v)` for a list of strings: SameValueZero holds only for a string with the same characters. */
  function Includes(list: seq<string>, v: Option<Json>): (b: bool)
    ensures b <==> exists i :: 0 <= i < |list| && v == Some(JString(list[i]))
  {
    v.Some? && v.value.JString? && v.value.s in list
  }
}

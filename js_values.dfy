/** The JSON-like values that cross the network boundaries, with JavaScript's truthiness. */
module JsValues {

  datatype JsValue =
    | JsUndefined
    | JsNull
    | JsBool(b: bool)
    | JsNumber(n: real)
    | JsNaN
    | JsString(s: string)
    | JsArray(items: seq<JsValue>)
    | JsObject(fields: map<string, JsValue>)

  /** What `if (v)` accepts: everything except undefined, null, false, 0, NaN and "". */
  predicate Truthy(v: JsValue)
  {
    match v
    case JsUndefined => false
    case JsNull => false
    case JsBool(b) => b
    case JsNumber(n) => n != 0.0
    case JsNaN => false
    case JsString(s) => s != ""
    case _ => true
  }

  /** `v?.key`: the property of an object, `undefined` for a missing one or a non-object. */
  function Get(v: JsValue, key: string): (r: JsValue)
    ensures !v.JsObject? ==> r == JsUndefined
    ensures v.JsObject? && key !in v.fields ==> r == JsUndefined
  {
    if v.JsObject? && key in v.fields then v.fields[key] else JsUndefined
  }
}

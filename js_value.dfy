/**
 * JavaScript's view of a parsed JSON value, as the frontend code reads it:
 * truthiness and optional property access.
 */
module JsValue {
  import opened Common
  import opened AgentText

  /**
   * JavaScript truthiness of a parsed JSON value: objects and arrays are
   * truthy even when empty, unlike Python.
   */
  predicate JsTruthy(j: Json)
  {
    match j
    case JNull => false
    case JBool(b) => b
    case JNum(n) => n != 0.0
    case JStr(s) => s != ""
    case JList(_) => true
    case JObject(_) => true
  }

  /** `a?.b` (and `a.b` on a non-null value): the property when `a` is an object holding it; undefined (None) otherwise. */
  function Prop(j: Option<Json>, key: string): (r: Option<Json>)
    ensures r.Some? <==> j.Some? && j.value.JObject? && key in j.value.fields
    ensures r.Some? ==> r.value == j.value.fields[key]
  {
    match j
    case Some(JObject(fields)) => if key in fields then Some(fields[key]) else None
    case _ => None
  }

  /** A property that is there and truthy (what `a.b || default` tests). */
  predicate Present(j: Option<Json>)
  {
    j.Some? && JsTruthy(j.value)
  }
}

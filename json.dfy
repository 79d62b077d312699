/** A parsed JSON body as the browser's `response.json()` hands it to the
    application, and the two pieces of JavaScript semantics the application
    applies to such values: truthiness and property reads. */
module JsValue {

  datatype Json =
    | JNull
    | JBool(b: bool)
    | JNum(n: real)
    | JStr(s: string)
    | JArray(items: seq<Json>)
    | JObject(fields: map<string, Json>)

  /** JavaScript truthiness: `null`, `false`, `0` and `""` are falsy,
      every array and every object (even an empty one) is truthy. */
  predicate Truthy(v: Json)
  {
    match v
    case JNull => false
    case JBool(b) => b
    case JNum(n) => n != 0.0
    case JStr(s) => s != ""
    case JArray(_) => true
    case JObject(_) => true
  }

  /** The outcome of evaluating `v.key`: reading a property of `null`
      throws a TypeError; a missing property is `undefined`. */
  datatype Read = Throws | Undefined | Value(v: Json)

  /** `v.key` for the keys the application reads. Arrays and strings have
      only their `length`; booleans and numbers have none of them. */
  function Prop(v: Json, key: string): (r: Read)
    ensures r.Throws? <==> v.JNull?
    ensures v.JObject? ==> (r.Value? <==> key in v.fields)
    ensures v.JObject? && key in v.fields ==> r.v == v.fields[key]
  {
    match v
    case JNull => Throws
    case JArray(items) => if key == "length" then Value(JNum(|items| as real)) else Undefined
    case JStr(s) => if key == "length" then Value(JNum(|s| as real)) else Undefined
    case JObject(fields) => if key in fields then Value(fields[key]) else Undefined
    case _ => Undefined
  }

  /** `Array.isArray` applied to the outcome of a property read that did not throw. */
  predicate IsArrayRead(r: Read)
  {
    r.Value? && r.v.JArray?
  }
}

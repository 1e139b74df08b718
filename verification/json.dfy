/**
 * JSON values (RFC 8259) as the JavaScript and Python sides of the system see them,
 * with the JavaScript operations the modelled code applies to them: truthiness,
 * property reads and `String(v)`. Parsing and serialising are NOT defined here:
 * the modules that need them take them as function parameters.
 */
module Json {
  import opened Wrappers
  import Text

  /** A JSON value. Numbers are integers: no part of the system produces or inspects fractions. */
  datatype Json =
    | JNull
    | JBool(b: bool)
    | JNum(n: int)
    | JStr(s: string)
    | JArr(items: seq<Json>)
    | JObj(fields: map<string, Json>)

  /** JavaScript `ToBoolean` on a JSON value: `null`, `false`, `0` and `""` are falsy. */
  predicate Truthy(j: Json) {
    match j
    case JNull => false
    case JBool(b) => b
    case JNum(n) => n != 0
    case JStr(s) => s != ""
    case JArr(_) => true
    case JObj(_) => true
  }

  /** Truthiness of a property that may be `undefined` (`None`). */
  predicate TruthyOpt(o: Option<Json>) {
    o.Some? && Truthy(o.value)
  }

  /** Reading property `key` of a non-null value: own fields of objects, `undefined` otherwise. */
  function Field(j: Json, key: string): (r: Option<Json>)
    ensures r.Some? <==> j.JObj? && key in j.fields
  {
    if j.JObj? && key in j.fields then Some(j.fields[key]) else None
  }

  /** The `{ error: msg }` body every failing response carries. */
  function ErrorBody(msg: string): (r: Json)
    ensures r.JObj? && r.fields.Keys == {"error"}
    ensures Field(r, "error") == Some(JStr(msg))
  {
    JObj(map["error" := JStr(msg)])
  }

  /** JavaScript `String(v)`; inside arrays `null` renders as the empty string, as `join` does. */
  function ToJsString(j: Json): string {
    match j
    case JNull => "null"
    case JBool(b) => if b then "true" else "false"
    case JNum(n) => Text.IntToString(n)
    case JStr(s) => s
    case JArr(items) => JoinElements(items)
    case JObj(_) => "[object Object]"
  }

  /** `Array.prototype.join(',')` over JSON elements. */
  function JoinElements(items: seq<Json>): string
    decreases items
  {
    if items == [] then ""
    else
      var head := if items[0].JNull? then "" else ToJsString(items[0]);
      if |items| == 1 then head else head + "," + JoinElements(items[1..])
  }
}

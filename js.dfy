/**
 * JSON values as the route handlers receive them from `request.json()`, with
 * the JavaScript truthiness and string conversion the handlers apply to them.
 */
module Js {
  import opened Text

  /** A JSON value. Numbers are integers: every check here treats a fraction like any other number. */
  datatype Json =
    | JNull
    | JBool(b: bool)
    | JNum(n: int)
    | JStr(s: string)
    | JArr(items: seq<Json>)
    | JObj(fields: map<string, Json>)

  /** A JSON object's members; a key that is absent reads as `undefined`. */
  type Obj = map<string, Json>

  /** The outcome of `await request.json()`: a body that is not JSON makes it throw. */
  datatype Body = Unparsable | Parsed(value: Json)

  /** JavaScript truthiness of a present value. */
  predicate Truthy(j: Json) {
    match j
    case JNull => false
    case JBool(b) => b
    case JNum(n) => n != 0
    case JStr(s) => s != ""
    case JArr(_) => true
    case JObj(_) => true
  }

  /** `Boolean(o[key])`: an absent key is `undefined`, which is falsy. */
  predicate TruthyAt(o: Obj, key: string) {
    key in o && Truthy(o[key])
  }

  /** `String(j)`, the text a template literal or `join` produces for a value. */
  function Render(j: Json): string
    decreases j, 0
  {
    match j
    case JNull => "null"
    case JBool(b) => if b then "true" else "false"
    case JNum(n) => IntToString(n)
    case JStr(s) => s
    case JArr(items) => Join(seq(|items|, i requires 0 <= i < |items| => Element(items[i])), ",")
    case JObj(_) => "[object Object]"
  }

  /** How `join` renders one element: `null` becomes the empty string. */
  function Element(j: Json): string
    decreases j, 1
  {
    if j.JNull? then "" else Render(j)
  }

  /** The JSON array of a list of strings, as `JSON.stringify` writes it. */
  function Strings(xs: seq<string>): (r: Json)
    ensures r.JArr? && |r.items| == |xs|
    ensures forall i :: 0 <= i < |xs| ==> r.items[i] == JStr(xs[i])
  {
    JArr(seq(|xs|, i requires 0 <= i < |xs| => JStr(xs[i])))
  }
}

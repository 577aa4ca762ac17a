/**
 * JSON values as the server and the adapters receive them from `response.json()`,
 * with the JavaScript notions of truthiness and string conversion they rely on.
 * Numbers are integers in this model.
 */
module Json {
  import opened Wrappers

  datatype Json =
    | JNull
    | JBool(b: bool)
    | JNum(n: int)
    | JStr(s: string)
    | JArr(items: seq<Json>)
    | JObj(fields: map<string, Json>)

  /** A JSON object: the shape of every token response and of connection metadata. */
  type JsonObject = map<string, Json>

  /** JavaScript truthiness of a JSON value (`if (x)`, `x || y`). */
  predicate Truthy(j: Json) {
    match j
    case JNull => false
    case JBool(b) => b
    case JNum(n) => n != 0
    case JStr(s) => s != ""
    case _ => true
  }

  /** Property read `o.k`: `None` stands for `undefined`. */
  function Field(o: JsonObject, k: string): (r: Option<Json>)
    ensures r.Some? <==> k in o
  {
    if k in o then Some(o[k]) else None
  }

  /** Truthiness of a property read; an absent property is `undefined`, which is falsy. */
  predicate FieldTruthy(o: JsonObject, k: string) {
    k in o && Truthy(o[k])
  }

  /** `o.k || fallback` */
  function FieldOr(o: JsonObject, k: string, fallback: Json): (r: Json)
    ensures FieldTruthy(o, k) ==> r == o[k]
    ensures !FieldTruthy(o, k) ==> r == fallback
  {
    if FieldTruthy(o, k) then o[k] else fallback
  }

  /** The decimal digits of a natural number, most significant first. */
  function NatToDecimal(n: nat): (s: string)
    ensures |s| >= 1
    ensures forall i :: 0 <= i < |s| ==> '0' <= s[i] <= '9'
    decreases n
  {
    if n < 10 then [('0' as int + n) as char]
    else NatToDecimal(n / 10) + [('0' as int + n % 10) as char]
  }

  /** `String(n)` for an integer-valued JavaScript number. */
  function IntToDecimal(n: int): string {
    if n < 0 then "-" + NatToDecimal(-n) else NatToDecimal(n)
  }

  /**
   * JavaScript `String(v)` of a JSON value: arrays join their elements with commas
   * (null elements become empty), objects print as `[object Object]`.
   */
  function JsString(j: Json): string
    decreases j, if j.JArr? then |j.items| + 1 else 0
  {
    match j
    case JNull => "null"
    case JBool(b) => if b then "true" else "false"
    case JNum(n) => IntToDecimal(n)
    case JStr(s) => s
    case JArr(items) => JoinElements(items, j)
    case JObj(_) => "[object Object]"
  }

  /** `Array.prototype.join(",")` over the elements of `parent`'s item list. */
  function JoinElements(items: seq<Json>, ghost parent: Json): string
    requires forall x :: x in items ==> x < parent
    decreases parent, |items|
  {
    if items == [] then ""
    else
      assert items[0] in items;
      var head := if items[0].JNull? then "" else JsString(items[0]);
      if |items| == 1 then head
      else
        assert forall x :: x in items[1..] ==> x in items;
        head + "," + JoinElements(items[1..], parent)
  }

  /** `String(x)` where `undefined` prints as "undefined" (template literals, URLSearchParams values). */
  function Interpolate(o: Option<Json>): string {
    match o
    case None => "undefined"
    case Some(j) => JsString(j)
  }
}

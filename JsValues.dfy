/** The JavaScript values the controllers receive and return, reduced to the
    shapes their logic distinguishes: a number is NaN or finite, an absent
    text field is the empty string, and a date is absent, invalid or a
    millisecond timestamp. */
module JsValues {

  datatype Option<+T> = None | Some(value: T)

  /** The outcome of a request handler: a success payload, or an HTTP error
      code with the message the handler sends. */
  datatype Reply<+T> = Ok(value: T) | Fail(code: int, message: string)

  /** A JavaScript number. Infinities are not modelled. */
  datatype JsNumber = NaN | Num(v: real)

  /** `Boolean(n)`: zero and NaN are falsy. */
  predicate NumberTruthy(n: JsNumber) {
    n.Num? && n.v != 0.0
  }

  /** `a || b` on two text values; the empty string is falsy. */
  function OrText(a: string, b: string): (r: string)
    ensures r == "" <==> a == "" && b == ""
    ensures a != "" ==> r == a
  {
    if a != "" then a else b
  }

  /** Text that is `null` when falsy, as in `value || null`. */
  function TextOrNull(a: string): (r: Option<string>)
    ensures r.Some? <==> a != ""
    ensures r.Some? ==> r.value == a
  {
    if a != "" then Some(a) else None
  }

  /** A parsed JSON value, as `JSON.parse` returns it. */
  datatype Json =
    | JNull
    | JBool(b: bool)
    | JNum(n: real)
    | JStr(s: string)
    | JArr(items: seq<Json>)
    | JObj(members: seq<(string, Json)>)

  predicate JsonTruthy(j: Json) {
    match j
    case JNull => false
    case JBool(b) => b
    case JNum(n) => n != 0.0
    case JStr(s) => s != ""
    case JArr(_) => true
    case JObj(_) => true
  }

  /** A date field of a request: absent (falsy), or a value that `new Date(..)`
      turns into a millisecond timestamp or into an Invalid Date (None). */
  datatype DateInput = DateAbsent | DateGiven(time: Option<int>)

  /** A free-form payload (`details`, `address`): absent, a text whose
      `JSON.parse` yields `json` (None when it throws), or an already
      decoded value. */
  datatype Extra = ExtraAbsent | ExtraText(text: string, json: Option<Json>) | ExtraValue(v: Json)

  /** `s.startsWith(p)` */
  predicate StartsWith(s: string, p: string) {
    |p| <= |s| && s[..|p|] == p
  }

  /** `s.endsWith(p)` */
  predicate EndsWith(s: string, p: string) {
    |p| <= |s| && s[|s| - |p|..] == p
  }
}

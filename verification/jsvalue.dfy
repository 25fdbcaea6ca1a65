/** Values as the browser client sees them: optional fields, JSON values with
    JavaScript truthiness, and the outcome of one HTTP request. */
module JsValue {

  datatype Option<+T> = None | Some(value: T)

  /** A JSON value received from or sent to the server. Numbers are exact reals
      (NaN and infinities are not represented). */
  datatype Value = Null | Bool(b: bool) | Num(n: real) | Str(s: string) | Composite

  /** A JavaScript object with string keys; a key that is absent reads as `undefined`. */
  type Object = map<string, Value>

  /** JavaScript truthiness: null, false, 0 and the empty string are falsy. */
  predicate Truthy(v: Value) {
    match v
    case Null => false
    case Bool(b) => b
    case Num(n) => n != 0.0
    case Str(s) => s != ""
    case Composite => true
  }

  /** `obj[key]` used as a condition; an absent key is `undefined`, hence falsy. */
  predicate Has(obj: Object, key: string) {
    key in obj && Truthy(obj[key])
  }

  /** `field || d` on an integer field that may be absent: absent and 0 both give `d`. */
  function IntOr(field: Option<int>, d: int): (r: int)
    ensures field.Some? && field.value != 0 ==> r == field.value
    ensures field.None? || field.value == 0 ==> r == d
  {
    if field.Some? && field.value != 0 then field.value else d
  }

  /** `field || d` on a numeric field that may be absent. */
  function RealOr(field: Option<real>, d: real): (r: real)
    ensures field.Some? && field.value != 0.0 ==> r == field.value
    ensures field.None? || field.value == 0.0 ==> r == d
  {
    if field.Some? && field.value != 0.0 then field.value else d
  }

  /** `field || d` on a text field that may be absent: absent and "" both give `d`. */
  function StringOr(field: Option<string>, d: string): (r: string)
    ensures field.Some? && field.value != "" ==> r == field.value
    ensures field.None? || field.value == "" ==> r == d
  {
    if field.Some? && field.value != "" then field.value else d
  }

  /** The response part of a rejected request (`error.response`): its HTTP status and
      the server's `data.message`, "" when the server gave none. */
  datatype ErrorResponse = ErrorResponse(status: int, message: string)

  /** A thrown JavaScript error: its `message`, the server response if one arrived,
      and whether a request had been sent (`error.request`). */
  datatype HttpError = HttpError(message: string, response: Option<ErrorResponse>, requestSent: bool)

  /** The settled outcome of one awaited request: its body, or the error it threw. */
  datatype Reply<+T> = Ok(body: T) | Failed(error: HttpError)
}

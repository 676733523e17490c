/** Values the sign-in component handles, as JavaScript presents them to it. */
module Js {

  /** An optional value (a JavaScript global that may be undefined). */
  datatype Option<+T> = None | Some(value: T)

  /** How an awaited promise settles: with a value, or by throwing an error. */
  datatype Outcome<+T> = Resolved(value: T) | Rejected(error: JsError)

  /** A JSON value as produced by `response.json()`; numbers keep their text,
      so no floating point is involved. */
  datatype Json =
    | JNull
    | JBool(b: bool)
    | JNumber(text: string)
    | JString(s: string)
    | JArray(items: seq<Json>)
    | JObject(members: seq<(string, Json)>)

  /** A thrown value as the component reads it: `error.code` and
      `error.message`, where a missing field reads as the empty string. */
  datatype JsError = JsError(code: string, message: string)

  /** JavaScript `a || b` on strings: the empty string is falsy. */
  function Or(a: string, b: string): (r: string)
    ensures a != "" ==> r == a
    ensures a == "" ==> r == b
  {
    if a != "" then a else b
  }

  /** The set of values an optional global holds (empty or a singleton). */
  function Held<T>(o: Option<T>): (r: set<T>)
    ensures |r| <= 1
    ensures o.Some? ==> o.value in r
  {
    match o
    case None => {}
    case Some(v) => {v}
  }
}

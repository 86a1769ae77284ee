/** The browser facilities the client code leans on: `localStorage` as a map from keys to
    strings, and JavaScript's `||` and `String(v)` on values that may be `undefined`
    (written `None` here; `Some(v)` is a defined value, `Some(JNull)` is null). */
module Web {
  import opened Wrappers
  import opened Json

  /** Why a call rejects: the HTTP request failed (carrying the client's error), a property was
      read from null or undefined, or `JSON.parse` met malformed text. */
  datatype Error = RequestFailed(reason: string) | TypeError(property: string) | SyntaxError(text: string)

  /** The contents of `localStorage`. */
  type Storage = map<string, string>

  /** A stored item read with `localStorage.getItem(key)`: the string, or null when absent. */
  function ItemValue(st: Storage, key: string): Json {
    if key in st then JStr(st[key]) else JNull
  }

  /** A possibly undefined value that is truthy. */
  predicate Truthy(v: Option<Json>) {
    v.Some? && JsTruthy(v.value)
  }

  /** `a || b`. */
  function Or(a: Option<Json>, b: Option<Json>): Option<Json> {
    if Truthy(a) then a else b
  }

  /** `String(v)`, which is what `localStorage.setItem` stores; `String(undefined)` is
      "undefined". */
  function StringOf(v: Option<Json>): string {
    match v
    case None => "undefined"
    case Some(x) => JsString(x)
  }
}

/** JavaScript values as the modelled code sees them: missing values,
    truthiness of strings, and numbers produced by `Number(...)`. */
module Js {
  import opened Strings

  datatype Option<+T> = None | Some(value: T)

  /** A string is truthy when it is present and not empty. */
  predicate Truthy(x: Option<String>) {
    x.Some? && x.value != []
  }

  /** `x || fallback` for a possibly missing string. */
  function OrDefault(x: Option<String>, fallback: String): String {
    if Truthy(x) then x.value else fallback
  }

  /** Template-literal rendering of a possibly missing string. */
  function Render(x: Option<String>): String {
    if x.Some? then x.value else "undefined"
  }

  /** A number as produced by `Number(text)`: NaN or a finite value. */
  datatype JsNumber = NaN | Finite(value: real)

  predicate NumberTruthy(n: JsNumber) {
    n.Finite? && n.value != 0.0
  }

  /** `Number(x) || fallback`: NaN and 0 fall back. */
  function NumberOr(n: JsNumber, fallback: real): real {
    if NumberTruthy(n) then n.value else fallback
  }
}

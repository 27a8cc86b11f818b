/** JavaScript values as the application code sees them: a value that may be
    `null`/`undefined`, and the truthiness test that `if (x)`, `!x` and `x || y`
    apply to it. The modelled code applies that test only to strings,
    so a string is truthy exactly when it is present and not empty. */
module JsValues {

  /** A possibly-absent value: `None` stands for `null` or `undefined`. */
  datatype Option<+T> = None | Some(value: T)

  /** JavaScript truthiness of an optional string. */
  predicate Truthy(v: Option<string>) {
    v.Some? && v.value != ""
  }

  /** `v || fallback` on an optional string. */
  function OrElse(v: Option<string>, fallback: string): string {
    if Truthy(v) then v.value else fallback
  }
}

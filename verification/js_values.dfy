/** The JavaScript values the scaffold builder receives from its prompts:
    a quick pick yields a string, an array of strings, or `undefined` when the
    user dismisses it. */
module JsValues {

  /** A value that may be `undefined` (`None`). */
  datatype Option<+T> = None | Some(value: T)

  /** The outcome of a JavaScript expression that may throw. */
  datatype Result<+T, +E> = Ok(value: T) | Err(error: E)

  /** The only exception the builder itself raises: calling `.map` on `undefined`. */
  datatype JsError = TypeError(message: string)

  /** JavaScript truthiness of an optional string: `undefined` and `''` are falsy. */
  predicate Truthy(v: Option<string>)
  {
    v.Some? && v.value != ""
  }
}

/** Values shared by the whole model: optional values, results that carry an
    error, and the JavaScript coercions the service relies on when it tests a
    string for truthiness or interpolates a possibly `undefined` value into a
    template literal. */
module Common {

  /** A value that may be absent (`null` or `undefined` in the service). */
  datatype Option<T> = None | Some(value: T)

  /** The outcome of an operation that may throw. */
  datatype Result<T, E> = Ok(value: T) | Err(error: E)

  /** JavaScript truthiness of a string that may be absent: `""`, `null` and
      `undefined` are falsy, every other string is truthy. */
  predicate Truthy(s: Option<string>)
  {
    s.Some? && s.value != ""
  }

  /** `${s}` in a template literal, where an absent value prints as `undefined`. */
  function Show(s: Option<string>): string
  {
    if s.Some? then s.value else "undefined"
  }
}

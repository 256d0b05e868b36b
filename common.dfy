/** Shared vocabulary of the model: store identifiers, optional values,
    outcomes of calls that can fail, and JavaScript truthiness of the
    optional fields a JSON request body may carry. */
module Common {

  /** An identifier handed out by the document store (a Mongo ObjectId).
      Only equality between identifiers is ever observed. */
  type Id = nat

  datatype Option<T> = None | Some(value: T) {
    /** The value if present, otherwise `default`. */
    function GetOr(default: T): T
    {
      if Some? then value else default
    }
  }

  /** The outcome of a step that can fail: a value or an error message. */
  datatype Result<T, E> = Ok(value: T) | Err(error: E)

  /** JavaScript truthiness of an optional string field: an absent field
      (`undefined`) and the empty string are falsy, every other string is truthy. */
  predicate Truthy(s: Option<string>)
  {
    s.Some? && s.value != ""
  }

  /** `s || fallback` for an optional string field. */
  function OrElse(s: Option<string>, fallback: string): string
  {
    if Truthy(s) then s.value else fallback
  }

  /** `b || false` for an optional boolean field. */
  function OrFalse(b: Option<bool>): bool
  {
    b == Some(true)
  }

  /** The default text color of a theme: white on dark, black on light. */
  function ThemeColor(isDark: bool): string
  {
    if isDark then "#ffffff" else "#000000"
  }
}

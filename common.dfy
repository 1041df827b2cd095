/** Small value types shared by the client, its guards and the terminal front end. */
module Common {

  datatype Option<+T> = None | Some(value: T)

  /** What a guard wrapper did on one call: the observable events, in order. */
  datatype Event<+A> =
    | Warned            // the "Attempted to run without authentication" warning was logged
    | LoginAttempted    // the wrapper called login before running the operation
    | Invoked(args: A)  // the wrapped operation ran with these arguments

  /** Python's truthiness of an optional string: None and "" are false. */
  predicate Truthy(t: Option<string>)
  {
    t.Some? && t.value != ""
  }

  /** `str(b)` for a Python bool. */
  function BoolText(b: bool): string
  {
    if b then "True" else "False"
  }
}

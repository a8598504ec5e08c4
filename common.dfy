/** Value types shared by the adapter and the authenticator models. */
module Common {

  /** A value that may be missing (`undefined` or `null` on the JavaScript side). */
  datatype Option<+T> = None | Some(value: T) {
    /** The value, or `default` when it is missing. */
    function GetOr(default: T): T {
      if Some? then value else default
    }
  }

  /** An exception thrown synchronously by JavaScript code. */
  datatype JsError =
    | TypeError(property: string)        // a property read on `undefined`
    | ReferenceError(identifier: string) // a name that is not bound in scope

  /** A computation that either returns a value or throws. */
  datatype Result<+T> = Ok(value: T) | Err(error: JsError) {
    predicate IsFailure() {
      Err?
    }

    function PropagateFailure<U>(): Result<U>
      requires Err?
    {
      Err(error)
    }

    function Extract(): T
      requires Ok?
    {
      value
    }
  }

  /** How a promise settles: fulfilled with a value or rejected with a reason. */
  datatype Settled<+T, +E> = Fulfilled(value: T) | Rejected(reason: E)

  /** JavaScript truthiness of a string that may be missing: the empty string is falsy. */
  predicate Truthy(s: Option<string>) {
    s.Some? && s.value != ""
  }
}

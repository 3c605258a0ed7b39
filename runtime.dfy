/** The small slice of JavaScript and Express semantics that the admission
    middleware depends on: values and their truthiness, error objects, the
    outcome of one middleware call, and normal/abrupt completion of a call
    into a library. */
module Runtime {

  datatype Option<+T> = None | Some(value: T)

  /** A JavaScript value, as far as the middleware inspects one. Objects and
      functions are kept by identity only. */
  datatype Value =
    | Undefined
    | Null
    | Bool(b: bool)
    | Num(x: real)
    | NaN
    | Str(s: string)
    | Obj(id: nat)

  /** ECMAScript ToBoolean: the values an `if (v)` test lets through. */
  predicate Truthy(v: Value) {
    match v
    case Undefined => false
    case Null => false
    case Bool(b) => b
    case Num(x) => x != 0.0
    case NaN => false
    case Str(s) => s != ""
    case Obj(_) => true
  }

  /** The fields of a thrown error object that the middleware looks at:
      whether `err instanceof SyntaxError` holds, the `status` property
      (Undefined when absent), whether `'body' in err` holds, and the message. */
  datatype ErrorValue = ErrorValue(isSyntaxError: bool, status: Value, hasBody: bool, message: string)

  function TypeError(message: string): ErrorValue {
    ErrorValue(false, Undefined, false, message)
  }

  /** A call that either returns a value or throws. */
  datatype Completion<+T> = Normal(value: T) | Throw(error: ErrorValue)

  /** What one Express middleware call does with a request:
      `next()` (Proceed), `next("route")` (SkipRoute), writes a JSON response
      `{status, message}` with that HTTP status (Respond), or throws / passes an
      error on, which Express routes to the error-handling middleware (Raise). */
  datatype Outcome =
    | Proceed
    | SkipRoute
    | Respond(status: nat, message: string)
    | Raise(error: ErrorValue)

  /** A template literal `${process.env.NAME}`: the variable's text, or the
      text "undefined" when the variable is not set. */
  function EnvString(v: Option<string>): string {
    match v
    case Some(text) => text
    case None => "undefined"
  }
}

/** How the loader's operations end. The C# code signals failure by throwing;
    here every operation that can throw returns one of these values instead. */
module Outcomes {

  datatype Option<+T> = None | Some(value: T)

  /** The exceptions a caller of the loader can observe. */
  datatype Error =
    | ConstraintViolated(message: string)  // PluginConstraintViolatedException carrying the constraint's Message
    | DuplicateKey(key: string)            // ArgumentException raised by Dictionary.Add for a key already bound

  /** A value-returning call: it returns a value or throws. */
  datatype Result<+R> = Success(value: R) | Failure(error: Error)

  /** A void call: it completes or throws. */
  datatype Outcome = Pass | Fail(error: Error)
}

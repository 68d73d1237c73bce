/** Failure-carrying result types and the exception kinds the modelled code raises. */
module Wrappers {

  datatype Option<+T> = None | Some(value: T)

  datatype Result<+T, +E> = Success(value: T) | Failure(error: E)

  datatype Outcome<+E> = Pass | Fail(error: E)

  /** The Python exceptions the controller and the network log can raise. */
  datatype Exception =
    | RuntimeError(message: string)  // raised explicitly by VanillaController.forward
    | IndexError                     // numpy: a row index past the end of the log table
    | TypeError                      // len(None): an output buffer that was never initialised

  function Min(a: int, b: int): (m: int)
    ensures m <= a && m <= b && (m == a || m == b)
  {
    if a <= b then a else b
  }
}

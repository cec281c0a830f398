/** Values shared by every part of the model: optional values, the Python
    exception classes the fitting code raises or catches, and the outcome of
    a call that may raise one of them. */
module Common {

  datatype Option<+T> = None | Some(value: T)

  /** The exception classes that matter to the core.  OtherError stands for
      every class the scripts do not name (ZeroDivisionError, KeyError, ...). */
  datatype Exception = ValueError | RuntimeError | FloatingPointError | IndexError | OtherError

  /** The result of a Python call: a returned value or a raised exception. */
  datatype Outcome<+T> = Returned(value: T) | Raised(exc: Exception)

  /** The tuple `(ValueError, RuntimeError, FloatingPointError)` that most
      objectives catch and turn into a penalty. */
  predicate NumericalError(e: Exception)
  {
    e.ValueError? || e.RuntimeError? || e.FloatingPointError?
  }

  function MinNat(a: nat, b: nat): nat
  {
    if a <= b then a else b
  }
}

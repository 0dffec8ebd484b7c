/** Failure-compatible wrappers shared by the modules of this model:
    Python's `None`, a raised exception, and a procedure that either
    finishes or raises. */
module Wrappers {

  /** A value or Python's `None`. */
  datatype Option<+T> = None | Some(value: T)

  /** A returned value or a raised exception. */
  datatype Result<+R, +E> = Success(value: R) | Failure(error: E) {
    /** The exception raised, or `None` for a returned value. */
    function Raised(): Option<E> {
      if Failure? then Some(error) else None
    }
  }

  /** A procedure that returns normally (`Pass`) or raises (`Fail`). */
  datatype Outcome<+E> = Pass | Fail(error: E) {
    /** The exception raised, or `None` for a normal return. */
    function Raised(): Option<E> {
      if Fail? then Some(error) else None
    }
  }
}

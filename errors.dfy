/** The exceptions the testbed raises, and the wrappers that carry them.
    Every Python `raise` (explicit, or a failing dict lookup, division or
    call) that the model reproduces becomes an `Err` of one of these kinds. */
module Errors {

  datatype Error =
    | ToDo            // the testbed's own ToDoException
    | KeyError        // a lookup of a missing dict key
    | IndexError      // an index past the end of a list
    | ValueError      // list.remove of an absent item, max() of nothing, math domain errors, random.sample too large
    | ZeroDivision    // ZeroDivisionError
    | TypeError       // a call with the wrong arguments, comparing None with a float
    | AttributeError  // reading an attribute nobody assigns
    | UnboundLocal    // UnboundLocalError
    | NotFinite       // NumPy's inf/nan from a float64 division by zero (no exception)
    | InvalidTimer    // the profiler's plain Exception for a timer it does not know

  datatype Option<+T> = None | Some(value: T)

  datatype Result<+T> = Ok(value: T) | Err(error: Error)

  /** A call that either completes (returning None in Python) or raises. */
  datatype Outcome = Pass | Fail(error: Error)
}

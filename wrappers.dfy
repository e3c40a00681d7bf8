/** Failure-carrying results for the C++ members that throw. */
module Wrappers {

  /** The two exception classes the program throws: std::out_of_range and std::runtime_error. */
  datatype Exception = OutOfRange | RuntimeError

  /** The value a throwing C++ function returns, or the exception it raises. */
  datatype Result<T> = Ok(value: T) | Throw(error: Exception)

  /** The outcome of a throwing C++ function that returns nothing. */
  datatype Outcome = Done | Fail(error: Exception)

  /** A value that may be absent; `None` also stands for "the C++ function returns no value". */
  datatype Option<T> = None | Some(value: T)
}

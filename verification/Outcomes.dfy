/** What a settled future holds, and the option type used throughout. */
module Outcomes {

  datatype Option<+T> = None | Some(value: T)

  /** The exceptions the library itself raises, and any exception raised by user code. */
  datatype Error = OperationCanceled | BrokenPromise | User(code: int)

  /** The two settled alternatives of the state variant: v_value and v_exception. */
  datatype Outcome<+V> = Value(value: V) | Exception(error: Error)
}

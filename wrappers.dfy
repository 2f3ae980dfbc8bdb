/** Option and Result values, and the Python exceptions the planner can raise. */
module Wrappers {

  datatype Option<+T> = None | Some(value: T)

  /** The exceptions the planning code raises (or lets escape from a builtin). */
  datatype PyError =
    | ValueError(msg: string)
    | IndexError
    | TypeError
    | AssertionError(msg: string)

  /** A value, or the exception that aborted its computation. */
  datatype Result<+T> = Ok(value: T) | Err(error: PyError) {

    predicate IsFailure() {
      Err?
    }

    function PropagateFailure<U>(): Result<U>
      requires Err?
    {
      Err(error)
    }

    function Extract(): T
      requires Ok?
    {
      value
    }
  }

  /** Python truthiness of an optional string: None and "" are false. */
  predicate TruthyStr(s: Option<string>) {
    s.Some? && s.value != []
  }

  /** Python truthiness of an optional integer: None and 0 are false. */
  predicate TruthyInt(n: Option<int>) {
    n.Some? && n.value != 0
  }
}

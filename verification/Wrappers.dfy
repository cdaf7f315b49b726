/** Results of operations that may be absent or refused. */
module Wrappers {

  datatype Option<+T> = None | Some(value: T)

  /** A Python operation that returns a value or raises. */
  datatype Result<+T> = Ok(value: T) | Err(message: string) {
    predicate IsFailure() {
      Err?
    }

    function PropagateFailure<U>(): Result<U>
      requires Err?
    {
      Err(message)
    }

    function Extract(): T
      requires Ok?
    {
      value
    }
  }
}

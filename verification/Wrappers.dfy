module Wrappers {
  datatype Option<+T> = None | Some(value: T)

  /** `io::Result` without the error message. */
  datatype Result<+T> = Ok(value: T) | Err {
    predicate IsFailure() { Err? }
    function PropagateFailure<U>(): Result<U>
      requires Err?
    {
      Err
    }
    function Extract(): T
      requires Ok?
    {
      value
    }
  }
}

module Wrappers {
  datatype Option<+T> = None | Some(value: T)

  /** The outcome of a hook: it returns, or it panics and the run stops. */
  datatype Result<+T> = Ok(value: T) | Panic {
    predicate IsFailure() { Panic? }
    function PropagateFailure<U>(): Result<U>
      requires Panic?
    { Panic }
    function Extract(): T
      requires Ok?
    { value }
  }
}

/** Failure-compatible wrappers used throughout the model.
    - Option<T>: Rust's `Option`.
    - Result<T>: Rust's `anyhow::Result`, the error being its message.
    - Outcome<T>: what a call can end in when the code may also panic
      (`expect`, `unwrap`): either it returns a Result or it panics. */
module Wrappers {

  datatype Option<+T> = None | Some(value: T) {
    /** Rust's `unwrap_or`. */
    function UnwrapOr(default: T): T {
      match this
      case Some(v) => v
      case None => default
    }
  }

  datatype Result<+T> = Ok(value: T) | Err(msg: string) {
    /** Rust's `unwrap_or`. */
    function UnwrapOr(default: T): T {
      match this
      case Ok(v) => v
      case Err(_) => default
    }

    predicate IsFailure() {
      Err?
    }

    function PropagateFailure<U>(): Result<U>
      requires Err?
    {
      Err(msg)
    }

    function Extract(): T
      requires Ok?
    {
      value
    }
  }

  /** The end of a computation that may panic instead of returning. */
  datatype Outcome<+T> = Returned(result: Result<T>) | Panicked(message: string)
}

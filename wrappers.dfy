/** Option and Result, the two shapes every builder and codec of the model returns. */
module Wrappers {

  /** Swift's `T?`: an absent or a present value. */
  datatype Option<+T> = None | Some(value: T) {
    /** Swift's `??` operator. */
    function GetOr(default: T): T {
      if Some? then value else default
    }
  }

  /** A decode that either produces a value or throws an error; usable with `:-`. */
  datatype Result<+T, +E> = Ok(value: T) | Err(error: E) {
    predicate IsFailure() {
      Err?
    }

    function PropagateFailure<U>(): Result<U, E>
      requires Err?
    {
      Err(error)
    }

    function Extract(): T
      requires Ok?
    {
      value
    }
  }
}

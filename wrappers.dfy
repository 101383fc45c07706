/** Failure-compatible wrappers shared by the model: the Swift `throws` and
    optionals, and Rust's `Result` and `Option`, are modelled with them. */
module Wrappers {

  datatype Option<+T> = None | Some(value: T)

  /** The outcome of an operation that produces a value or fails with an error. */
  datatype Result<+T, +E> = Success(value: T) | Failure(error: E) {
    predicate IsFailure() { Failure? }

    function PropagateFailure<U>(): Result<U, E>
      requires Failure?
    {
      Failure(error)
    }

    function Extract(): T
      requires Success?
    {
      value
    }
  }

  /** The outcome of an operation that produces no value (`Result<(), E>`, a
      Swift function that returns nothing but may throw). */
  datatype Outcome<+E> = Pass | Fail(error: E)
}

/** Fixed-width integers of the source, as subranges of `int`. */
module MachineInts {

  /** Rust `u16`, Swift `UInt16`. */
  newtype u16 = x: int | 0 <= x < 0x1_0000

  /** Rust `u8`, one byte of a `Vec<u8>` or Swift `Data`. */
  newtype byte = x: int | 0 <= x < 0x100
}

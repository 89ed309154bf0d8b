/** Stand-ins for the Rust standard types the decoder is written against. */
module Prelude {

  /** An unsigned 8-bit integer, Rust's `u8`. */
  type byte = bv8

  /** Rust's `Option<T>`. */
  datatype Option<+T> = None | Some(value: T)

  /** Rust's `Result<T, E>`; the `IsFailure`/`PropagateFailure`/`Extract`
      members let `:-` play the part of Rust's `?` operator. */
  datatype Result<+T, +E> = Ok(value: T) | Err(error: E) {

    predicate IsFailure() {
      Err?
    }

    function PropagateFailure<U>(): Result<U, E>
      requires Err?
    {
      Err(error)
    }

    function Extract(): T
      requires Ok?
    {
      value
    }
  }
}

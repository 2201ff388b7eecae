/** Option and Result, the two failure-compatible wrappers the bridge uses
    for partial decoders and for `EvmResult`-style outcomes. */
module Wrappers {

  datatype Option<+T> = None | Some(value: T)

  /** `Ok(v)` or `Err(e)`; usable with `:-` like Rust's `?`. */
  datatype Result<+T, +E> = Ok(value: T) | Err(error: E) {

    predicate IsFailure() {
      Err?
    }

    function PropagateFailure<U>(): Result<U, E>
      requires Err?
    {
      Err(error)
    }

    function Extract(): T
      requires Ok?
    {
      value
    }
  }
}

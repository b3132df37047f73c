/** Small shared vocabulary: Python's `Optional[...]` and raw byte strings. */
module Base {

  /** `Optional[T]`: `None` or a present value. */
  datatype Option<+T> = None | Some(value: T)

  /** The value of a call, or the exception it raised. */
  datatype Result<+T, +E> = Ok(value: T) | Err(error: E)

  /** Python `bytes`, as a sequence of octets. */
  type Bytes = seq<bv8>
}

/** Options, results and byte strings shared by all the modules. */
module Wrappers {
  datatype Option<+T> = None | Some(value: T)

  datatype Result<+T, +E> = Ok(value: T) | Err(error: E)

  /** Byte strings are only ever compared, sliced and concatenated. */
  type Bytes = seq<nat>
}

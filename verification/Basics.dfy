/** Shared vocabulary: optional values, results, identifiers and instants. */
module Basics {
  datatype Option<+T> = None | Some(value: T)

  datatype Result<+T, +E> = Ok(value: T) | Err(error: E)

  /** Surrogate keys. A fresh `uuid4` of an append-only table is the index of the new row. */
  type Uuid = nat

  /** An instant in seconds (or milliseconds where a module says so). */
  type Time = int
}

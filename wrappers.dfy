/** Absent values and failures.

    `Option` stands for a JavaScript value that may be `null` or `undefined`;
    `Result` for a computation that either yields a value or throws. */
module Wrappers {

  datatype Option<+T> = None | Some(value: T)

  datatype Result<+T, +E> = Ok(value: T) | Err(error: E)
}

/** Option and Result, used for values that may be absent and for
    operations that either produce a value or are refused. */
module Wrappers {

  datatype Option<+T> = None | Some(value: T)

  datatype Result<+T, +E> = Ok(value: T) | Err(error: E)
}

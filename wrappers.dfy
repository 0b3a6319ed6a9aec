/** Option and Result, used for the values the script treats as "maybe absent"
    and for the errors that end up in its `catch` blocks. */
module Wrappers {

  datatype Option<+T> = None | Some(value: T)

  datatype Result<+T, +E> = Ok(value: T) | Err(error: E)
}

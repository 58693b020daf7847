/** The two outcome shapes the model uses: `Option` for a JavaScript value
    that may be `undefined`, and `Result` for a handler that either succeeds
    or answers with an error. */
module Wrappers {

  datatype Option<+T> = None | Some(value: T)

  datatype Result<+T, +E> = Ok(value: T) | Err(error: E)
}

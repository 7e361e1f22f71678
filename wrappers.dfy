/** Option and Result values used across the model. A Python exception that the
    model keeps track of becomes an `Err` carrying the exception's message. */
module Wrappers {

  datatype Option<+T> = None | Some(value: T)

  datatype Result<+T> = Ok(value: T) | Err(error: string)
}

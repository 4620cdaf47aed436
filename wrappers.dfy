/** Option and Result, used for the optional fields of stored records and for
    the errors the services throw. */
module Wrappers {

  datatype Option<+T> = None | Some(value: T)

  datatype Result<+T, +E> = Ok(value: T) | Err(error: E)

}

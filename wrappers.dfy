/** Optional values and results with an error, used for empty spreadsheet cells and for
    the errors a sheet's processing can raise. */
module Wrappers {

  datatype Option<+T> = None | Some(value: T)

  datatype Result<+R, +E> = Ok(value: R) | Err(error: E)
}

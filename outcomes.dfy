/** Optional values and results: Python's `None` returns and raised exceptions made explicit. */
module Outcomes {

  datatype Option<+T> = None | Some(value: T)

  datatype Result<+T, +E> = Ok(value: T) | Err(error: E)
}

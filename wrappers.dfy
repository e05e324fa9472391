/** Optional values and success-or-error results, used for nullable columns
    and for the HTTP errors the route handlers raise. */
module Wrappers {

  /** A nullable value: `None` stands for SQL NULL / Python `None`. */
  datatype Option<+T> = None | Some(value: T)

  /** The outcome of a route handler: a response body or the error it raises. */
  datatype Result<+T, +E> = Ok(value: T) | Err(error: E)
}

/**
 * Failure-carrying values shared by all modules: an optional value (a
 * JavaScript `null`/`undefined` or a missing storage key) and the outcome of an
 * operation that can throw.
 */
module Results {

  datatype Option<+T> = None | Some(value: T)

  datatype Result<+T, +E> = Ok(value: T) | Err(error: E)
}

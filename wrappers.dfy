/** Optional values and failure outcomes used across the model. */
module Wrappers {

  datatype Option<+T> = None | Some(value: T)

  /** The exceptions the modelled members can raise. */
  datatype Failure =
    | FileNotFound          // the corpus file does not exist
    | ArgumentOutOfRange    // an index outside the query list
    | DuplicateKey          // Dictionary.Add of a key that is already present

  /** The result of an operation that either completes or raises a Failure. */
  datatype Outcome = Pass | Fail(error: Failure)

  datatype Result<+T> = Success(value: T) | Error(error: Failure)
}

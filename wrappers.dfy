/** Failure-carrying values shared by the watcher and the service registry. */
module Wrappers {

  /** An optional value: JavaScript's `undefined` or a missing field is `None`. */
  datatype Option<+T> = None | Some(value: T)

  /** The outcome of a setup step that either produces a value or throws. */
  datatype Result<+R> = Success(value: R) | Failure(error: string)

  /** The outcome of an operation that produces nothing or throws (a rejected promise). */
  datatype Outcome = Pass | Fail(error: string)
}

/** Optional values and the typed failures that the application's routes
    report back to their callers (a JSON `success: false` with an error). */
module Wrappers {

  datatype Option<+T> = None | Some(value: T)

  /** The kinds of failure a route reports.  The store is left unchanged
      whenever one is returned (the session is rolled back). */
  datatype Error =
    | NotFound                        // a `get_or_404` lookup found nothing
    | Invalid(reason: string)         // a missing or unusable request field
    | Conflict(reason: string)        // a guard or a unique constraint refused
    | PermissionDenied(reason: string)

  /** The outcome of a route that returns no value. */
  datatype Outcome = Ok | Fail(error: Error)

  /** The outcome of a route that returns a value. */
  datatype Result<+T> = Success(value: T) | Failure(error: Error)
}

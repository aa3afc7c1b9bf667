/** Optional values and failure-carrying results, in the shape of the source's
    "value or None" and "value or raised exception". */
module Wrappers {

  datatype Option<+T> = None | Some(value: T)

  /** What a Python call that may raise yields: a value, or the exception it raised. */
  datatype Outcome<+T> = Done(value: T) | Raised(error: Failure)

  /** The exceptions the modelled code raises (or lets escape). */
  datatype Failure =
    | ImproperlyConfigured   // anonymous-only caching without the authentication middleware
    | MissingUser            // AttributeError: request.user read without the authentication middleware
    | DateCompareError       // TypeError: a datetime compared with None under Python 2
    | NameError              // a global name used but never imported
}

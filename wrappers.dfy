/** Optional values and the outcome of a call that may raise a Python exception. */
module Wrappers {

  datatype Option<+T> = None | Some(value: T)

  /** `Raised(kind)` stands for an exception that the adapter does not catch: the
      HTTP front door turns it into a 500 response. `kind` names the Python
      exception class (`KeyError`, `ValueError`, ...) or the page step that failed. */
  datatype Outcome<+T> = Done(value: T) | Raised(error: string)
}

/** Shapes shared by the whole model: optional values, the outcome of an awaited
    backend call, and the `{ success, … , error }` objects the services return. */
module Outcomes {

  /** A value that may be absent (`undefined` / `null` in the source). */
  datatype Option<+T> = None | Some(value: T) {
    /** `x ?? d` */
    function GetOr(d: T): T {
      match this
      case Some(v) => v
      case None => d
    }
  }

  /** How an awaited call into the hosted backend ended: it returned a value, or it
      threw an error whose `code` is given (any string; an error without a code is
      modelled by a code that no table knows). */
  datatype Attempt<+T> = Returned(value: T) | Threw(code: string)

  /** `{ success: true, value }` or `{ success: false, error }`: how every service
      operation reports its result instead of throwing. */
  datatype Reply<+T> = Success(value: T) | Failure(error: string)
}

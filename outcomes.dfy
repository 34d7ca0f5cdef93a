/** Failure-carrying values shared by every module of the dashboard model. */
module Outcomes {

  datatype Option<+T> = None | Some(value: T)

  /** The Python exceptions that the modelled functions can raise. */
  datatype Exception =
    | TypeError                          // a call missing an argument, or arithmetic on None
    | ValueError                         // int() of a non-numeric field, or cancelling an event no longer queued
    | KeyError(key: string)              // a dictionary lookup of a missing key
    | UnboundLocalError(variable: string) // a local read before any assignment

  /** What a call does: returns a value, or raises an exception. */
  datatype Result<+T> = Ok(value: T) | Raised(error: Exception)
}

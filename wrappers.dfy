/** Absent values and thrown exceptions of the modelled code. */
module Wrappers {

  /** A value that may be missing: an optional argument or property left `undefined`. */
  datatype Option<+T> = None | Some(value: T) {
    function GetOr(dflt: T): T {
      if Some? then value else dflt
    }
  }

  /** The outcome of a call that may throw; `Failure` carries the thrown message. */
  datatype Result<+R> = Success(value: R) | Failure(error: string)
}

/** Optional values and the outcomes of remote calls. */
module Wrappers {

  /** A value that may be absent (`undefined` or `null` in the front end). */
  datatype Option<T> = None | Some(value: T) {
    function GetOr(default: T): T {
      if Some? then value else default
    }
  }

  /** The outcome of a remote call that returns no data: `Fail` carries the
      error's message, which is "" when the error had none. */
  datatype Outcome = Ok | Fail(message: string)

  /** The outcome of a remote call that returns data. */
  datatype Result<T> = Success(value: T) | Failure(message: string)

  /** `err.message || fallback`: the error's own message unless it is empty. */
  function MessageOr(message: string, fallback: string): (r: string)
    ensures message != "" ==> r == message
    ensures message == "" ==> r == fallback
  {
    if message != "" then message else fallback
  }
}

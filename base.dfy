/** Values shared by every page: optional values and the outcome of an HTTP call.
    Every axios call of the front end is modelled as an abstract input: either the
    body of a 2xx response, or the failure axios throws. */
module Base {

  datatype Option<T> = None | Some(value: T) {
    function GetOr(default: T): T {
      match this
      case Some(v) => v
      case None => default
    }
  }

  /** What axios throws: a non-2xx response (its status and the `message` field of its
      body, "" when absent), or a request that got no response at all. */
  datatype Failure = HttpStatus(status: int, message: string) | Network

  /** The result of one HTTP call. */
  datatype Response<T> = Ok(body: T) | Fail(failure: Failure)

  /** What a function of the context hands back to its caller: a value, or an
      exception it throws with that message. */
  datatype Outcome<T> = Returned(value: T) | Threw(message: string)

  /** `err.response?.data?.message || fallback`: the server's message when a response
      with a non-empty message came back, otherwise the fallback. */
  function ServerMessageOr(f: Failure, fallback: string): (m: string)
    ensures f.Network? ==> m == fallback
    ensures f.HttpStatus? && f.message != "" ==> m == f.message
    ensures m == fallback || (f.HttpStatus? && m == f.message && m != "")
  {
    if f.HttpStatus? && f.message != "" then f.message else fallback
  }

  /** 401 and 403 are the statuses every page treats as "not signed in". */
  predicate IsAuthFailure(f: Failure) {
    f.HttpStatus? && (f.status == 401 || f.status == 403)
  }

  /** A toast notification the page pops up. */
  datatype Toast = SuccessToast(text: string) | ErrorToast(text: string)

  /** `value || ''` for an optional text field. */
  function OrEmpty(v: Option<string>): (s: string)
    ensures v.Some? ==> s == v.value
    ensures v.None? ==> s == ""
  {
    v.GetOr("")
  }
}

/**
 * What a `fetch` call can come back with, seen from the handler that awaits
 * it. The network is not modelled: every handler takes the outcome of its
 * request as a parameter.
 */
module Http {
  import opened Wrappers

  /** The result of `await response.json()`: a body the handler can use, or
      one it cannot, in which case the handler's `catch` block receives
      `reason`. A body it cannot use is text that is not JSON, or, on the
      main page's paths, which read fields of it, `null`. The session store
      reads no field of a 2xx body, so there `Parsed` stands for the user
      record the back end sends, never for `null`. */
  datatype Body<+T> = Parsed(value: T) | Malformed(reason: string)

  /** The outcome of one request:
      - `Ok`: a 2xx response, carrying its JSON body;
      - `NotOk`: any other status, carrying the `message` field of its JSON
        error body (`None` when the body has no such field);
      - `NetworkFailure`: `fetch` itself rejected (DNS, connection refused,
        CORS) with an error whose message is `reason`. */
  datatype Response<+T> =
    | Ok(body: Body<T>)
    | NotOk(status: nat, error: Body<Option<string>>)
    | NetworkFailure(reason: string)
  {
    /** The handler reaches its success branch: a 2xx response whose body parsed. */
    predicate Succeeded()
    {
      Ok? && body.Parsed?
    }
  }

  /** What a state cell holds after a load that replaces it on success and
      leaves it alone on any failure. */
  function Refreshed<T>(current: T, r: Response<T>): T
  {
    if r.Succeeded() then r.body.value else current
  }

  /** JavaScript's `message || fallback` for a string-valued `message`: an
      absent or empty message is falsy and gives way to the fallback. */
  function OrElse(message: Option<string>, fallback: string): (r: string)
    ensures r == message.GetOr(fallback) || r == fallback
    ensures r == fallback <==> message.None? || message.value == "" || message.value == fallback
  {
    if message.Some? && message.value != "" then message.value else fallback
  }

  /** The `message` of the error a handler's `catch` block receives when the
      response is not a success and the handler throws
      `new Error(errorData.message || fallback)` for a non-2xx status. */
  function CaughtMessage<T>(r: Response<T>, fallback: string): (m: string)
    requires !r.Succeeded()
    ensures r.Ok? ==> m == r.body.reason
    ensures r.NotOk? && r.error.Parsed? ==> m == OrElse(r.error.value, fallback)
    ensures r.NotOk? && r.error.Malformed? ==> m == r.error.reason
    ensures r.NetworkFailure? ==> m == r.reason
  {
    match r
    case Ok(body) => body.reason
    case NotOk(_, Parsed(message)) => OrElse(message, fallback)
    case NotOk(_, Malformed(reason)) => reason
    case NetworkFailure(reason) => reason
  }
}

/**
 * The network, as seen by the provisioning code: every `HttpURLConnection`
 * GET becomes one question to an oracle, which answers with a status and a
 * body, a socket timeout, or some other I/O failure.
 */
module Http {
  /** `HttpURLConnection.HTTP_OK`. */
  const HttpOk: int := 200

  /**
   * One GET. `seqNo` counts the requests the activity sent before this one,
   * so the same URL may be answered differently on a later try.
   */
  datatype Request = Request(seqNo: nat, url: string, timeoutMs: int)

  datatype Outcome =
    | Answered(code: int, body: string)  // a status line and the body text
    | TimedOut                           // java.net.SocketTimeoutException
    | Failed                             // any other exception

  type Network = Request -> Outcome

  /**
   * The two kinds of exception the orchestrator tells apart, and the one
   * `Uri.getQueryParameter` throws on a link that is not hierarchical.
   */
  datatype Exception = SocketTimeoutException | OtherException | UnsupportedOperationException

  /** A Kotlin call that either returns a value or throws. */
  datatype Result<+T> = Return(value: T) | Throw(exception: Exception)

  /** The exception a failed request throws. */
  function Raised(o: Outcome): (e: Exception)
    requires !o.Answered?
    ensures e == SocketTimeoutException <==> o == TimedOut
  {
    if o.TimedOut? then SocketTimeoutException else OtherException
  }
}

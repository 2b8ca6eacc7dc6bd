/** The cluster API seen from the tools: every remote call either succeeds, fails
    with an API exception carrying an HTTP status, or fails in the client with
    some other exception. Which of these happens is an input to the model. */
module Remote {
  import opened Python

  /** The outcome of one remote call. */
  datatype Response =
    | Done                    // the call returned normally
    | ApiError(status: int)   // the client raised `ApiException` with this status
    | ClientError             // the client raised an exception other than `ApiException`

  /** What a tool hands back to its caller. */
  datatype Reply =
    | Refused(message: string)   // a validation message, returned before any remote call
    | Accepted                   // the remote call succeeded (the rendering of its response is not modelled)
    | Failed(status: int)        // "Error ...: {e}" for an `ApiException` caught by the tool
    | Raised(error: Exception)   // an exception the tool does not catch escapes to the caller

  /** The tool's reply once its single remote call has returned `r`: only
      `ApiException` is caught, anything else escapes. */
  function ReplyTo(r: Response): (reply: Reply)
    ensures reply.Accepted? <==> r.Done?
    ensures reply.Failed? <==> r.ApiError?
    ensures r.ApiError? ==> reply.status == r.status
    ensures r.ClientError? <==> reply == Raised(ConnectionError)
  {
    match r
    case Done => Accepted
    case ApiError(s) => Failed(s)
    case ClientError => Raised(ConnectionError)
  }
}

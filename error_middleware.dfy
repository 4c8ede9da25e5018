/** `ErrorMiddleware`: the reply for an error no handler caught, and for an unknown path. */
module ErrorMiddleware {
  import opened Wrappers
  import opened AppErrors
  import opened ApiResponses
  import CoffeePriceController

  const InternalMessage := "Internal server error"
  const NotFoundMessage := "Endpoint not found"
  const NotFoundCode := "NOT_FOUND"

  /** `handle(error, req, res, next)`: `error` is typed as an `Error`; `timestamp` is the clock. */
  function Handle(error: Thrown, timestamp: string): (r: Reply<()>)
    requires error.IsError()
    ensures !r.body.success && r.body.data.None? && Signed(r.body) && r.body.timestamp == timestamp
    ensures error.App? ==>
              && r.status == error.error.StatusCode()
              && r.body.message == error.error.message
              && r.body.error == Some(ErrorInfo(error.error.Code(), error.error.detail, None, None))
    ensures !error.App? ==>
              && r.status == 500
              && r.body.message == InternalMessage
              && r.body.error == Some(ErrorInfo(InternalErrorCode, Some(error.Text()), None, None))
  {
    var (status, code, detail) := Classify(error, Some(error.Text()));
    var message := if error.App? then error.error.message else InternalMessage;
    Failed(status, message, ErrorInfo(code, detail, None, None), timestamp)
  }

  /** `notFound(req, res)` for a request to `path`. */
  function NotFound(path: string, timestamp: string): (r: Reply<()>)
    ensures r.status == 404 && !r.body.success && r.body.data.None? && Signed(r.body)
    ensures r.body.message == NotFoundMessage
    ensures r.body.error == Some(ErrorInfo(NotFoundCode, Some("Path " + path + " not found"), None, None))
  {
    Failed(404, NotFoundMessage, ErrorInfo(NotFoundCode, Some("Path " + path + " not found"), None, None), timestamp)
  }

  /**
   * An error of one of the three subclasses is answered with a client or
   * server error status: 400, 500 or 503.
   */
  lemma HandledStatusesAreErrors(error: Thrown, timestamp: string)
    requires error.IsError()
    requires error.App? ==> !error.error.kind.Base?
    ensures Handle(error, timestamp).status in {400, 500, 503}
  {
  }

  /**
   * For an application error the middleware and the coffee-price handler
   * answer alike: same status, message, code and detail.
   */
  lemma HandleAgreesWithCoffeePriceController(e: AppError, timestamp: string)
    ensures var r := Handle(App(e), timestamp);
            var c := CoffeePriceController.GetCoffeePriceToday(Failure(App(e)), timestamp);
            r.status == c.status && r.body.message == c.body.message && r.body.error == c.body.error
  {
  }
}

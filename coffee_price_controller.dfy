/** `CoffeePriceController.getCoffeePriceToday`: the use case's result as an HTTP reply. */
module CoffeePriceController {
  import opened Wrappers
  import opened AppErrors
  import opened CoffeePriceEntity
  import opened ApiResponses
  import GetCoffeePrice

  const SuccessMessage := "Precio obtenido exitosamente"
  const NonErrorMessage := "No fue posible obtener el precio del café"
  const InternalDetail := "Internal server error"

  /**
   * The reply to `GET /api/coffee-price` when `execute()` yields `outcome`;
   * `timestamp` is the clock as `toISOString()`.
   */
  function GetCoffeePriceToday(outcome: Result<CoffeePriceIndicator, Thrown>, timestamp: string): (r: Reply<CoffeePriceIndicator>)
    ensures Signed(r.body) && r.body.timestamp == timestamp
    ensures r.body.success <==> outcome.Success?
    ensures outcome.Success? ==>
              r.status == 200 && r.body.message == SuccessMessage && r.body.data == Some(outcome.value) && r.body.error.None?
    ensures outcome.Failure? ==> r.body.data.None?
    ensures outcome.Failure? && outcome.error.App? ==>
              && r.status == outcome.error.error.StatusCode()
              && r.body.error == Some(ErrorInfo(outcome.error.error.Code(), outcome.error.error.detail, None, None))
    ensures outcome.Failure? && !outcome.error.App? ==>
              r.status == 500 && r.body.error == Some(ErrorInfo(InternalErrorCode, Some(InternalDetail), None, None))
    ensures outcome.Failure? && outcome.error.IsError() ==> r.body.message == outcome.error.Text()
    ensures outcome.Failure? && !outcome.error.IsError() ==> r.body.message == NonErrorMessage
  {
    match outcome
    case Success(v) => Succeeded(SuccessMessage, v, timestamp)
    case Failure(e) =>
      var (status, code, detail) := Classify(e, Some(InternalDetail));
      var message := if e.IsError() then e.Text() else NonErrorMessage;
      Failed(status, message, ErrorInfo(code, detail, None, None), timestamp)
  }

  /**
   * End to end: a served indicator is a 200 carrying it; a failed scrape
   * reaches the client as a 500 `SCRAPE_FAILED` with the use case's message
   * and the original error's text as detail.
   */
  lemma CoffeePriceRequestEndToEnd(m: GetCoffeePrice.Entries, now: int, ttl: int,
                                   fetched: Result<CoffeePriceIndicator, Thrown>, timestamp: string)
    ensures var o := GetCoffeePrice.ExecuteOn(m, now, ttl, fetched);
            var r := GetCoffeePriceToday(Raised(o.result), timestamp);
            && (o.result.Success? ==> r.status == 200 && r.body.data == Some(o.result.value))
            && (o.result.Failure? ==>
                  && r.status == 500
                  && r.body.message == GetCoffeePrice.FailureMessage
                  && r.body.error == Some(ErrorInfo("SCRAPE_FAILED", Some(fetched.error.Text()), None, None)))
  {
    var o := GetCoffeePrice.ExecuteOn(m, now, ttl, fetched);
    if o.result.Failure? {
      assert o.repositoryCalled && fetched.Failure?;
    }
  }
}

/**
 * `LiveStatisticsController.getLiveStatistics`: the query's range and `force`
 * flag are checked, the live-statistics use case is run, and its history (with
 * request metadata) or its error (with suggestions) becomes the reply.
 */
module LiveStatisticsController {
  import opened Wrappers
  import opened JsRuntime
  import opened AppErrors
  import opened IceFuturesEntity
  import opened ApiResponses
  import LiveStatistics

  const DefaultRange := "1Y"
  const InternalDetail := "Error interno del servidor"
  const InvalidRangeParameter := "Parámetro 'range' inválido"
  const RangeValues := "Los valores válidos son: 1M, 3M, 6M, 1Y"
  const InvalidForceParameter := "Parámetro 'force' inválido"
  const ForceValues := "Los valores válidos son: true, false"
  const BooleanWords: seq<string> := ["true", "false"]

  /** `(req.query.range as "1Y") || "1Y"`: an absent or empty parameter means "1Y". */
  function TimeRangeOf(range: Option<string>): (t: string)
    ensures range.None? || range.value == [] ==> t == DefaultRange
    ensures range.Some? && range.value != [] ==> t == range.value
  {
    if range.Some? && range.value != [] then range.value else DefaultRange
  }

  /** Whether a query parameter is present and non-empty, i.e. truthy. */
  predicate Given(p: Option<string>) {
    p.Some? && p.value != []
  }

  /** `validateQueryParameters(req.query)`: the ValidationError it throws, if any; `range` is checked first. */
  function ValidateQueryParameters(range: Option<string>, force: Option<string>): (r: Option<AppError>)
    ensures r.None? <==> (!Given(range) || range.value in LiveStatistics.ValidRanges)
                         && (!Given(force) || ToLower(force.value) in BooleanWords)
    ensures r.Some? ==> r.value.kind.Validation? && r.value.StatusCode() == 400
    ensures Given(range) && range.value !in LiveStatistics.ValidRanges ==>
              r == Some(NewValidationError(InvalidRangeParameter, Some(RangeValues)))
    ensures (!Given(range) || range.value in LiveStatistics.ValidRanges) && Given(force) && ToLower(force.value) !in BooleanWords ==>
              r == Some(NewValidationError(InvalidForceParameter, Some(ForceValues)))
  {
    if Given(range) && range.value !in LiveStatistics.ValidRanges then
      Some(NewValidationError(InvalidRangeParameter, Some(RangeValues)))
    else if Given(force) && ToLower(force.value) !in BooleanWords then
      Some(NewValidationError(InvalidForceParameter, Some(ForceValues)))
    else None
  }

  /** A query that passes the controller's check names a range the use case accepts. */
  lemma ValidQueryNamesValidRange(range: Option<string>, force: Option<string>)
    requires ValidateQueryParameters(range, force).None?
    ensures LiveStatistics.ValidateTimeRange(TimeRangeOf(range)).Success?
  {
  }

  // ---------------------------------------------------------------------------
  // Freshness
  // ---------------------------------------------------------------------------

  const MinuteMs := 60000
  const FreshnessLabels: seq<string> := ["Muy reciente", "Reciente", "Moderadamente reciente", "Algo desactualizado", "Desactualizado"]

  /** The band of an age in whole minutes: under 5, 15, 60, 240, or older. */
  function FreshnessBand(minutes: int): (b: nat)
    ensures b < |FreshnessLabels|
  {
    if minutes < 5 then 0
    else if minutes < 15 then 1
    else if minutes < 60 then 2
    else if minutes < 240 then 3
    else 4
  }

  /**
   * `calculateDataFreshness(lastUpdate)` with the clock at `now` (ms);
   * `parseInstant` is `new Date(s).getTime()`, None where that is NaN, which
   * fails every comparison and so lands in the last band.
   */
  function CalculateDataFreshness(lastUpdate: string, now: int, parseInstant: string -> Option<int>): (f: string)
    ensures f in FreshnessLabels
    ensures f == FreshnessLabels[0] <==> parseInstant(lastUpdate).Some? && now - parseInstant(lastUpdate).value < 5 * MinuteMs
    ensures f == FreshnessLabels[4] <==> parseInstant(lastUpdate).None? || now - parseInstant(lastUpdate).value >= 240 * MinuteMs
  {
    match parseInstant(lastUpdate)
    case None => FreshnessLabels[4]
    case Some(t) => FreshnessLabels[FreshnessBand((now - t) / MinuteMs)]
  }

  /** Older data is never reported as fresher. */
  lemma OlderIsNeverFresher(elapsed: int, moreElapsed: int)
    requires elapsed <= moreElapsed
    ensures FreshnessBand(elapsed / MinuteMs) <= FreshnessBand(moreElapsed / MinuteMs)
  {
  }

  // ---------------------------------------------------------------------------
  // Suggestions
  // ---------------------------------------------------------------------------

  const CheckParameters := "Verifique que los parámetros de la solicitud sean correctos"
  const ReadDocumentation := "Consulte la documentación de la API para parámetros válidos"
  const TryLater := "Intente nuevamente en unos minutos"
  const CheckConnection := "Verifique su conexión a internet"
  const YearHint := "Los datos anuales pueden tardar más en cargarse, considere usar un rango menor"
  const SixMonthHint := "Para datos de 6 meses, asegúrese de tener una conexión estable"
  const ContactAdministrator := "Contacte al administrador si el problema persiste"

  function OtherRange(timeRange: string): string {
    "Pruebe con un rango de tiempo diferente (actual: " + timeRange + ")"
  }

  function RangeHint(timeRange: string): (h: seq<string>)
    ensures |h| <= 1
    ensures |h| == 1 <==> timeRange == "1Y" || timeRange == "6M"
  {
    match timeRange
    case "1Y" => [YearHint]
    case "6M" => [SixMonthHint]
    case _ => []
  }

  predicate IsValidationError(e: Thrown) {
    e.App? && e.error.kind.Validation?
  }

  /** The suggestions for a failed request: what `getErrorSuggestions` pushes, in order. */
  function ErrorSuggestions(error: Thrown, timeRange: string): (s: seq<string>)
    ensures |s| == (if IsValidationError(error) then 2 else 3) + |RangeHint(timeRange)| + 1
    ensures IsValidationError(error) ==> s[..2] == [CheckParameters, ReadDocumentation]
    ensures !IsValidationError(error) ==> s[..3] == [TryLater, OtherRange(timeRange), CheckConnection]
    ensures s[|s| - 1] == ContactAdministrator
    ensures timeRange == "1Y" ==> s[|s| - 2] == YearHint
    ensures timeRange == "6M" ==> s[|s| - 2] == SixMonthHint
  {
    var head := if IsValidationError(error) then [CheckParameters, ReadDocumentation]
                else [TryLater, OtherRange(timeRange), CheckConnection];
    head + RangeHint(timeRange) + [ContactAdministrator]
  }

  /** `getErrorSuggestions(error, timeRange)`: the list is built by successive pushes. */
  method GetErrorSuggestions(error: Thrown, timeRange: string) returns (suggestions: seq<string>)
    ensures suggestions == ErrorSuggestions(error, timeRange)
  {
    suggestions := [];
    if IsValidationError(error) {
      suggestions := suggestions + [CheckParameters];
      suggestions := suggestions + [ReadDocumentation];
    } else {
      suggestions := suggestions + [TryLater];
      suggestions := suggestions + [OtherRange(timeRange)];
      suggestions := suggestions + [CheckConnection];
    }
    if timeRange == "1Y" {
      suggestions := suggestions + [YearHint];
    } else if timeRange == "6M" {
      suggestions := suggestions + [SixMonthHint];
    }
    suggestions := suggestions + [ContactAdministrator];
  }

  // ---------------------------------------------------------------------------
  // The reply
  // ---------------------------------------------------------------------------

  datatype Endpoints = Endpoints(refresh: string, historical: string, realTime: string)

  datatype Metadata = Metadata(
    requestId: string,
    processingTime: string,
    dataFreshness: string,
    nextUpdate: string,
    apiVersion: string,
    endpoints: Endpoints)

  /** The success `data`: the history's fields with the request's metadata beside them. */
  datatype LiveData = LiveData(history: IceFuturesHistory, metadata: Metadata)

  /**
   * What the request reads from its host: the request id, the elapsed time,
   * the clock (ms) and its ISO rendering, and date parsing.
   */
  datatype RequestContext = RequestContext(
    requestId: string,
    durationMs: nat,
    now: int,
    iso: int -> string,
    parseInstant: string -> Option<int>)

  function SuccessMessage(timeRange: string): string {
    "Estadísticas en vivo obtenidas exitosamente para período " + timeRange
  }

  const EndpointPrefix := "/estadisticas-en-vivo?range="

  /** The endpoint that refetches a range, bypassing the cache. */
  function RefreshEndpoint(timeRange: string): string {
    EndpointPrefix + timeRange + "&force=true"
  }

  /**
   * What the handler's `catch` receives, or the history on success: the
   * query's ValidationError, or else what `execute(timeRange)` yields.
   */
  function RequestOutcome(range: Option<string>, force: Option<string>,
                          executed: Result<IceFuturesHistory, Thrown>): (o: Result<IceFuturesHistory, Thrown>)
    ensures ValidateQueryParameters(range, force).Some? ==> o == Failure(App(ValidateQueryParameters(range, force).value))
    ensures ValidateQueryParameters(range, force).None? ==> o == executed
  {
    match ValidateQueryParameters(range, force)
    case Some(err) => Failure(App(err))
    case None => executed
  }

  /**
   * The reply to `GET /estadisticas-en-vivo` with the query's `range` and
   * `force`; `executed` is what `execute(timeRange)` yields, and it is used
   * only when the query passes the check.
   */
  function GetLiveStatistics(range: Option<string>, force: Option<string>,
                             executed: Result<IceFuturesHistory, Thrown>, ctx: RequestContext): (r: Reply<LiveData>)
    ensures Signed(r.body) && r.body.timestamp == ctx.iso(ctx.now)
    ensures r.body.success <==> ValidateQueryParameters(range, force).None? && executed.Success?
    ensures r.body.success ==>
              && r.status == 200
              && r.body.message == SuccessMessage(TimeRangeOf(range))
              && r.body.data.Some? && r.body.data.value.history == executed.value
              && r.body.data.value.metadata.dataFreshness
                   == CalculateDataFreshness(executed.value.lastUpdate, ctx.now, ctx.parseInstant)
              && r.body.data.value.metadata.nextUpdate == ctx.iso(ctx.now + 10 * MinuteMs)
              && r.body.data.value.metadata.endpoints.refresh == RefreshEndpoint(TimeRangeOf(range))
    ensures ValidateQueryParameters(range, force).Some? ==>
              && r.status == 400
              && r.body.message == ValidateQueryParameters(range, force).value.message
    ensures !r.body.success ==>
              && r.body.data.None? && r.body.error.Some?
              && r.body.error.value.requestId == Some(ctx.requestId)
              && r.body.error.value.suggestions.Some?
              && |r.body.error.value.suggestions.value| >= 3
              && r.body.error.value.suggestions.value[|r.body.error.value.suggestions.value| - 1] == ContactAdministrator
    ensures RequestOutcome(range, force, executed).Failure? ==>
              var e := RequestOutcome(range, force, executed).error;
              && r.body.message == e.Text()
              && r.body.error.Some?
              && r.body.error.value.suggestions == Some(ErrorSuggestions(e, TimeRangeOf(range)))
              && (e.App? ==> r.body.error.value.detail == e.error.detail)
    ensures ValidateQueryParameters(range, force).None? && executed.Failure? && executed.error.App? ==>
              && r.status == executed.error.error.StatusCode()
              && r.body.error.Some? && r.body.error.value.code == executed.error.error.Code()
    ensures ValidateQueryParameters(range, force).None? && executed.Failure? && !executed.error.App? ==>
              && r.status == 500
              && r.body.error.Some? && r.body.error.value.code == InternalErrorCode
              && r.body.error.value.detail == Some(InternalDetail)
  {
    var timeRange := TimeRangeOf(range);
    match RequestOutcome(range, force, executed)
    case Success(h) =>
      var metadata := Metadata(
        requestId := ctx.requestId,
        processingTime := NatToString(ctx.durationMs) + "ms",
        dataFreshness := CalculateDataFreshness(h.lastUpdate, ctx.now, ctx.parseInstant),
        nextUpdate := ctx.iso(ctx.now + 10 * MinuteMs),
        apiVersion := ApiVersion,
        endpoints := Endpoints(
          refresh := RefreshEndpoint(timeRange),
          historical := EndpointPrefix + "1Y",
          realTime := EndpointPrefix + "1M"));
      Succeeded(SuccessMessage(timeRange), LiveData(h, metadata), ctx.iso(ctx.now))
    case Failure(e) =>
      var (status, code, detail) := Classify(e, Some(InternalDetail));
      var info := ErrorInfo(code, detail, Some(ctx.requestId), Some(ErrorSuggestions(e, timeRange)));
      Failed(status, e.Text(), info, ctx.iso(ctx.now))
  }

  /** A query that fails the check is answered the same whatever the use case would have done. */
  lemma InvalidQueryNeverReachesUseCase(range: Option<string>, force: Option<string>,
                                        executed: Result<IceFuturesHistory, Thrown>, other: Result<IceFuturesHistory, Thrown>,
                                        ctx: RequestContext)
    requires ValidateQueryParameters(range, force).Some?
    ensures GetLiveStatistics(range, force, executed, ctx) == GetLiveStatistics(range, force, other, ctx)
  {
  }

  /**
   * Whenever the use case fails only with scraping or validation errors, the
   * reply's status is 200, 400 or 500, and 200 exactly on success.
   */
  lemma RepliedStatuses(range: Option<string>, force: Option<string>,
                        result: Result<IceFuturesHistory, AppError>, ctx: RequestContext)
    requires result.Failure? ==> result.error.kind.Scraping? || result.error.kind.Validation?
    ensures var r := GetLiveStatistics(range, force, Raised(result), ctx);
            && (r.status == 200 <==> ValidateQueryParameters(range, force).None? && result.Success?)
            && (r.status == 400 || r.status == 500 || r.status == 200)
  {
    var r := GetLiveStatistics(range, force, Raised(result), ctx);
    if ValidateQueryParameters(range, force).None? && result.Failure? {
      assert r.status == result.error.StatusCode();
    }
  }

  /**
   * End to end: behind the live-statistics use case the reply's status is 200,
   * 400 (a validation error) or 500 (a scraping error), never anything else.
   */
  lemma LiveStatisticsStatuses(range: Option<string>, force: Option<string>, m: LiveStatistics.Entries, now: int, ttl: int,
                               fetched: Result<IceFuturesHistory, Thrown>, sqrt: real -> real, ctx: RequestContext)
    ensures var o := LiveStatistics.LiveOutcome(m, TimeRangeOf(range), now, ttl, fetched, sqrt);
            var r := GetLiveStatistics(range, force, Raised(o.result), ctx);
            && (r.status == 200 <==> ValidateQueryParameters(range, force).None? && o.result.Success?)
            && (r.status == 400 || r.status == 500 || r.status == 200)
  {
    var o := LiveStatistics.LiveOutcome(m, TimeRangeOf(range), now, ttl, fetched, sqrt);
    RepliedStatuses(range, force, o.result, ctx);
  }
}

/**
 * The use case behind `GET /api/live-statistics`: check the requested range,
 * serve the range's history from the cache while it is fresh; otherwise ask
 * the ICE repository, refuse a history too short for the range, enrich it with
 * statistics and a quality report, store it and return it. Only scraping and
 * validation errors leave it.
 */
module LiveStatistics {
  import opened Wrappers
  import opened JsRuntime
  import opened AppErrors
  import opened IceFuturesEntity
  import opened IceFutures
  import opened CacheService

  const CacheKeyPrefix := "ice_futures_"
  const DefaultCacheTtlMs := 600000
  const LiveFailureMessage := "Error al obtener estadísticas en vivo de ICE"
  const ValidRanges: seq<string> := ["1M", "3M", "6M", "1Y"]
  const InvalidRangeMessage := "Rango de tiempo inválido: "
  const ValidRangesDetail := "Los rangos válidos son: 1M, 3M, 6M, 1Y"
  const InsufficientDataMessage := "Datos insuficientes para el análisis"
  const AtLeast := "Se necesitan al menos "
  const PointsFor := " puntos de datos para "
  const ButGot := ", pero se obtuvieron "

  type Entries = map<string, CacheItem<IceFuturesHistory>>

  /** The cache key of a range. */
  function CacheKeyOf(timeRange: string): (k: string)
    ensures |k| == |CacheKeyPrefix| + |timeRange| && k[|CacheKeyPrefix|..] == timeRange
  {
    CacheKeyPrefix + timeRange
  }

  /** Two ranges never share a cache entry. */
  lemma CacheKeysAreDistinct(a: string, b: string)
    requires a != b
    ensures CacheKeyOf(a) != CacheKeyOf(b)
  {
  }

  // ---------------------------------------------------------------------------
  // Validation
  // ---------------------------------------------------------------------------

  /** `validateTimeRange(timeRange)`: the range, or the ValidationError listing the valid ones. */
  function ValidateTimeRange(timeRange: string): (r: Result<TimeRange, AppError>)
    ensures r.Success? <==> timeRange in ValidRanges
    ensures r.Success? ==> r.value.Name() == timeRange
    ensures r.Failure? ==> r.error == NewValidationError(InvalidRangeMessage + timeRange, Some(ValidRangesDetail))
  {
    match ParseTimeRange(timeRange)
    case Some(t) => Success(t)
    case None =>
      assert forall t: TimeRange :: t.Name() in ValidRanges;
      Failure(NewValidationError(InvalidRangeMessage + timeRange, Some(ValidRangesDetail)))
  }

  /** `getMinDataPointsForRange(timeRange)`: 20, 60, 120 or 200 points; 20 for anything else. */
  function MinDataPointsForRange(timeRange: string): (n: int)
    ensures n >= 20
    ensures timeRange !in ValidRanges ==> n == 20
  {
    match timeRange
    case "1M" => 20
    case "3M" => 60
    case "6M" => 120
    case "1Y" => 200
    case _ => 20
  }

  /** A longer range demands strictly more points. */
  lemma LongerRangesNeedMorePoints(i: int, j: int)
    requires 0 <= i < j < |ValidRanges|
    ensures MinDataPointsForRange(ValidRanges[i]) < MinDataPointsForRange(ValidRanges[j])
  {
  }

  /**
   * The point count check that opens `validateDataQuality(data, timeRange)`:
   * the ValidationError it throws, if any.
   */
  function ValidateDataQuality(data: IceFuturesHistory, timeRange: string): (r: Option<AppError>)
    ensures r.Some? <==> data.dataPoints < MinDataPointsForRange(timeRange)
    ensures r.Some? ==> r.value.kind.Validation? && r.value.message == InsufficientDataMessage
    ensures r.Some? ==> r.value.detail == Some(AtLeast + IntToString(MinDataPointsForRange(timeRange))
                                               + PointsFor + timeRange + ButGot + IntToString(data.dataPoints))
  {
    var minDataPoints := MinDataPointsForRange(timeRange);
    if data.dataPoints < minDataPoints then
      Some(NewValidationError(InsufficientDataMessage,
                              Some(AtLeast + IntToString(minDataPoints) + PointsFor + timeRange + ButGot + IntToString(data.dataPoints))))
    else None
  }

  const DayMs := 24 * 60 * 60 * 1000
  /** The largest distance from the epoch, in ms, that a JavaScript Date can hold. */
  const MaxTimeValue := 8_640_000_000_000_000
  const InvalidTimeValue := "Invalid time value"

  /** `Math.max(...data.map(d => d.timestamp))`; None stands for the -Infinity of no records. */
  function LatestTimestamp(data: seq<IceFuturesData>): (t: Option<int>)
    ensures t.None? <==> data == []
    ensures t.Some? ==> forall i :: 0 <= i < |data| ==> data[i].timestamp <= t.value
    ensures t.Some? ==> exists i :: 0 <= i < |data| && data[i].timestamp == t.value
  {
    if data == [] then None
    else
      var last := data[|data| - 1].timestamp;
      match LatestTimestamp(data[..|data| - 1])
      case None => Some(last)
      case Some(t) => Some(if t < last then last else t)
  }

  /** Whether `new Date(t).toISOString()` succeeds: only for times a Date can hold. */
  predicate Renderable(t: int) {
    -MaxTimeValue <= t <= MaxTimeValue
  }

  /**
   * The staleness check that closes `validateDataQuality`, with the clock at
   * `now`. It only logs a warning when the latest record is more than a day
   * old, but building that warning renders the latest time as ISO text, which
   * throws a RangeError when the time is not one a Date can hold, and always
   * for no records.
   */
  function StalenessCheck(data: seq<IceFuturesData>, now: int): (r: Option<Thrown>)
    ensures data == [] ==> r.Some?
    ensures data != [] ==>
              (r.Some? <==> LatestTimestamp(data).value < now - DayMs && !Renderable(LatestTimestamp(data).value))
    ensures r.Some? ==> r.value == PlainError(InvalidTimeValue)
  {
    match LatestTimestamp(data)
    case None => Some(PlainError(InvalidTimeValue))
    case Some(t) => if t < now - DayMs && !Renderable(t) then Some(PlainError(InvalidTimeValue)) else None
  }

  /** Records whose times a Date can hold pass the staleness check, however old they are. */
  lemma RenderableRecordsPassStaleness(data: seq<IceFuturesData>, now: int)
    requires data != []
    requires forall i :: 0 <= i < |data| ==> Renderable(data[i].timestamp)
    ensures StalenessCheck(data, now).None?
  {
    var i :| 0 <= i < |data| && data[i].timestamp == LatestTimestamp(data).value;
    assert Renderable(data[i].timestamp);
  }

  // ---------------------------------------------------------------------------
  // Data quality
  // ---------------------------------------------------------------------------

  /** `data.filter(keep).length`. */
  function CountWhere(s: seq<IceFuturesData>, keep: IceFuturesData -> bool): (n: nat)
    ensures n <= |s|
    ensures (forall i :: 0 <= i < |s| ==> keep(s[i])) ==> n == |s|
    ensures (forall i :: 0 <= i < |s| ==> !keep(s[i])) ==> n == 0
  {
    if s == [] then 0
    else
      assert forall i :: 0 <= i < |s| - 1 ==> s[..|s| - 1][i] == s[i];
      CountWhere(s[..|s| - 1], keep) + (if keep(s[|s| - 1]) then 1 else 0)
  }

  predicate PositivePrice(d: IceFuturesData) { d.price > 0.0 }
  predicate PositiveVolume(d: IceFuturesData) { d.volume > 0 }

  /** `Math.round(part / total * 100)`: a percentage; NaN (None) for 0/0. */
  function Percentage(part: nat, total: nat): (p: Option<int>)
    requires part <= total
    ensures p.None? <==> total == 0
    ensures p.Some? ==> 0 <= p.value <= 100
    ensures p.Some? && part == total ==> p.value == 100
    ensures p.Some? && part == 0 ==> p.value == 0
  {
    if total == 0 then None
    else
      FractionBounds(part, total);
      Some(MathRound(part as real / total as real * 100.0))
  }

  lemma FractionBounds(part: nat, total: nat)
    requires 0 < total && part <= total
    ensures 0.0 <= part as real / total as real * 100.0 <= 100.0
    ensures part == total ==> part as real / total as real * 100.0 == 100.0
  {
    var t := total as real;
    if part == total {
      Scale(1.0, t);
    }
    DivideMonotone(part as real, t, t);
    NonNegativeQuotient(part as real, t);
  }

  const SuperComplete := "Datos súper completos - Ideal para análisis avanzado y predicciones"
  const Professional := "Datos profesionales - Excelente para análisis técnico detallado"
  const Basic := "Datos básicos - Suficiente para análisis general y tendencias"
  const Limited := "Datos limitados - Considere obtener más datos históricos"

  /** `getDataQualityRecommendation(dataPoints)`. */
  function Recommendation(dataPoints: int): string {
    if dataPoints >= 250 then SuperComplete
    else if dataPoints >= 90 then Professional
    else if dataPoints >= 30 then Basic
    else Limited
  }

  /** `assessDataQuality(data)`. */
  function AssessDataQuality(data: seq<IceFuturesData>): (q: DataQuality)
    ensures q.totalDataPoints == |data| && q.validPrices <= |data| && q.validVolumes <= |data|
    ensures q.qualityScore.None? <==> data == []
    ensures q.completeness.None? <==> data == []
    ensures q.qualityScore.Some? ==> 0 <= q.qualityScore.value <= 100
    ensures q.completeness.Some? ==> 0 <= q.completeness.value <= 100
    ensures data != [] && (forall i :: 0 <= i < |data| ==> data[i].price > 0.0) ==> q.qualityScore == Some(100)
    ensures data != [] && (forall i :: 0 <= i < |data| ==> data[i].price > 0.0 && data[i].volume > 0) ==> q.completeness == Some(100)
    ensures data != [] && (forall i :: 0 <= i < |data| ==> data[i].price <= 0.0) ==> q.qualityScore == Some(0)
    ensures q.recommendation == Recommendation(|data|)
  {
    var total := |data|;
    var validPrices := CountWhere(data, PositivePrice);
    var validVolumes := CountWhere(data, PositiveVolume);
    DataQuality(
      totalDataPoints := total,
      validPrices := validPrices,
      validVolumes := validVolumes,
      qualityScore := Percentage(validPrices, total),
      completeness := Percentage(validPrices + validVolumes, total * 2),
      recommendation := Recommendation(total))
  }

  /**
   * A history long enough for the three-month range is at least "basic", and
   * one long enough for six months or a year at least "professional".
   */
  lemma RecommendationAfterValidation(h: IceFuturesHistory, timeRange: string)
    requires ValidateDataQuality(h, timeRange).None? && h.dataPoints == |h.data|
    ensures timeRange in ["3M", "6M", "1Y"] ==> AssessDataQuality(h.data).recommendation != Limited
    ensures timeRange in ["6M", "1Y"] ==> AssessDataQuality(h.data).recommendation in [SuperComplete, Professional]
  {
  }

  // ---------------------------------------------------------------------------
  // Enrichment
  // ---------------------------------------------------------------------------

  /**
   * The value `enrichData(data)` returns: a copy sharing `source`, with
   * statistics computed when there were none and there is data, and a fresh
   * quality report. `sqrt` is `Math.sqrt`.
   */
  function Enriched(h: IceFuturesHistory, sqrt: real -> real): (e: IceFuturesHistory)
    ensures e.source == h.source && e.data == h.data && e.dataPoints == h.dataPoints
    ensures e.timeRange == h.timeRange && e.lastUpdate == h.lastUpdate
    ensures h.statistics.Some? ==> e.statistics == h.statistics
    ensures h.statistics.None? ==> e.statistics == CalculateStatistics(h.data, sqrt)
    ensures e.statistics.Some? <==> h.statistics.Some? || h.data != []
    ensures e.dataQuality == Some(AssessDataQuality(h.data))
  {
    var statistics := if h.statistics.None? && |h.data| > 0 then CalculateStatistics(h.data, sqrt) else h.statistics;
    h.(statistics := statistics, dataQuality := Some(AssessDataQuality(h.data)))
  }

  /** What `enrichData` leaves in a history: a quality report of its data, and statistics whenever there is data. */
  predicate IsEnriched(h: IceFuturesHistory) {
    && h.dataQuality == Some(AssessDataQuality(h.data))
    && (h.data != [] ==> h.statistics.Some?)
  }

  /** Enriching an enriched history changes nothing. */
  lemma EnrichIsIdempotent(h: IceFuturesHistory, sqrt: real -> real)
    ensures IsEnriched(Enriched(h, sqrt))
    ensures Enriched(Enriched(h, sqrt), sqrt) == Enriched(h, sqrt)
  {
  }

  /**
   * `enrichData(data)`: the spread copy shares `source`, so the new scrape
   * time is written into the repository's own object too.
   */
  method EnrichData(h: IceFuturesHistory, nowIso: string, sqrt: real -> real) returns (e: IceFuturesHistory)
    modifies h.source
    ensures e == Enriched(h, sqrt)
    ensures h.source.scrapeTime == nowIso && h.source.url == old(h.source.url)
  {
    var copy := h;
    copy.source.scrapeTime := nowIso;
    if copy.statistics.None? && |copy.data| > 0 {
      copy := copy.(statistics := CalculateStatistics(copy.data, sqrt));
    }
    copy := copy.(dataQuality := Some(AssessDataQuality(copy.data)));
    return copy;
  }

  // ---------------------------------------------------------------------------
  // execute()
  // ---------------------------------------------------------------------------

  /**
   * The `catch` block: a scraping or validation error is rethrown as it is;
   * anything else becomes a ScrapingError carrying its message.
   */
  function TranslateLiveError(e: Thrown): (err: AppError)
    ensures err.kind.Scraping? || err.kind.Validation?
    ensures e.App? && (e.error.kind.Scraping? || e.error.kind.Validation?) ==> err == e.error
    ensures !(e.App? && (e.error.kind.Scraping? || e.error.kind.Validation?)) ==>
              err == NewScrapingError(LiveFailureMessage, Some(e.Text()))
  {
    if e.App? && (e.error.kind.Scraping? || e.error.kind.Validation?) then e.error
    else NewScrapingError(LiveFailureMessage, Some(e.Text()))
  }

  /** What one `execute(timeRange)` produces: its result, the cache's entries after it, and whether the repository was asked. */
  datatype Outcome = Outcome(result: Result<IceFuturesHistory, AppError>, entries: Entries, repositoryCalled: bool)

  /**
   * `execute(timeRange)` on the entries `m` with the clock at `now`; `fetched`
   * is what `getIceFuturesData(timeRange)` yields, consulted only on a miss.
   */
  function LiveOutcome(m: Entries, timeRange: string, now: int, ttl: int,
                       fetched: Result<IceFuturesHistory, Thrown>, sqrt: real -> real): (o: Outcome)
    ensures timeRange !in ValidRanges ==> o == Outcome(Failure(ValidateTimeRange(timeRange).error), m, false)
    ensures o.repositoryCalled <==> timeRange in ValidRanges && Lookup(m, CacheKeyOf(timeRange), now).None?
    ensures timeRange in ValidRanges && !o.repositoryCalled ==>
              o.result == Success(m[CacheKeyOf(timeRange)].data) && o.entries == m
    ensures o.result.Failure? ==> o.result.error.kind.Scraping? || o.result.error.kind.Validation?
    ensures o.repositoryCalled && o.result.Failure? ==> CacheKeyOf(timeRange) !in o.entries
    ensures o.repositoryCalled && o.result.Success? ==>
              && fetched.Success?
              && fetched.value.dataPoints >= MinDataPointsForRange(timeRange)
              && fetched.value.data != [] && StalenessCheck(fetched.value.data, now).None?
              && o.result.value == Enriched(fetched.value, sqrt)
              && o.entries == AfterLookup(m, CacheKeyOf(timeRange), now)[CacheKeyOf(timeRange) := CacheItem(o.result.value, now + ttl)]
    ensures o.repositoryCalled && fetched.Success? && fetched.value.dataPoints < MinDataPointsForRange(timeRange) ==>
              o.result == Failure(ValidateDataQuality(fetched.value, timeRange).value)
    ensures o.repositoryCalled && fetched.Success? && fetched.value.dataPoints >= MinDataPointsForRange(timeRange)
            && StalenessCheck(fetched.value.data, now).Some? ==>
              o.result == Failure(NewScrapingError(LiveFailureMessage, Some(InvalidTimeValue)))
    ensures forall k :: k != CacheKeyOf(timeRange) ==> (k in o.entries <==> k in m) && (k in m ==> o.entries[k] == m[k])
  {
    match ValidateTimeRange(timeRange)
    case Failure(err) => Outcome(Failure(err), m, false)
    case Success(_) =>
      var key := CacheKeyOf(timeRange);
      match Lookup(m, key, now)
      case Some(hit) => Outcome(Success(hit), m, false)
      case None => Refreshed(AfterLookup(m, key, now), timeRange, now, ttl, fetched, sqrt)
  }

  /** The `try` block of `execute(timeRange)` after a miss, on the entries `m` the lookup left. */
  function Refreshed(m: Entries, timeRange: string, now: int, ttl: int,
                     fetched: Result<IceFuturesHistory, Thrown>, sqrt: real -> real): (o: Outcome)
    ensures o.repositoryCalled
    ensures o.result.Failure? ==> o.entries == m
    ensures o.result.Success? ==> o.entries == m[CacheKeyOf(timeRange) := CacheItem(o.result.value, now + ttl)]
  {
    match fetched
    case Failure(e) => Outcome(Failure(TranslateLiveError(e)), m, true)
    case Success(h) =>
      match ValidateDataQuality(h, timeRange)
      case Some(err) => Outcome(Failure(TranslateLiveError(App(err))), m, true)
      case None =>
        match StalenessCheck(h.data, now)
        case Some(thrown) => Outcome(Failure(TranslateLiveError(thrown)), m, true)
        case None =>
          var v := Enriched(h, sqrt);
          Outcome(Success(v), m[CacheKeyOf(timeRange) := CacheItem(v, now + ttl)], true)
  }

  /** Every history under a range's key is enriched, has records, and is long enough for that range. */
  predicate HoldsValidated(m: Entries) {
    forall t: TimeRange :: CacheKeyOf(t.Name()) in m ==>
      && IsEnriched(m[CacheKeyOf(t.Name())].data)
      && m[CacheKeyOf(t.Name())].data.data != []
      && m[CacheKeyOf(t.Name())].data.dataPoints >= MinDataPointsForRange(t.Name())
  }

  /**
   * Whatever `execute(timeRange)` returns is enriched and has at least the
   * range's minimum of points, whether it came from the repository or from the
   * cache, and the cache keeps that property.
   */
  lemma ExecuteServesValidatedData(m: Entries, timeRange: string, now: int, ttl: int,
                                   fetched: Result<IceFuturesHistory, Thrown>, sqrt: real -> real)
    requires HoldsValidated(m)
    ensures var o := LiveOutcome(m, timeRange, now, ttl, fetched, sqrt);
            && HoldsValidated(o.entries)
            && (o.result.Success? ==> IsEnriched(o.result.value) && o.result.value.data != []
                                      && o.result.value.dataPoints >= MinDataPointsForRange(timeRange))
  {
    var o := LiveOutcome(m, timeRange, now, ttl, fetched, sqrt);
    if timeRange in ValidRanges {
      var t := ValidateTimeRange(timeRange).value;
      assert CacheKeyOf(t.Name()) == CacheKeyOf(timeRange);
      if o.repositoryCalled && o.result.Success? {
        EnrichIsIdempotent(fetched.value, sqrt);
      }
    }
    forall t: TimeRange | CacheKeyOf(t.Name()) in o.entries
      ensures IsEnriched(o.entries[CacheKeyOf(t.Name())].data)
      ensures o.entries[CacheKeyOf(t.Name())].data.data != []
      ensures o.entries[CacheKeyOf(t.Name())].data.dataPoints >= MinDataPointsForRange(t.Name())
    {
      if t.Name() != timeRange {
        CacheKeysAreDistinct(t.Name(), timeRange);
      } else if o.repositoryCalled {
        EnrichIsIdempotent(fetched.value, sqrt);
      }
    }
  }

  /** A history without records is refused and not stored, whatever its `dataPoints` says. */
  lemma EmptyHistoryIsRefused(m: Entries, timeRange: string, now: int, ttl: int, h: IceFuturesHistory, sqrt: real -> real)
    requires h.data == []
    ensures var o := LiveOutcome(m, timeRange, now, ttl, Success(h), sqrt);
            o.repositoryCalled ==> o.result.Failure? && CacheKeyOf(timeRange) !in o.entries
  {
  }

  /** A history fetched for a range is served from the cache for that range until it expires. */
  lemma FreshHistoryIsServedFromCache(m: Entries, timeRange: string, now: int, later: int, ttl: int,
                                      fetched: Result<IceFuturesHistory, Thrown>, fetchedLater: Result<IceFuturesHistory, Thrown>,
                                      sqrt: real -> real)
    requires LiveOutcome(m, timeRange, now, ttl, fetched, sqrt).repositoryCalled
    requires LiveOutcome(m, timeRange, now, ttl, fetched, sqrt).result.Success?
    requires now <= later <= now + ttl
    ensures var first := LiveOutcome(m, timeRange, now, ttl, fetched, sqrt);
            var second := LiveOutcome(first.entries, timeRange, later, ttl, fetchedLater, sqrt);
            && !second.repositoryCalled
            && second.result == first.result
            && second.entries == first.entries
  {
    var first := LiveOutcome(m, timeRange, now, ttl, fetched, sqrt);
    var item := CacheItem(first.result.value, now + ttl);
    assert first.entries[CacheKeyOf(timeRange)] == item && !Expired(item, later);
  }

  class GetLiveStatisticsUseCase {
    const cache: InMemoryCacheService<IceFuturesHistory>
    const cacheTtlMs: int

    /** `new GetLiveStatisticsUseCase(repository, cacheService, logger, cacheTtlMs?)`. */
    constructor(cache: InMemoryCacheService<IceFuturesHistory>, cacheTtlMs: Option<int>)
      ensures this.cache == cache
      ensures cacheTtlMs.None? ==> this.cacheTtlMs == DefaultCacheTtlMs
      ensures cacheTtlMs.Some? ==> this.cacheTtlMs == cacheTtlMs.value
    {
      this.cache := cache;
      this.cacheTtlMs := cacheTtlMs.GetOr(DefaultCacheTtlMs);
    }

    /**
     * `execute(timeRange)`, with the clock reading `now` (`nowIso` as an ISO
     * string) throughout; `fetched` is what the repository yields for the range.
     */
    method Execute(timeRange: string, now: int, nowIso: string,
                   fetched: Result<IceFuturesHistory, Thrown>, sqrt: real -> real)
      returns (r: Result<IceFuturesHistory, AppError>, repositoryCalled: bool)
      requires cache.Valid()
      modifies cache, if fetched.Success? then {fetched.value.source} else {}
      ensures cache.Valid()
      ensures var o := LiveOutcome(old(cache.cache), timeRange, now, cacheTtlMs, fetched, sqrt);
              r == o.result && cache.cache == o.entries && repositoryCalled == o.repositoryCalled
      ensures fetched.Success? && repositoryCalled && r.Success? ==> fetched.value.source.scrapeTime == nowIso
      ensures fetched.Success? && !(repositoryCalled && r.Success?) ==> unchanged(fetched.value.source)
    {
      var range := ValidateTimeRange(timeRange);
      if range.Failure? {
        return Failure(range.error), false;
      }
      var key := CacheKeyOf(timeRange);
      var cached := cache.Get(key, now);
      if cached.Some? {
        return Success(cached.value), false;
      }
      r := Refresh(timeRange, now, nowIso, fetched, sqrt);
      repositoryCalled := true;
    }

    /** The `try` block after a miss: ask, validate, enrich, store. */
    method Refresh(timeRange: string, now: int, nowIso: string,
                   fetched: Result<IceFuturesHistory, Thrown>, sqrt: real -> real)
      returns (r: Result<IceFuturesHistory, AppError>)
      requires cache.Valid()
      modifies cache, if fetched.Success? then {fetched.value.source} else {}
      ensures cache.Valid()
      ensures var o := Refreshed(old(cache.cache), timeRange, now, cacheTtlMs, fetched, sqrt);
              r == o.result && cache.cache == o.entries
      ensures fetched.Success? && r.Success? ==> fetched.value.source.scrapeTime == nowIso
      ensures fetched.Success? && r.Failure? ==> unchanged(fetched.value.source)
    {
      ghost var m := cache.cache;
      match fetched
      case Failure(e) =>
        r := Failure(TranslateLiveError(e));
      case Success(futuresData) =>
        var invalid := ValidateDataQuality(futuresData, timeRange);
        if invalid.Some? {
          r := Failure(TranslateLiveError(App(invalid.value)));
          assert Refreshed(m, timeRange, now, cacheTtlMs, fetched, sqrt) == Outcome(r, m, true);
          return;
        }
        var stale := StalenessCheck(futuresData.data, now);
        if stale.Some? {
          r := Failure(TranslateLiveError(stale.value));
          assert Refreshed(m, timeRange, now, cacheTtlMs, fetched, sqrt) == Outcome(r, m, true);
        } else {
          var enriched := Store(CacheKeyOf(timeRange), futuresData, now, nowIso, sqrt);
          r := Success(enriched);
          assert Refreshed(m, timeRange, now, cacheTtlMs, fetched, sqrt)
              == Outcome(r, m[CacheKeyOf(timeRange) := CacheItem(enriched, now + cacheTtlMs)], true);
        }
    }

    /** The end of the `try` block: enrich the history, store it under `key` for the TTL, return it. */
    method Store(key: string, h: IceFuturesHistory, now: int, nowIso: string, sqrt: real -> real)
      returns (e: IceFuturesHistory)
      requires cache.Valid()
      modifies cache, h.source
      ensures cache.Valid()
      ensures e == Enriched(h, sqrt)
      ensures cache.cache == old(cache.cache)[key := CacheItem(e, now + cacheTtlMs)]
      ensures h.source.scrapeTime == nowIso
    {
      e := EnrichData(h, nowIso, sqrt);
      cache.Set(key, e, Some(cacheTtlMs), now);
    }
  }
}

/**
 * The use case behind `GET /api/coffee-price`: serve the normalised indicator
 * from the cache while it is fresh; otherwise scrape the federation's page,
 * normalise what it yields, store it with the use case's TTL and return it. A
 * failed scrape is rethrown as a ScrapingError and leaves nothing in the cache.
 */
module GetCoffeePrice {
  import opened Wrappers
  import opened JsRuntime
  import opened AppErrors
  import opened CoffeePriceEntity
  import opened Normalization
  import opened CacheService

  const CacheKey := "coffee_price_today"
  const DefaultCacheTtlMs := 300000
  const FailureMessage := "No fue posible obtener el precio del café"

  type Entries = map<string, CacheItem<CoffeePriceIndicator>>

  /**
   * What the `try` block yields before the cache is written: the repository's
   * scrape, then `normalizeCoffeePrice` of its data. A rejected scrape passes
   * its error on; normalisation of a record cannot fail.
   */
  function Fetch(scraped: Result<ScrapedData, Thrown>, today: Date, parseDate: string -> Option<Date>): (f: Result<CoffeePriceIndicator, Thrown>)
    ensures f.Failure? <==> scraped.Failure?
    ensures f.Failure? ==> f.error == scraped.error
    ensures f.Success? ==> WellFormed(f.value) && f.value.fuente.pdfPrecio == scraped.value.pdfUrl
    ensures f.Success? ==> f.value == NormalizeCoffeePrice(Scraped(scraped.value), today, parseDate).value
  {
    match scraped
    case Failure(e) => Failure(e)
    case Success(d) => Success(NormalizeCoffeePrice(Scraped(d), today, parseDate).value)
  }

  /** What one `execute()` produces: its result, the cache's entries after it, and whether the repository was asked. */
  datatype Outcome = Outcome(result: Result<CoffeePriceIndicator, AppError>, entries: Entries, repositoryCalled: bool)

  /**
   * `execute()` on the entries `m` with the clock at `now`; `fetched` is what
   * the `try` block would yield, and it is only consulted on a miss.
   */
  function ExecuteOn(m: Entries, now: int, ttl: int, fetched: Result<CoffeePriceIndicator, Thrown>): (o: Outcome)
    ensures o.repositoryCalled <==> Lookup(m, CacheKey, now).None?
    ensures !o.repositoryCalled ==> o.result == Success(m[CacheKey].data) && o.entries == m
    ensures o.repositoryCalled && fetched.Failure? ==>
              && o.result == Failure(NewScrapingError(FailureMessage, Some(fetched.error.Text())))
              && CacheKey !in o.entries
    ensures o.repositoryCalled && fetched.Success? ==>
              && o.result == Success(fetched.value)
              && o.entries == AfterLookup(m, CacheKey, now)[CacheKey := CacheItem(fetched.value, now + ttl)]
    ensures forall k :: k != CacheKey ==> (k in o.entries <==> k in m) && (k in m ==> o.entries[k] == m[k])
  {
    match Lookup(m, CacheKey, now)
    case Some(hit) =>
      Outcome(Success(hit), m, false)
    case None =>
      var after := AfterLookup(m, CacheKey, now);
      match fetched
      case Failure(e) =>
        Outcome(Failure(NewScrapingError(FailureMessage, Some(e.Text()))), after, true)
      case Success(v) =>
        Outcome(Success(v), after[CacheKey := CacheItem(v, now + ttl)], true)
  }

  /** Every entry the cache holds is a normalised indicator. */
  predicate HoldsWellFormed(m: Entries) {
    forall k :: k in m ==> WellFormed(m[k].data)
  }

  /**
   * Whatever `execute()` returns and stores is a well-formed indicator whose
   * PDF link is the scraped one, provided the cache held only well-formed
   * indicators.
   */
  lemma ExecutePreservesWellFormed(m: Entries, now: int, ttl: int, scraped: Result<ScrapedData, Thrown>,
                                   today: Date, parseDate: string -> Option<Date>)
    requires HoldsWellFormed(m)
    ensures var o := ExecuteOn(m, now, ttl, Fetch(scraped, today, parseDate));
            && HoldsWellFormed(o.entries)
            && (o.result.Success? ==> WellFormed(o.result.value))
            && (o.repositoryCalled && o.result.Success? ==> o.result.value.fuente.pdfPrecio == scraped.value.pdfUrl)
  {
    var f := Fetch(scraped, today, parseDate);
    var o := ExecuteOn(m, now, ttl, f);
    forall k | k in o.entries ensures WellFormed(o.entries[k].data) {
      if k != CacheKey || !o.repositoryCalled {
        assert o.entries[k] == m[k];
      } else {
        assert o.entries[k].data == f.value;
      }
    }
  }

  /**
   * A freshly scraped result is served from the cache by every later
   * `execute()` up to its expiry, without asking the repository again,
   * whatever the repository would then yield.
   */
  lemma FreshResultIsServedFromCache(m: Entries, now: int, later: int, ttl: int,
                                     fetched: Result<CoffeePriceIndicator, Thrown>, fetchedLater: Result<CoffeePriceIndicator, Thrown>)
    requires ExecuteOn(m, now, ttl, fetched).repositoryCalled
    requires ExecuteOn(m, now, ttl, fetched).result.Success?
    requires now <= later <= now + ttl
    ensures var first := ExecuteOn(m, now, ttl, fetched);
            var second := ExecuteOn(first.entries, later, ttl, fetchedLater);
            && !second.repositoryCalled
            && second.result == first.result
            && second.entries == first.entries
  {
    var first := ExecuteOn(m, now, ttl, fetched);
    var item := CacheItem(first.result.value, now + ttl);
    assert first.entries[CacheKey] == item && !Expired(item, later);
  }

  /** A cached indicator is no longer served once it has expired: the repository is asked again. */
  lemma ExpiredResultIsRefetched(m: Entries, now: int, later: int, ttl: int,
                                 fetched: Result<CoffeePriceIndicator, Thrown>, fetchedLater: Result<CoffeePriceIndicator, Thrown>)
    requires ExecuteOn(m, now, ttl, fetched).repositoryCalled
    requires later > now + ttl
    ensures var first := ExecuteOn(m, now, ttl, fetched);
            ExecuteOn(first.entries, later, ttl, fetchedLater).repositoryCalled
  {
    var first := ExecuteOn(m, now, ttl, fetched);
    if fetched.Success? {
      assert first.entries[CacheKey] == CacheItem(fetched.value, now + ttl);
    }
  }

  /** After a failed scrape the next `execute()` asks the repository again. */
  lemma FailureIsNotCached(m: Entries, now: int, later: int, ttl: int,
                           fetched: Result<CoffeePriceIndicator, Thrown>, fetchedLater: Result<CoffeePriceIndicator, Thrown>)
    requires ExecuteOn(m, now, ttl, fetched).result.Failure?
    ensures var first := ExecuteOn(m, now, ttl, fetched);
            ExecuteOn(first.entries, later, ttl, fetchedLater).repositoryCalled
  {
  }

  class GetCoffeePriceUseCase {
    const cache: InMemoryCacheService<CoffeePriceIndicator>
    const cacheTtlMs: int

    /** `new GetCoffeePriceUseCase(repository, cacheService, logger, cacheTtlMs?)`. */
    constructor(cache: InMemoryCacheService<CoffeePriceIndicator>, cacheTtlMs: Option<int>)
      ensures this.cache == cache
      ensures cacheTtlMs.None? ==> this.cacheTtlMs == DefaultCacheTtlMs
      ensures cacheTtlMs.Some? ==> this.cacheTtlMs == cacheTtlMs.value
    {
      this.cache := cache;
      this.cacheTtlMs := cacheTtlMs.GetOr(DefaultCacheTtlMs);
    }

    /**
     * `execute()`, with the clock reading `now` throughout; `fetched` is what
     * the `try` block yields, `Fetch` of the repository's scrape.
     */
    method Execute(now: int, fetched: Result<CoffeePriceIndicator, Thrown>)
      returns (r: Result<CoffeePriceIndicator, AppError>, repositoryCalled: bool)
      requires cache.Valid()
      modifies cache
      ensures cache.Valid()
      ensures var o := ExecuteOn(old(cache.cache), now, cacheTtlMs, fetched);
              r == o.result && cache.cache == o.entries && repositoryCalled == o.repositoryCalled
    {
      ghost var m := cache.cache;
      var cached := cache.Get(CacheKey, now);
      if cached.Some? {
        assert ExecuteOn(m, now, cacheTtlMs, fetched) == Outcome(Success(cached.value), m, false);
        return Success(cached.value), false;
      }
      ghost var after := cache.cache;
      assert after == AfterLookup(m, CacheKey, now);
      repositoryCalled := true;
      match fetched
      case Failure(e) =>
        r := Failure(NewScrapingError(FailureMessage, Some(e.Text())));
        assert ExecuteOn(m, now, cacheTtlMs, fetched) == Outcome(r, after, true);
      case Success(normalized) =>
        cache.Set(CacheKey, normalized, Some(cacheTtlMs), now);
        r := Success(normalized);
        assert ExecuteOn(m, now, cacheTtlMs, fetched) == Outcome(r, after[CacheKey := CacheItem(normalized, now + cacheTtlMs)], true);
    }
  }
}

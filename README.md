# micafe-api core, modelled in Dafny

This project models the core of micafe-api, a small HTTP API. The API scrapes two public sources and serves:

- the Colombian coffee growers' federation's daily coffee indicators: the internal reference price, the New York quote, the exchange rate and MeCIC;
- live Coffee C futures statistics from ICE.

The model covers:

- the error taxonomy (`AppError` and its scraping, validation and network subclasses);
- the in-memory TTL cache;
- the locale number parsers and the record normaliser;
- both scrapers: the retry loops, item and row extraction, contract-month decoding, the sort, the change loop and the summary statistics;
- the two cache-aside use cases;
- the reply-building parts of the two controllers and the error middleware.

Each source file is one module:

| module | file | models |
|---|---|---|
| `AppErrors` | `app_errors.dfy` | `src/domain/errors/app.errors.ts`, plus the values a `catch` block can receive |
| `CacheService` | `cache_service.dfy` | `src/infrastructure/services/cache.service.ts`, a class over a map and its insertion order |
| `Normalization` | `normalization_service.dfy` | `src/domain/services/normalization.service.ts` |
| `FederacionCafeteros` | `federacion_cafeteros_repository.dfy` | the federation scraper |
| `GetCoffeePrice` | `get_coffee_price_use_case.dfy` | the coffee-price use case |
| `IceFutures` | `ice_futures_repository.dfy` | the ICE scraper |
| `LiveStatistics` | `get_live_statistics_use_case.dfy` | the live-statistics use case |
| `CoffeePriceController`, `LiveStatisticsController`, `ErrorMiddleware` | `coffee_price_controller.dfy`, `live_statistics_controller.dfy`, `error_middleware.dfy` | the HTTP boundary; each returns a `Reply` (status and body) in place of `res.status().json()` |

Supporting modules:

- `JsRuntime` (`js_runtime.dfy`) models the JavaScript built-ins the code relies on:
  - `parseInt` and `parseFloat`, and `String.prototype.replace` of the first match;
  - `trim`, and `toLowerCase` on ASCII;
  - `toFixed` and `Math.round` on reals;
  - division that yields NaN or an infinity.
- `Wrappers` holds Option and Result.
- `CoffeePriceEntity`, `IceFuturesEntity` and `ApiResponses` hold the entity and DTO shapes.

Host dependencies become parameters:

- **The clock.** Values are `now` in milliseconds, `today` as a date, and `nowIso` / `nowTime` as strings.
- **Date parsing.** `new Date(s)` is `parseDate` / `parseInstant`; `new Date(y, m, 1).getTime()` is `monthStart`; `Math.sqrt` is `sqrt`.
- **The network and the DOM.** These become:
  - the outcome of each fetch attempt;
  - the labelled list items of the federation page;
  - the body rows of the ICE table, as cell strings.
- **The `try` block of each use case.** It becomes the value it yields (`attempt`, `fetched`). A pure function defines that value from the scrape (`SiteAttempts`, `Fetch`).

Each method is proved against a pure function of its inputs and old state:

- `ScrapeCoffeePrice`, `ParseTableData` (with `CollectRows` and `FillChanges`), `GetIceFuturesData`, `EnrichData` and `GetErrorSuggestions`;
- the `Execute` methods of the two use case classes;
- the cache methods.

The properties the source promises are then proved about those functions.

## Model

| member | source | states |
|---|---|---|
| AppErrors.NewAppError | src/domain/errors/app.errors.ts:1-11 | The status defaults to 500 when none is given; code, message and detail are the ones passed. |
| AppErrors.NewScrapingError | src/domain/errors/app.errors.ts:13-18 | A scraping error always has code SCRAPE_FAILED and status 500 and keeps the detail passed. |
| AppErrors.NewValidationError | src/domain/errors/app.errors.ts:20-25 | A validation error always has code VALIDATION_ERROR and status 400. |
| AppErrors.NewNetworkError | src/domain/errors/app.errors.ts:27-32 | A network error always has code NETWORK_ERROR and status 503. |
| AppErrors.SubclassStatuses | src/domain/errors/app.errors.ts:13-32 | Among the subclasses, exactly the validation error has a 4xx status, exactly the network error has 503, and exactly the scraping error has SCRAPE_FAILED. |
| CacheService.InMemoryCacheService.constructor | src/infrastructure/services/cache.service.ts:12-14 | A new cache is empty, and its default TTL is 300000 ms unless one is given. |
| CacheService.InMemoryCacheService.Get | src/infrastructure/services/cache.service.ts:16-29 | An absent key yields None and changes nothing. An entry past its expiry yields None and only that key is deleted. A live entry (including one at exactly its expiry) yields its data and changes nothing. |
| CacheService.InMemoryCacheService.Set | src/infrastructure/services/cache.service.ts:31-39 | The key now maps to the value with expiry now + (ttl ?? default); a TTL of 0 is kept. Other keys are untouched, and a new key goes last in iteration order. |
| CacheService.InMemoryCacheService.Clear | src/infrastructure/services/cache.service.ts:41-43 | The cache is left empty. |
| CacheService.InMemoryCacheService.CleanExpired | src/infrastructure/services/cache.service.ts:45-52 | The cache keeps exactly its unexpired entries, with their data, in their original order. |
| CacheService.InMemoryCacheService.GetStats | src/infrastructure/services/cache.service.ts:54-60 | After the sweep, the keys returned are exactly the live keys in insertion order, and size equals their number. |
| CacheService.Sweep | src/infrastructure/services/cache.service.ts:45-52 | The loop deleting while iterating leaves exactly the live entries and the live keys in order, without duplicates. |
| CacheService.SweepKeepsExactlyLive | src/infrastructure/services/cache.service.ts:54-60 | The reported keys are exactly the live keys, and the reported size equals the number of live entries. |
| CacheService.SetThenGet | src/infrastructure/services/cache.service.ts:16-39 | A value set with TTL t is returned by every get up to t ms later and by none after. |
| CacheService.Lookup | src/infrastructure/services/cache.service.ts:16-29 | A lookup finds a value exactly when the key is present and not expired. |
| CacheService.AfterLookup | src/infrastructure/services/cache.service.ts:16-29 | A lookup removes at most the looked-up key, and only when it has expired. |
| Normalization.ExtractNumericValue | src/domain/services/normalization.service.ts:47-52 | The result is never negative, and is 0 for absent or empty input. Otherwise it is the leading integer once every non-digit, non-comma character and the first comma are removed. |
| Normalization.ExtractDecimalValue | src/domain/services/normalization.service.ts:54-58 | The result is never negative, and is 0 for absent or empty input. Otherwise it is the longest digits[.digits] prefix after the first comma becomes a dot and everything but digits and dots is dropped. |
| Normalization.FormatDate | src/domain/services/normalization.service.ts:60-72 | The result is always a YYYY-MM-DD string: the parsed date's, or today's for empty or unparsable input. |
| Normalization.NormalizeCoffeePrice | src/domain/services/normalization.service.ts:5-45 | It fails exactly when the input is not a record, with a ScrapingError carrying the null or undefined property-access message. Otherwise the indicator has the fixed units and source URL, non-negative values, ISO dates, and pdfPrecio = pdfUrl. Each amount is its raw field parsed by extractNumericValue (extractDecimalValue for bolsaNY), and each date is its raw date field passed through formatDate. |
| Normalization.DotlessCommaSwap | src/domain/services/normalization.service.ts:49-51 | Turning the first comma into a dot and then deleting the first dot is the same as deleting the first comma. |
| Normalization.UnsignedParseInt | src/domain/services/normalization.service.ts:51 | On digit/comma text with no leading digit parseInt yields NaN; otherwise it yields the integer the leading digits spell. |
| Normalization.UnsignedParseFloat | src/domain/services/normalization.service.ts:57 | On digit/dot text, parseFloat yields the longest digits[.digits] prefix, and NaN only where that prefix is worth 0. |
| Normalization.NumericIgnoresSymbol | src/domain/services/normalization.service.ts:49 | A leading sign or currency symbol never changes the integer read, so the parser discards signs. |
| Normalization.DecimalIgnoresSymbol | src/domain/services/normalization.service.ts:56-57 | A leading sign or symbol never changes the decimal read. |
| Normalization.ExchangeRateRead | src/domain/services/normalization.service.ts:47-52 | "$4.015" reads as 4015. |
| Normalization.NegativeExchangeRateRead | src/domain/services/normalization.service.ts:47-52 | "-$4.015" reads as 4015: the sign is lost. |
| Normalization.DecimalCommaRead | src/domain/services/normalization.service.ts:54-58 | "343,60" reads as 343.6. |
| Normalization.NegativeQuoteRead | src/domain/services/normalization.service.ts:54-58 | "-343,60" reads as 343.6. |
| FederacionCafeteros.ExtractDateFromDetail | src/infrastructure/repositories/federacion-cafeteros.repository.ts:164-171 | The result is always a YYYY-MM-DD string. It occurs in the text when the text has one, and is today's date otherwise. |
| FederacionCafeteros.ExtractedDateIsLeftmost | src/infrastructure/repositories/federacion-cafeteros.repository.ts:165-168 | The extracted date is the leftmost \d{4}-\d{2}-\d{2} substring. |
| FederacionCafeteros.FirstLabelled | src/infrastructure/repositories/federacion-cafeteros.repository.ts:83-92 | The item picked is the first whose lower-cased name contains the marker. |
| FederacionCafeteros.ExtractCoffeePriceData | src/infrastructure/repositories/federacion-cafeteros.repository.ts:73-162 | A missing list, or a missing or empty reference price, NY quote or exchange rate, fails with a ScrapingError carrying the original message; MeCIC is optional. A success is the record filled from the first labelled items. |
| FederacionCafeteros.ExtractedFieldsComeFromFirstLabelledItem | src/infrastructure/repositories/federacion-cafeteros.repository.ts:94-102 | The reference price, its date and the PDF link all come from the first "precio interno" item. |
| FederacionCafeteros.Attempt | src/infrastructure/repositories/federacion-cafeteros.repository.ts:39-48 | One attempt fails with the transport error, the other error, or the extraction error; it succeeds exactly when extraction does. |
| FederacionCafeteros.Exhausted | src/infrastructure/repositories/federacion-cafeteros.repository.ts:57-68 | After the last attempt, an HTTP-client error becomes a 503 NetworkError with detail "code: message"; anything else becomes a ScrapingError carrying the message. |
| FederacionCafeteros.MalformedPageIsScrapingError | src/infrastructure/repositories/federacion-cafeteros.repository.ts:45-68 | A malformed page fails the attempt like a network failure and ends as a ScrapingError whose detail is the extraction message. |
| FederacionCafeteros.ScrapeCoffeePrice | src/infrastructure/repositories/federacion-cafeteros.repository.ts:35-71 | At most maxRetries attempts are made, and it returns the first success; all earlier attempts failed. There are exactly attempts - 1 delays of retryDelayMs. Exhaustion raises the error Exhausted classifies, and maxRetries <= 0 gives "Unknown scraping error" without any attempt. |
| FederacionCafeteros.SiteAttempts | src/infrastructure/repositories/federacion-cafeteros.repository.ts:39-48 | The attempt outcomes of a site are Attempt of each fetch, and every failure is an Error. |
| GetCoffeePrice.Fetch | src/application/use-cases/get-coffee-price.use-case.ts:33-36 | The try block fails exactly when the scrape does, passing its error on; a success is a well-formed indicator with the scraped PDF link, and it is exactly normalizeCoffeePrice of the scraped record. |
| GetCoffeePrice.ExecuteOn | src/application/use-cases/get-coffee-price.use-case.ts:20-66 | The repository is asked exactly on a miss, and a hit returns the cached value with the cache unchanged. A failure becomes ScrapingError("No fue posible obtener el precio del café", original message) and nothing is cached. A success is stored under "coffee_price_today" with the TTL, and other keys are unchanged. |
| GetCoffeePrice.ExecutePreservesWellFormed | src/application/use-cases/get-coffee-price.use-case.ts:35-38 | Whatever execute() returns or stores is a well-formed normalised indicator. |
| GetCoffeePrice.FreshResultIsServedFromCache | src/application/use-cases/get-coffee-price.use-case.ts:21-38 | After a successful fetch, every execute() up to the TTL returns the same value without asking the repository. |
| GetCoffeePrice.ExpiredResultIsRefetched | src/application/use-cases/get-coffee-price.use-case.ts:21-27 | Once the TTL has passed the repository is asked again. |
| GetCoffeePrice.FailureIsNotCached | src/application/use-cases/get-coffee-price.use-case.ts:35-65 | After a failure the next execute() asks the repository again. |
| GetCoffeePrice.GetCoffeePriceUseCase.constructor | src/application/use-cases/get-coffee-price.use-case.ts:13-18 | The TTL defaults to 300000 ms. |
| GetCoffeePrice.GetCoffeePriceUseCase.Execute | src/application/use-cases/get-coffee-price.use-case.ts:20-66 | The result, the repository call and the cache's new entries are exactly ExecuteOn of the old entries. |
| IceFutures.MatchContract | src/infrastructure/repositories/ice-futures.repository.ts:186-193 | The code found is a 3-letter, 2-digit code occurring in the text; there is none exactly when no position matches. |
| IceFutures.FindContract | src/infrastructure/repositories/ice-futures.repository.ts:186 | The match is the leftmost. |
| IceFutures.MonthMapMatchesCalendar | src/infrastructure/repositories/ice-futures.repository.ts:131-144 | The month table maps exactly Jan..Dec, each to its calendar index 0..11. |
| IceFutures.ParseContractDate | src/infrastructure/repositories/ice-futures.repository.ts:126-162 | It succeeds exactly for a case-sensitive Jan..Dec prefix, and otherwise throws "Invalid contract month: " + prefix. The year is 2000 + the two-digit suffix (2000..2099), and the timestamp is the start of that month. |
| IceFutures.TimeFields | src/infrastructure/repositories/ice-futures.repository.ts:202-217 | Empty text gives empty fields. A match gives the two groups. Otherwise the date is today's and the time is the whole text. |
| IceFutures.FindDateTime | src/infrastructure/repositories/ice-futures.repository.ts:207-209 | The pattern search returns where the leftmost match starts: that position matches, no earlier one does, and nothing is found only when no position matches. |
| IceFutures.VolumeOf | src/infrastructure/repositories/ice-futures.repository.ts:222-223 | The volume is the integer parsed from the text with every comma removed, and 0 when that parse is NaN. |
| IceFutures.ParseRow | src/infrastructure/repositories/ice-futures.repository.ts:175-255 | A row yields a record exactly when it has a contract code, a numeric price and a known month. Then high = low = settlement = price, change and open interest are 0, and the contract fields are decoded. The volume is read from the fifth cell, and changePercent from the fourth, or 0 when that is not a number. The date and time fall back to today and the current time. |
| IceFutures.ParsedRows | src/infrastructure/repositories/ice-futures.repository.ts:175-256 | The table never yields more records than it has rows. |
| IceFutures.RecordsComeFromRows | src/infrastructure/repositories/ice-futures.repository.ts:175-256 | Every record comes from a row that parses to it. |
| IceFutures.ParsedRowsAreRecorded | src/infrastructure/repositories/ice-futures.repository.ts:175-256 | Every row that parses contributes its record. |
| IceFutures.SortIsSorted | src/infrastructure/repositories/ice-futures.repository.ts:258 | The sort leaves the records in ascending timestamp order. |
| IceFutures.SortIsPermutation | src/infrastructure/repositories/ice-futures.repository.ts:258 | The sort keeps every record, as many times as it occurs. |
| IceFutures.SortIsStable | src/infrastructure/repositories/ice-futures.repository.ts:258 | Records with equal timestamps keep their order, as Array.prototype.sort guarantees. |
| IceFutures.WithChanges | src/infrastructure/repositories/ice-futures.repository.ts:260-264 | The change loop keeps the number of records. |
| IceFutures.ChangesFollowPrices | src/infrastructure/repositories/ice-futures.repository.ts:260-264 | Only `change` is altered, and the first record keeps change 0. Each later change is the price difference from the previous record, within half a thousandth. |
| IceFutures.ParseTableData | src/infrastructure/repositories/ice-futures.repository.ts:164-271 | A missing table throws "No se encontró la tabla de datos de ICE". Otherwise it returns the parsed rows, sorted and with changes filled in. |
| IceFutures.CollectRows | src/infrastructure/repositories/ice-futures.repository.ts:175-256 | The push loop yields the parsed records in row order. |
| IceFutures.FillChanges | src/infrastructure/repositories/ice-futures.repository.ts:260-264 | The in-place loop over the array leaves exactly WithChanges of its old contents. |
| IceFutures.MaxOf | src/infrastructure/repositories/ice-futures.repository.ts:31 | The maximum is one of the prices and bounds them all. |
| IceFutures.MinOf | src/infrastructure/repositories/ice-futures.repository.ts:32 | The minimum is one of the prices and is below them all. |
| IceFutures.SquaredDeviations | src/infrastructure/repositories/ice-futures.repository.ts:35-37 | The variance's numerator is never negative. |
| IceFutures.PriceChange30d | src/infrastructure/repositories/ice-futures.repository.ts:53-58 | The 30-point change is 0 with fewer than 30 points. |
| IceFutures.AveragePrice | src/infrastructure/repositories/ice-futures.repository.ts:30-61 | The reported average is within half a cent of the mean price. |
| IceFutures.CalculateStatistics | src/infrastructure/repositories/ice-futures.repository.ts:22-23 | There are no statistics exactly when there is no data. |
| IceFutures.StatisticsSummarizePrices | src/infrastructure/repositories/ice-futures.repository.ts:22-69 | For some data, min <= max bound every price and both occur among the prices. The average is within half a cent of the mean, the 30-day change is 0 below 30 points, and the trend compares the last ten records against the first ten. |
| IceFutures.MeanBetweenExtremes | src/infrastructure/repositories/ice-futures.repository.ts:30-32 | The mean price lies between the minimum and the maximum. |
| IceFutures.MeanBounds | src/infrastructure/repositories/ice-futures.repository.ts:30 | The mean of prices within bounds is within the same bounds. |
| IceFutures.SumBounds | src/infrastructure/repositories/ice-futures.repository.ts:30 | The sum of n prices within [lo, hi] is within [n*lo, n*hi]. |
| IceFutures.AveragePriceWithinExtremes | src/infrastructure/repositories/ice-futures.repository.ts:30-61 | minPrice <= avgPrice <= maxPrice whenever the extremes are whole cents. |
| IceFutures.TrendAgainstPositiveMean | src/infrastructure/repositories/ice-futures.repository.ts:46-51 | With a positive old mean, the trend is BULLISH exactly when the recent mean is more than 2% above it, and BEARISH exactly when it is more than 2% below. |
| IceFutures.TrendAgainstZeroMean | src/infrastructure/repositories/ice-futures.repository.ts:46-51 | With an old mean of 0, the division yields an infinity or NaN. So any rise is BULLISH, any fall BEARISH, and no change NEUTRAL. |
| IceFutures.FetchPageWithRetry | src/infrastructure/repositories/ice-futures.repository.ts:71-124 | At most maxRetries loads are made. Every load before the last failed, and the result is the last load's HTML or its error, rethrown. The wait before retry k+1 is 2^k * 1000 ms. |
| IceFutures.FetchFromFirstLoad | src/infrastructure/repositories/ice-futures.repository.ts:71-124 | From the first load there are 1 to 3 loads with waits of 1000 ms and then 2000 ms. The page arrives exactly when one of the three loads succeeds. |
| IceFutures.Wrapped | src/infrastructure/repositories/ice-futures.repository.ts:317-320 | Any error inside getIceFuturesData becomes a ScrapingError carrying the original message. |
| IceFutures.GetIceFuturesData | src/infrastructure/repositories/ice-futures.repository.ts:273-322 | Every failure is ScrapingError("Error al hacer scraping de datos de ICE Futures", original message), including a missing table and empty data. A success carries the sorted data, dataPoints = its length, the statistics and the fixed symbol fields, with a new source object. |
| LiveStatistics.CacheKeyOf | src/application/use-cases/get-live-statistics.use-case.ts:27 | The key is "ice_futures_" followed by the range. |
| LiveStatistics.ValidateTimeRange | src/application/use-cases/get-live-statistics.use-case.ts:88-96 | It succeeds exactly for 1M, 3M, 6M and 1Y; otherwise it fails with the ValidationError naming the range and listing the valid ones. |
| LiveStatistics.MinDataPointsForRange | src/application/use-cases/get-live-statistics.use-case.ts:122-135 | The minimum is at least 20, and 20 for an unknown range. |
| LiveStatistics.LongerRangesNeedMorePoints | src/application/use-cases/get-live-statistics.use-case.ts:122-135 | 1M < 3M < 6M < 1Y in required points (20, 60, 120, 200). |
| LiveStatistics.ValidateDataQuality | src/application/use-cases/get-live-statistics.use-case.ts:102-109 | The point count check throws exactly when dataPoints is below the range's minimum, with a ValidationError stating both numbers. |
| LiveStatistics.LatestTimestamp | src/application/use-cases/get-live-statistics.use-case.ts:111 | The latest time is the largest record timestamp; there is none (-Infinity) exactly when there are no records. |
| LiveStatistics.StalenessCheck | src/application/use-cases/get-live-statistics.use-case.ts:111-119 | The staleness check throws the RangeError "Invalid time value" for no records, and otherwise exactly when the latest time is more than a day old and outside what a Date can hold. |
| LiveStatistics.RenderableRecordsPassStaleness | src/application/use-cases/get-live-statistics.use-case.ts:111-119 | Records whose times a Date can hold pass the staleness check, however old they are. |
| LiveStatistics.CountWhere | src/application/use-cases/get-live-statistics.use-case.ts:204-205 | A filter count is at most the length; it is the full length when all records qualify and 0 when none do. |
| LiveStatistics.Percentage | src/application/use-cases/get-live-statistics.use-case.ts:211-214 | A rounded percentage is in 0..100, 100 when all qualify and 0 when none do; NaN (None) exactly for 0/0. |
| LiveStatistics.AssessDataQuality | src/application/use-cases/get-live-statistics.use-case.ts:202-217 | qualityScore and completeness are in 0..100, NaN exactly for empty data, and 100 when every record is valid. The recommendation follows the point count. |
| LiveStatistics.RecommendationAfterValidation | src/application/use-cases/get-live-statistics.use-case.ts:219-227 | A history passing validation for 3M is at least "básicos", and one for 6M or 1Y at least "profesionales". |
| LiveStatistics.Enriched | src/application/use-cases/get-live-statistics.use-case.ts:137-152 | Enrichment shares the source object and keeps existing statistics, computing them only when absent and the data is non-empty. It always adds the quality report. |
| LiveStatistics.EnrichIsIdempotent | src/application/use-cases/get-live-statistics.use-case.ts:137-152 | Enriching an enriched history changes nothing. |
| LiveStatistics.EnrichData | src/application/use-cases/get-live-statistics.use-case.ts:137-152 | It returns Enriched(history) and overwrites scrapeTime in the shared source, the input's own. |
| LiveStatistics.TranslateLiveError | src/application/use-cases/get-live-statistics.use-case.ts:67-85 | Scraping and validation errors pass unchanged; anything else becomes ScrapingError("Error al obtener estadísticas en vivo de ICE", message). The result is always one of the two kinds. |
| LiveStatistics.LiveOutcome | src/application/use-cases/get-live-statistics.use-case.ts:22-86 | An invalid range fails before the cache is read. The repository is asked exactly on a miss for a valid range, and a hit returns the cached history unchanged. Failures are scraping or validation errors and store nothing, and a history failing the staleness check becomes the ScrapingError carrying "Invalid time value". A success was long enough for the range, has records, passed the staleness check, is Enriched and is stored with the TTL. Other keys are unchanged. |
| LiveStatistics.Refreshed | src/application/use-cases/get-live-statistics.use-case.ts:42-85 | After a miss, a failure (including the staleness check's RangeError) leaves the entries alone and a success is stored under the range's key. |
| LiveStatistics.ExecuteServesValidatedData | src/application/use-cases/get-live-statistics.use-case.ts:29-53 | If every cached history is enriched, has records and is long enough for its range, then so is everything execute() returns or stores. |
| LiveStatistics.EmptyHistoryIsRefused | src/application/use-cases/get-live-statistics.use-case.ts:111-118 | A fetched history without records is refused and not stored, whatever its dataPoints says. |
| LiveStatistics.FreshHistoryIsServedFromCache | src/application/use-cases/get-live-statistics.use-case.ts:29-53 | A freshly fetched history is served from the cache for its range until it expires. |
| LiveStatistics.CacheKeysAreDistinct | src/application/use-cases/get-live-statistics.use-case.ts:27 | Different ranges never share a cache entry. |
| LiveStatistics.GetLiveStatisticsUseCase.constructor | src/application/use-cases/get-live-statistics.use-case.ts:15-20 | The TTL defaults to 600000 ms. |
| LiveStatistics.GetLiveStatisticsUseCase.Execute | src/application/use-cases/get-live-statistics.use-case.ts:22-86 | The result, the repository call and the cache's entries are exactly LiveOutcome of the old entries. The shared source's scrapeTime is set only on a fresh success. |
| LiveStatistics.GetLiveStatisticsUseCase.Refresh | src/application/use-cases/get-live-statistics.use-case.ts:42-85 | The miss path's result and entries are exactly Refreshed of the entries the lookup left. |
| LiveStatistics.GetLiveStatisticsUseCase.Store | src/application/use-cases/get-live-statistics.use-case.ts:51-53 | The stored and returned history is the enriched one, under the range key for the TTL; the repository's source object gets the new scrape time. |
| ApiResponses.Classify | src/interfaces/controllers/coffee-price.controller.ts:40-43 | An AppError gives its own status, code and detail; anything else gives 500, INTERNAL_ERROR and the handler's fallback detail. |
| CoffeePriceController.GetCoffeePriceToday | src/interfaces/controllers/coffee-price.controller.ts:13-72 | A success is 200 with "Precio obtenido exitosamente" and the indicator. An AppError gives its status, code and detail, and anything else 500 / INTERNAL_ERROR / "Internal server error". The message is error.message for an Error and the fixed Spanish text otherwise. |
| CoffeePriceController.CoffeePriceRequestEndToEnd | src/interfaces/controllers/coffee-price.controller.ts:13-72 | Behind the use case, a served indicator is a 200. A failed scrape reaches the client as a 500 SCRAPE_FAILED with the use case's message and the original error text as detail. |
| ErrorMiddleware.Handle | src/interfaces/middleware/error.middleware.ts:8-48 | An AppError is answered with its status, message, code and detail. Any other error gets 500, "Internal server error", INTERNAL_ERROR and its message as detail. success is always false. |
| ErrorMiddleware.NotFound | src/interfaces/middleware/error.middleware.ts:50-63 | The reply is 404 NOT_FOUND "Endpoint not found" with detail "Path <path> not found". |
| ErrorMiddleware.HandledStatusesAreErrors | src/interfaces/middleware/error.middleware.ts:21-47 | A subclass error or a plain error is answered with 400, 500 or 503. |
| ErrorMiddleware.HandleAgreesWithCoffeePriceController | src/interfaces/middleware/error.middleware.ts:21-33 | For an AppError the middleware and the coffee-price handler give the same status, message, code and detail. |
| LiveStatisticsController.TimeRangeOf | src/interfaces/controllers/live-statistics.controller.ts:16 | An absent or empty range means "1Y". |
| LiveStatisticsController.ValidateQueryParameters | src/interfaces/controllers/live-statistics.controller.ts:123-139 | It passes exactly when a present range is one of the four and a present force is true/false in any case. The range is checked first, and each failure is its own 400 ValidationError. |
| LiveStatisticsController.ValidQueryNamesValidRange | src/interfaces/controllers/live-statistics.controller.ts:16-30 | A query passing the controller's check always names a range the use case accepts. |
| LiveStatisticsController.RequestOutcome | src/interfaces/controllers/live-statistics.controller.ts:18-30 | What the catch receives is the query's ValidationError when the query fails the check, and otherwise what execute() yields. |
| LiveStatisticsController.CalculateDataFreshness | src/interfaces/controllers/live-statistics.controller.ts:141-153 | "Muy reciente" exactly when under 5 minutes have passed. "Desactualizado" exactly when 240 or more have passed or the date does not parse. |
| LiveStatisticsController.OlderIsNeverFresher | src/interfaces/controllers/live-statistics.controller.ts:144-152 | Older data never gets a fresher band. |
| LiveStatisticsController.ErrorSuggestions | src/interfaces/controllers/live-statistics.controller.ts:161-195 | There are 2 lines for a ValidationError and 3 otherwise, plus one for 1Y or 6M, always ending with "Contacte al administrador". |
| LiveStatisticsController.GetErrorSuggestions | src/interfaces/controllers/live-statistics.controller.ts:161-195 | The pushes build exactly ErrorSuggestions. |
| LiveStatisticsController.GetLiveStatistics | src/interfaces/controllers/live-statistics.controller.ts:13-121 | It succeeds exactly when the query is valid and execute() succeeds: 200 with the history, its freshness, the next update 10 minutes on, and the refresh link. An invalid query is a 400 with its message. A failure carries the error's message, an AppError's own status, code and detail, the request id, and exactly the suggestions for that error and range, ending with the administrator line. A non-AppError is 500 INTERNAL_ERROR "Error interno del servidor". |
| LiveStatisticsController.InvalidQueryNeverReachesUseCase | src/interfaces/controllers/live-statistics.controller.ts:26-30 | A query failing the check gets the same reply whatever the use case would do. |
| LiveStatisticsController.RepliedStatuses | src/interfaces/controllers/live-statistics.controller.ts:74-119 | For any use-case result that fails only with scraping or validation errors, the status is 200, 400 or 500, and 200 exactly on success. |
| LiveStatisticsController.LiveStatisticsStatuses | src/interfaces/controllers/live-statistics.controller.ts:74-119 | Behind the live-statistics use case the status is 200, 400 or 500 only, and 200 exactly on success. |
| JsRuntime.ParseInt | src/domain/services/normalization.service.ts:51 | parseInt is NaN exactly when no digit follows the optional sign. |
| JsRuntime.ParseFloat | src/domain/services/normalization.service.ts:57 | parseFloat is NaN exactly when neither a digit nor "." followed by a digit starts the text. |
| JsRuntime.ReplaceFirstSpec | src/domain/services/normalization.service.ts:50 | A string pattern replaces only its first occurrence; a string without it comes back unchanged. |
| JsRuntime.MathRound | src/application/use-cases/get-live-statistics.use-case.ts:211 | Math.round(x) is the integer within half of x, with halves rounded up. |
| JsRuntime.ToFixedClose | src/infrastructure/repositories/ice-futures.repository.ts:61 | toFixed(d) is within half a unit of the last place of x. |
| JsRuntime.ToFixedOnGrid | src/infrastructure/repositories/ice-futures.repository.ts:61 | toFixed(d) leaves a value with d decimals unchanged. |
| JsRuntime.ToFixedMonotone | src/infrastructure/repositories/ice-futures.repository.ts:61 | toFixed is monotone. |

## Left out

- HTTP, the browser and the DOM are abstracted as described above, as are the request and response objects and the `delay` waits. The waits are recorded as a list of delays, and nothing sleeps.
- Logging is left out: every `logger.*` call. The staleness check in `validateDataQuality` is modelled only for the RangeError that building its warning can throw; the warning itself is not.
- LiveStatistics.StalenessCheck: JavaScript numbers are doubles, so timestamps beyond 2^53 lose precision. The model takes them as exact integers.
- The wall clock is a parameter, and one reading serves a whole operation. The source reads `Date.now()` several times: for example, `set` and the `get` before it may see different instants.
- `new Date(...)` parsing and `getTime()` for a calendar month are host functions (`parseDate`, `parseInstant`, `monthStart`). The model only relies on what the source checks: whether parsing succeeded.
- `Math.sqrt` is the parameter `sqrt`, so nothing is proved about `volatility` beyond how it is rounded.
- Numbers are exact reals and integers, not IEEE doubles. Binary rounding effects are not modelled: `toFixed` rounds the exact decimal value half away from zero, and `Math.round` rounds halves up. NaN and the infinities are modelled where the code can produce them: the trend and 30-day change divisions, and the quality percentages.
- `toLowerCase` is modelled on ASCII letters only.
- `parseFloat("Infinity")` is not modelled; it is not a number here.
- Dates outside the years 0..9999 are not modelled.
- A value thrown by a `catch` block that is not an `Error` is modelled as its `String(...)` text. Its other properties are not modelled.
- The source keeps one cache for both use cases. The model gives each use case its own typed cache, so entries of one type are never read as the other. The key spaces are disjoint anyway.
- In JSON, `undefined` fields disappear, and `null` and absent are different. The model maps both to None.
- IceFutures.ParseContractDate: requires a 5-character contract code, 3 letters then 2 digits. Its only caller passes a match of `[A-Za-z]{3}\d{2}`, so other strings, for which `parseInt` of the suffix could be NaN, are not modelled.
- IceFutures.StatisticsSummarizePrices: states `minPrice <= avgPrice <= maxPrice` only when the extreme prices are whole cents (see `AveragePriceWithinExtremes`). The average is rounded to cents and the extremes are not, so the average can leave their range by up to half a cent. Without that condition, the contract states the half-cent bound.
- The queue of concurrent requests is not modelled. Each `execute` runs alone from cache read to cache write.
- The query parameters `range` and `force` are modelled as strings. Express can also deliver arrays for repeated parameters, and those are not modelled.
- A unit test of the live-statistics use case feeds 15 points for "1Y" and expects success. The code rejects anything below 200 points for "1Y" (`src/application/use-cases/get-live-statistics.use-case.ts:104`), and the model follows the code.
- `GetLiveStatisticsUseCase.execute` defaults its range to "1M" when called without one; the model always passes the range, as the controller does.
- `requestId` (`generateRequestId?.() || req_<now>`), the processing time and the ISO timestamps are taken from the request context.
- `calculateNextUpdateTime` is modelled as the clock plus ten minutes, rendered by the host.

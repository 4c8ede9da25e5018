/**
 * The scraper of the coffee federation's home page. The page is reduced to the
 * items of its indicator list; each attempt either fails in the HTTP client or
 * yields such a list, from which the four indicators are picked by label. A
 * bounded loop retries failed attempts with a fixed delay and classifies the
 * last error once the attempts are spent.
 */
module FederacionCafeteros {
  import opened Wrappers
  import opened JsRuntime
  import opened AppErrors
  import opened CoffeePriceEntity

  /**
   * One `li` of the indicator list: the text of its `.name` elements, the text
   * of all its `strong` elements, the text of its `.detail` elements, and the
   * `href` of the first link inside `.detail`, if any.
   */
  datatype ListItem = ListItem(nameText: string, strongText: string, detailText: string, detailHref: Option<string>)

  /** The items of `.col-12.lista-container ul.lista`, or None when the page has no such list. */
  type Page = Option<seq<ListItem>>

  /** What one request to the site yields. */
  datatype FetchOutcome =
    | Response(page: Page)                                   // the page was fetched
    | TransportFailure(code: Option<string>, message: string) // the HTTP client failed (timeout, refused, 5xx)
    | OtherFailure(message: string)                          // any other Error thrown while fetching

  // ---------------------------------------------------------------------------
  // Dates in the detail text
  // ---------------------------------------------------------------------------

  /** `\d{4}-\d{2}-\d{2}` matches at index `i` of `s`. */
  predicate IsoDateAt(s: string, i: int) {
    0 <= i && i + 10 <= |s| && IsIsoDateShape(s[i..i + 10])
  }

  /** The leftmost index at or after `from` where an ISO date starts. */
  function FirstIsoDateFrom(s: string, from: nat): (r: Option<nat>)
    decreases |s| - from
    ensures r.Some? ==> from <= r.value && IsoDateAt(s, r.value)
    ensures r.Some? ==> forall j :: from <= j < r.value ==> !IsoDateAt(s, j)
    ensures r.None? ==> forall j :: from <= j ==> !IsoDateAt(s, j)
  {
    if from + 10 > |s| then None
    else if IsIsoDateShape(s[from..from + 10]) then Some(from)
    else FirstIsoDateFrom(s, from + 1)
  }

  /**
   * `extractDateFromDetail`: the first `YYYY-MM-DD` in the detail text, or
   * today's date when there is none.
   */
  function ExtractDateFromDetail(detailText: string, today: Date): (d: string)
    ensures IsIsoDateShape(d)
    ensures (exists i :: IsoDateAt(detailText, i)) ==> Contains(detailText, d)
    ensures (forall i :: !IsoDateAt(detailText, i)) ==> d == IsoDate(today)
  {
    match FirstIsoDateFrom(detailText, 0)
    case Some(i) =>
      assert OccursAt(detailText, detailText[i..i + 10], i);
      detailText[i..i + 10]
    case None => IsoDate(today)
  }

  /** The date returned is the leftmost one: no date starts before it. */
  lemma ExtractedDateIsLeftmost(detailText: string, today: Date, i: nat)
    requires IsoDateAt(detailText, i) && forall j :: 0 <= j < i ==> !IsoDateAt(detailText, j)
    ensures ExtractDateFromDetail(detailText, today) == detailText[i..i + 10]
  {
    var r := FirstIsoDateFrom(detailText, 0);
    assert r.Some?;
  }

  // ---------------------------------------------------------------------------
  // Picking the indicators
  // ---------------------------------------------------------------------------

  /** The item's lower-cased name contains `marker`. */
  predicate Labelled(item: ListItem, marker: string) {
    Contains(ToLower(item.nameText), marker)
  }

  /** `.filter(name includes marker).first()`: the index of the first item so labelled, searching from `from`. */
  function FirstLabelled(items: seq<ListItem>, marker: string, from: nat): (r: Option<nat>)
    decreases |items| - from
    ensures r.Some? ==> from <= r.value < |items| && Labelled(items[r.value], marker)
    ensures r.Some? ==> forall j :: from <= j < r.value ==> !Labelled(items[j], marker)
    ensures r.None? ==> forall j :: from <= j < |items| ==> !Labelled(items[j], marker)
  {
    if from >= |items| then None
    else if Labelled(items[from], marker) then Some(from)
    else FirstLabelled(items, marker, from + 1)
  }

  /** The item an indicator is read from: the first one whose name contains its marker. */
  function Pick(items: seq<ListItem>, marker: string): Option<ListItem> {
    match FirstLabelled(items, marker, 0)
    case Some(i) => Some(items[i])
    case None => None
  }

  const ReferencePriceMarker: string := "precio interno"
  const NewYorkMarker: string := "bolsa de ny"
  const ExchangeRateMarker: string := "tasa de cambio"
  const MecicMarker: string := "mecic"

  /** `!value` on an optional string: absent or empty. */
  predicate Missing(value: Option<string>) {
    value.None? || value.value == ""
  }

  /** The fields an indicator item contributes: its trimmed strong text and the date of its detail. */
  function ValueOf(item: Option<ListItem>): Option<string> {
    if item.Some? then Some(Trim(item.value.strongText)) else None
  }

  function DateOf(item: Option<ListItem>, today: Date): Option<string> {
    if item.Some? then Some(ExtractDateFromDetail(item.value.detailText, today)) else None
  }

  /** The record filled field by field from the picked items; fields of a missing item stay absent. */
  function Collect(items: seq<ListItem>, today: Date): (d: ScrapedData) {
    var reference := Pick(items, ReferencePriceMarker);
    var newYork := Pick(items, NewYorkMarker);
    var exchange := Pick(items, ExchangeRateMarker);
    var mecic := Pick(items, MecicMarker);
    ScrapedData(
      ValueOf(reference), DateOf(reference, today),
      ValueOf(newYork), DateOf(newYork, today),
      ValueOf(exchange), DateOf(exchange, today),
      ValueOf(mecic), DateOf(mecic, today),
      if reference.Some? then reference.value.detailHref else None)
  }

  const ExtractionFailed: string := "Error extracting coffee price data from HTML"

  /**
   * `extractCoffeePriceData`: fails without the list container, or when the
   * reference price, the New York quote or the exchange rate is missing or
   * empty; MeCIC is optional. Both failures are rethrown as a ScrapingError
   * whose detail is the original message.
   */
  function ExtractCoffeePriceData(page: Page, today: Date): (r: Result<ScrapedData, AppError>)
    ensures page.None? ==> r == Failure(NewScrapingError(ExtractionFailed, Some("Lista container not found")))
    ensures page.Some? ==> (r.Success? <==> (
              && !Missing(ValueOf(Pick(page.value, ReferencePriceMarker)))
              && !Missing(ValueOf(Pick(page.value, NewYorkMarker)))
              && !Missing(ValueOf(Pick(page.value, ExchangeRateMarker)))))
    ensures page.Some? && r.Failure? ==> r.error == NewScrapingError(ExtractionFailed, Some("Missing essential price data"))
    ensures r.Success? ==> r.value == Collect(page.value, today)
  {
    if page.None? then Failure(NewScrapingError(ExtractionFailed, Some("Lista container not found")))
    else
      var data := Collect(page.value, today);
      if Missing(data.precioInternoReferencia) || Missing(data.bolsaNY) || Missing(data.tasaCambio) then
        Failure(NewScrapingError(ExtractionFailed, Some("Missing essential price data")))
      else Success(data)
  }

  /**
   * The reference price, its date and the PDF link come from the first item
   * labelled as the reference price: its trimmed strong text, the date in its
   * detail text, and its link.
   */
  lemma ExtractedFieldsComeFromFirstLabelledItem(page: Page, today: Date)
    requires ExtractCoffeePriceData(page, today).Success?
    ensures var d := ExtractCoffeePriceData(page, today).value;
            var i := FirstLabelled(page.value, ReferencePriceMarker, 0);
            i.Some? && d.precioInternoReferencia == Some(Trim(page.value[i.value].strongText))
            && d.precioInternoFecha == Some(ExtractDateFromDetail(page.value[i.value].detailText, today))
            && IsIsoDateShape(d.precioInternoFecha.value)
            && d.pdfUrl == page.value[i.value].detailHref
  {
  }

  // ---------------------------------------------------------------------------
  // The retry loop
  // ---------------------------------------------------------------------------

  /**
   * The body of one attempt: fetch, then extract. A failure is the value the
   * `catch` receives; an extraction failure is a ScrapingError and is retried
   * like a network failure.
   */
  function Attempt(outcome: FetchOutcome, today: Date): (r: Result<ScrapedData, Thrown>)
    ensures outcome.TransportFailure? ==> r == Failure(AxiosError(outcome.code, outcome.message))
    ensures outcome.OtherFailure? ==> r == Failure(PlainError(outcome.message))
    ensures outcome.Response? ==> r.Success? == ExtractCoffeePriceData(outcome.page, today).Success?
  {
    match outcome
    case TransportFailure(code, message) => Failure(AxiosError(code, message))
    case OtherFailure(message) => Failure(PlainError(message))
    case Response(page) =>
      match ExtractCoffeePriceData(page, today)
      case Success(data) => Success(data)
      case Failure(e) => Failure(App(e))
  }

  /** `${error.code}`: an absent code renders as "undefined". */
  function CodeText(code: Option<string>): string {
    if code.Some? then code.value else "undefined"
  }

  /**
   * The error thrown once `maxRetries` attempts have failed, the last with
   * `last`: a NetworkError carrying "code: message" for an HTTP-client error,
   * a ScrapingError carrying the message otherwise.
   */
  function Exhausted(maxRetries: nat, last: Thrown): (e: AppError)
    requires last.IsError()
    ensures last.AxiosError? ==> e.kind.Network? && e.StatusCode() == 503
    ensures last.AxiosError? ==> e.detail == Some(CodeText(last.code) + ": " + last.message)
    ensures !last.AxiosError? ==> e.kind.Scraping? && e.detail == Some(last.Text())
  {
    if last.AxiosError? then
      NewNetworkError("Network error after " + NatToString(maxRetries) + " attempts", Some(CodeText(last.code) + ": " + last.message))
    else
      NewScrapingError("Scraping failed after " + NatToString(maxRetries) + " attempts", Some(last.Text()))
  }

  /** A page that fails to parse ends as a ScrapingError naming the extraction failure, never as a NetworkError. */
  lemma MalformedPageIsScrapingError(maxRetries: nat, page: Page, today: Date)
    requires ExtractCoffeePriceData(page, today).Failure?
    ensures Attempt(Response(page), today).Failure?
    ensures Exhausted(maxRetries, Attempt(Response(page), today).error).kind.Scraping?
    ensures Exhausted(maxRetries, Attempt(Response(page), today).error).detail == Some(ExtractionFailed)
  {
  }

  /**
   * `scrapeCoffeePrice`: runs attempts 1..maxRetries in turn and returns the
   * data of the first that succeeds, waiting `retryDelayMs` between attempts.
   * `attempt(k)` is what the body of attempt `k` yields: for the federation's
   * site, `Attempt(site(k), today)`. `attempts` counts the attempts made and
   * `delays` lists the waits.
   */
  method ScrapeCoffeePrice(maxRetries: int, retryDelayMs: int, attempt: int -> Result<ScrapedData, Thrown>)
    returns (r: Result<ScrapedData, AppError>, attempts: nat, delays: seq<int>)
    requires forall k :: attempt(k).Failure? ==> attempt(k).error.IsError()
    ensures maxRetries <= 0 ==> attempts == 0 && r == Failure(NewScrapingError("Unknown scraping error", None))
    ensures attempts <= maxRetries || attempts == 0
    ensures forall k :: 1 <= k < attempts ==> attempt(k).Failure?
    ensures r.Success? <==> attempts >= 1 && attempt(attempts).Success?
    ensures r.Success? ==> r.value == attempt(attempts).value
    ensures r.Failure? && maxRetries >= 1 ==>
              attempts == maxRetries && r.error == Exhausted(maxRetries, attempt(maxRetries).error)
    ensures attempts >= 1 ==> |delays| == attempts - 1
    ensures attempts == 0 ==> delays == []
    ensures forall k :: 0 <= k < |delays| ==> delays[k] == retryDelayMs
  {
    attempts, delays := 0, [];
    var lastError: Option<Thrown> := None;
    var k := 1;
    while k <= maxRetries
      invariant 1 <= k && (k <= maxRetries + 1 || k == 1)
      invariant attempts == k - 1
      invariant forall j :: 1 <= j < k ==> attempt(j).Failure?
      invariant lastError.Some? <==> k > 1
      invariant lastError.Some? ==> lastError.value == attempt(k - 1).error
      invariant k == 1 ==> delays == []
      invariant k > 1 ==> |delays| == if k <= maxRetries then k - 1 else k - 2
      invariant forall j :: 0 <= j < |delays| ==> delays[j] == retryDelayMs
    {
      attempts := k;
      var outcome := attempt(k);
      if outcome.Success? {
        return Success(outcome.value), attempts, delays;
      }
      lastError := Some(outcome.error);
      if k < maxRetries {
        delays := delays + [retryDelayMs];
      }
      k := k + 1;
    }
    if lastError.Some? {
      return Failure(Exhausted(maxRetries, lastError.value)), attempts, delays;
    }
    return Failure(NewScrapingError("Unknown scraping error", None)), attempts, delays;
  }

  /** The attempts against the federation's site, as the retry loop sees them; every failure among them is an Error. */
  function SiteAttempts(site: int -> FetchOutcome, today: Date): (attempt: int -> Result<ScrapedData, Thrown>)
    ensures forall k :: attempt(k) == Attempt(site(k), today)
    ensures forall k :: attempt(k).Failure? ==> attempt(k).error.IsError()
  {
    k => Attempt(site(k), today)
  }
}

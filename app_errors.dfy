/**
 * The error taxonomy of the API: a base application error carrying a
 * machine-readable code, an HTTP status and an optional detail, and three
 * subclasses with fixed codes and statuses. Also the values a `catch` block can
 * receive: one of these errors, another `Error` (a transport error from the HTTP
 * client is one with a `code`), or a value that is not an `Error` at all.
 */
module AppErrors {
  import opened Wrappers

  /** The class an error was constructed from. The base class takes its code and status as arguments. */
  datatype ErrorKind = Base(code: string, statusCode: int) | Scraping | Validation | Network

  datatype AppError = AppError(kind: ErrorKind, message: string, detail: Option<string>) {

    /** The `code` field: fixed by each subclass. */
    function Code(): string {
      match kind
      case Base(c, _) => c
      case Scraping => "SCRAPE_FAILED"
      case Validation => "VALIDATION_ERROR"
      case Network => "NETWORK_ERROR"
    }

    /** The `statusCode` field: fixed by each subclass. */
    function StatusCode(): int {
      match kind
      case Base(_, s) => s
      case Scraping => 500
      case Validation => 400
      case Network => 503
    }
  }

  /** `new AppError(message, code, statusCode?, detail?)`: the status defaults to 500. */
  function NewAppError(message: string, code: string, statusCode: Option<int>, detail: Option<string>): (e: AppError)
    ensures e.kind.Base? && e.message == message && e.detail == detail
    ensures e.Code() == code
    ensures statusCode.None? ==> e.StatusCode() == 500
    ensures statusCode.Some? ==> e.StatusCode() == statusCode.value
  {
    AppError(Base(code, statusCode.GetOr(500)), message, detail)
  }

  /** `new ScrapingError(message, detail?)`. */
  function NewScrapingError(message: string, detail: Option<string>): (e: AppError)
    ensures e.kind.Scraping? && e.message == message && e.detail == detail
    ensures e.Code() == "SCRAPE_FAILED" && e.StatusCode() == 500
  {
    AppError(Scraping, message, detail)
  }

  /** `new ValidationError(message, detail?)`. */
  function NewValidationError(message: string, detail: Option<string>): (e: AppError)
    ensures e.kind.Validation? && e.message == message && e.detail == detail
    ensures e.Code() == "VALIDATION_ERROR" && e.StatusCode() == 400
  {
    AppError(Validation, message, detail)
  }

  /** `new NetworkError(message, detail?)`. */
  function NewNetworkError(message: string, detail: Option<string>): (e: AppError)
    ensures e.kind.Network? && e.message == message && e.detail == detail
    ensures e.Code() == "NETWORK_ERROR" && e.StatusCode() == 503
  {
    AppError(Network, message, detail)
  }

  /** A value caught by a `catch` block. */
  datatype Thrown =
    | App(error: AppError)                              // an AppError or one of its subclasses
    | PlainError(message: string)                       // any other Error
    | AxiosError(code: Option<string>, message: string) // an Error raised by the HTTP client
    | NonError(text: string)                            // a thrown non-Error value; `text` is String(value)
  {
    /** `error instanceof Error`. */
    predicate IsError() {
      !NonError?
    }

    /** `error instanceof Error ? error.message : String(error)`. */
    function Text(): string {
      match this
      case App(e) => e.message
      case PlainError(m) => m
      case AxiosError(_, m) => m
      case NonError(t) => t
    }
  }

  /**
   * The three subclasses, and only they, have a fixed code and status; the
   * status of each lies in the class its meaning calls for (4xx for a bad
   * request, 5xx for a failure on this side or upstream).
   */
  lemma SubclassStatuses(e: AppError)
    requires !e.kind.Base?
    ensures e.kind.Validation? <==> 400 <= e.StatusCode() < 500
    ensures e.kind.Network? <==> e.StatusCode() == 503
    ensures e.kind.Scraping? <==> e.Code() == "SCRAPE_FAILED"
  {
  }
}

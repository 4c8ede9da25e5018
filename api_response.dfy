/**
 * The JSON envelope every endpoint answers with, and the status it is sent
 * with. The HTTP layer itself is not modelled: a handler returns a `Reply`
 * where the server calls `res.status(s).json(body)`.
 */
module ApiResponses {
  import opened Wrappers
  import opened AppErrors

  const ApiVersion := "1.0.0"
  const Author := "Juan Felipe Reyes Sanchez"
  const Github := "https://github.com/felipesanchez-dev"
  const InternalErrorCode := "INTERNAL_ERROR"

  /** The `error` member of a response. */
  datatype ErrorInfo = ErrorInfo(code: string, detail: Option<string>, requestId: Option<string>, suggestions: Option<seq<string>>)

  /** `ApiResponse<T>`: `data` and `error` are None where the handler leaves them out or sets them to null. */
  datatype ApiResponse<T> = ApiResponse(
    success: bool,
    message: string,
    data: Option<T>,
    error: Option<ErrorInfo>,
    timestamp: string,
    version: string,
    author: string,
    github: string)

  datatype Reply<T> = Reply(status: int, body: ApiResponse<T>)

  /** The fixed signature every response carries. */
  predicate Signed<T>(b: ApiResponse<T>) {
    b.version == ApiVersion && b.author == Author && b.github == Github
  }

  function Succeeded<T>(message: string, data: T, timestamp: string): (r: Reply<T>)
    ensures r.status == 200 && r.body.success && Signed(r.body)
    ensures r.body.message == message && r.body.data == Some(data) && r.body.error.None? && r.body.timestamp == timestamp
  {
    Reply(200, ApiResponse(true, message, Some(data), None, timestamp, ApiVersion, Author, Github))
  }

  function Failed<T>(status: int, message: string, error: ErrorInfo, timestamp: string): (r: Reply<T>)
    ensures r.status == status && !r.body.success && Signed(r.body)
    ensures r.body.message == message && r.body.data.None? && r.body.error == Some(error) && r.body.timestamp == timestamp
  {
    Reply(status, ApiResponse(false, message, None, Some(error), timestamp, ApiVersion, Author, Github))
  }

  /**
   * The status, code and detail of a caught value: an application error's own,
   * otherwise 500, `INTERNAL_ERROR` and the handler's fallback detail.
   */
  function Classify(e: Thrown, fallbackDetail: Option<string>): (c: (int, string, Option<string>))
    ensures e.App? ==> c == (e.error.StatusCode(), e.error.Code(), e.error.detail)
    ensures !e.App? ==> c == (500, InternalErrorCode, fallbackDetail)
  {
    if e.App? then (e.error.StatusCode(), e.error.Code(), e.error.detail)
    else (500, InternalErrorCode, fallbackDetail)
  }

  /** A use case's result as the handler's `catch` sees it. */
  function Raised<T>(r: Result<T, AppError>): (t: Result<T, Thrown>)
    ensures t.Success? <==> r.Success?
    ensures t.Success? ==> t.value == r.value
    ensures t.Failure? ==> t.error == App(r.error)
  {
    match r
    case Success(v) => Success(v)
    case Failure(e) => Failure(App(e))
  }
}

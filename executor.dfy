/**
 * `ApiExecutor`: the single place that turns the outcome of one HTTP exchange
 * into a `PexKitResult`. The HTTP client itself is not modelled; a call is
 * described by what came back from it: a response (status, header lookup,
 * body, request URL) or the exception the transport threw.
 */
module Executor {
  import opened KotlinLang
  import opened Model
  import opened Errors
  import opened Results

  /** The response body as the client reads it: the text, or the exception reading it threw. */
  datatype Body = BodyText(text: string) | BodyUnreadable(exception: Throwable)

  /**
   * A received response. `header` is ktor's `Headers.get`, which already
   * ignores the case of the name.
   */
  datatype HttpResponse = HttpResponse(
    status: Int32,
    header: string -> Option<string>,
    body: Body,
    requestUrl: string)

  /** What `request()` did: returned a response, or threw an `Exception`. */
  datatype TransportOutcome = Responded(response: HttpResponse) | TransportFailed(exception: Throwable)

  /** What `response.body<T>()` did with the body text: decoded a `T`, or threw. */
  datatype Decoded<+T> = Decoded(value: T) | DecodeFailed(exception: Throwable)

  const LIMIT_HEADER := "X-Ratelimit-Limit"
  const REMAINING_HEADER := "X-Ratelimit-Remaining"
  const RESET_HEADER := "X-Ratelimit-Reset"
  const RETRY_AFTER_HEADER := "Retry-After"

  /** ktor's `HttpStatusCode.isSuccess()`: the 2xx range. */
  predicate IsSuccess(status: int)
  {
    200 <= status < 300
  }

  /** `headers[name]?.toIntOrNull()`. */
  function IntHeader(header: string -> Option<string>, name: string): Option<Int32>
  {
    match header(name)
    case None => None
    case Some(v) => ToIntOrNull(v)
  }

  /** `headers[name]?.toLongOrNull()`. */
  function LongHeader(header: string -> Option<string>, name: string): Option<Int64>
  {
    match header(name)
    case None => None
    case Some(v) => ToLongOrNull(v)
  }

  /**
   * `extractRateLimitInfo`: each field is its header parsed as a decimal
   * number of the field's width; a missing or unparseable header gives 0.
   */
  function ExtractRateLimitInfo(header: string -> Option<string>): (info: RateLimitInfo)
    ensures header(LIMIT_HEADER).Some? && ToIntOrNull(header(LIMIT_HEADER).value).Some?
      ==> info.limit == ToIntOrNull(header(LIMIT_HEADER).value).value
    ensures header(LIMIT_HEADER).None? || ToIntOrNull(header(LIMIT_HEADER).value).None?
      ==> info.limit == 0
    ensures header(REMAINING_HEADER).Some? && ToIntOrNull(header(REMAINING_HEADER).value).Some?
      ==> info.remaining == ToIntOrNull(header(REMAINING_HEADER).value).value
    ensures header(REMAINING_HEADER).None? || ToIntOrNull(header(REMAINING_HEADER).value).None?
      ==> info.remaining == 0
    ensures header(RESET_HEADER).Some? && ToLongOrNull(header(RESET_HEADER).value).Some?
      ==> info.reset == ToLongOrNull(header(RESET_HEADER).value).value
    ensures header(RESET_HEADER).None? || ToLongOrNull(header(RESET_HEADER).value).None?
      ==> info.reset == 0
  {
    var limit := IntHeader(header, LIMIT_HEADER);
    var remaining := IntHeader(header, REMAINING_HEADER);
    var reset := LongHeader(header, RESET_HEADER);
    RateLimitInfo(
      if limit.Some? then limit.value else 0,
      if remaining.Some? then remaining.value else 0,
      if reset.Some? then reset.value else 0)
  }

  /** `bodyAsText()` inside `try`: the text, or `null` when reading it threw. */
  function BodyOrNull(body: Body): (text: Option<string>)
    ensures text.Some? <==> body.BodyText?
    ensures text.Some? ==> text.value == body.text
  {
    match body
    case BodyText(t) => Some(t)
    case BodyUnreadable(_) => None
  }

  /**
   * `parseError`: the error kind for a non-success status. 401, 403, 404 and
   * 429 have their own kinds, any 5xx is a server error, any other status is
   * unknown and keeps the status and the body when it could be read.
   */
  function ParseError(response: HttpResponse): (e: PexKitError)
    ensures response.status == 401 <==> e == Unauthorized()
    ensures response.status == 403 <==> e == Forbidden()
    ensures response.status == 404 <==> e.NotFound?
    ensures e.NotFound? ==> e == NotFound(response.requestUrl)
    ensures response.status == 429 <==> e.RateLimited?
    ensures e.RateLimited? ==> e == RateLimited(IntHeader(response.header, RETRY_AFTER_HEADER))
    ensures 500 <= response.status <= 599 <==> e.ServerError?
    ensures e.ServerError? ==> e == ServerError(response.status)
    ensures e.Unknown? <==> response.status !in {401, 403, 404, 429} && !(500 <= response.status <= 599)
    ensures e.Unknown? ==> e == Unknown(Some(response.status), BodyOrNull(response.body))
    ensures !e.NetworkError?
  {
    var statusCode := response.status;
    var body := BodyOrNull(response.body);
    if statusCode == 401 then Unauthorized()
    else if statusCode == 403 then Forbidden()
    else if statusCode == 404 then NotFound(response.requestUrl)
    else if statusCode == 429 then RateLimited(IntHeader(response.header, RETRY_AFTER_HEADER))
    else if 500 <= statusCode <= 599 then ServerError(statusCode)
    else Unknown(Some(statusCode), body)
  }

  /**
   * `executeRequest`: a 2xx response whose body decodes is a success carrying
   * the response's rate limit; any other response is classified by
   * `ParseError`; an exception from the transport, from reading the body or
   * from decoding it becomes a network error with that exception as cause.
   */
  function Classify<T>(outcome: TransportOutcome, decode: string -> Decoded<T>): (r: PexKitResult<T>)
    ensures outcome.TransportFailed? ==> r == Failure(NetworkError(outcome.exception))
    ensures outcome.Responded? && !IsSuccess(outcome.response.status)
      ==> r == Failure(ParseError(outcome.response))
    ensures r.Success? <==>
      outcome.Responded? && IsSuccess(outcome.response.status)
      && outcome.response.body.BodyText? && decode(outcome.response.body.text).Decoded?
    ensures r.Success? ==>
      r.data == decode(outcome.response.body.text).value
      && r.rateLimit == ExtractRateLimitInfo(outcome.response.header)
    ensures outcome.Responded? && IsSuccess(outcome.response.status)
      && outcome.response.body.BodyUnreadable?
      ==> r == Failure(NetworkError(outcome.response.body.exception))
    ensures outcome.Responded? && IsSuccess(outcome.response.status)
      && outcome.response.body.BodyText? && decode(outcome.response.body.text).DecodeFailed?
      ==> r == Failure(NetworkError(decode(outcome.response.body.text).exception))
  {
    match outcome
    case TransportFailed(e) => Failure(NetworkError(e))
    case Responded(response) =>
      var rateLimit := ExtractRateLimitInfo(response.header);
      if IsSuccess(response.status) then
        match response.body
        case BodyUnreadable(e) => Failure(NetworkError(e))
        case BodyText(text) =>
          match decode(text)
          case Decoded(data) => Success(data, rateLimit)
          case DecodeFailed(e) => Failure(NetworkError(e))
      else
        Failure(ParseError(response))
  }

  // ---------------------------------------------------------------------------
  // Properties of the classification

  /** The status a failure stands for, when the error kind fixes one. */
  function ErrorStatus(e: PexKitError): Option<int>
  {
    match e
    case Unauthorized(_) => Some(401)
    case Forbidden(_) => Some(403)
    case NotFound(_, _) => Some(404)
    case RateLimited(_, _) => Some(429)
    case ServerError(code, _) => Some(code)
    case NetworkError(_, _) => None
    case Unknown(status, _, _) => if status.Some? then Some(status.value) else None
  }

  /** The error built for a non-success response always names that response's status. */
  lemma ParseErrorKeepsStatus(response: HttpResponse)
    ensures ErrorStatus(ParseError(response)) == Some(response.status as int)
  {
  }

  /**
   * A network error arises exactly when an exception was thrown: by the
   * transport, or, for a 2xx response, by reading or decoding the body.
   */
  lemma NetworkErrorExactlyOnException<T>(outcome: TransportOutcome, decode: string -> Decoded<T>)
    ensures var r := Classify(outcome, decode);
      (r.Failure? && r.error.NetworkError?) <==>
        (outcome.TransportFailed?
         || (IsSuccess(outcome.response.status)
             && (outcome.response.body.BodyUnreadable? || decode(outcome.response.body.text).DecodeFailed?)))
  {
    var r := Classify(outcome, decode);
    if outcome.Responded? && !IsSuccess(outcome.response.status) {
      assert !ParseError(outcome.response).NetworkError?;
    }
  }

  /** A non-success response is always a failure, and its status can be read back from the error. */
  lemma FailureStatusRecoverable<T>(outcome: TransportOutcome, decode: string -> Decoded<T>)
    requires outcome.Responded? && !IsSuccess(outcome.response.status)
    ensures Classify(outcome, decode).Failure?
    ensures ErrorStatus(Classify(outcome, decode).error) == Some(outcome.response.status as int)
  {
    ParseErrorKeepsStatus(outcome.response);
  }

  /** Headers that are renderings of numbers in range are read back exactly. */
  lemma RateLimitHeadersRoundTrip(header: string -> Option<string>, limit: Int32, remaining: Int32, reset: Int64)
    requires header(LIMIT_HEADER) == Some(IntToString(limit))
    requires header(REMAINING_HEADER) == Some(IntToString(remaining))
    requires header(RESET_HEADER) == Some(IntToString(reset))
    ensures ExtractRateLimitInfo(header) == RateLimitInfo(limit, remaining, reset)
  {
    IntRoundTrip(limit);
    IntRoundTrip(remaining);
    LongRoundTrip(reset);
  }

  /** Without rate-limit headers every field is 0, even on a success. */
  lemma MissingRateLimitHeaders(header: string -> Option<string>)
    requires header(LIMIT_HEADER).None? && header(REMAINING_HEADER).None? && header(RESET_HEADER).None?
    ensures ExtractRateLimitInfo(header) == RateLimitInfo(0, 0, 0)
  {
  }

  /**
   * The reset time is read as a `Long` and the counters as `Int`s: a value
   * just past `Int.MAX_VALUE` is kept as the reset time and zeroes a counter.
   */
  lemma RateLimitFieldWidths(header: string -> Option<string>, n: int)
    requires INT_MAX < n <= LONG_MAX
    requires header(LIMIT_HEADER) == Some(IntToString(n))
    requires header(RESET_HEADER) == Some(IntToString(n))
    ensures ExtractRateLimitInfo(header).limit == 0
    ensures ExtractRateLimitInfo(header).reset == n
  {
    IntOverflowIsNull(n);
  }

  /** A 429 whose Retry-After renders a number reports exactly that number. */
  lemma RetryAfterRoundTrip<T>(response: HttpResponse, seconds: Int32, decode: string -> Decoded<T>)
    requires response.status == 429
    requires response.header(RETRY_AFTER_HEADER) == Some(IntToString(seconds))
    ensures Classify(Responded(response), decode) == Failure(RateLimited(Some(seconds)))
  {
    IntRoundTrip(seconds);
  }

  /** A 429 without a usable Retry-After header reports no hint. */
  lemma RetryAfterUnusable<T>(response: HttpResponse, decode: string -> Decoded<T>)
    requires response.status == 429
    requires response.header(RETRY_AFTER_HEADER).None?
      || ToIntOrNull(response.header(RETRY_AFTER_HEADER).value).None?
    ensures Classify(Responded(response), decode) == Failure(RateLimited(None))
    ensures Classify(Responded(response), decode).error.message == "Rate limit exceeded"
  {
  }

  /**
   * A status no kind covers (418 or 400, say) is unknown: the failure keeps
   * the status and, whenever it could be read, the body text.
   */
  lemma UnmatchedStatusKeepsBody<T>(response: HttpResponse, decode: string -> Decoded<T>)
    requires !IsSuccess(response.status) && response.status !in {401, 403, 404, 429}
    requires !(500 <= response.status <= 599)
    ensures Classify(Responded(response), decode) == Failure(Unknown(Some(response.status), BodyOrNull(response.body)))
    ensures response.body.BodyText? ==>
      Classify(Responded(response), decode).error.body == Some(response.body.text)
  {
  }
}

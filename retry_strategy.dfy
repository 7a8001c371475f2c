/** RetryStrategy: should a failed call be tried again? */
module RetryStrategy {
  import opened Wrappers
  import opened Errors

  /** The URLError codes the default strategy distinguishes. */
  datatype UrlErrorCode = TimedOut | NetworkConnectionLost | OtherCode(code: int)

  /** The `Error` values a strategy can be asked about. A URLError carries the status of
      its underlying-error entry when that entry is an HTTPURLResponse. */
  datatype RetryError =
    | UrlError(code: UrlErrorCode, underlyingStatus: Option<int>)
    | Api(error: ApiError)
    | OtherError

  /** DefaultRetryStrategy (its delay parameters are not modelled), NoRetryStrategy, and any
      other conforming strategy as a decision function of the error and the attempt. Being a
      function, a strategy answers a repeated query in a round the same way. */
  datatype Strategy =
    | DefaultRetryStrategy(retryableStatusCodes: set<int>)
    | NoRetryStrategy
    | CustomStrategy(decide: (RetryError, int) -> bool)

  const DefaultRetryableStatusCodes: set<int> := {408, 500, 502, 503, 504}

  /** `DefaultRetryStrategy()` with its default arguments. */
  function NewDefaultRetryStrategy(): (s: Strategy)
    ensures s.DefaultRetryStrategy? && s.retryableStatusCodes == {408, 500, 502, 503, 504}
  {
    DefaultRetryStrategy(DefaultRetryableStatusCodes)
  }

  /** `shouldRetry(_:attempt:)`. */
  function ShouldRetry(s: Strategy, e: RetryError, attempt: int): (r: bool)
    ensures r && !s.CustomStrategy? ==> s.DefaultRetryStrategy? && e.UrlError?
  {
    match s
    case DefaultRetryStrategy(codes) =>
      (match e
       case UrlError(TimedOut, _) => true
       case UrlError(NetworkConnectionLost, _) => true
       case UrlError(OtherCode(_), underlying) => underlying.Some? && underlying.value in codes
       case _ => false)
    case NoRetryStrategy => false
    case CustomStrategy(decide) => decide(e, attempt)
  }

  /** The default strategy declines every error that is not a URLError, so it never
      retries the APIError.httpError the client hands it. */
  lemma DefaultDeclinesNonUrlErrors(codes: set<int>, e: RetryError, attempt: int)
    requires !e.UrlError?
    ensures !ShouldRetry(DefaultRetryStrategy(codes), e, attempt)
  {
  }

  /** Time-outs and lost connections are always retried by the default strategy. */
  lemma DefaultRetriesTransientErrors(codes: set<int>, code: UrlErrorCode, underlying: Option<int>, attempt: int)
    requires code == TimedOut || code == NetworkConnectionLost
    ensures ShouldRetry(DefaultRetryStrategy(codes), UrlError(code, underlying), attempt)
  {
  }

  /** Any other URLError is retried exactly when its underlying HTTP response has a
      retryable status. */
  lemma DefaultRetriesRetryableStatus(codes: set<int>, c: int, underlying: Option<int>, attempt: int)
    ensures ShouldRetry(DefaultRetryStrategy(codes), UrlError(OtherCode(c), underlying), attempt)
            <==> underlying.Some? && underlying.value in codes
  {
  }

  /** The built-in strategies ignore the attempt number. */
  lemma BuiltInIgnoresAttempt(s: Strategy, e: RetryError, a1: int, a2: int)
    requires !s.CustomStrategy?
    ensures ShouldRetry(s, e, a1) == ShouldRetry(s, e, a2)
  {
  }

  /** NoRetryStrategy never retries. */
  lemma NoRetryNeverRetries(e: RetryError, attempt: int)
    ensures !ShouldRetry(NoRetryStrategy, e, attempt)
  {
  }
}

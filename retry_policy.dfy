/** RetryPolicy: a strategy, a retry ceiling and the attempt counter the client advances. */
module RetryPolicy {
  import opened RetryStrategy

  datatype RetryPolicy = RetryPolicy(strategy: Strategy, maxRetries: int, currentAttempt: int)

  /** `RetryPolicy(strategy:maxRetries:)`: a fresh policy starts at attempt 0. */
  function NewRetryPolicy(strategy: Strategy := NewDefaultRetryStrategy(), maxRetries: int := 3): (p: RetryPolicy)
    ensures p.currentAttempt == 0
    ensures p.maxRetries == maxRetries
  {
    RetryPolicy(strategy, maxRetries, 0)
  }

  /** `RetryPolicy.none`. */
  function NoRetries(): (p: RetryPolicy)
    ensures p.strategy.NoRetryStrategy? && p.maxRetries == 0 && p.currentAttempt == 0
  {
    NewRetryPolicy(NoRetryStrategy, 0)
  }

  /** `RetryPolicy.default`: the same as the initialiser's defaults. */
  function DefaultRetries(): (p: RetryPolicy)
    ensures p.strategy == DefaultRetryStrategy({408, 500, 502, 503, 504})
    ensures p.maxRetries == 3 && p.currentAttempt == 0
    ensures p.maxRetries == NewRetryPolicy().maxRetries && p.strategy == NewRetryPolicy().strategy
  {
    NewRetryPolicy(NewDefaultRetryStrategy(), 3)
  }

  /** The copy the client recurses with: one attempt further on, nothing else changed. */
  function NextAttempt(p: RetryPolicy): (q: RetryPolicy)
    ensures q.currentAttempt == p.currentAttempt + 1
    ensures q.strategy == p.strategy && q.maxRetries == p.maxRetries
  {
    p.(currentAttempt := p.currentAttempt + 1)
  }
}

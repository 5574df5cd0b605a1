/**
 Error classification (error_handler.py).

 An exception is modelled by the set of exception classes it is an instance of, so that errors
 belonging to several classes at once (a TLS certificate error is both an OSError and a
 ValueError, an HTTP 403 is both Forbidden and ResponseException) are covered.
 */
module ErrorHandling {

  datatype ErrorClass =
    | BadRequest | Forbidden | InvalidToken | NotFound | OAuthError | ValueError | KafkaDeliveryError
    | TooManyRequests | CircuitOpenError
    | ConnectionError | TimeoutError | ClientConnectionError | RequestError | ResponseError
    | LockLostError | OtherError

  /** `retryAfter` is only meaningful for a CircuitOpenError. */
  datatype Error = Error(classes: set<ErrorClass>, retryAfter: nat)

  const FATAL: set<ErrorClass> :=
    {BadRequest, Forbidden, InvalidToken, NotFound, OAuthError, ValueError, KafkaDeliveryError}

  const BACKOFF: set<ErrorClass> := {TooManyRequests, CircuitOpenError}

  const RETRYABLE: set<ErrorClass> :=
    {ConnectionError, TimeoutError, ClientConnectionError, RequestError, ResponseError}

  predicate InstanceOfAny(e: Error, classes: set<ErrorClass>) {
    exists c :: c in e.classes && c in classes
  }

  predicate IsRetryable(e: Error) {
    !InstanceOfAny(e, FATAL) && InstanceOfAny(e, RETRYABLE + BACKOFF)
  }

  predicate ShouldBackoff(e: Error) {
    InstanceOfAny(e, BACKOFF)
  }

  function BackoffDuration(e: Error): nat {
    if TooManyRequests in e.classes then 60
    else if CircuitOpenError in e.classes then e.retryAfter
    else 5
  }

  predicate ShouldRetryTransient(e: Error) {
    IsRetryable(e) && !ShouldBackoff(e)
  }

  predicate ShouldAbandonStream(e: Error) {
    InstanceOfAny(e, FATAL)
  }

  /** What the worker's `_handle_error` does once the error has been recorded. */
  datatype Disposition = Abandon | RetryAfter(seconds: nat) | Unhandled

  function HandleError(e: Error): Disposition {
    if ShouldAbandonStream(e) then Abandon
    else if ShouldBackoff(e) then RetryAfter(BackoffDuration(e))
    else if ShouldRetryTransient(e) then RetryAfter(BackoffDuration(e))
    else Unhandled
  }

  /**
   What becomes of an error of any combination of classes: a permanent one ends the stream, then a
   rate limit waits a minute, an open circuit as long as it says, a connection problem five seconds,
   and anything else is not handled.
   */
  lemma Dispositions(e: Error)
    ensures HandleError(e) ==
      if BadRequest in e.classes || Forbidden in e.classes || InvalidToken in e.classes || NotFound in e.classes
         || OAuthError in e.classes || ValueError in e.classes || KafkaDeliveryError in e.classes then Abandon
      else if TooManyRequests in e.classes then RetryAfter(60)
      else if CircuitOpenError in e.classes then RetryAfter(e.retryAfter)
      else if ConnectionError in e.classes || TimeoutError in e.classes || ClientConnectionError in e.classes
              || RequestError in e.classes || ResponseError in e.classes then RetryAfter(5)
      else Unhandled
  {
    assert forall c :: c in FATAL <==>
      c in {BadRequest, Forbidden, InvalidToken, NotFound, OAuthError, ValueError, KafkaDeliveryError};
    assert forall c :: c in RETRYABLE + BACKOFF <==> c in RETRYABLE || c in BACKOFF;
  }

  /**
   The recorded `is_recoverable` flag and the recovery action agree: the loop goes on after an
   error exactly when the error is classified as retryable, whatever classes it belongs to.
   */
  lemma RecoverableIffRetried(e: Error)
    ensures HandleError(e).RetryAfter? <==> IsRetryable(e)
    ensures HandleError(e).Abandon? <==> ShouldAbandonStream(e)
  {
    if InstanceOfAny(e, BACKOFF) {
      var c :| c in e.classes && c in BACKOFF;
      assert c in RETRYABLE + BACKOFF;
    }
  }
}

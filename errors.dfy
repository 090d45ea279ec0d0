/**
 * The scanner's error taxonomy, the classification of HTTP client failures into it
 * (`handleApiError`), and the `retry` wrapper that re-invokes an operation after
 * rate-limit and server failures with a computed wait.
 *
 * The wrapped operation is an oracle from the attempt number to its outcome, and the
 * waits are returned instead of slept.
 */
module Errors {
  import opened Wrappers
  import Strings

  /** The part of an HTTP response the classification reads: status, `retry-after` header, `data.message`. */
  datatype Response = Response(status: nat, retryAfterHeader: Option<string>, dataMessage: Option<string>)

  /** An HTTP client error: its message, the response if one arrived, and the connection error code. */
  datatype ApiError = ApiError(message: string, response: Option<Response>, code: Option<string>)

  /** `NFTScannerError` and its four subclasses. */
  datatype ScannerError =
    | Unclassified(message: string, code: string)
    | NetworkError(message: string, originalError: Option<ApiError>)
    | ValidationError(message: string)
    | RateLimitError(message: string, retryAfter: Option<string>)
    | ContractError(message: string, contractAddress: Option<string>)

  const UnknownCode: string := "UNKNOWN_ERROR"
  const NetworkCode: string := "NETWORK_ERROR"
  const ValidationCode: string := "VALIDATION_ERROR"
  const RateLimitCode: string := "RATE_LIMIT_ERROR"
  const ContractCode: string := "CONTRACT_ERROR"

  /** `new NFTScannerError(message, code)`: the code defaults to `UNKNOWN_ERROR` when not given. */
  function NewScannerError(message: string, code: Option<string>): (e: ScannerError)
    ensures e.Unclassified? && e.message == message
    ensures code.None? ==> e.code == UnknownCode
  {
    Unclassified(message, code.GetOr(UnknownCode))
  }

  /** The `code` field each class fixes. */
  function Code(e: ScannerError): string {
    match e
    case Unclassified(_, code) => code
    case NetworkError(_, _) => NetworkCode
    case ValidationError(_) => ValidationCode
    case RateLimitError(_, _) => RateLimitCode
    case ContractError(_, _) => ContractCode
  }

  predicate Present(s: Option<string>) {
    s.Some? && s.value != ""
  }

  /** `error.response.data?.message || error.message`. */
  function DetailOf(error: ApiError, r: Response): string {
    if Present(r.dataMessage) then r.dataMessage.value else error.message
  }

  predicate EndsWith(s: string, suffix: string) {
    |suffix| <= |s| && s[|s| - |suffix|..] == suffix
  }

  /**
   * `handleApiError`: the error it throws. A response decides by status: 404 is a
   * missing collection, 429 a rate limit carrying the `retry-after` header, every other
   * status a network error keeping the original. Without a response it is always a
   * network error, whatever the connection code. Every message ends with `context`.
   */
  function HandleApiError(error: ApiError, context: string): (thrown: ScannerError)
    ensures thrown.RateLimitError? <==> error.response.Some? && error.response.value.status == 429
    ensures thrown.RateLimitError? ==> thrown.retryAfter == error.response.value.retryAfterHeader
    ensures thrown.ContractError? <==> error.response.Some? && error.response.value.status == 404
    ensures thrown.ContractError? ==> thrown.contractAddress.None?
    ensures thrown.NetworkError? <==> !thrown.RateLimitError? && !thrown.ContractError?
    ensures thrown.NetworkError? ==> thrown.originalError == Some(error)
    ensures EndsWith(thrown.message, context)
  {
    match error.response
    case Some(r) =>
      var status := r.status;
      if status == 401 then NetworkError("Authentication failed. Check your API key. " + context, Some(error))
      else if status == 403 then NetworkError("Access forbidden. Check your API permissions. " + context, Some(error))
      else if status == 404 then ContractError("Collection not found. Check contract address. " + context, None)
      else if status == 429 then RateLimitError("Rate limit exceeded. Try again later. " + context, r.retryAfterHeader)
      else if status == 500 || status == 502 || status == 503 then
        NetworkError("Server error (" + Strings.NatToString(status) + "). Try again later. " + context, Some(error))
      else
        NetworkError("API error (" + Strings.NatToString(status) + "): " + DetailOf(error, r) + " " + context, Some(error))
    case None =>
      if error.code == Some("ECONNABORTED") then NetworkError("Request timeout. Check your connection. " + context, Some(error))
      else if error.code == Some("ENOTFOUND") then NetworkError("Network error. Check your internet connection. " + context, Some(error))
      else NetworkError("Unexpected error: " + error.message + " " + context, Some(error))
  }

  // ---- retry ----

  /** What an operation can throw: a scanner error, any other error, or `undefined`. */
  datatype Thrown = Scanner(error: ScannerError) | Foreign(message: string) | Undefined

  datatype Outcome<T> = Value(value: T) | Threw(thrown: Thrown)

  /** What the wrapped operation ends with. */
  datatype RetryResult<T> = Returned(value: T) | Raised(thrown: Thrown)

  /** A wait in milliseconds; a `retry-after` text that is not a number gives `NaN`. */
  datatype Wait = Millis(ms: nat) | NotANumber

  /** A `RateLimitError`, or a `NetworkError` whose original response has status 500 or more. */
  predicate Retryable(t: Thrown) {
    t.Scanner? &&
    match t.error
    case RateLimitError(_, _) => true
    case NetworkError(_, original) =>
      original.Some? && original.value.response.Some? && original.value.response.value.status >= 500
    case _ => false
  }

  function Pow2(n: nat): nat {
    if n == 0 then 1 else 2 * Pow2(n - 1)
  }

  /** `retryAfter * 1000`: delay-seconds (a run of digits) in milliseconds, anything else `NaN`. */
  function RetryAfterMillis(retryAfter: string): Wait {
    if Strings.AllDigits(retryAfter) && retryAfter != "" then Millis(Strings.DigitsValue(retryAfter) * 1000)
    else NotANumber
  }

  /** The wait after a retryable failure on `attempt`: the server's hint, or `delay * 2^(attempt-1)`. */
  function WaitFor(t: Thrown, delay: nat, attempt: nat): Wait
    requires attempt >= 1
  {
    if t.Scanner? && t.error.RateLimitError? && Present(t.error.retryAfter) then RetryAfterMillis(t.error.retryAfter.value)
    else Millis(delay * Pow2(attempt - 1))
  }

  /** The outcome of a `retry` run, the waits between attempts, and the number of attempts made. */
  datatype Run<T> = Run(result: RetryResult<T>, waits: seq<Wait>, attempts: nat)

  /** The run from `attempt` on, with `lastError` the error of the attempt before. */
  function RetryFrom<T>(fn: nat -> Outcome<T>, maxRetries: int, delay: nat, attempt: nat, lastError: Thrown): Run<T>
    requires attempt >= 1
    decreases maxRetries - attempt
  {
    if attempt > maxRetries then Run(Raised(lastError), [], attempt - 1)
    else
      match fn(attempt)
      case Value(v) => Run(Returned(v), [], attempt)
      case Threw(e) =>
        if Retryable(e) && attempt < maxRetries then
          var rest := RetryFrom(fn, maxRetries, delay, attempt + 1, e);
          Run(rest.result, [WaitFor(e, delay, attempt)] + rest.waits, rest.attempts)
        else Run(Raised(e), [], attempt)
  }

  /** `retry(fn, maxRetries, delay)` applied once. */
  function RetrySpec<T>(fn: nat -> Outcome<T>, maxRetries: int, delay: nat): Run<T> {
    RetryFrom(fn, maxRetries, delay, 1, Undefined)
  }

  /**
   * The wrapper `retry` returns, called once: attempts `fn` until it succeeds, fails with
   * an error that is not retryable, or has been tried `maxRetries` times; `waits` are the
   * pauses taken between attempts and `attempts` counts the calls of `fn`.
   */
  method Retry<T>(fn: nat -> Outcome<T>, maxRetries: int, delay: nat)
    returns (result: RetryResult<T>, waits: seq<Wait>, ghost attempts: nat)
    ensures result == RetrySpec(fn, maxRetries, delay).result
    ensures waits == RetrySpec(fn, maxRetries, delay).waits
    ensures attempts == RetrySpec(fn, maxRetries, delay).attempts
  {
    var lastError: Thrown := Undefined;
    waits := [];
    var attempt := 1;
    while attempt <= maxRetries
      invariant 1 <= attempt
      invariant RetrySpec(fn, maxRetries, delay) == Prefixed(waits, RetryFrom(fn, maxRetries, delay, attempt, lastError))
      decreases maxRetries - attempt
    {
      var outcome := fn(attempt);
      if outcome.Value? {
        return Returned(outcome.value), waits, attempt;
      }
      var error := outcome.thrown;
      lastError := error;
      if Retryable(error) {
        if attempt < maxRetries {
          var waitTime := WaitFor(error, delay, attempt);
          PrefixedAssoc(waits, waitTime, RetryFrom(fn, maxRetries, delay, attempt + 1, error));
          waits := waits + [waitTime];
          attempt := attempt + 1;
          continue;
        }
      }
      return Raised(error), waits, attempt;
    }
    result := Raised(lastError);
    attempts := attempt - 1;
  }

  /** `waits` put in front of the waits of a run. */
  function Prefixed<T>(waits: seq<Wait>, run: Run<T>): Run<T> {
    run.(waits := waits + run.waits)
  }

  lemma PrefixedAssoc<T>(waits: seq<Wait>, w: Wait, run: Run<T>)
    ensures Prefixed(waits, run.(waits := [w] + run.waits)) == Prefixed(waits + [w], run)
  {
    assert waits + ([w] + run.waits) == (waits + [w]) + run.waits;
  }
}

/** Properties of the classification and of `retry` runs. */
module ErrorsFacts {
  import opened Wrappers
  import opened Errors

  /**
   * A classified HTTP error is retried exactly when a response arrived with status 429 or
   * a status of 500 or more; in particular a timeout or a DNS failure is never retried.
   */
  lemma ClassifiedRetryable(error: ApiError, context: string)
    ensures Retryable(Scanner(HandleApiError(error, context))) <==>
      error.response.Some? && (error.response.value.status == 429 || error.response.value.status >= 500)
    ensures error.response.None? ==> !Retryable(Scanner(HandleApiError(error, context)))
  {
  }

  /** The classification only ever produces network, rate-limit and contract codes. */
  lemma ClassifiedCodes(error: ApiError, context: string)
    ensures var code := Code(HandleApiError(error, context));
      code == NetworkCode || code == RateLimitCode || code == ContractCode
    ensures Code(HandleApiError(error, context)) == ContractCode <==>
      error.response.Some? && error.response.value.status == 404
  {
  }

  /**
   * A run from attempt `a`: every attempt before the last failed with a retryable error and
   * was followed by the wait computed for it; the last attempt either succeeded, or failed
   * with an error that is not retryable or on the final allowed attempt, and that error is
   * what the run raises.
   */
  lemma {:induction false} RetryTrace<T>(fn: nat -> Outcome<T>, maxRetries: int, delay: nat, a: nat, lastError: Thrown)
    requires 1 <= a <= maxRetries
    ensures var run := RetryFrom(fn, maxRetries, delay, a, lastError);
      && a <= run.attempts <= maxRetries
      && |run.waits| == run.attempts - a
      && (forall k | a <= k < run.attempts ::
            fn(k).Threw? && Retryable(fn(k).thrown) && run.waits[k - a] == WaitFor(fn(k).thrown, delay, k))
      && (run.result.Returned? ==> fn(run.attempts) == Value(run.result.value))
      && (run.result.Raised? ==>
            fn(run.attempts) == Threw(run.result.thrown)
            && (!Retryable(run.result.thrown) || run.attempts == maxRetries))
    decreases maxRetries - a
  {
    var outcome := fn(a);
    if outcome.Threw? && Retryable(outcome.thrown) && a < maxRetries {
      var rest := RetryFrom(fn, maxRetries, delay, a + 1, outcome.thrown);
      RetryTrace(fn, maxRetries, delay, a + 1, outcome.thrown);
      var run := RetryFrom(fn, maxRetries, delay, a, lastError);
      assert run.waits == [WaitFor(outcome.thrown, delay, a)] + rest.waits;
      forall k | a <= k < run.attempts
        ensures fn(k).Threw? && Retryable(fn(k).thrown) && run.waits[k - a] == WaitFor(fn(k).thrown, delay, k)
      {
        if k > a {
          assert run.waits[k - a] == rest.waits[k - (a + 1)];
        }
      }
    }
  }

  /**
   * `retry` calls `fn` between once and `maxRetries` times when `maxRetries >= 1`, waits
   * once fewer than it calls, and returns the first success; with `maxRetries < 1` it never
   * calls `fn` and throws `undefined`.
   */
  lemma RetryBounds<T>(fn: nat -> Outcome<T>, maxRetries: int, delay: nat)
    ensures var run := RetrySpec(fn, maxRetries, delay);
      && (maxRetries < 1 ==> run == Run(Raised(Undefined), [], 0))
      && (maxRetries >= 1 ==>
            && 1 <= run.attempts <= maxRetries
            && |run.waits| == run.attempts - 1
            && (run.result.Returned? ==>
                  fn(run.attempts) == Value(run.result.value)
                  && forall k | 1 <= k < run.attempts :: fn(k).Threw?))
  {
    if maxRetries >= 1 {
      RetryTrace(fn, maxRetries, delay, 1, Undefined);
    }
  }

  /** An error that is not retryable is rethrown after the single attempt that raised it, without waiting. */
  lemma NotRetryableRethrown<T>(fn: nat -> Outcome<T>, maxRetries: int, delay: nat)
    requires maxRetries >= 1 && fn(1).Threw? && !Retryable(fn(1).thrown)
    ensures RetrySpec(fn, maxRetries, delay) == Run(Raised(fn(1).thrown), [], 1)
  {
  }

  /**
   * Two rate-limit failures with `retry-after: 2` and then a success: the wrapper waits
   * 2000 ms twice, honouring the hint rather than backing off, and returns the value on
   * the third attempt.
   */
  lemma RateLimitHintHonoured<T>(fn: nat -> Outcome<T>, delay: nat, limited: ScannerError, v: T)
    requires limited == RateLimitError("Rate limit exceeded. Try again later. ", Some("2"))
    requires fn(1) == Threw(Scanner(limited)) && fn(2) == Threw(Scanner(limited)) && fn(3) == Value(v)
    ensures RetrySpec(fn, 3, delay) == Run(Returned(v), [Millis(2000), Millis(2000)], 3)
  {
    assert Strings.AllDigits("2");
    assert Strings.DigitsValue("2") == 2 by {
      assert "2"[..0] == [];
    }
  }

  /**
   * Without a hint the waits double from `delay`: a server error on each of three attempts
   * waits 1000 ms and then 2000 ms, and the third error is rethrown.
   */
  lemma ServerErrorBacksOff<T>(fn: nat -> Outcome<T>, failure: Thrown)
    requires failure.Scanner? && failure.error.NetworkError? && failure.error.originalError.Some?
    requires failure.error.originalError.value.response.Some?
    requires failure.error.originalError.value.response.value.status == 503
    requires forall k :: fn(k) == Threw(failure)
    ensures RetrySpec(fn, 3, 1000) == Run(Raised(failure), [Millis(1000), Millis(2000)], 3)
  {
  }
}

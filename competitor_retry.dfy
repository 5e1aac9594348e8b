/** The competitor-research agent's retry policies: the capped exponential
    backoff `delay`, the Reddit token request `getRedditToken` and the
    generic `makeRequest`. The source writes both policies as recursion on
    `retryCount`; here each is a loop over a counter, proved equal to a
    recursive definition that follows the source, and every outcome of an
    attempt is an input. Sleeps are returned as the requested durations in
    milliseconds, in the order they happen. */
module CompetitorRetry {
  import opened Common

  const MaxRetries: nat := 5
  const DelayMs: nat := 2000
  const BackoffCapMs: nat := 10000

  function Pow2(n: nat): (p: nat)
    ensures p >= 1
  {
    if n == 0 then 1 else 2 * Pow2(n - 1)
  }

  lemma {:induction false} Pow2AtLeast16(n: nat)
    requires n >= 4
    ensures Pow2(n) >= 16
  {
    if n > 4 {
      Pow2AtLeast16(n - 1);
    }
  }

  /** `delay(retryCount)`: `Math.min(1000 * 2^retryCount, 10000)` milliseconds. */
  function BackoffMs(retryCount: nat): (ms: nat)
    ensures 1000 <= ms <= BackoffCapMs
  {
    if 1000 * Pow2(retryCount) < BackoffCapMs then 1000 * Pow2(retryCount) else BackoffCapMs
  }

  /** The backoff doubles 1 s, 2 s, 4 s, 8 s and is 10 s from the fifth step on. */
  lemma BackoffSchedule(retryCount: nat)
    ensures retryCount < 4 ==> BackoffMs(retryCount) == 1000 * Pow2(retryCount)
    ensures retryCount >= 4 ==> BackoffMs(retryCount) == BackoffCapMs
  {
    if retryCount >= 4 {
      Pow2AtLeast16(retryCount);
    } else {
      assert Pow2(retryCount) <= 8 by {
        assert Pow2(0) == 1 && Pow2(1) == 2 && Pow2(2) == 4 && Pow2(3) == 8;
      }
    }
  }

  /** The only call site, `delay(DELAY_MS)`, passes 2000 as the exponent and
      so always waits the full 10 s. */
  lemma DelayMsWaitsCap()
    ensures BackoffMs(DelayMs) == BackoffCapMs
  {
    BackoffSchedule(DelayMs);
  }

  // ---------------------------------------------------------------------
  // getRedditToken
  // ---------------------------------------------------------------------

  /** What one attempt of `getRedditToken` meets: a failure without an HTTP
      response (a secret lookup or the POST itself), an empty credential, an
      HTTP error with its status and parsed `retry-after` header, or a
      response whose `access_token` is given (the empty string when absent). */
  datatype TokenAttempt =
    | Unanswered(message: string)
    | MissingCredentials
    | HttpError(status: int, retryAfter: Option<int>, message: string)
    | Granted(accessToken: string)

  datatype TokenRun = TokenRun(waits: seq<int>, result: Result<string, string>)

  const InvalidCredentialsMessage := "Invalid Reddit API credentials. Please check your client ID and secret."
  const MissingCredentialsMessage := "Missing Reddit API credentials"
  const InvalidResponseMessage := "Failed to get Reddit access token: Invalid response"

  predicate TokenGranted(a: TokenAttempt) {
    a.Granted? && a.accessToken != ""
  }

  predicate Unauthorized(a: TokenAttempt) {
    a.HttpError? && a.status == 401
  }

  /** An attempt after which the source tries again (while retries remain). */
  predicate TokenRetryable(a: TokenAttempt) {
    !TokenGranted(a) && !Unauthorized(a)
  }

  /** The `message` of the error a failed attempt throws inside the `try`. */
  function TokenErrorMessage(a: TokenAttempt): string {
    match a
    case Unanswered(m) => m
    case MissingCredentials => MissingCredentialsMessage
    case HttpError(_, _, m) => m
    case Granted(_) => InvalidResponseMessage
  }

  /** The sleep after failed attempt `k`: the `retry-after` seconds (60 when
      absent) after a 429, the capped backoff after anything else. */
  function TokenWait(a: TokenAttempt, k: nat): int {
    if a.HttpError? && a.status == 429 then a.retryAfter.GetOr(60) * 1000 else BackoffMs(k)
  }

  function ExhaustedMessage(a: TokenAttempt): string {
    "Failed to get Reddit access token after " + IntToString(MaxRetries) + " attempts: " + TokenErrorMessage(a)
  }

  /** The final outcome when attempt `a` is the last one made. */
  function TokenFinal(a: TokenAttempt): Result<string, string> {
    if TokenGranted(a) then Ok(a.accessToken)
    else if Unauthorized(a) then Err(InvalidCredentialsMessage)
    else Err(ExhaustedMessage(a))
  }

  /** `getRedditToken(retryCount)` as the source's recursion. */
  function TokenPolicy(attempt: nat -> TokenAttempt, retryCount: nat): TokenRun
    requires retryCount <= MaxRetries
    decreases MaxRetries - retryCount
  {
    var a := attempt(retryCount);
    if TokenRetryable(a) && retryCount < MaxRetries then
      var rest := TokenPolicy(attempt, retryCount + 1);
      TokenRun([TokenWait(a, retryCount)] + rest.waits, rest.result)
    else TokenRun([], TokenFinal(a))
  }

  /** `getRedditToken()` as a loop over the retry counter. */
  method GetRedditToken(attempt: nat -> TokenAttempt) returns (run: TokenRun)
    ensures run == TokenPolicy(attempt, 0)
  {
    var retryCount := 0;
    var waits := [];
    while true
      invariant retryCount <= MaxRetries && |waits| == retryCount
      invariant TokenPolicy(attempt, 0)
                == TokenRun(waits + TokenPolicy(attempt, retryCount).waits, TokenPolicy(attempt, retryCount).result)
      decreases MaxRetries - retryCount
    {
      var a := attempt(retryCount);
      if !TokenRetryable(a) || retryCount == MaxRetries {
        assert waits + [] == waits;
        return TokenRun(waits, TokenFinal(a));
      }
      var rest := TokenPolicy(attempt, retryCount + 1);
      assert waits + ([TokenWait(a, retryCount)] + rest.waits) == (waits + [TokenWait(a, retryCount)]) + rest.waits;
      waits := waits + [TokenWait(a, retryCount)];
      retryCount := retryCount + 1;
    }
  }

  /** Every attempt before the last one of a run from retry `k` was a
      retryable failure and was followed by its wait. */
  lemma {:induction false} TokenRunWaits(attempt: nat -> TokenAttempt, k: nat, j: nat)
    requires k <= MaxRetries && k <= j < k + |TokenPolicy(attempt, k).waits|
    ensures TokenRetryable(attempt(j)) && TokenPolicy(attempt, k).waits[j - k] == TokenWait(attempt(j), j)
    decreases j - k
  {
    var a := attempt(k);
    assert TokenRetryable(a) && k < MaxRetries;
    var rest := TokenPolicy(attempt, k + 1);
    assert TokenPolicy(attempt, k).waits == [TokenWait(a, k)] + rest.waits;
    if k < j {
      TokenRunWaits(attempt, k + 1, j);
    }
  }

  /** The last attempt of a run from retry `k` decides its result, and a
      retryable last attempt means the retries ran out: so at most
      `MaxRetries + 1` = 6 attempts and 5 waits. */
  lemma {:induction false} TokenRunResult(attempt: nat -> TokenAttempt, k: nat)
    requires k <= MaxRetries
    ensures var run := TokenPolicy(attempt, k);
      && k + |run.waits| <= MaxRetries
      && run.result == TokenFinal(attempt(k + |run.waits|))
      && (TokenRetryable(attempt(k + |run.waits|)) ==> k + |run.waits| == MaxRetries)
    decreases MaxRetries - k
  {
    var a := attempt(k);
    if TokenRetryable(a) && k < MaxRetries {
      TokenRunResult(attempt, k + 1);
      assert |TokenPolicy(attempt, k).waits| == 1 + |TokenPolicy(attempt, k + 1).waits|;
    }
  }

  /** A 401 throws at once: no wait, no further attempt. */
  lemma UnauthorizedStops(attempt: nat -> TokenAttempt, k: nat)
    requires k <= MaxRetries && Unauthorized(attempt(k))
    ensures TokenPolicy(attempt, k) == TokenRun([], Err(InvalidCredentialsMessage))
  {
  }

  /** A granted attempt preceded only by retryable failures yields its token. */
  lemma {:induction false} GrantedAfterRetries(attempt: nat -> TokenAttempt, k: nat, i: nat)
    requires k <= i <= MaxRetries && TokenGranted(attempt(i))
    requires forall j :: k <= j < i ==> TokenRetryable(attempt(j))
    ensures TokenPolicy(attempt, k).result == Ok(attempt(i).accessToken)
    decreases i - k
  {
    if k < i {
      GrantedAfterRetries(attempt, k + 1, i);
    }
  }

  /** The token is obtained exactly when some attempt among the first six is
      granted and no earlier attempt stopped the run. */
  lemma TokenObtained(attempt: nat -> TokenAttempt)
    ensures TokenPolicy(attempt, 0).result.Ok? <==>
      exists i :: 0 <= i <= MaxRetries && TokenGranted(attempt(i))
        && forall j :: 0 <= j < i ==> TokenRetryable(attempt(j))
  {
    TokenRunResult(attempt, 0);
    var run := TokenPolicy(attempt, 0);
    var n := |run.waits|;
    if run.result.Ok? {
      assert TokenGranted(attempt(n));
      forall j | 0 <= j < n
        ensures TokenRetryable(attempt(j))
      {
        TokenRunWaits(attempt, 0, j);
      }
    }
    forall i | 0 <= i <= MaxRetries && TokenGranted(attempt(i))
        && forall j :: 0 <= j < i ==> TokenRetryable(attempt(j))
      ensures run.result.Ok?
    {
      GrantedAfterRetries(attempt, 0, i);
    }
  }

  // ---------------------------------------------------------------------
  // makeRequest
  // ---------------------------------------------------------------------

  /** A rejected request: the HTTP status when there was a response, the
      parsed `retry-after` header, and the error message. */
  datatype Rejection = Rejection(status: Option<int>, retryAfter: Option<int>, message: string)

  datatype RequestAttempt<R> = Answered(response: R) | Rejected(rejection: Rejection)

  datatype RequestRun<R> = RequestRun(waits: seq<int>, result: Result<R, Rejection>)

  /** Only a 429 or a 503 is retried. */
  predicate Throttled(e: Rejection) {
    e.status == Some(429) || e.status == Some(503)
  }

  /** The sleep after throttled attempt `k`: `retry-after` seconds, else 2^k seconds. */
  function RequestWait(e: Rejection, k: nat): int {
    e.retryAfter.GetOr(Pow2(k)) * 1000
  }

  /** A run goes on after attempt `k` when that attempt was throttled and
      retries remain. */
  predicate RequestRetries<R>(a: RequestAttempt<R>, k: nat) {
    IsThrottled(a) && k < MaxRetries
  }

  predicate IsThrottled<R>(a: RequestAttempt<R>) {
    a.Rejected? && Throttled(a.rejection)
  }

  function RequestFinal<R>(a: RequestAttempt<R>): Result<R, Rejection> {
    match a
    case Answered(r) => Ok(r)
    case Rejected(e) => Err(e)
  }

  /** `makeRequest(url, options, retryCount)` as the source's recursion. */
  function RequestPolicy<R>(attempt: nat -> RequestAttempt<R>, retryCount: nat): RequestRun<R>
    requires retryCount <= MaxRetries
    decreases MaxRetries - retryCount
  {
    var a := attempt(retryCount);
    if RequestRetries(a, retryCount) then
      var rest := RequestPolicy(attempt, retryCount + 1);
      RequestRun([RequestWait(a.rejection, retryCount)] + rest.waits, rest.result)
    else RequestRun([], RequestFinal(a))
  }

  /** `makeRequest(url, options)` as a loop over the retry counter. */
  method MakeRequest<R>(attempt: nat -> RequestAttempt<R>) returns (run: RequestRun<R>)
    ensures run == RequestPolicy(attempt, 0)
  {
    var retryCount := 0;
    var waits := [];
    while true
      invariant retryCount <= MaxRetries && |waits| == retryCount
      invariant RequestPolicy(attempt, 0)
                == RequestRun(waits + RequestPolicy(attempt, retryCount).waits, RequestPolicy(attempt, retryCount).result)
      decreases MaxRetries - retryCount
    {
      var a := attempt(retryCount);
      if !RequestRetries(a, retryCount) {
        assert waits + [] == waits;
        return RequestRun(waits, RequestFinal(a));
      }
      var w := RequestWait(a.rejection, retryCount);
      var rest := RequestPolicy(attempt, retryCount + 1);
      assert waits + ([w] + rest.waits) == (waits + [w]) + rest.waits;
      waits := waits + [w];
      retryCount := retryCount + 1;
    }
  }

  /** Every attempt before the last one of a run from retry `k` was
      throttled and was followed by its wait. */
  lemma {:induction false} RequestRunWaits<R>(attempt: nat -> RequestAttempt<R>, k: nat, j: nat)
    requires k <= MaxRetries && k <= j < k + |RequestPolicy(attempt, k).waits|
    ensures IsThrottled(attempt(j)) && RequestPolicy(attempt, k).waits[j - k] == RequestWait(attempt(j).rejection, j)
    decreases j - k
  {
    var a := attempt(k);
    assert RequestRetries(a, k);
    var rest := RequestPolicy(attempt, k + 1);
    assert RequestPolicy(attempt, k).waits == [RequestWait(a.rejection, k)] + rest.waits;
    if k < j {
      RequestRunWaits(attempt, k + 1, j);
    }
  }

  /** The last attempt's outcome is the result of a run from retry `k` (the
      error itself is rethrown), and a throttled last attempt means the five
      retries were used up. */
  lemma {:induction false} RequestRunResult<R>(attempt: nat -> RequestAttempt<R>, k: nat)
    requires k <= MaxRetries
    ensures var run := RequestPolicy(attempt, k);
      && k + |run.waits| <= MaxRetries
      && run.result == RequestFinal(attempt(k + |run.waits|))
      && (IsThrottled(attempt(k + |run.waits|)) ==> k + |run.waits| == MaxRetries)
    decreases MaxRetries - k
  {
    var a := attempt(k);
    if RequestRetries(a, k) {
      RequestRunResult(attempt, k + 1);
      assert |RequestPolicy(attempt, k).waits| == 1 + |RequestPolicy(attempt, k + 1).waits|;
    }
  }

  /** Any error other than a 429 or 503 is rethrown at once. */
  lemma OtherErrorsRethrown<R>(attempt: nat -> RequestAttempt<R>, k: nat)
    requires k <= MaxRetries && attempt(k).Rejected? && !Throttled(attempt(k).rejection)
    ensures RequestPolicy(attempt, k) == RequestRun([], Err(attempt(k).rejection))
  {
  }
}

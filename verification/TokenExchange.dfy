/** One refresh_token exchange (section 6 of RFC 6749) and the bounded retry around it
    (worker/internal/oauth/refresher.go). The token server is a reply chosen by the environment. */
module TokenExchange {
  import opened Credentials
  import CredentialStore
  import Text

  /** What came back: nothing usable from the transport, or an HTTP answer with its decoded members. */
  datatype Reply =
    | NoReply
    | Answer(status: int, accessToken: string, refreshToken: string, expiresIn: int, scope: string, error: string)

  datatype TokenError = Transport | Refused(status: int, code: string, retryable: bool)

  datatype Exchange = Granted(credential: Credential) | Denied(error: TokenError)

  const EIGHT_HOURS: int := 8 * 3600 * 1_000_000_000

  /** 429 and 5xx are worth retrying, but not when the grant itself is refused
      (section 5.2 of RFC 6749) or the status is 400. */
  predicate RetryableStatus(status: int, code: string) {
    && (status == 429 || status >= 500)
    && code != "invalid_grant" && code != "invalid_refresh_token"
  }

  /** The expiry in milliseconds; the duration arithmetic is 64-bit. */
  function ExpiryOf(expiresIn: int, now: int): int {
    Millis(now + if expiresIn <= 0 then EIGHT_HOURS else Wrap64(expiresIn * 1_000_000_000))
  }

  function Evaluate(reply: Reply, current: Credential, now: int): Exchange {
    match reply
    case NoReply => Denied(Transport)
    case Answer(status, accessToken, refreshToken, expiresIn, scope, error) =>
      if status < 200 || status >= 300 then
        Denied(Refused(status, TrimSpace(error), RetryableStatus(status, TrimSpace(error))))
      else if TrimSpace(accessToken) == "" then
        Denied(Refused(status, "missing_access_token", false))
      else
        Granted(NO_CREDENTIAL.(
          accessToken := TrimSpace(accessToken),
          refreshToken := if TrimSpace(refreshToken) == "" then current.refreshToken else TrimSpace(refreshToken),
          expiresAt := ExpiryOf(expiresIn, now),
          generation := current.generation,
          email := current.email, accountUuid := current.accountUuid, orgUuid := current.orgUuid,
          scopes := if scope == "" then current.scopes else CredentialStore.Fields(scope)))
  }

  /** Only a refusal marked final ends the retrying. */
  predicate Retryable(error: TokenError) { error.Transport? || error.retryable }

  function Tries(maxTries: int): (n: int)
    ensures n >= 1
  {
    if maxTries <= 0 then 3 else maxTries
  }

  function Pow2(n: nat): nat { if n == 0 then 1 else 2 * Pow2(n - 1) }

  /** The wait before attempt `attempt`, in nanoseconds and without jitter: 300 ms doubled each
      time, in 64-bit arithmetic. */
  function Backoff(attempt: nat): int
    requires attempt > 0
  {
    var shifted := if attempt - 1 < 64 then Wrap64(Pow2(attempt - 1)) else 0;
    Wrap64(Wrap64(300 * shifted) * NANOS_PER_MILLI)
  }

  lemma {:induction false} Pow2Bound(n: nat, m: nat)
    requires n <= m
    ensures 1 <= Pow2(n) <= Pow2(m)
    decreases m
  {
    if n < m {
      Pow2Bound(n, m - 1);
    } else if n > 0 {
      Pow2Bound(n - 1, m - 1);
    }
  }

  /** The doubling is exact up to attempt 35, and wraps to a negative wait, that is none, at the next one. */
  lemma BackoffExact(attempt: nat)
    requires attempt > 0
    ensures attempt <= 35 ==> Backoff(attempt) == 300 * Pow2(attempt - 1) * NANOS_PER_MILLI
    ensures attempt == 36 ==> Backoff(attempt) < 0
  {
    assert Pow2(10) == 1024;
    assert Pow2(20) == 1024 * Pow2(10);
    assert Pow2(30) == 1024 * Pow2(20);
    assert Pow2(35) == 32 * Pow2(30);
    if attempt <= 35 {
      Pow2Bound(attempt - 1, 34);
    }
  }

  /** A final outcome: a success, or a refusal that is not retryable. */
  predicate Final(outcome: Exchange) { outcome.Granted? || !Retryable(outcome.error) }

  /** The retry loop against an environment that answers attempt i with `script[i]` and adds
      `jitter[i]` milliseconds (0 to 150) to the wait before it; the context is not cancelled.
      `waited` is the time spent in backoff, in nanoseconds. */
  method RequestWithRetry(maxTries: int, script: seq<Exchange>, jitter: seq<nat>)
    returns (result: Exchange, sent: nat, waited: nat)
    requires |script| == |jitter| == Tries(maxTries)
    requires forall i | 0 <= i < |jitter| :: jitter[i] <= 150
    ensures 1 <= sent <= Tries(maxTries)
    ensures result == script[sent - 1]
    ensures forall i | 0 <= i < sent - 1 :: !Final(script[i])
    ensures sent < Tries(maxTries) ==> Final(result)
    ensures sent <= 36 ==>
              var least := 300 * (Pow2(sent - 1) - 1);
              least * NANOS_PER_MILLI <= waited <= (least + 150 * (sent - 1)) * NANOS_PER_MILLI
  {
    var tries := Tries(maxTries);
    var attempt := 0;
    sent, waited := 0, 0;
    result := script[0];
    while attempt < tries
      invariant 0 <= attempt <= tries && sent == attempt
      invariant attempt > 0 ==> result == script[attempt - 1]
      invariant forall i | 0 <= i < attempt :: !Final(script[i])
      invariant attempt == 0 ==> waited == 0
      invariant 0 < attempt <= 36 ==>
                  var least := 300 * (Pow2(attempt - 1) - 1);
                  least * NANOS_PER_MILLI <= waited <= (least + 150 * (attempt - 1)) * NANOS_PER_MILLI
    {
      if attempt > 0 {
        BackoffExact(attempt);
        var delay := Backoff(attempt) + jitter[attempt] * NANOS_PER_MILLI;
        waited := waited + if delay > 0 then delay else 0;
      }
      result := script[attempt];
      sent := sent + 1;
      if Final(result) {
        break;
      }
      attempt := attempt + 1;
    }
  }

  /** A grant is always a usable credential that names no type and keeps the generation it was asked for. */
  lemma GrantIsValid(reply: Reply, current: Credential, now: int)
    requires Evaluate(reply, current, now).Granted?
    ensures var c := Evaluate(reply, current, now).credential;
            Valid(c) && c.kind == "" && c.generation == current.generation
            && NormalizeType(c.kind) == OAuth
  {
    var c := Evaluate(reply, current, now).credential;
    assert Canonical("", '_', '-') == "";
    TrimIdempotent(reply.accessToken);
  }

  lemma TrimIdempotent(s: string)
    ensures TrimSpace(TrimSpace(s)) == TrimSpace(s)
  {
    Text.TrimTrims(s, Text.GoSpace);
  }

}

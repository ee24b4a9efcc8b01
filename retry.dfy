/**
 * `call_tool_with_retry`: call a tool until it returns, at most `maxRetries`
 * times, waiting RETRY_DELAY * 2^(r-1) seconds after the r-th failure when
 * another attempt is left, and re-raising the last failure otherwise.
 */
module ToolRetry {
  import opened PyJson
  import opened Remote
  import opened Config

  function Pow2(n: nat): (r: nat)
    ensures r >= 1
  {
    if n == 0 then 1 else 2 * Pow2(n - 1)
  }

  /** The waits taken after the first `k` failed attempts when more attempts follow. */
  function Backoff(k: nat): (w: seq<nat>)
  {
    if k == 0 then [] else Backoff(k - 1) + [RETRY_DELAY * Pow2(k - 1)]
  }

  /** What one run of the retry loop does: its return value or exception, the attempts it made, the waits it took. */
  datatype RetryTrace = RetryTrace(result: Outcome<Option<RemoteResult>>, attempts: nat, waits: seq<nat>)

  /** The loop from attempt `k` on (0-based), the first `k` attempts having raised. */
  function RetryFrom(script: nat -> Reply, start: nat, k: nat, maxRetries: int): (t: RetryTrace)
    requires k < maxRetries
    decreases maxRetries - k
  {
    match script(start + k)
    case Respond(res) => RetryTrace(Returns(Some(res)), k + 1, Backoff(k))
    case Raise(msg) =>
      if k + 1 >= maxRetries then RetryTrace(Raises(SessionError, msg), k + 1, Backoff(k))
      else RetryFrom(script, start, k + 1, maxRetries)
  }

  /**
   * The whole loop, issuing its calls from call number `start` on. With no
   * attempt allowed the loop body never runs and the function returns None.
   */
  function Retry(script: nat -> Reply, start: nat, maxRetries: int): RetryTrace {
    if maxRetries <= 0 then RetryTrace(Returns(None), 0, [])
    else RetryFrom(script, start, 0, maxRetries)
  }

  /** `n` copies of the same call. */
  function Repeat(c: Call, n: nat): (cs: seq<Call>)
    ensures |cs| == n && forall i :: 0 <= i < n ==> cs[i] == c
  {
    if n == 0 then [] else Repeat(c, n - 1) + [c]
  }

  /** The waits are RETRY_DELAY, 2 * RETRY_DELAY, 4 * RETRY_DELAY, ... */
  lemma {:induction false} BackoffDelays(k: nat)
    ensures |Backoff(k)| == k
    ensures forall i :: 0 <= i < k ==> Backoff(k)[i] == RETRY_DELAY * Pow2(i)
  {
    if k > 0 {
      BackoffDelays(k - 1);
    }
  }

  lemma {:induction false} RetryFromSucceedsAt(script: nat -> Reply, start: nat, j: nat, k: nat, n: int)
    requires j <= k < n
    requires forall i :: start + j <= i < start + k ==> script(i).Raise?
    requires script(start + k).Respond?
    ensures RetryFrom(script, start, j, n) == RetryTrace(Returns(Some(script(start + k).result)), k + 1, Backoff(k))
    decreases k - j
  {
    if j < k {
      RetryFromSucceedsAt(script, start, j + 1, k, n);
    }
  }

  lemma {:induction false} RetryFromAllFail(script: nat -> Reply, start: nat, j: nat, n: int)
    requires j < n
    requires forall i :: start + j <= i < start + n ==> script(i).Raise?
    ensures RetryFrom(script, start, j, n) == RetryTrace(Raises(SessionError, script(start + n - 1).message), n, Backoff(n - 1))
    decreases n - j
  {
    if j + 1 < n {
      RetryFromAllFail(script, start, j + 1, n);
    }
  }

  /**
   * If attempts 1..k-1 raise and attempt k <= n returns, there are exactly k
   * calls, attempt k's result is returned, and k-1 waits were taken.
   */
  lemma RetrySucceedsAtAttempt(script: nat -> Reply, start: nat, n: int, k: nat)
    requires 1 <= k <= n
    requires forall i :: start <= i < start + k - 1 ==> script(i).Raise?
    requires script(start + k - 1).Respond?
    ensures Retry(script, start, n).attempts == k
    ensures Retry(script, start, n).result == Returns(Some(script(start + k - 1).result))
    ensures Retry(script, start, n).waits == Backoff(k - 1)
  {
    RetryFromSucceedsAt(script, start, 0, k - 1, n);
  }

  /** If all n attempts raise, there are exactly n calls and the last exception propagates. */
  lemma RetryExhausted(script: nat -> Reply, start: nat, n: int)
    requires n > 0
    requires forall i :: start <= i < start + n ==> script(i).Raise?
    ensures Retry(script, start, n).attempts == n
    ensures Retry(script, start, n).result == Raises(SessionError, script(start + n - 1).message)
    ensures |Retry(script, start, n).waits| == n - 1
  {
    RetryFromAllFail(script, start, 0, n);
    BackoffDelays(n - 1);
  }

  lemma {:induction false} RetryFromBounds(script: nat -> Reply, start: nat, k: nat, n: int)
    requires k < n
    ensures var t := RetryFrom(script, start, k, n);
      k < t.attempts <= n && t.waits == Backoff(t.attempts - 1) &&
      t.result != Returns(None) &&
      (t.result.Raises? ==> t.attempts == n)
    decreases n - k
  {
    if script(start + k).Raise? && k + 1 < n {
      RetryFromBounds(script, start, k + 1, n);
    }
  }

  /**
   * Every run makes between 1 and n attempts, waits once between consecutive
   * attempts, returns a result rather than None, and raises only after n attempts.
   */
  lemma RetryBounds(script: nat -> Reply, start: nat, n: int)
    requires n > 0
    ensures var t := Retry(script, start, n);
      1 <= t.attempts <= n && |t.waits| == t.attempts - 1 &&
      t.result != Returns(None) &&
      (t.result.Raises? ==> t.attempts == n)
  {
    RetryFromBounds(script, start, 0, n);
    BackoffDelays(Retry(script, start, n).attempts - 1);
  }

  /** The retry loop itself, against the scripted session. */
  method CallToolWithRetry(session: Session, tool: string, params: Dict, maxRetries: int)
    returns (r: Outcome<Option<RemoteResult>>)
    modifies session
    ensures var t := Retry(session.script, |old(session.calls)|, maxRetries);
      r == t.result &&
      session.calls == old(session.calls) + Repeat(Call(tool, params), t.attempts) &&
      session.waits == old(session.waits) + t.waits
  {
    ghost var start := |session.calls|;
    ghost var calls0, waits0 := session.calls, session.waits;
    var retries := 0;
    while retries < maxRetries
      invariant 0 <= retries
      invariant retries > 0 ==> retries < maxRetries
      invariant retries < maxRetries ==>
        Retry(session.script, start, maxRetries) == RetryFrom(session.script, start, retries, maxRetries)
      invariant session.calls == calls0 + Repeat(Call(tool, params), retries)
      invariant session.waits == waits0 + Backoff(retries)
      decreases maxRetries - retries
    {
      var reply := session.CallTool(tool, params);
      match reply
      case Respond(res) =>
        return Returns(Some(res));
      case Raise(msg) =>
        retries := retries + 1;
        if retries >= maxRetries {
          return Raises(SessionError, msg);
        }
        session.Wait(RETRY_DELAY * Pow2(retries - 1));
    }
    return Returns(None);
  }
}

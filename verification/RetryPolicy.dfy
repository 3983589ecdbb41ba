/** The bounded retry policy of the outbox workers, backend/app/platform/events/retry_policy.py. */
module RetryPolicy {
  import opened Common

  const MAX_OUTBOX_ATTEMPTS_LIMIT: int := 100

  /** The vocabulary of `outbox_messages.status`. */
  datatype Status = Pending | Published | Retry | Failed | NotConfigured

  datatype RetryDecision = RetryDecision(attemptCount: int, status: Status, nextAttemptAt: Option<int>)

  function Pow2(n: nat): (p: nat)
    ensures p >= 1
  {
    if n == 0 then 1 else 2 * Pow2(n - 1)
  }

  function DelaySeconds(attempt: int): (d: int) {
    Min(30 * Pow2(if attempt - 1 >= 0 then attempt - 1 else 0), 3600)
  }

  /** Waits are never shorter than 30 seconds nor longer than an hour, and never shrink. */
  lemma {:induction false} DelayBounds(a: int, b: int)
    requires a <= b
    ensures 30 <= DelaySeconds(a) <= DelaySeconds(b) <= 3600
    decreases b - a
  {
    if a < b {
      DelayBounds(a, b - 1);
    }
  }

  predicate ValidLimit(maxAttempts: int) {
    1 <= maxAttempts <= MAX_OUTBOX_ATTEMPTS_LIMIT
  }

  function DecideRetry(attemptCount: int, now: int, maxAttempts: int): (r: Result<RetryDecision, string>)
    ensures r.Ok? <==> ValidLimit(maxAttempts)
    ensures r.Ok? ==> r.value.attemptCount == attemptCount + 1
    ensures r.Ok? ==> r.value.status == if attemptCount + 1 < maxAttempts then Retry else Failed
    ensures r.Ok? ==> (r.value.nextAttemptAt.Some? <==> r.value.status == Retry)
    ensures r.Ok? && r.value.status == Retry ==> now + 30 * SECOND <= r.value.nextAttemptAt.value <= now + 3600 * SECOND
  {
    if !ValidLimit(maxAttempts) then Err("max_attempts must be between 1 and 100")
    else
      var next := attemptCount + 1;
      if next >= maxAttempts then Ok(RetryDecision(next, Failed, None))
      else
        DelayBounds(next, next);
        Ok(RetryDecision(next, Retry, Some(now + DelaySeconds(next) * SECOND)))
  }

  // ---- A message that fails every time ----

  /** The decisions for a message that is at `attempt` and fails at the instants `nows`. */
  function Failures(attempt: int, maxAttempts: int, nows: seq<int>): (ds: seq<RetryDecision>)
    requires ValidLimit(maxAttempts)
    ensures |ds| == |nows|
    decreases |nows|
  {
    if nows == [] then []
    else
      var d := DecideRetry(attempt, nows[0], maxAttempts).value;
      [d] + Failures(d.attemptCount, maxAttempts, nows[1..])
  }

  /** The wait that a decision taken at `now` imposes, in microseconds. */
  function Wait(d: RetryDecision, now: int): int {
    if d.nextAttemptAt.Some? then d.nextAttemptAt.value - now else 0
  }

  function TotalWait(ds: seq<RetryDecision>, nows: seq<int>): int
    requires |ds| == |nows|
  {
    if ds == [] then 0 else Wait(ds[0], nows[0]) + TotalWait(ds[1..], nows[1..])
  }

  /** Exactly `maxAttempts - 1` retries, then FAILED, whatever the instants of the failures. */
  lemma {:induction false} FailureSchedule(attempt: nat, maxAttempts: int, nows: seq<int>)
    requires ValidLimit(maxAttempts) && attempt + |nows| == maxAttempts
    ensures var ds := Failures(attempt, maxAttempts, nows);
      forall k :: 0 <= k < |ds| ==>
        && ds[k].attemptCount == attempt + k + 1
        && ds[k].status == (if k < |ds| - 1 then Retry else Failed)
        && Wait(ds[k], nows[k]) == (if k < |ds| - 1 then DelaySeconds(attempt + k + 1) * SECOND else 0)
    decreases |nows|
  {
    if nows != [] {
      FailureSchedule(attempt + 1, maxAttempts, nows[1..]);
      var ds := Failures(attempt, maxAttempts, nows);
      var rest := Failures(attempt + 1, maxAttempts, nows[1..]);
      forall k | 1 <= k < |ds| ensures ds[k] == rest[k - 1] && nows[k] == nows[1..][k - 1] {
      }
    }
  }

  /** Seconds waited in all between attempt `a` and the last retry before `m` attempts. */
  function RemainingSeconds(a: nat, m: int): int
    decreases m - a
  {
    if a + 1 >= m then 0 else DelaySeconds(a + 1) + RemainingSeconds(a + 1, m)
  }

  function TotalSeconds(m: int): int
    requires m >= 1
  {
    30 * (Pow2(Min(m - 1, 7)) - 1) + 3600 * (if m > 8 then m - 8 else 0)
  }

  lemma DelayValue(k: nat)
    requires k >= 1
    ensures DelaySeconds(k) == if k <= 7 then 30 * Pow2(k - 1) else 3600
  {
    assert Pow2(6) == 64 && Pow2(7) == 128;
    if k >= 8 {
      Pow2Monotone(7, k - 1);
    } else {
      Pow2Monotone(k - 1, 6);
    }
  }

  lemma {:induction false} Pow2Monotone(a: nat, b: nat)
    requires a <= b
    ensures Pow2(a) <= Pow2(b)
    decreases b
  {
    if a < b {
      Pow2Monotone(a, b - 1);
    }
  }

  lemma {:induction false} RemainingClosedForm(a: nat, m: int)
    requires a + 1 <= m
    ensures RemainingSeconds(a, m) == TotalSeconds(m) - TotalSeconds(a + 1)
    decreases m - a
  {
    if a + 1 < m {
      RemainingClosedForm(a + 1, m);
      DelayValue(a + 1);
      if a + 1 <= 7 {
        assert Pow2(a + 1) == 2 * Pow2(a);
      }
    }
  }

  lemma {:induction false} TotalWaitIsRemaining(attempt: nat, maxAttempts: int, nows: seq<int>)
    requires ValidLimit(maxAttempts) && attempt + |nows| == maxAttempts && attempt < maxAttempts
    ensures TotalWait(Failures(attempt, maxAttempts, nows), nows) == RemainingSeconds(attempt, maxAttempts) * SECOND
    decreases |nows|
  {
    var ds := Failures(attempt, maxAttempts, nows);
    assert ds[1..] == Failures(attempt + 1, maxAttempts, nows[1..]);
    if attempt + 1 < maxAttempts {
      TotalWaitIsRemaining(attempt + 1, maxAttempts, nows[1..]);
    }
  }

  /** From attempt 0: m-1 retries with growing waits, then FAILED, and the exact time spent waiting. */
  lemma {:induction false} PoisonMessageSchedule(maxAttempts: int, nows: seq<int>)
    requires ValidLimit(maxAttempts) && |nows| == maxAttempts
    ensures var ds := Failures(0, maxAttempts, nows);
      && (forall k | 0 <= k < maxAttempts - 1 ::
            ds[k].status == Retry && 30 * SECOND <= Wait(ds[k], nows[k]) <= 3600 * SECOND)
      && (forall j, k :: 0 <= j <= k < maxAttempts - 1 ==> Wait(ds[j], nows[j]) <= Wait(ds[k], nows[k]))
      && ds[maxAttempts - 1] == RetryDecision(maxAttempts, Failed, None)
      && TotalWait(ds, nows) == TotalSeconds(maxAttempts) * SECOND
  {
    FailureSchedule(0, maxAttempts, nows);
    var ds := Failures(0, maxAttempts, nows);
    forall j, k | 0 <= j <= k < maxAttempts - 1
      ensures 30 * SECOND <= Wait(ds[j], nows[j]) <= Wait(ds[k], nows[k]) <= 3600 * SECOND
    {
      DelayBounds(j + 1, k + 1);
    }
    LastIsFailed(0, maxAttempts, nows);
    TotalWaitIsRemaining(0, maxAttempts, nows);
    RemainingClosedForm(0, maxAttempts);
  }

  lemma {:induction false} LastIsFailed(attempt: nat, maxAttempts: int, nows: seq<int>)
    requires ValidLimit(maxAttempts) && attempt + |nows| == maxAttempts && attempt < maxAttempts
    ensures Failures(attempt, maxAttempts, nows)[|nows| - 1] == RetryDecision(maxAttempts, Failed, None)
    decreases |nows|
  {
    if attempt + 1 < maxAttempts {
      LastIsFailed(attempt + 1, maxAttempts, nows[1..]);
    }
  }

  /** What the policy decides, with the delay in closed form: it doubles from 30 seconds up to an hour. */
  lemma {:induction false} ExactDecision(attemptCount: nat, now: int, maxAttempts: int)
    ensures DecideRetry(attemptCount, now, maxAttempts).Err? <==> !(1 <= maxAttempts <= 100)
    ensures DecideRetry(attemptCount, now, maxAttempts).Ok? ==>
      DecideRetry(attemptCount, now, maxAttempts).value ==
        if attemptCount + 1 >= maxAttempts then RetryDecision(attemptCount + 1, Failed, None)
        else RetryDecision(attemptCount + 1, Retry,
                           Some(now + (if attemptCount < 7 then 30 * Pow2(attemptCount) else 3600) * SECOND))
  {
    DelayValue(attemptCount + 1);
  }
}

/** What the consumer does after a handler attempt, and how long it waits before the next. */
module RetryPolicy {
  import opened Types

  datatype Verdict = Acknowledge | RetryLater | DeadLetter

  function Judge(maxRetries: int, attempt: int, ok: bool): Verdict {
    if ok then Acknowledge else if attempt < maxRetries then RetryLater else DeadLetter
  }

  const MAX_BACKOFF := 2000 * NANOS_PER_MILLI

  function RetryBackoff(attempt: int): int {
    var backoff := WrapInt64(WrapInt64(attempt * 200) * NANOS_PER_MILLI);
    if backoff > MAX_BACKOFF then MAX_BACKOFF else backoff
  }

  /** 200 ms per attempt, capped at 2 s: what the backoff is meant to be. */
  function IdealBackoff(attempt: int): int {
    (if attempt <= 10 then 200 * attempt else 2000) * NANOS_PER_MILLI
  }

  /** The last attempt whose uncapped wait fits in an int64 of nanoseconds. */
  const LAST_EXACT_ATTEMPT := 46116860184

  lemma BackoffIsExactUntilOverflow(attempt: nat)
    ensures attempt * 200 * NANOS_PER_MILLI <= MAX_INT64 <==> attempt <= LAST_EXACT_ATTEMPT
    ensures attempt <= LAST_EXACT_ATTEMPT ==> RetryBackoff(attempt) == IdealBackoff(attempt)
    ensures RetryBackoff(LAST_EXACT_ATTEMPT + 1) < 0
  {}

  lemma BackoffsGrow(a: nat, b: nat)
    requires a <= b <= LAST_EXACT_ATTEMPT
    ensures 0 <= RetryBackoff(a) <= RetryBackoff(b) <= MAX_BACKOFF
  {}

  /** The waits before retries 1, ..., `m`. */
  function Backoffs(m: nat): (waits: seq<int>)
    ensures |waits| == m
  {
    if m == 0 then [] else Backoffs(m - 1) + [RetryBackoff(m)]
  }

  function Sum(waits: seq<int>): int {
    if waits == [] then 0 else Sum(waits[..|waits| - 1]) + waits[|waits| - 1]
  }

  function IdealTotal(m: nat): int {
    if m == 0 then 0 else IdealTotal(m - 1) + IdealBackoff(m)
  }

  lemma {:induction false} IdealTotalIs(m: nat)
    ensures IdealTotal(m) == (if m <= 10 then 100 * (m * (m + 1)) else 11000 + 2000 * (m - 10)) * NANOS_PER_MILLI
  {
    if m > 0 {
      IdealTotalIs(m - 1);
      assert m * (m + 1) == (m - 1) * m + 2 * m;
    }
  }

  lemma {:induction false} TotalIsIdeal(m: nat)
    requires m <= LAST_EXACT_ATTEMPT
    ensures Sum(Backoffs(m)) == IdealTotal(m)
  {
    if m > 0 {
      TotalIsIdeal(m - 1);
      BackoffIsExactUntilOverflow(m);
      assert Backoffs(m)[..m - 1] == Backoffs(m - 1);
    }
  }

  lemma {:induction false} BackoffAt(m: nat, k: nat)
    requires k < m
    ensures Backoffs(m)[k] == RetryBackoff(k + 1)
  {
    if k < m - 1 { BackoffAt(m - 1, k); }
  }

  /** Together the waits of `m` retries take 100 m (m + 1) ms, or, beyond ten retries, 11 s and
      2 s for each further one. */
  lemma TotalBackoffIs(m: nat)
    requires m <= LAST_EXACT_ATTEMPT
    ensures Sum(Backoffs(m)) == (if m <= 10 then 100 * (m * (m + 1)) else 11000 + 2000 * (m - 10)) * NANOS_PER_MILLI
  {
    TotalIsIdeal(m);
    IdealTotalIs(m);
  }

  /** Each wait is the backoff of its retry, and within the exact range they never shrink. */
  lemma BackoffsAre(m: nat)
    ensures forall k :: 0 <= k < m ==> Backoffs(m)[k] == RetryBackoff(k + 1)
    ensures m <= LAST_EXACT_ATTEMPT ==>
      forall j, k :: 0 <= j <= k < m ==> 0 <= Backoffs(m)[j] <= Backoffs(m)[k] <= MAX_BACKOFF
  {
    forall k | 0 <= k < m ensures Backoffs(m)[k] == RetryBackoff(k + 1) {
      BackoffAt(m, k);
    }
    if m <= LAST_EXACT_ATTEMPT {
      forall j, k | 0 <= j <= k < m ensures 0 <= Backoffs(m)[j] <= Backoffs(m)[k] <= MAX_BACKOFF {
        BackoffsGrow(j + 1, k + 1);
      }
    }
  }
}

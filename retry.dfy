/** retry_with_backoff of src/buddy_bot/retry.py, a generic retry loop that
    the rest of the bot does not call. The wrapped coroutine is an input:
    `call(k)` is what the k-th call returns or raises. Delays are reals, as
    the source's floats, and are recorded rather than slept. */
module Retry {
  import opened Wrappers

  /** What one call of the wrapped function does. */
  datatype Attempt<T, E> = Returned(value: T) | Raised(error: E)

  /** How retry_with_backoff ends: the value, the non-retriable exception
      raised again, MaxRetriesExceeded with its last_error and attempts, or
      the AssertionError of the trailing `assert` when the loop never runs. */
  datatype RetryOutcome<T, E> =
    | Value(value: T)
    | Reraised(error: E)
    | MaxRetriesExceeded(lastError: E, attempts: nat)
    | AssertionFailed

  datatype RetryTrace<T, E> = RetryTrace(outcome: RetryOutcome<T, E>, calls: nat, sleeps: seq<real>)

  function Pow2(k: nat): (r: nat)
    ensures r >= 1
  {
    if k == 0 then 1 else 2 * Pow2(k - 1)
  }

  /** min(backoff_base * 2**attempt, backoff_max). */
  function Delay(base: real, cap: real, attempt: nat): (d: real)
    ensures d <= cap
    ensures d == cap || d == base * Pow2(attempt) as real
  {
    if base * Pow2(attempt) as real <= cap then base * Pow2(attempt) as real else cap
  }

  /** The `retriable` argument; None means every exception is retriable. */
  predicate IsRetriable<E>(retriable: Option<E -> bool>, e: E) {
    retriable.None? || retriable.value(e)
  }

  /** The loop from `attempt` on. */
  function RetryFrom<T, E>(call: nat -> Attempt<T, E>, maxRetries: int, base: real, cap: real,
                           retriable: Option<E -> bool>, attempt: nat): RetryTrace<T, E>
    requires attempt <= maxRetries
    decreases maxRetries - attempt
  {
    match call(attempt)
    case Returned(v) => RetryTrace(Value(v), 1, [])
    case Raised(e) =>
      if !IsRetriable(retriable, e) then RetryTrace(Reraised(e), 1, [])
      else if attempt >= maxRetries then RetryTrace(MaxRetriesExceeded(e, attempt + 1), 1, [])
      else
        var rest := RetryFrom(call, maxRetries, base, cap, retriable, attempt + 1);
        RetryTrace(rest.outcome, rest.calls + 1, [Delay(base, cap, attempt)] + rest.sleeps)
  }

  function RetrySpec<T, E>(call: nat -> Attempt<T, E>, maxRetries: int, base: real, cap: real,
                           retriable: Option<E -> bool>): RetryTrace<T, E>
  {
    if maxRetries < 0 then RetryTrace(AssertionFailed, 0, [])
    else RetryFrom(call, maxRetries, base, cap, retriable, 0)
  }

  /** retry_with_backoff. */
  method RetryWithBackoff<T, E>(call: nat -> Attempt<T, E>, maxRetries: int, base: real, cap: real,
                                retriable: Option<E -> bool>)
    returns (r: RetryOutcome<T, E>, calls: nat, sleeps: seq<real>)
    ensures RetryTrace(r, calls, sleeps) == RetrySpec(call, maxRetries, base, cap, retriable)
  {
    calls, sleeps := 0, [];
    var attempt := 0;
    while attempt < maxRetries + 1
      invariant 0 <= attempt && calls == attempt
      invariant maxRetries >= 0 ==> attempt <= maxRetries
      invariant attempt > 0 ==> maxRetries >= 0
      invariant attempt == 0 ==> sleeps == []
      invariant maxRetries >= 0 ==>
        var rest := RetryFrom(call, maxRetries, base, cap, retriable, attempt);
        RetrySpec(call, maxRetries, base, cap, retriable) == RetryTrace(rest.outcome, rest.calls + calls, sleeps + rest.sleeps)
      decreases maxRetries + 1 - attempt
    {
      calls := calls + 1;
      match call(attempt)
      case Returned(v) =>
        return Value(v), calls, sleeps;
      case Raised(e) =>
        if !IsRetriable(retriable, e) {
          return Reraised(e), calls, sleeps;
        }
        if attempt >= maxRetries {
          return MaxRetriesExceeded(e, attempt + 1), calls, sleeps;
        }
        var delay := Delay(base, cap, attempt);
        var rest := RetryFrom(call, maxRetries, base, cap, retriable, attempt + 1);
        assert sleeps + ([delay] + rest.sleeps) == (sleeps + [delay]) + rest.sleeps;
        sleeps := sleeps + [delay];
      attempt := attempt + 1;
    }
    r := AssertionFailed;
  }

  /** How the loop unfolds from `attempt`: every call before the last raised
      a retriable error and was followed by its delay, and the last call
      decides the outcome. */
  lemma {:induction false} RetryFromShape<T, E>(call: nat -> Attempt<T, E>, maxRetries: int, base: real, cap: real,
                                                retriable: Option<E -> bool>, attempt: nat)
    requires attempt <= maxRetries
    ensures var t := RetryFrom(call, maxRetries, base, cap, retriable, attempt);
      var last := attempt + t.calls - 1;
      && 1 <= t.calls <= maxRetries + 1 - attempt
      && |t.sleeps| == t.calls - 1
      && (forall k :: attempt <= k < last ==> call(k).Raised? && IsRetriable(retriable, call(k).error))
      && (forall i :: 0 <= i < |t.sleeps| ==> t.sleeps[i] == Delay(base, cap, attempt + i))
      && (t.outcome.Value? ==> call(last) == Returned(t.outcome.value))
      && (t.outcome.Reraised? ==> call(last) == Raised(t.outcome.error) && !IsRetriable(retriable, t.outcome.error))
      && (t.outcome.MaxRetriesExceeded? ==>
            last == maxRetries && t.outcome.attempts == maxRetries + 1 &&
            call(last) == Raised(t.outcome.lastError) && IsRetriable(retriable, t.outcome.lastError))
      && !t.outcome.AssertionFailed?
    decreases maxRetries - attempt
  {
    var a := call(attempt);
    if a.Raised? && IsRetriable(retriable, a.error) && attempt < maxRetries {
      RetryFromShape(call, maxRetries, base, cap, retriable, attempt + 1);
      var rest := RetryFrom(call, maxRetries, base, cap, retriable, attempt + 1);
      var t := RetryFrom(call, maxRetries, base, cap, retriable, attempt);
      assert forall i :: 1 <= i < |t.sleeps| ==> t.sleeps[i] == rest.sleeps[i - 1];
    }
  }

  /** At most max_retries + 1 calls, a delay between consecutive calls and
      none after the last, every delay within backoff_max; the trailing raise
      is reached only when max_retries is negative. */
  lemma RetryBounds<T, E>(call: nat -> Attempt<T, E>, maxRetries: int, base: real, cap: real, retriable: Option<E -> bool>)
    ensures var t := RetrySpec(call, maxRetries, base, cap, retriable);
      && (maxRetries >= 0 ==> 1 <= t.calls <= maxRetries + 1 && |t.sleeps| == t.calls - 1)
      && (forall i :: 0 <= i < |t.sleeps| ==> t.sleeps[i] == Delay(base, cap, i) <= cap)
      && (t.outcome.AssertionFailed? <==> maxRetries < 0)
  {
    if maxRetries >= 0 {
      RetryFromShape(call, maxRetries, base, cap, retriable, 0);
    }
  }

  /** A first-call success returns its value after exactly one call and no
      sleep. */
  lemma FirstCallSucceeds<T, E>(call: nat -> Attempt<T, E>, maxRetries: int, base: real, cap: real,
                                retriable: Option<E -> bool>)
    requires maxRetries >= 0 && call(0).Returned?
    ensures RetrySpec(call, maxRetries, base, cap, retriable) == RetryTrace(Value(call(0).value), 1, [])
  {
  }

  /** A non-retriable exception is raised again, unchanged, right after the
      call that raised it. */
  lemma NonRetriableStops<T, E>(call: nat -> Attempt<T, E>, maxRetries: int, base: real, cap: real,
                                retriable: Option<E -> bool>, k: nat)
    requires k <= maxRetries
    requires forall j :: 0 <= j < k ==> call(j).Raised? && IsRetriable(retriable, call(j).error)
    requires call(k).Raised? && !IsRetriable(retriable, call(k).error)
    ensures RetrySpec(call, maxRetries, base, cap, retriable).outcome == Reraised(call(k).error)
    ensures RetrySpec(call, maxRetries, base, cap, retriable).calls == k + 1
  {
    RetryFromShape(call, maxRetries, base, cap, retriable, 0);
  }

  /** If every call fails retriably, MaxRetriesExceeded carries the final
      exception and attempts = max_retries + 1; with max_retries = 0 that is
      a single call. */
  lemma AllFail<T, E>(call: nat -> Attempt<T, E>, maxRetries: int, base: real, cap: real, retriable: Option<E -> bool>)
    requires maxRetries >= 0
    requires forall j :: 0 <= j <= maxRetries ==> call(j).Raised? && IsRetriable(retriable, call(j).error)
    ensures var t := RetrySpec(call, maxRetries, base, cap, retriable);
      t.outcome == MaxRetriesExceeded(call(maxRetries).error, maxRetries + 1) && t.calls == maxRetries + 1
  {
    RetryFromShape(call, maxRetries, base, cap, retriable, 0);
  }

  /** Below the cap each delay doubles the previous one (for a non-negative
      base). */
  lemma DelayDoubles(base: real, cap: real, k: nat)
    requires 0.0 <= base && base * Pow2(k + 1) as real <= cap
    ensures Delay(base, cap, k + 1) == 2.0 * Delay(base, cap, k)
  {
    assert Pow2(k + 1) as real == 2.0 * Pow2(k) as real;
    assert base * Pow2(k) as real <= base * Pow2(k + 1) as real;
  }
}

/** pplx_sdk/shared/retry.py: capped exponential backoff and a generic
    retry loop.

    Delays are whole milliseconds (the source divides by 1000.0 only to
    hand seconds to `time.sleep`), the multiplier is a natural number, and
    the random jitter is a draw in [-1000, 1000] thousandths of the ±25%
    band. The function being retried is an oracle giving the outcome of
    its `k`-th call. */
module Retry {
  import opened Wrappers
  import opened Exceptions
  import opened Numbers

  /** `RetryConfig`. */
  datatype RetryConfig = RetryConfig(
    maxRetries: int, initialBackoffMs: int, maxBackoffMs: int, multiplier: nat, jitter: bool)

  const DefaultConfig := RetryConfig(3, 1000, 30000, 2, true)

  /** The delay without jitter: `min(initial * multiplier ** attempt, max)`. */
  function BaseBackoff(cfg: RetryConfig, attempt: nat): int {
    var grown := cfg.initialBackoffMs * Pow(cfg.multiplier, attempt);
    if grown < cfg.maxBackoffMs then grown else cfg.maxBackoffMs
  }

  function Abs(n: int): nat {
    if n < 0 then -n else n
  }

  /** `draw / 1000` of a quarter of `backoff`, truncated toward zero. */
  function JitterOffset(backoff: int, draw: int): int {
    var q := Abs(backoff) * Abs(draw) / 4000;
    if (backoff < 0) != (draw < 0) then -q else q
  }

  /** `calculate_backoff(attempt)`, in milliseconds, for one jitter draw:
      within a quarter of the base delay on either side, and negative
      exactly when the base delay is. */
  function CalculateBackoff(cfg: RetryConfig, attempt: nat, draw: int): (ms: int)
    requires -1000 <= draw <= 1000
    ensures !cfg.jitter ==> ms == BaseBackoff(cfg, attempt)
    ensures cfg.jitter ==>
      4 * BaseBackoff(cfg, attempt) - Abs(BaseBackoff(cfg, attempt)) <= 4 * ms <= 4 * BaseBackoff(cfg, attempt) + Abs(BaseBackoff(cfg, attempt))
    ensures ms < 0 <==> BaseBackoff(cfg, attempt) < 0
  {
    var backoff := BaseBackoff(cfg, attempt);
    if cfg.jitter then
      JitterBand(backoff, draw);
      backoff + JitterOffset(backoff, draw)
    else backoff
  }

  /** The jitter never moves the delay by more than a quarter of it. */
  lemma JitterBand(backoff: int, draw: int)
    requires -1000 <= draw <= 1000
    ensures -(Abs(backoff) as int) <= 4 * JitterOffset(backoff, draw) <= Abs(backoff)
  {
    var b, d := Abs(backoff), Abs(draw);
    var p := b * d;
    MulMonotone(b, 0, d);
    MulMonotone(b, d, 1000);
    assert 0 <= p <= b * 1000;
    var q: int := p / 4000;
    assert 4000 * q <= p;
    assert JitterOffset(backoff, draw) == if (backoff < 0) != (draw < 0) then -q else q;
  }

  /** Without jitter the delay never exceeds the cap. */
  lemma BackoffCapped(cfg: RetryConfig, attempt: nat)
    requires !cfg.jitter
    ensures CalculateBackoff(cfg, attempt, 0) <= cfg.maxBackoffMs
  {
  }

  /** Without jitter, and with a multiplier of at least one and a
      non-negative initial delay, the delay never decreases from one
      attempt to a later one. */
  lemma BackoffMonotone(cfg: RetryConfig, a1: nat, a2: nat)
    requires !cfg.jitter && cfg.multiplier >= 1 && cfg.initialBackoffMs >= 0 && a1 <= a2
    ensures CalculateBackoff(cfg, a1, 0) <= CalculateBackoff(cfg, a2, 0)
  {
    PowMonotone(cfg.multiplier, a1, a2);
    MulMonotone(cfg.initialBackoffMs, Pow(cfg.multiplier, a1), Pow(cfg.multiplier, a2));
  }

  /** A configuration with no negative delay setting never asks for a
      negative delay; a negative cap always does. */
  lemma BaseBackoffSign(cfg: RetryConfig, attempt: nat)
    ensures cfg.initialBackoffMs >= 0 && cfg.maxBackoffMs >= 0 ==> BaseBackoff(cfg, attempt) >= 0
    ensures cfg.maxBackoffMs < 0 ==> BaseBackoff(cfg, attempt) < 0
  {
    if cfg.multiplier > 0 {
      PowPositive(cfg.multiplier, attempt);
    } else if attempt > 0 {
      assert Pow(cfg.multiplier, attempt) == 0 * Pow(cfg.multiplier, attempt - 1);
    }
    if cfg.initialBackoffMs >= 0 {
      MulMonotone(cfg.initialBackoffMs, 0, Pow(cfg.multiplier, attempt));
    }
  }

  lemma MulMonotone(a: int, x: int, y: int)
    requires a >= 0 && x <= y
    ensures a * x <= a * y
  {
  }

  /** The default configuration doubles from one second: 1 s, 2 s, 4 s,
      and the cap of 30 s from attempt 5 on, before jitter. */
  lemma DefaultSchedule()
    ensures BaseBackoff(DefaultConfig, 0) == 1000
    ensures BaseBackoff(DefaultConfig, 1) == 2000
    ensures BaseBackoff(DefaultConfig, 2) == 4000
    ensures BaseBackoff(DefaultConfig, 5) == 30000
  {
    assert Pow(2, 5) == 32 by {
      assert Pow(2, 0) == 1;
      assert Pow(2, 1) == 2;
      assert Pow(2, 2) == 4;
      assert Pow(2, 3) == 8;
      assert Pow(2, 4) == 16;
    }
  }

  /** What `retry_with_backoff` did: its result or exception, how many
      times it called the function, and the delays it slept. */
  datatype RetryRun<T> = RetryRun(result: Result<T, Fault>, calls: nat, sleeps: seq<int>)

  /** The loop from iteration `attempt` on: a success is returned at once;
      a retryable failure at the last iteration is raised, earlier ones
      sleep `calculate_backoff(attempt)`, and a negative delay makes
      `time.sleep` raise; any other exception escapes.
      A loop with no iteration at all (a negative `max_retries`) ends on
      the failing `assert last_exception is not None`. */
  function Retrying<T>(cfg: RetryConfig, call: nat -> Result<T, Fault>, retryable: Fault -> bool,
                       draws: nat -> int, attempt: nat): RetryRun<T>
    requires forall k :: -1000 <= draws(k) <= 1000
    decreases if attempt <= cfg.maxRetries then cfg.maxRetries + 1 - attempt else 0
  {
    if attempt > cfg.maxRetries then RetryRun(Failure(AssertionError), 0, [])
    else match call(attempt)
      case Success(v) => RetryRun(Success(v), 1, [])
      case Failure(e) =>
        if !retryable(e) || attempt == cfg.maxRetries then RetryRun(Failure(e), 1, [])
        else
          var delay := CalculateBackoff(cfg, attempt, draws(attempt));
          if delay < 0 then RetryRun(Failure(NegativeSleep), 1, [])
          else
            var rest := Retrying(cfg, call, retryable, draws, attempt + 1);
            RetryRun(rest.result, rest.calls + 1, [delay] + rest.sleeps)
  }

  /** The retryable exceptions by default: the transport family. */
  predicate DefaultRetryable(e: Fault) {
    e.Sdk? && IsInstance(e.error, TransportError)
  }

  /** `retry_with_backoff(func, config, retryable_exceptions)`: `config`
      defaults to `RetryConfig()`. */
  method RetryWithBackoff<T>(config: Option<RetryConfig>, call: nat -> Result<T, Fault>, retryable: Fault -> bool,
                             draws: nat -> int)
    returns (result: Result<T, Fault>, calls: nat, sleeps: seq<int>)
    requires forall k :: -1000 <= draws(k) <= 1000
    ensures var cfg := config.GetOr(DefaultConfig);
      RetryRun(result, calls, sleeps) == Retrying(cfg, call, retryable, draws, 0)
  {
    var cfg := if config.Some? then config.value else DefaultConfig;
    var lastException: Option<Fault> := None;
    calls, sleeps := 0, [];
    var attempt: nat := 0;
    while attempt < cfg.maxRetries + 1
      invariant attempt == calls
      invariant attempt > 0 ==> lastException.Some? && attempt <= cfg.maxRetries
      invariant var rest := Retrying(cfg, call, retryable, draws, attempt);
        Retrying(cfg, call, retryable, draws, 0) == RetryRun(rest.result, calls + rest.calls, sleeps + rest.sleeps)
      decreases cfg.maxRetries + 1 - attempt
    {
      var outcome := call(attempt);
      calls := calls + 1;
      if outcome.Success? {
        StopsAt(cfg, call, retryable, draws, attempt);
        result := outcome;
        AppendEmptyRun(sleeps);
        return;
      }
      lastException := Some(outcome.error);
      if !retryable(outcome.error) || attempt == cfg.maxRetries {
        StopsAt(cfg, call, retryable, draws, attempt);
        result := outcome;
        AppendEmptyRun(sleeps);
        return;
      }
      var delay := CalculateBackoff(cfg, attempt, draws(attempt));
      if delay < 0 {
        SleepFailsAt(cfg, call, retryable, draws, attempt);
        result := Failure(NegativeSleep);
        AppendEmptyRun(sleeps);
        return;
      }
      ghost var rest := Retrying(cfg, call, retryable, draws, attempt + 1);
      RetriesAt(cfg, call, retryable, draws, attempt);
      Regroup3(sleeps, [delay], rest.sleeps);
      sleeps := sleeps + [delay];
      attempt := attempt + 1;
    }
    AppendEmptyRun(sleeps);
    result := Failure(AssertionError);
  }

  /** An iteration that returns or raises ends the run with its call. */
  lemma StopsAt<T>(cfg: RetryConfig, call: nat -> Result<T, Fault>, retryable: Fault -> bool, draws: nat -> int, attempt: nat)
    requires forall k :: -1000 <= draws(k) <= 1000
    requires attempt <= cfg.maxRetries
    requires call(attempt).Success? || !retryable(call(attempt).error) || attempt == cfg.maxRetries
    ensures Retrying(cfg, call, retryable, draws, attempt) == RetryRun(call(attempt), 1, [])
  {
  }

  /** An iteration that fails retryably with a negative delay ends the run
      with the sleep's `ValueError`. */
  lemma SleepFailsAt<T>(cfg: RetryConfig, call: nat -> Result<T, Fault>, retryable: Fault -> bool, draws: nat -> int, attempt: nat)
    requires forall k :: -1000 <= draws(k) <= 1000
    requires attempt < cfg.maxRetries
    requires call(attempt).Failure? && retryable(call(attempt).error)
    requires CalculateBackoff(cfg, attempt, draws(attempt)) < 0
    ensures Retrying(cfg, call, retryable, draws, attempt) == RetryRun(Failure(NegativeSleep), 1, [])
  {
  }

  /** An iteration that fails retryably sleeps and goes on. */
  lemma RetriesAt<T>(cfg: RetryConfig, call: nat -> Result<T, Fault>, retryable: Fault -> bool, draws: nat -> int, attempt: nat)
    requires forall k :: -1000 <= draws(k) <= 1000
    requires attempt < cfg.maxRetries
    requires call(attempt).Failure? && retryable(call(attempt).error)
    requires CalculateBackoff(cfg, attempt, draws(attempt)) >= 0
    ensures var rest := Retrying(cfg, call, retryable, draws, attempt + 1);
      Retrying(cfg, call, retryable, draws, attempt)
        == RetryRun(rest.result, rest.calls + 1, [CalculateBackoff(cfg, attempt, draws(attempt))] + rest.sleeps)
  {
  }

  lemma AppendEmptyRun(s: seq<int>)
    ensures s + [] == s
  {
  }

  lemma Regroup3(a: seq<int>, b: seq<int>, c: seq<int>)
    ensures a + (b + c) == a + b + c
  {
  }

  // ---------------------------------------------------------------------
  // Properties of the loop

  /** The function is called at most `max_retries + 1` times, and at least
      once unless `max_retries` is negative; it sleeps once fewer than it
      calls, never after the last call, the `k`-th sleep is the backoff
      for attempt `k`, and no delay slept is negative. */
  lemma {:induction false} CallsAndSleeps<T>(cfg: RetryConfig, call: nat -> Result<T, Fault>, retryable: Fault -> bool,
                                             draws: nat -> int, attempt: nat)
    requires forall k :: -1000 <= draws(k) <= 1000
    ensures var run := Retrying(cfg, call, retryable, draws, attempt);
      && (attempt <= cfg.maxRetries ==> 1 <= run.calls <= cfg.maxRetries + 1 - attempt && |run.sleeps| == run.calls - 1)
      && (attempt > cfg.maxRetries ==> run.calls == 0 && run.sleeps == [])
      && (forall i | 0 <= i < |run.sleeps| ::
            run.sleeps[i] == CalculateBackoff(cfg, attempt + i, draws(attempt + i)) && run.sleeps[i] >= 0)
    decreases if attempt <= cfg.maxRetries then cfg.maxRetries + 1 - attempt else 0
  {
    if attempt <= cfg.maxRetries && call(attempt).Failure? && retryable(call(attempt).error) && attempt != cfg.maxRetries
       && CalculateBackoff(cfg, attempt, draws(attempt)) >= 0 {
      CallsAndSleeps(cfg, call, retryable, draws, attempt + 1);
      var rest := Retrying(cfg, call, retryable, draws, attempt + 1);
      var run := Retrying(cfg, call, retryable, draws, attempt);
      assert run.sleeps == [CalculateBackoff(cfg, attempt, draws(attempt))] + rest.sleeps;
      forall i | 0 < i < |run.sleeps|
        ensures run.sleeps[i] == CalculateBackoff(cfg, attempt + i, draws(attempt + i)) && run.sleeps[i] >= 0
      {
        assert run.sleeps[i] == rest.sleeps[i - 1];
      }
    }
  }

  /** Whether call `k` fails retryably before the final attempt and the
      delay it asks for is negative, so that the sleep raises. */
  predicate SleepFails<T>(cfg: RetryConfig, call: nat -> Result<T, Fault>, retryable: Fault -> bool, k: nat) {
    call(k).Failure? && retryable(call(k).error) && k < cfg.maxRetries && BaseBackoff(cfg, k) < 0
  }

  /** The outcome: the first success is returned as soon as it happens;
      otherwise the exception raised is that of the last call, which was
      either not retryable or the final allowed attempt, or the sleep's
      `ValueError` when that call asked for a negative delay; every
      earlier call failed retryably and slept a non-negative delay. */
  lemma {:induction false} RunOutcome<T>(cfg: RetryConfig, call: nat -> Result<T, Fault>, retryable: Fault -> bool,
                                         draws: nat -> int, attempt: nat)
    requires forall k :: -1000 <= draws(k) <= 1000
    requires attempt <= cfg.maxRetries
    ensures var run := Retrying(cfg, call, retryable, draws, attempt);
      var last := attempt + run.calls - 1;
      && run.calls >= 1
      && (SleepFails(cfg, call, retryable, last) ==> run.result == Failure(NegativeSleep))
      && (!SleepFails(cfg, call, retryable, last) ==>
            run.result == call(last) && (run.result.Failure? ==> !retryable(run.result.error) || last == cfg.maxRetries))
      && (forall k | attempt <= k < last :: call(k).Failure? && retryable(call(k).error) && BaseBackoff(cfg, k) >= 0)
    decreases cfg.maxRetries + 1 - attempt
  {
    if call(attempt).Failure? && retryable(call(attempt).error) && attempt != cfg.maxRetries
       && BaseBackoff(cfg, attempt) >= 0 {
      RunOutcome(cfg, call, retryable, draws, attempt + 1);
    }
  }

  /** A non-retryable exception on the first call escapes at once, after
      one call and no sleep. */
  lemma NotRetryable<T>(cfg: RetryConfig, call: nat -> Result<T, Fault>, retryable: Fault -> bool, draws: nat -> int)
    requires forall k :: -1000 <= draws(k) <= 1000
    requires cfg.maxRetries >= 0 && call(0).Failure? && !retryable(call(0).error)
    ensures Retrying(cfg, call, retryable, draws, 0) == RetryRun(call(0), 1, [])
  {
  }

  /** With a negative `max_retries` the function is never called and the
      fallback assertion fails. */
  lemma NegativeRetries<T>(cfg: RetryConfig, call: nat -> Result<T, Fault>, retryable: Fault -> bool, draws: nat -> int)
    requires forall k :: -1000 <= draws(k) <= 1000
    requires cfg.maxRetries < 0
    ensures Retrying(cfg, call, retryable, draws, 0) == RetryRun(Failure(AssertionError), 0, [])
  {
  }

  /** A function that always fails retryably is called `max_retries + 1`
      times and its last exception is raised, unless a delay before the
      last attempt is negative, in which case the sleep's `ValueError` is. */
  lemma {:induction false} Exhausted<T>(cfg: RetryConfig, call: nat -> Result<T, Fault>, retryable: Fault -> bool,
                                        draws: nat -> int, attempt: nat)
    requires forall k :: -1000 <= draws(k) <= 1000
    requires attempt <= cfg.maxRetries
    requires forall k :: call(k).Failure? && retryable(call(k).error)
    ensures var run := Retrying(cfg, call, retryable, draws, attempt);
      if forall k | attempt <= k < cfg.maxRetries :: BaseBackoff(cfg, k) >= 0
      then run.calls == cfg.maxRetries + 1 - attempt && run.result == call(cfg.maxRetries)
      else run.result == Failure(NegativeSleep)
    decreases cfg.maxRetries + 1 - attempt
  {
    if attempt < cfg.maxRetries && BaseBackoff(cfg, attempt) >= 0 {
      Exhausted(cfg, call, retryable, draws, attempt + 1);
    }
  }

  /** With non-negative delay settings, a function that always fails
      retryably is called `max_retries + 1` times; with a negative cap it
      is called once and the sleep after it raises. */
  lemma ExhaustedSettings<T>(cfg: RetryConfig, call: nat -> Result<T, Fault>, retryable: Fault -> bool, draws: nat -> int)
    requires forall k :: -1000 <= draws(k) <= 1000
    requires cfg.maxRetries >= 0
    requires forall k :: call(k).Failure? && retryable(call(k).error)
    ensures var run := Retrying(cfg, call, retryable, draws, 0);
      && (cfg.initialBackoffMs >= 0 && cfg.maxBackoffMs >= 0 ==>
            run.calls == cfg.maxRetries + 1 && run.result == call(cfg.maxRetries))
      && (cfg.maxBackoffMs < 0 && cfg.maxRetries > 0 ==> run == RetryRun(Failure(NegativeSleep), 1, []))
  {
    forall k | 0 <= k < cfg.maxRetries
      ensures (cfg.initialBackoffMs >= 0 && cfg.maxBackoffMs >= 0 ==> BaseBackoff(cfg, k) >= 0)
    {
      BaseBackoffSign(cfg, k);
    }
    Exhausted(cfg, call, retryable, draws, 0);
    BaseBackoffSign(cfg, 0);
  }
}

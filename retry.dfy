/** Retry with capped exponential backoff (pkg/reliability/retry.go).
    `fn` is given as the outcome of each of its calls, the backoff waits as
    whether the context was seen done while waiting, and durations as integer
    nanoseconds. The backoff factor is a natural-number multiplier. */
module Retries {
  import opened Wrappers

  const Millisecond := 1_000_000
  const Second := 1_000_000_000

  datatype RetryConfig = RetryConfig(
    maxAttempts: int,
    initialDelay: int,
    maxDelay: int,
    backoffFactor: nat,
    retryableErrors: seq<Error>)

  /** `DefaultRetryConfig`: three attempts, 100 ms doubling up to 10 s, every
      error retryable. */
  function DefaultRetryConfig(): (c: RetryConfig)
    ensures c.maxAttempts == 3 && c.backoffFactor == 2
    ensures c.initialDelay == 100 * Millisecond && c.maxDelay == 10 * Second
    ensures forall e :: IsRetryable(e, c.retryableErrors)
  {
    RetryConfig(3, 100 * Millisecond, 10 * Second, 2, [])
  }

  /** The loop over the allow-list in `isRetryable`. */
  function Listed(err: Error, errs: seq<Error>): (b: bool)
    ensures b <==> err in errs
  {
    if errs == [] then false else errs[0] == err || Listed(err, errs[1..])
  }

  /** `isRetryable`: an empty allow-list admits every error. */
  function IsRetryable(err: Error, retryableErrors: seq<Error>): (b: bool)
    ensures b <==> retryableErrors == [] || err in retryableErrors
  {
    |retryableErrors| == 0 || Listed(err, retryableErrors)
  }

  function MinInt(a: int, b: int): int { if a < b then a else b }

  /** The length of the k-th backoff wait (k = 0 before the second attempt). */
  function DelayAt(cfg: RetryConfig, k: nat): int
  {
    if k == 0 then cfg.initialDelay else MinInt(DelayAt(cfg, k - 1) * cfg.backoffFactor, cfg.maxDelay)
  }

  /** What `Retry` returns, how many times it called `fn`, and how many backoff
      waits it began, from attempt index `i` (0-based) on. */
  datatype Report = Report(result: Outcome, calls: nat, waits: nat)

  function RetryFrom(cfg: RetryConfig, fn: nat -> Outcome, cancelled: nat -> bool, ctxErr: Error, i: nat): Report
    requires i < cfg.maxAttempts
    decreases cfg.maxAttempts - i
  {
    var o := fn(i);
    if o.Pass? then Report(Pass, i + 1, i)
    else if !IsRetryable(o.error, cfg.retryableErrors) then Report(o, i + 1, i)
    else if i + 1 == cfg.maxAttempts then Report(o, i + 1, i)
    else if cancelled(i) then Report(Fail(ctxErr), i + 1, i + 1)
    else RetryFrom(cfg, fn, cancelled, ctxErr, i + 1)
  }

  function RetrySpec(cfg: RetryConfig, fn: nat -> Outcome, cancelled: nat -> bool, ctxErr: Error): Report
  {
    if cfg.maxAttempts <= 0 then Report(Pass, 0, 0) else RetryFrom(cfg, fn, cancelled, ctxErr, 0)
  }

  /** `Retry(ctx, fn, config)`. `fn(k)` is the outcome of the (k+1)-th call;
      `cancelled(k)` says that the context was seen done during the (k+1)-th
      backoff wait, whose error is `ctxErr`. Besides the result, the method
      reports the number of calls made and the lengths of the waits it began. */
  method Retry(cfg: RetryConfig, fn: nat -> Outcome, cancelled: nat -> bool, ctxErr: Error)
    returns (r: Outcome, calls: nat, delays: seq<int>)
    ensures Report(r, calls, |delays|) == RetrySpec(cfg, fn, cancelled, ctxErr)
    ensures cfg.maxAttempts <= 0 ==> r == Pass && calls == 0
    ensures cfg.maxAttempts > 0 ==> 1 <= calls <= cfg.maxAttempts
    ensures forall k :: 0 <= k < calls - 1 ==> fn(k).Fail? && IsRetryable(fn(k).error, cfg.retryableErrors) && !cancelled(k)
    ensures forall k :: 0 <= k < |delays| ==> delays[k] == DelayAt(cfg, k)
  {
    r, calls, delays := Pass, 0, [];
    var delay := cfg.initialDelay;
    var attempt := 1;
    while attempt <= cfg.maxAttempts
      invariant 1 <= attempt
      invariant cfg.maxAttempts > 0 ==> attempt <= cfg.maxAttempts
      invariant cfg.maxAttempts <= 0 ==> attempt == 1 && r == Pass
      invariant calls == attempt - 1 && |delays| == calls
      invariant delay == DelayAt(cfg, attempt - 1)
      invariant forall k :: 0 <= k < |delays| ==> delays[k] == DelayAt(cfg, k)
      invariant forall k :: 0 <= k < calls ==> fn(k).Fail? && IsRetryable(fn(k).error, cfg.retryableErrors) && !cancelled(k)
      invariant attempt <= cfg.maxAttempts ==>
        RetrySpec(cfg, fn, cancelled, ctxErr) == RetryFrom(cfg, fn, cancelled, ctxErr, attempt - 1)
      decreases cfg.maxAttempts - attempt
    {
      r := fn(attempt - 1);
      calls := calls + 1;
      if r.Pass? {
        return;
      }
      if !IsRetryable(r.error, cfg.retryableErrors) {
        return;
      }
      if attempt == cfg.maxAttempts {
        return;
      }
      delays := delays + [delay];
      if cancelled(attempt - 1) {
        return Fail(ctxErr), calls, delays;
      }
      delay := MinInt(delay * cfg.backoffFactor, cfg.maxDelay);
      attempt := attempt + 1;
    }
  }

  /** Once the first k attempts are retryable failures whose waits were not
      cancelled, the run continues as if it started at attempt k. */
  lemma {:induction false} SkipRetriedAttempts(cfg: RetryConfig, fn: nat -> Outcome, cancelled: nat -> bool, ctxErr: Error, k: nat)
    requires k < cfg.maxAttempts
    requires forall j :: 0 <= j < k ==> fn(j).Fail? && IsRetryable(fn(j).error, cfg.retryableErrors) && !cancelled(j)
    ensures RetrySpec(cfg, fn, cancelled, ctxErr) == RetryFrom(cfg, fn, cancelled, ctxErr, k)
  {
    if k > 0 {
      SkipRetriedAttempts(cfg, fn, cancelled, ctxErr, k - 1);
    }
  }

  /** A function that fails every time with retryable errors, with no
      cancellation, is called exactly MaxAttempts times and its last error is
      returned. */
  lemma AlwaysFailingExhaustsAttempts(cfg: RetryConfig, fn: nat -> Outcome, cancelled: nat -> bool, ctxErr: Error)
    requires cfg.maxAttempts > 0
    requires forall j :: 0 <= j < cfg.maxAttempts ==> fn(j).Fail? && IsRetryable(fn(j).error, cfg.retryableErrors)
    requires forall j :: 0 <= j < cfg.maxAttempts ==> !cancelled(j)
    ensures RetrySpec(cfg, fn, cancelled, ctxErr) == Report(fn(cfg.maxAttempts - 1), cfg.maxAttempts, cfg.maxAttempts - 1)
  {
    SkipRetriedAttempts(cfg, fn, cancelled, ctxErr, cfg.maxAttempts - 1);
  }

  /** The first success, the first non-retryable error, or a cancelled wait
      after attempt k ends the run at once: no call after the (k+1)-th. */
  lemma FirstStopEndsRun(cfg: RetryConfig, fn: nat -> Outcome, cancelled: nat -> bool, ctxErr: Error, k: nat)
    requires k < cfg.maxAttempts
    requires forall j :: 0 <= j < k ==> fn(j).Fail? && IsRetryable(fn(j).error, cfg.retryableErrors) && !cancelled(j)
    ensures fn(k).Pass? ==> RetrySpec(cfg, fn, cancelled, ctxErr) == Report(Pass, k + 1, k)
    ensures fn(k).Fail? && !IsRetryable(fn(k).error, cfg.retryableErrors) ==>
      RetrySpec(cfg, fn, cancelled, ctxErr) == Report(fn(k), k + 1, k)
    ensures fn(k).Fail? && IsRetryable(fn(k).error, cfg.retryableErrors) && k + 1 < cfg.maxAttempts && cancelled(k) ==>
      RetrySpec(cfg, fn, cancelled, ctxErr) == Report(Fail(ctxErr), k + 1, k + 1)
  {
    SkipRetriedAttempts(cfg, fn, cancelled, ctxErr, k);
  }

  /** With the default configuration, a function failing every time is called
      exactly three times, with waits of 100 ms and 200 ms in between. */
  lemma DefaultConfigTriesThreeTimes(fn: nat -> Outcome, cancelled: nat -> bool, ctxErr: Error)
    requires forall j :: 0 <= j < 3 ==> fn(j).Fail? && !cancelled(j)
    ensures RetrySpec(DefaultRetryConfig(), fn, cancelled, ctxErr) == Report(fn(2), 3, 2)
    ensures DelayAt(DefaultRetryConfig(), 0) == 100 * Millisecond
    ensures DelayAt(DefaultRetryConfig(), 1) == 200 * Millisecond
  {
    AlwaysFailingExhaustsAttempts(DefaultRetryConfig(), fn, cancelled, ctxErr);
  }

  function Pow(b: nat, e: nat): nat
  {
    if e == 0 then 1 else b * Pow(b, e - 1)
  }

  lemma MulMonotone(a: int, b: int, f: nat)
    requires a <= b
    ensures a * f <= b * f
  {
  }

  /** Capping then multiplying then capping again is the same as multiplying
      the uncapped value and capping once. */
  lemma CapCommutes(a: int, m: int, f: nat)
    requires a >= 0 && m >= 0
    ensures MinInt(MinInt(a, m) * f, m) == MinInt(a * f, m)
  {
    if a > m && f >= 1 {
      MulMonotone(m, a, f);
      MulMonotone(1, f, m);
      assert m * f >= m;
    }
  }

  /** The waits grow geometrically by BackoffFactor from InitialDelay until they
      reach MaxDelay, and stay there: every wait after the first is capped. */
  lemma {:induction false} DelayIsCappedExponential(cfg: RetryConfig, k: nat)
    requires cfg.initialDelay >= 0 && cfg.maxDelay >= 0
    requires k >= 1
    ensures DelayAt(cfg, k) == MinInt(cfg.initialDelay * Pow(cfg.backoffFactor, k), cfg.maxDelay)
    ensures DelayAt(cfg, k) <= cfg.maxDelay
  {
    if k == 1 {
    } else {
      DelayIsCappedExponential(cfg, k - 1);
      var a := cfg.initialDelay * Pow(cfg.backoffFactor, k - 1);
      assert a >= 0;
      CapCommutes(a, cfg.maxDelay, cfg.backoffFactor);
      assert Pow(cfg.backoffFactor, k) == cfg.backoffFactor * Pow(cfg.backoffFactor, k - 1);
      ScaleStep(cfg.initialDelay, cfg.backoffFactor, Pow(cfg.backoffFactor, k - 1));
    }
  }

  lemma ScaleStep(x: int, f: nat, p: int)
    ensures (x * p) * f == x * (f * p)
  {
  }
}

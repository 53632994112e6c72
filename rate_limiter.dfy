/** The token-bucket rate limiter of pkg/reliability/rate_limiter.go.
    Tokens and the refill rate are reals (no floating-point rounding), time is
    an explicit `now` in seconds, and the lock is left out. */
module RateLimiters {
  import opened Wrappers

  /** The package's own `min` on float64. */
  function Min(a: real, b: real): (m: real)
    ensures m <= a && m <= b
    ensures m == a || m == b
  {
    if a < b then a else b
  }

  /** The lazy refill at the start of `Allow`. */
  function Refill(tokens: real, bucketSize: int, rate: real, elapsed: real): (t: real)
    ensures t <= bucketSize as real
    ensures t <= tokens + elapsed * rate
    ensures t == bucketSize as real || t == tokens + elapsed * rate
  {
    Min(bucketSize as real, tokens + elapsed * rate)
  }

  /** The bucket's mutable fields as one value. */
  datatype Bucket = Bucket(tokens: real, lastRefill: real)

  /** `Allow` on a bucket at time `now`: the decision and the bucket it leaves. */
  function AllowStep(b: Bucket, rate: real, bucketSize: int, now: real): (bool, Bucket)
  {
    var t := Refill(b.tokens, bucketSize, rate, now - b.lastRefill);
    if t >= 1.0 then (true, Bucket(t - 1.0, now)) else (false, Bucket(t, now))
  }

  ghost predicate InBounds(b: Bucket, bucketSize: int)
  {
    0.0 <= b.tokens <= bucketSize as real
  }

  /** With a non-negative rate and a clock that does not run backwards, `Allow`
      keeps the token count between zero and the bucket size. */
  lemma AllowStaysInBounds(b: Bucket, rate: real, bucketSize: int, now: real)
    requires InBounds(b, bucketSize) && rate >= 0.0 && now >= b.lastRefill
    ensures InBounds(AllowStep(b, rate, bucketSize, now).1, bucketSize)
  {
    var elapsed := now - b.lastRefill;
    assert elapsed * rate >= 0.0;
    var t := Refill(b.tokens, bucketSize, rate, elapsed);
    assert 0.0 <= t <= bucketSize as real;
  }

  /** A run of `Allow` calls at the given times. */
  function AllowAll(b: Bucket, rate: real, bucketSize: int, times: seq<real>): (r: (nat, Bucket))
    decreases |times|
  {
    if times == [] then (0, b)
    else
      var (ok, next) := AllowStep(b, rate, bucketSize, times[0]);
      var (n, last) := AllowAll(next, rate, bucketSize, times[1..]);
      ((if ok then 1 else 0) + n, last)
  }

  /** One more `Allow` call at the end of a run adds its decision to the count
      and leaves the bucket that call leaves. */
  lemma {:induction false} AllowAllSnoc(b: Bucket, rate: real, bucketSize: int, times: seq<real>, t: real)
    ensures var (n, last) := AllowAll(b, rate, bucketSize, times);
      var (ok, next) := AllowStep(last, rate, bucketSize, t);
      AllowAll(b, rate, bucketSize, times + [t]) == (n + (if ok then 1 else 0), next)
    decreases |times|
  {
    if times == [] {
      assert [] + [t] == [t];
      assert AllowAll(AllowStep(b, rate, bucketSize, t).1, rate, bucketSize, []) == (0, AllowStep(b, rate, bucketSize, t).1);
    } else {
      var next := AllowStep(b, rate, bucketSize, times[0]).1;
      assert (times + [t])[0] == times[0];
      assert (times + [t])[1..] == times[1..] + [t];
      AllowAllSnoc(next, rate, bucketSize, times[1..], t);
    }
  }

  /** A full bucket of five tokens refilled at five per second admits five calls
      at the same instant and refuses a sixth; a fifth of a second later one
      token has come back and a call is admitted again. */
  lemma BurstThenRefill(t0: real)
    ensures var (n, b) := AllowAll(Bucket(5.0, t0), 5.0, 5, [t0, t0, t0, t0, t0]);
      n == 5 && b == Bucket(0.0, t0)
      && !AllowStep(b, 5.0, 5, t0).0
      && AllowStep(AllowStep(b, 5.0, 5, t0).1, 5.0, 5, t0 + 0.2).0
  {
    var ts := [t0, t0, t0, t0, t0];
    assert AllowAll(Bucket(1.0, t0), 5.0, 5, ts[4..]) == (1, Bucket(0.0, t0));
    assert AllowAll(Bucket(2.0, t0), 5.0, 5, ts[3..]) == (2, Bucket(0.0, t0));
    assert AllowAll(Bucket(3.0, t0), 5.0, 5, ts[2..]) == (3, Bucket(0.0, t0));
    assert AllowAll(Bucket(4.0, t0), 5.0, 5, ts[1..]) == (4, Bucket(0.0, t0));
  }

  /** How a `WaitN` call ended: all tokens taken, context done, or still
      waiting when the given polls ran out. */
  datatype WaitResult = Acquired | Cancelled(err: Error) | StillWaiting

  /** One turn of the `WaitN` loop: whether the context was done, and the clock
      when `Allow` was called. */
  datatype Poll = Poll(done: bool, now: real)

  /** The first `used` polls read a clock that never runs backwards, starting
      no earlier than `start`. */
  ghost predicate ClockAhead(start: real, polls: seq<Poll>, used: nat)
    requires used <= |polls|
  {
    && (used > 0 ==> start <= polls[0].now)
    && forall k | 0 < k < used :: polls[k - 1].now <= polls[k].now
  }

  /** The clock readings at which a run of polls called `Allow`. */
  function Times(polls: seq<Poll>): (ts: seq<real>)
    ensures |ts| == |polls|
    ensures forall i :: 0 <= i < |polls| ==> ts[i] == polls[i].now
  {
    seq(|polls|, i requires 0 <= i < |polls| => polls[i].now)
  }

  class RateLimiter {
    const rate: real
    const bucketSize: int
    var tokens: real
    var lastRefill: real

    function View(): Bucket
      reads this
    {
      Bucket(tokens, lastRefill)
    }

    ghost predicate Valid()
      reads this
    {
      rate >= 0.0 && InBounds(View(), bucketSize)
    }

    /** `NewRateLimiter`: a full bucket, refilled as of `now`. */
    constructor (rate: real, bucketSize: int, now: real)
      ensures this.rate == rate && this.bucketSize == bucketSize
      ensures tokens == bucketSize as real && lastRefill == now
      ensures rate >= 0.0 && bucketSize >= 0 ==> Valid()
    {
      this.rate := rate;
      this.bucketSize := bucketSize;
      tokens := bucketSize as real;
      lastRefill := now;
    }

    method Allow(now: real) returns (allowed: bool)
      modifies this
      ensures var refilled := Refill(old(tokens), bucketSize, rate, now - old(lastRefill));
        && (allowed <==> refilled >= 1.0)
        && tokens == (if allowed then refilled - 1.0 else refilled)
      ensures lastRefill == now
      ensures (allowed, View()) == AllowStep(old(View()), rate, bucketSize, now)
      ensures old(Valid()) && now >= old(lastRefill) ==> Valid()
    {
      tokens := Refill(tokens, bucketSize, rate, now - lastRefill);
      lastRefill := now;
      if tokens >= 1.0 {
        tokens := tokens - 1.0;
        return true;
      }
      if old(Valid()) && now >= old(lastRefill) {
        AllowStaysInBounds(old(View()), rate, bucketSize, now);
      }
      return false;
    }

    /** `Allow` as one step of a counted run of calls that started from
        `start`: the run grows by this call. */
    method AllowCounted(now: real, ghost start: Bucket, ghost times: seq<real>, ghost count: nat) returns (ok: bool)
      requires (count, View()) == AllowAll(start, rate, bucketSize, times)
      modifies this
      ensures (count + (if ok then 1 else 0), View()) == AllowAll(start, rate, bucketSize, times + [now])
      ensures lastRefill == now
      ensures old(Valid()) && now >= old(lastRefill) ==> Valid()
    {
      AllowAllSnoc(start, rate, bucketSize, times, now);
      ok := Allow(now);
    }

    /** `WaitN(ctx, n)` over the polls the loop makes; the sleep between polls
        is not modelled. `granted` counts the `Allow` calls that succeeded. */
    method WaitN(n: int, polls: seq<Poll>, ctxErr: Error) returns (r: WaitResult, granted: nat, used: nat)
      modifies this
      ensures used <= |polls|
      ensures n <= 0 ==> r == Acquired && granted == 0 && used == 0 && View() == old(View())
      ensures r == Acquired <==> n <= 0 || granted == n
      ensures granted <= (if n < 0 then 0 else n)
      ensures r.Cancelled? ==> r.err == ctxErr && used >= 1 && polls[used - 1].done
      ensures forall k :: 0 <= k < used && (r.Cancelled? ==> k < used - 1) ==> !polls[k].done
      ensures r == StillWaiting ==> used == |polls| && granted < n
      // every poll that was not cancelled made exactly one `Allow` call
      ensures r.Cancelled? ==> (granted, View()) == AllowAll(old(View()), rate, bucketSize, Times(polls[..used - 1]))
      ensures !r.Cancelled? ==> (granted, View()) == AllowAll(old(View()), rate, bucketSize, Times(polls[..used]))
      // the loop stops at the `Allow` call that took the n-th token
      ensures r == Acquired && n > 0 ==>
        (used >= 1 && AllowAll(old(View()), rate, bucketSize, Times(polls[..used - 1])).0 == n - 1)
      ensures old(Valid()) && ClockAhead(old(lastRefill), polls, used) ==> Valid()
    {
      granted, used := 0, 0;
      var remaining := n;
      assert polls[..0] == [];
      while remaining > 0
        invariant used <= |polls|
        invariant remaining == n - granted
        invariant n > 0 ==> remaining >= 0
        invariant n <= 0 ==> granted == 0 && used == 0 && View() == old(View())
        invariant forall k :: 0 <= k < used ==> !polls[k].done
        invariant used > 0 ==> lastRefill == polls[used - 1].now
        invariant used == 0 ==> View() == old(View())
        invariant (granted, View()) == AllowAll(old(View()), rate, bucketSize, Times(polls[..used]))
        invariant n > 0 && granted == n ==>
          (used >= 1 && AllowAll(old(View()), rate, bucketSize, Times(polls[..used - 1])).0 == n - 1)
        invariant old(Valid()) && ClockAhead(old(lastRefill), polls, used) ==> Valid()
        decreases |polls| - used
      {
        if used == |polls| {
          return StillWaiting, granted, used;
        }
        var poll := polls[used];
        if poll.done {
          used := used + 1;
          return Cancelled(ctxErr), granted, used;
        }
        ghost var before := Times(polls[..used]);
        assert Times(polls[..used + 1]) == before + [poll.now];
        var ok := AllowCounted(poll.now, old(View()), before, granted);
        used := used + 1;
        if ok {
          remaining := remaining - 1;
          granted := granted + 1;
        }
      }
      r := Acquired;
    }
  }
}

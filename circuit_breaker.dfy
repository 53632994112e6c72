/** The three-state circuit breaker of pkg/reliability/circuit_breaker.go.
    Time is an explicit `now` (nanoseconds); the lock is left out and every
    operation is atomic. */
module CircuitBreakers {
  import opened Wrappers

  datatype CircuitState = Closed | Open | HalfOpen

  const ErrCircuitOpen := Error("circuit breaker is open")

  /** The fields a breaker updates, as one value. */
  datatype Snapshot = Snapshot(state: CircuitState, failureCount: int, lastFailure: int)

  /** `AllowRequest`: the decision and the snapshot it leaves. */
  function Allow(s: Snapshot, resetTimeout: int, now: int): (bool, Snapshot)
  {
    match s.state
    case Closed => (true, s)
    case HalfOpen => (true, s)
    case Open =>
      if now - s.lastFailure > resetTimeout then (true, s.(state := HalfOpen)) else (false, s)
  }

  /** `RecordResult`: the snapshot after a call that failed or succeeded at `now`. */
  function Record(s: Snapshot, failureThreshold: int, failed: bool, now: int): Snapshot
  {
    if failed then
      var count := s.failureCount + 1;
      Snapshot(if s.state == HalfOpen || count >= failureThreshold then Open else s.state, count, now)
    else if s.state == HalfOpen then
      Snapshot(Closed, 0, s.lastFailure)
    else
      s
  }

  /** A run of recorded results, each a failure flag with its time. */
  function RecordAll(s: Snapshot, failureThreshold: int, results: seq<(bool, int)>): Snapshot
    decreases |results|
  {
    if results == [] then s
    else RecordAll(Record(s, failureThreshold, results[0].0, results[0].1), failureThreshold, results[1..])
  }

  function CountFailures(results: seq<(bool, int)>): nat
  {
    if results == [] then 0 else (if results[0].0 then 1 else 0) + CountFailures(results[1..])
  }

  /** What the breaker keeps true: the failure count never goes negative, and a
      Closed breaker has either just been reset or has not reached the threshold. */
  ghost predicate Inv(s: Snapshot, failureThreshold: int)
  {
    s.failureCount >= 0 && (s.state == Closed ==> s.failureCount == 0 || s.failureCount < failureThreshold)
  }

  /** One step of a breaker's life: a permission check or a recorded result. */
  datatype Step = Request(at: int) | Result(failed: bool, at: int)

  function Run(s: Snapshot, failureThreshold: int, resetTimeout: int, steps: seq<Step>): Snapshot
    decreases |steps|
  {
    if steps == [] then s
    else
      var next := match steps[0]
        case Request(t) => Allow(s, resetTimeout, t).1
        case Result(f, t) => Record(s, failureThreshold, f, t);
      Run(next, failureThreshold, resetTimeout, steps[1..])
  }

  /** Every sequence of permission checks and recorded results keeps `Inv`. */
  lemma {:induction false} RunKeepsInv(s: Snapshot, failureThreshold: int, resetTimeout: int, steps: seq<Step>)
    requires Inv(s, failureThreshold)
    ensures Inv(Run(s, failureThreshold, resetTimeout, steps), failureThreshold)
    decreases |steps|
  {
    if steps != [] {
      var next := match steps[0]
        case Request(t) => Allow(s, resetTimeout, t).1
        case Result(f, t) => Record(s, failureThreshold, f, t);
      RunKeepsInv(next, failureThreshold, resetTimeout, steps[1..]);
    }
  }

  /** Starting Closed, a run of recorded results leaves the breaker Open exactly
      when it saw at least one failure and the failures, counted together with
      the ones already recorded, reached the threshold. Successes in between do
      not reset the count: the failures need not be consecutive. */
  lemma {:induction false} ClosedTripsOnThreshold(s: Snapshot, failureThreshold: int, results: seq<(bool, int)>)
    requires s.state == Closed
    ensures RecordAll(s, failureThreshold, results).state == Open
      <==> CountFailures(results) >= 1 && s.failureCount + CountFailures(results) >= failureThreshold
    ensures RecordAll(s, failureThreshold, results).state != HalfOpen
    decreases |results|
  {
    if results != [] {
      var next := Record(s, failureThreshold, results[0].0, results[0].1);
      if next.state == Open {
        OpenStaysOpen(next, failureThreshold, results[1..]);
      } else {
        ClosedTripsOnThreshold(next, failureThreshold, results[1..]);
      }
    }
  }

  /** Without a permission check in between, recorded results never leave Open. */
  lemma {:induction false} OpenStaysOpen(s: Snapshot, failureThreshold: int, results: seq<(bool, int)>)
    requires s.state == Open
    ensures RecordAll(s, failureThreshold, results).state == Open
    ensures RecordAll(s, failureThreshold, results).failureCount == s.failureCount + CountFailures(results)
    decreases |results|
  {
    if results != [] {
      OpenStaysOpen(Record(s, failureThreshold, results[0].0, results[0].1), failureThreshold, results[1..]);
    }
  }

  /** The recovery protocol: once the reset timeout has strictly elapsed since
      the last failure, the next check admits a trial call (the count is kept);
      a successful trial closes the breaker with a zero count, a failed one
      reopens it at once, whatever the count. Before the timeout the breaker
      refuses and stays as it is. */
  lemma TrialAfterTimeout(s: Snapshot, failureThreshold: int, resetTimeout: int, now: int, later: int)
    requires s.state == Open
    ensures var (ok, t) := Allow(s, resetTimeout, now);
      && (ok <==> now - s.lastFailure > resetTimeout)
      && (ok ==> t == s.(state := HalfOpen))
      && (!ok ==> t == s)
      && (ok ==> Record(t, failureThreshold, false, later) == Snapshot(Closed, 0, s.lastFailure))
      && (ok ==> Record(t, failureThreshold, true, later) == Snapshot(Open, s.failureCount + 1, later))
  {
  }

  /** A circuit breaker whose fields `AllowRequest` and `RecordResult` update in place. */
  class CircuitBreaker {
    var state: CircuitState
    var failureCount: int
    const failureThreshold: int
    const resetTimeout: int
    var lastFailure: int

    function View(): Snapshot
      reads this
    {
      Snapshot(state, failureCount, lastFailure)
    }

    /** `NewCircuitBreaker`: Closed, no failures, zero last-failure time. */
    constructor (failureThreshold: int, resetTimeout: int)
      ensures state == Closed && failureCount == 0 && lastFailure == 0
      ensures this.failureThreshold == failureThreshold && this.resetTimeout == resetTimeout
      ensures Inv(View(), failureThreshold)
    {
      state := Closed;
      failureCount := 0;
      lastFailure := 0;
      this.failureThreshold := failureThreshold;
      this.resetTimeout := resetTimeout;
    }

    method AllowRequest(now: int) returns (allowed: bool)
      modifies this
      ensures allowed <==> old(state) != Open || now - old(lastFailure) > resetTimeout
      ensures state == (if old(state) == Open && allowed then HalfOpen else old(state))
      ensures failureCount == old(failureCount) && lastFailure == old(lastFailure)
      ensures (allowed, View()) == Allow(old(View()), resetTimeout, now)
    {
      match state
      case Closed =>
        allowed := true;
      case HalfOpen =>
        allowed := true;
      case Open =>
        if now - lastFailure > resetTimeout {
          state := HalfOpen;
          allowed := true;
        } else {
          allowed := false;
        }
    }

    method RecordResult(err: Outcome, now: int)
      modifies this
      ensures err.Fail? ==> failureCount == old(failureCount) + 1 && lastFailure == now
      ensures err.Fail? ==> state == (if old(state) == HalfOpen || failureCount >= failureThreshold then Open else old(state))
      ensures err.Pass? && old(state) == HalfOpen ==> state == Closed && failureCount == 0 && lastFailure == old(lastFailure)
      ensures err.Pass? && old(state) != HalfOpen ==> View() == old(View())
      ensures View() == Record(old(View()), failureThreshold, err.Fail?, now)
    {
      if err.Fail? {
        failureCount := failureCount + 1;
        lastFailure := now;
        if state == HalfOpen || failureCount >= failureThreshold {
          state := Open;
        }
      } else if state == HalfOpen {
        state := Closed;
        failureCount := 0;
      }
    }

    /** `Execute(fn)`: `outcome` is what `fn` returns if it is invoked (at `now`,
        finishing at `doneAt`); `invoked` says whether it was. */
    method Execute(outcome: Outcome, now: int, doneAt: int) returns (r: Outcome, invoked: bool)
      modifies this
      ensures invoked == Allow(old(View()), resetTimeout, now).0
      ensures !invoked ==> r == Fail(ErrCircuitOpen) && View() == old(View())
      ensures invoked ==> r == outcome
      ensures invoked ==> View() == Record(Allow(old(View()), resetTimeout, now).1, failureThreshold, outcome.Fail?, doneAt)
    {
      invoked := AllowRequest(now);
      if !invoked {
        return Fail(ErrCircuitOpen), false;
      }
      RecordResult(outcome, doneAt);
      r := outcome;
    }
  }
}

/**
 * The per-peer `CircuitBreaker`. The naming is inverted from the electrical
 * convention: `Open` is healthy (traffic passes), `Closed` is tripped, and
 * `HalfOpen` is the probe state after the cool-down. `failureCount` is a Java
 * `int`, so `++failureCount` wraps around at 2^31 - 1; the clock
 * (`System.currentTimeMillis()`) is the parameter `now`.
 */
module CircuitBreakers {

  const INT_MIN: int := -0x8000_0000
  const INT_MAX: int := 0x7fff_ffff

  type Int32 = x: int | INT_MIN <= x <= INT_MAX

  /** Java's `++x` on an `int`: one more, modulo 2^32. */
  function Increment(x: Int32): (r: Int32)
    ensures (r - x - 1) % 0x1_0000_0000 == 0
    ensures x < INT_MAX ==> r > x
  {
    if x == INT_MAX then INT_MIN else x + 1
  }

  datatype State = Open | HalfOpen | Closed

  /** The mutable fields of a breaker, as a value. */
  datatype Snapshot = Snapshot(state: State, failureCount: Int32, lastFailureTime: int)

  /** What a new breaker starts with. */
  const Initial: Snapshot := Snapshot(Open, 0, 0)

  /** `recordFail()` at time `now`. */
  function AfterFail(b: Snapshot, failureThreshold: Int32, now: int): Snapshot {
    var count := Increment(b.failureCount);
    if count > failureThreshold then Snapshot(Closed, count, now)
    else b.(failureCount := count)
  }

  /** `recordSuccess()`. */
  function AfterSuccess(b: Snapshot): Snapshot {
    b.(state := Open, failureCount := 0)
  }

  /** `getState()` at time `now`: a tripped breaker whose cool-down has passed
      moves to the probe state. The state it returns is the new snapshot's. */
  function AfterGetState(b: Snapshot, retryTimeoutMilliseconds: Int32, now: int): Snapshot {
    if b.state == Open then b
    else if b.state == Closed && now - b.lastFailureTime > retryTimeoutMilliseconds then b.(state := HalfOpen)
    else b
  }

  class CircuitBreaker {
    const failureThreshold: Int32
    const retryTimeoutMilliseconds: Int32
    var state: State
    var failureCount: Int32
    var lastFailureTime: int

    function Snap(): Snapshot
      reads this
    {
      Snapshot(state, failureCount, lastFailureTime)
    }

    constructor (failureThreshold: Int32, retryTimeoutMilliseconds: Int32)
      ensures this.failureThreshold == failureThreshold
      ensures this.retryTimeoutMilliseconds == retryTimeoutMilliseconds
      ensures state == Open && failureCount == 0 && lastFailureTime == 0
      ensures Snap() == Initial
    {
      this.failureThreshold := failureThreshold;
      this.retryTimeoutMilliseconds := retryTimeoutMilliseconds;
      state := Open;
      failureCount := 0;
      lastFailureTime := 0;
    }

    method RecordFail(now: int)
      modifies this
      ensures failureCount == Increment(old(failureCount))
      ensures failureCount > failureThreshold ==> state == Closed && lastFailureTime == now
      ensures failureCount <= failureThreshold ==>
                state == old(state) && lastFailureTime == old(lastFailureTime)
      ensures Snap() == AfterFail(old(Snap()), failureThreshold, now)
    {
      failureCount := Increment(failureCount);
      if failureCount > failureThreshold {
        lastFailureTime := now;
        state := Closed;
      }
    }

    method RecordSuccess()
      modifies this
      ensures failureCount == 0 && state == Open && lastFailureTime == old(lastFailureTime)
      ensures Snap() == AfterSuccess(old(Snap()))
    {
      failureCount := 0;
      state := Open;
    }

    method GetState(now: int) returns (s: State)
      modifies this
      ensures old(state) == Open ==> s == Open && unchanged(this)
      ensures old(state) == Closed ==>
                s == (if now - lastFailureTime > retryTimeoutMilliseconds then HalfOpen else Closed)
      ensures old(state) == HalfOpen ==> s == HalfOpen
      ensures failureCount == old(failureCount) && lastFailureTime == old(lastFailureTime)
      ensures s == state
      ensures Snap() == AfterGetState(old(Snap()), retryTimeoutMilliseconds, now)
    {
      if state == Open {
        return state;
      }
      if state == Closed && now - lastFailureTime > retryTimeoutMilliseconds {
        state := HalfOpen;
      }
      return state;
    }
  }

  // ---------------------------------------------------------------------------
  // The breaker's lifecycle.
  // ---------------------------------------------------------------------------

  /** `recordFail()` at each of the given times in turn. */
  function FailAll(b: Snapshot, failureThreshold: Int32, times: seq<int>): Snapshot
    decreases |times|
  {
    if times == [] then b else FailAll(AfterFail(b, failureThreshold, times[0]), failureThreshold, times[1..])
  }

  /** From a healthy breaker with count `c`, a run of failures that cannot
      overflow the count adds one per failure; the breaker trips exactly when
      the count passes the threshold, stamped with the time of the failure that
      tripped it last. */
  lemma {:induction false} FailuresTrip(b: Snapshot, failureThreshold: Int32, times: seq<int>)
    requires b.state == Open && 0 <= b.failureCount <= failureThreshold
    requires b.failureCount + |times| <= INT_MAX
    decreases |times|
    ensures FailAll(b, failureThreshold, times).failureCount == b.failureCount + |times|
    ensures FailAll(b, failureThreshold, times).state
         == if b.failureCount + |times| > failureThreshold then Closed else Open
    ensures b.failureCount + |times| > failureThreshold ==>
              FailAll(b, failureThreshold, times).lastFailureTime == times[|times| - 1]
    ensures b.failureCount + |times| <= failureThreshold ==>
              FailAll(b, failureThreshold, times).lastFailureTime == b.lastFailureTime
  {
    if times != [] {
      var b1 := AfterFail(b, failureThreshold, times[0]);
      if b1.failureCount > failureThreshold {
        TrippedFailuresStayClosed(b1, failureThreshold, times[1..]);
        if |times| > 1 {
          assert times[1..][|times[1..]| - 1] == times[|times| - 1];
        }
      } else {
        FailuresTrip(b1, failureThreshold, times[1..]);
      }
    }
  }

  /** Once tripped, more failures keep it tripped and restamp it, as long as the count does not wrap. */
  lemma {:induction false} TrippedFailuresStayClosed(b: Snapshot, failureThreshold: Int32, times: seq<int>)
    requires b.state == Closed && b.failureCount > failureThreshold
    requires b.failureCount + |times| <= INT_MAX
    decreases |times|
    ensures FailAll(b, failureThreshold, times).state == Closed
    ensures FailAll(b, failureThreshold, times).failureCount == b.failureCount + |times|
    ensures times != [] ==> FailAll(b, failureThreshold, times).lastFailureTime == times[|times| - 1]
    ensures times == [] ==> FailAll(b, failureThreshold, times) == b
  {
    if times != [] {
      var b1 := AfterFail(b, failureThreshold, times[0]);
      TrippedFailuresStayClosed(b1, failureThreshold, times[1..]);
      if |times| > 1 {
        assert times[1..][|times[1..]| - 1] == times[|times| - 1];
      }
    }
  }

  /** A tripped breaker stays tripped until the cool-down has passed, then
      moves to the probe state and keeps reporting it whatever the clock says. */
  lemma CoolDown(b: Snapshot, retryTimeoutMilliseconds: Int32, now: int, later: int)
    requires b.state == Closed
    ensures var g := AfterGetState(b, retryTimeoutMilliseconds, now);
      g.failureCount == b.failureCount && g.lastFailureTime == b.lastFailureTime
      && (g.state == HalfOpen <==> now - b.lastFailureTime > retryTimeoutMilliseconds)
      && (g.state != HalfOpen ==> g.state == Closed)
      && (g.state == HalfOpen ==> AfterGetState(g, retryTimeoutMilliseconds, later) == g)
  {
  }

  /** `getState()` on a healthy breaker changes nothing. */
  lemma OpenIsStable(b: Snapshot, retryTimeoutMilliseconds: Int32, now: int)
    requires b.state == Open
    ensures AfterGetState(b, retryTimeoutMilliseconds, now) == b
  {
  }

  /** Outside the healthy state the count already exceeds the threshold. */
  predicate Tripped(b: Snapshot, failureThreshold: Int32) {
    b.state != Open ==> b.failureCount > failureThreshold
  }

  /** Every operation keeps `Tripped`, as long as the count does not wrap. */
  lemma TrippedIsInvariant(b: Snapshot, failureThreshold: Int32, retryTimeoutMilliseconds: Int32, now: int)
    requires Tripped(b, failureThreshold)
    ensures Tripped(AfterGetState(b, retryTimeoutMilliseconds, now), failureThreshold)
    ensures Tripped(AfterSuccess(b), failureThreshold)
    ensures b.failureCount < INT_MAX ==> Tripped(AfterFail(b, failureThreshold, now), failureThreshold)
  {
  }

  /** Because the probe state keeps the count, one failed probe trips the
      breaker again with a fresh timestamp; one successful probe resets it. */
  lemma ProbeOutcome(b: Snapshot, failureThreshold: Int32, now: int)
    requires b.state == HalfOpen && Tripped(b, failureThreshold) && b.failureCount < INT_MAX
    ensures AfterFail(b, failureThreshold, now) == Snapshot(Closed, b.failureCount + 1, now)
    ensures AfterSuccess(b) == Snapshot(Open, 0, b.lastFailureTime)
  {
  }

  /** The proviso is needed: after 2^31 failures without a success the count
      wraps to INT_MIN, and from then on failures neither trip the breaker
      nor move its timestamp. */
  lemma CountWrapStopsTripping(failureThreshold: Int32, t0: int, now: int)
    requires 0 <= failureThreshold < INT_MAX
    ensures var b := Snapshot(HalfOpen, INT_MAX, t0);
      var f := AfterFail(b, failureThreshold, now);
      Tripped(b, failureThreshold) && f == Snapshot(HalfOpen, INT_MIN, t0) && !Tripped(f, failureThreshold)
  {
  }

  /** The whole lifecycle from a new breaker: `failureThreshold + 1` failures
      trip it; after the cool-down it probes; a success makes it healthy with a zero count. */
  lemma Lifecycle(failureThreshold: Int32, retryTimeoutMilliseconds: Int32, times: seq<int>, later: int)
    requires 0 <= failureThreshold < INT_MAX && |times| == failureThreshold + 1
    requires later - times[|times| - 1] > retryTimeoutMilliseconds
    ensures var tripped := FailAll(Initial, failureThreshold, times);
      var probing := AfterGetState(tripped, retryTimeoutMilliseconds, later);
      tripped.state == Closed && probing.state == HalfOpen
      && AfterSuccess(probing) == Snapshot(Open, 0, times[|times| - 1])
  {
    FailuresTrip(Initial, failureThreshold, times);
  }
}

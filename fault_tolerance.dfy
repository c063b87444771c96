/**
 * The retry loop and circuit breaker of the fault-tolerance layer.
 *
 * A call runs an operation up to `maxRetries` times. Each failure moves the
 * breaker's failure count up by one. Once the count reaches the threshold the
 * breaker opens, and calls fail fast until its timeout has passed. Timing
 * and error entries go into two buffers that are cut back to their last 500
 * entries once they grow past 1000.
 *
 * The operation is not run. Its outcome at attempt `k` is the input
 * `outcome(k)`, and that outcome carries the clock reading at which it ended.
 * The `Math.random()` draw for the jitter of the sleep after attempt `k` is
 * `draw(k)`. The sleeps themselves return the delays they would have waited.
 */
module FaultTolerance {
  import opened Common

  /** What one invocation of the operation did: a value and its response time,
      or an error message; `at` is the clock reading when it ended. */
  datatype Outcome =
    | Succeeded(result: string, responseTime: int, at: int)
    | Failed(message: string, at: int)

  /** An entry of `performanceMetrics.responseTime`. */
  datatype TimingEntry = TimingEntry(operation: string, time: int, timestamp: int, success: bool)

  /** An entry of `performanceMetrics.errorRate`. */
  datatype ErrorEntry = ErrorEntry(operation: string, error: string, timestamp: int, success: bool)

  /** An entry of `recoveryActions`: its type and when it was taken. */
  datatype RecoveryAction = RecoveryAction(kind: string, timestamp: int)

  /** The options the retry loop reads. A missing option takes its default, and
      a present one is kept as given, 0 included, because the spread of the
      caller's configuration comes after the defaults. */
  datatype Options = Options(
    maxRetries: Option<int>,
    retryDelay: Option<int>,
    circuitBreakerThreshold: Option<int>,
    circuitBreakerTimeout: Option<int>)

  function Setting(o: Option<int>, default: int): (v: int)
    ensures o.Some? ==> v == o.value
    ensures o.None? ==> v == default
  {
    if o.Some? then o.value else default
  }

  /** The bound that triggers cutting a metric buffer back, and what is kept. */
  const BufferLimit := 1000
  const BufferKeep := 500

  /** The cap on a retry delay, in milliseconds. */
  const MaxRetryDelay := 30000.0

  /** A buffer after a push: its last 500 entries once it is longer than 1000. */
  function KeepRecent<T>(s: seq<T>): (r: seq<T>)
    ensures |r| <= |s| && r == s[|s| - |r|..]
    ensures |s| <= BufferLimit + 1 ==> |r| <= BufferLimit
    ensures |s| > 0 ==> |r| > 0 && r[|r| - 1] == s[|s| - 1]
    ensures |s| <= BufferLimit ==> r == s
  {
    if |s| > BufferLimit then s[|s| - BufferKeep..] else s
  }

  lemma KeptSuccesses(s: seq<TimingEntry>)
    requires forall i :: 0 <= i < |s| ==> s[i].success
    ensures var r := KeepRecent(s); forall i :: 0 <= i < |r| ==> r[i].success
  {
    var r := KeepRecent(s);
    assert forall i :: 0 <= i < |r| ==> r[i] == s[|s| - |r| + i];
  }

  lemma KeptFailures(s: seq<ErrorEntry>)
    requires forall i :: 0 <= i < |s| ==> !s[i].success
    ensures var r := KeepRecent(s); forall i :: 0 <= i < |r| ==> !r[i].success
  {
    var r := KeepRecent(s);
    assert forall i :: 0 <= i < |r| ==> r[i] == s[|s| - |r| + i];
  }

  function Pow2(n: nat): (p: int)
    ensures p >= 1
  {
    if n == 0 then 1 else 2 * Pow2(n - 1)
  }

  /** `calculateRetryDelay(attempt)`: the base delay doubled for each earlier
      attempt, plus a jitter of `draw * 1000` ms, capped at 30 s. */
  function RetryDelay(base: int, attempt: int, draw: real): (d: real)
    requires attempt >= 1
    ensures d <= MaxRetryDelay
    ensures d < MaxRetryDelay ==> d == (base * Pow2(attempt - 1)) as real + draw * 1000.0
    ensures (base * Pow2(attempt - 1)) as real + draw * 1000.0 >= MaxRetryDelay ==> d == MaxRetryDelay
  {
    var exponential := (base * Pow2(attempt - 1)) as real;
    var jitter := draw * 1000.0;
    if exponential + jitter < MaxRetryDelay then exponential + jitter else MaxRetryDelay
  }

  /** With the default base of 5 s the successive delays are 5-6 s, 10-11 s,
      20-21 s, and then the 30 s cap from the fourth attempt on. */
  lemma DefaultBackoff(draw: real, attempt: int)
    requires 0.0 <= draw < 1.0
    requires attempt >= 4
    ensures 5000.0 <= RetryDelay(5000, 1, draw) < 6000.0
    ensures 10000.0 <= RetryDelay(5000, 2, draw) < 11000.0
    ensures 20000.0 <= RetryDelay(5000, 3, draw) < 21000.0
    ensures RetryDelay(5000, attempt, draw) == MaxRetryDelay
  {
    MulMonotone(0.0, draw, 1000.0);
    MulStrictMonotone(draw, 1.0, 1000.0);
    Pow2AtLeast(attempt - 1);
  }

  lemma {:induction false} Pow2AtLeast(n: nat)
    requires n >= 3
    ensures Pow2(n) >= 8
  {
    if n > 3 {
      Pow2AtLeast(n - 1);
    }
  }

  /** The last `n` entries of a buffer, all of it when shorter (`slice(-n)`). */
  function Recent<T>(s: seq<T>, n: nat): (r: seq<T>)
    ensures |r| == if |s| < n then |s| else n
    ensures r == s[|s| - |r|..]
  {
    if |s| < n then s else s[|s| - n..]
  }

  function Times(log: seq<TimingEntry>): (t: seq<real>)
    ensures |t| == |log|
    ensures forall i :: 0 <= i < |log| ==> t[i] == log[i].time as real
  {
    seq(|log|, i requires 0 <= i < |log| => log[i].time as real)
  }

  /** `calculateAverageResponseTime()`: the rounded mean time of the last 50
      entries, 0 when there are none. */
  function AverageResponseTime(log: seq<TimingEntry>): (ms: int)
    ensures |log| == 0 ==> ms == 0
  {
    var recent := Recent(log, 50);
    if |recent| == 0 then 0 else Round(Mean(Times(recent)))
  }

  /** The average lies between the fastest and the slowest recent entry. */
  lemma AverageWithin(log: seq<TimingEntry>, lo: int, hi: int)
    requires |log| > 0
    requires forall e :: e in Recent(log, 50) ==> lo <= e.time <= hi
    ensures lo <= AverageResponseTime(log) <= hi
  {
    var recent := Recent(log, 50);
    var t := Times(recent);
    assert forall i :: 0 <= i < |t| ==> lo as real <= t[i] <= hi as real by {
      forall i | 0 <= i < |t|
        ensures lo as real <= t[i] <= hi as real
      {
        assert recent[i] in recent;
      }
    }
    MeanBounds(t, lo as real, hi as real);
    RoundWithin(Mean(t), lo, hi);
  }

  lemma RoundWithin(x: real, lo: int, hi: int)
    requires lo as real <= x <= hi as real
    ensures lo <= Round(x) <= hi
  {
  }

  /** The number of entries that record a failure. */
  function CountFailed(log: seq<ErrorEntry>): (c: nat)
    ensures c <= |log|
    ensures (forall i :: 0 <= i < |log| ==> !log[i].success) ==> c == |log|
  {
    if |log| == 0 then 0
    else CountFailed(log[..|log| - 1]) + (if log[|log| - 1].success then 0 else 1)
  }

  /** `calculateErrorRate()`: the rounded percentage of failures among the last
      100 entries, 0 when there are none. */
  function ErrorRate(log: seq<ErrorEntry>): (pct: int)
    ensures 0 <= pct <= 100
    ensures |log| == 0 ==> pct == 0
  {
    var recent := Recent(log, 100);
    if |recent| == 0 then 0
    else
      var n := |recent| as real;
      var c := CountFailed(recent) as real;
      assert 0.0 <= c / n * 100.0 <= 100.0 by {
        QuotientCompare(c, n, 1.0);
        MulMonotone(c / n, 1.0, 100.0);
        MulNonNegative(c / n, 100.0);
      }
      Round(c / n * 100.0)
  }

  /** Only failures are ever recorded in the error buffer, so the error rate is
      100 as soon as there is one entry. */
  lemma ErrorRateAllOrNothing(log: seq<ErrorEntry>)
    requires forall i :: 0 <= i < |log| ==> !log[i].success
    ensures ErrorRate(log) == if |log| == 0 then 0 else 100
  {
    var recent := Recent(log, 100);
    if |recent| > 0 {
      forall i | 0 <= i < |recent|
        ensures !recent[i].success
      {
        assert recent[i] == log[|log| - |recent| + i];
      }
      var n := |recent| as real;
      assert CountFailed(recent) as real == n;
      WholeShare(n);
    }
  }

  lemma WholeShare(n: real)
    requires n > 0.0
    ensures Round(n / n * 100.0) == 100
  {
    assert n / n == 1.0;
  }

  /** The error thrown when the breaker is open (the formatted retry date is
      not modelled). */
  function BreakerOpenMessage(operationName: string): string
  {
    "Circuit breaker is open for " + operationName
  }

  /** With no attempt made there is no last error, and reading its message
      throws a `TypeError` before anything is recorded. */
  const MissingErrorMessage := "Cannot read properties of undefined (reading 'message')"

  /** `circuitBreaker`. */
  datatype Breaker = Breaker(isOpen: bool, failureCount: nat, lastFailureTime: Option<int>, nextRetryTime: Option<int>)

  /** `healthStatus`. */
  datatype Health = Health(
    isHealthy: bool,
    lastHealthCheck: int,
    consecutiveFailures: nat,
    totalFailures: nat,
    totalRecoveries: nat)

  const ClosedBreaker := Breaker(false, 0, None, None)

  /** The breaker as the attempt loop finds it once a call is let through: an
      open breaker is closed and its count cleared. */
  function Admitted(b: Breaker): (a: Breaker)
    ensures !a.isOpen
    ensures !b.isOpen ==> a == b
    ensures b.isOpen ==> a.failureCount == 0 && a.lastFailureTime == b.lastFailureTime && a.nextRetryTime == b.nextRetryTime
  {
    if b.isOpen then b.(isOpen := false, failureCount := 0) else b
  }

  /** The attempts made: at most `maxRetries` of them, at least one when that
      is positive, and every one but the last a failure that left the count
      (starting from `count0`) below the threshold. */
  ghost predicate Invoked(maxRetries: int, threshold: int, count0: nat, outcome: nat -> Outcome, calls: nat)
  {
    && (calls >= 1 <==> maxRetries >= 1)
    && (calls >= 1 ==> calls <= maxRetries)
    && forall k :: 1 <= k < calls ==> outcome(k).Failed? && count0 + k < threshold
  }

  /** The state after attempt `calls` succeeded: the count is cleared, one
      recovery is counted when there were failures before, and every earlier
      attempt was counted as a failure. */
  ghost predicate AfterSuccess(b0: Breaker, h0: Health, outcome: nat -> Outcome, calls: nat, b: Breaker, h: Health)
    requires calls >= 1
  {
    && b == b0.(failureCount := 0,
                lastFailureTime := if calls > 1 then Some(outcome(calls - 1).at) else b0.lastFailureTime)
    && h == h0.(totalFailures := h0.totalFailures + calls - 1,
                totalRecoveries := h0.totalRecoveries + (if b0.failureCount + calls - 1 > 0 then 1 else 0))
  }

  /** The state after the last of `calls` attempts failed: every attempt was
      counted, and the breaker is open, timed from the last failure, exactly
      when the count reached the threshold; otherwise all attempts were used. */
  ghost predicate AfterFailure(maxRetries: int, threshold: int, timeout: int, b0: Breaker, h0: Health,
                               outcome: nat -> Outcome, calls: nat, b: Breaker, h: Health)
    requires calls >= 1
  {
    && b.failureCount == b0.failureCount + calls
    && b.lastFailureTime == Some(outcome(calls).at)
    && (b.isOpen <==> b.failureCount >= threshold)
    && b.nextRetryTime == (if b.isOpen then Some(outcome(calls).at + timeout) else b0.nextRetryTime)
    && (!b.isOpen ==> calls == maxRetries)
    && h == h0.(totalFailures := h0.totalFailures + calls)
  }

  /** With the default 3 attempts and threshold 5, a call whose attempts all
      fail uses all three and leaves the breaker closed with count 3; the next
      such call opens it after two attempts. */
  lemma DefaultBreakerOpensOnSecondFailingCall(outcome: nat -> Outcome, b0: Breaker, h0: Health,
                                               calls1: nat, b1: Breaker, h1: Health,
                                               calls2: nat, b2: Breaker, h2: Health)
    requires forall k :: outcome(k).Failed?
    requires b0.failureCount == 0
    requires Invoked(3, 5, 0, outcome, calls1) && AfterFailure(3, 5, 60000, b0, h0, outcome, calls1, b1, h1)
    requires Invoked(3, 5, b1.failureCount, outcome, calls2) && AfterFailure(3, 5, 60000, b1, h1, outcome, calls2, b2, h2)
    ensures calls1 == 3 && !b1.isOpen && b1.failureCount == 3
    ensures calls2 == 2 && b2.isOpen && b2.nextRetryTime == Some(outcome(2).at + 60000)
    ensures h2.totalFailures == h0.totalFailures + 5
  {
  }

  /** The attempt loop of `executeWithRetry()` on a closed breaker. Returns the
      new breaker and counters, how many attempts were made, whether the last
      one succeeded, and the delays slept between attempts. */
  method RunAttempts(maxRetries: int, threshold: int, timeout: int, retryDelay: int,
                     b0: Breaker, h0: Health, outcome: nat -> Outcome, draw: nat -> real)
    returns (b: Breaker, h: Health, calls: nat, succeeded: bool, delays: seq<real>)
    requires !b0.isOpen
    ensures Invoked(maxRetries, threshold, b0.failureCount, outcome, calls)
    ensures succeeded <==> calls >= 1 && outcome(calls).Succeeded?
    ensures succeeded ==> AfterSuccess(b0, h0, outcome, calls, b, h)
    ensures !succeeded && calls >= 1 ==> AfterFailure(maxRetries, threshold, timeout, b0, h0, outcome, calls, b, h)
    ensures calls == 0 ==> b == b0 && h == h0
    ensures |delays| == if calls == 0 then 0 else calls - 1
    ensures forall i :: 0 <= i < |delays| ==> delays[i] == RetryDelay(retryDelay, i + 1, draw(i + 1))
  {
    b, h := b0, h0;
    calls, succeeded, delays := 0, false, [];
    var attempt := 1;
    while attempt <= maxRetries
      invariant attempt >= 1 && (attempt == 1 || attempt <= maxRetries + 1)
      invariant calls == attempt - 1
      invariant forall k :: 1 <= k < attempt ==> outcome(k).Failed? && b0.failureCount + k < threshold
      invariant b == b0.(failureCount := b0.failureCount + calls,
                         lastFailureTime := if calls == 0 then b0.lastFailureTime else Some(outcome(calls).at))
      invariant h == h0.(totalFailures := h0.totalFailures + calls)
      invariant |delays| == if attempt > maxRetries && calls > 0 then calls - 1 else calls
      invariant forall i :: 0 <= i < |delays| ==> delays[i] == RetryDelay(retryDelay, i + 1, draw(i + 1))
      decreases maxRetries - attempt
    {
      calls := attempt;
      var o := outcome(attempt);
      if o.Succeeded? {
        if b.failureCount > 0 {
          b := b.(failureCount := 0);
          h := h.(totalRecoveries := h.totalRecoveries + 1);
        }
        succeeded := true;
        return;
      }
      h := h.(totalFailures := h.totalFailures + 1);
      b := b.(failureCount := b.failureCount + 1, lastFailureTime := Some(o.at));
      if b.failureCount >= threshold {
        b := b.(isOpen := true, nextRetryTime := Some(o.at + timeout));
        return;
      }
      if attempt < maxRetries {
        delays := delays + [RetryDelay(retryDelay, attempt, draw(attempt))];
      }
      attempt := attempt + 1;
    }
  }

  class FaultTolerance {
    const maxRetries: int
    const retryDelay: int
    const circuitBreakerThreshold: int
    const circuitBreakerTimeout: int

    var circuitBreaker: Breaker
    var healthStatus: Health
    var retryAttempts: map<string, int>
    var recoveryActions: seq<RecoveryAction>
    // performanceMetrics.responseTime and performanceMetrics.errorRate
    var responseTimes: seq<TimingEntry>
    var errorLog: seq<ErrorEntry>

    /** Bounded buffers that hold only what their recorders push, an open
        breaker with a retry time, and a closed breaker below its threshold
        (or with no failures at all). */
    ghost predicate Valid()
      reads this
    {
      && |responseTimes| <= BufferLimit
      && |errorLog| <= BufferLimit
      && (forall i :: 0 <= i < |responseTimes| ==> responseTimes[i].success)
      && (forall i :: 0 <= i < |errorLog| ==> !errorLog[i].success)
      && (circuitBreaker.isOpen ==> circuitBreaker.nextRetryTime.Some?)
      && (!circuitBreaker.isOpen ==>
            circuitBreaker.failureCount == 0 || circuitBreaker.failureCount < circuitBreakerThreshold)
    }

    constructor (options: Options, now: int)
      ensures Valid()
      ensures maxRetries == Setting(options.maxRetries, 3)
      ensures retryDelay == Setting(options.retryDelay, 5000)
      ensures circuitBreakerThreshold == Setting(options.circuitBreakerThreshold, 5)
      ensures circuitBreakerTimeout == Setting(options.circuitBreakerTimeout, 60000)
      ensures circuitBreaker == ClosedBreaker
      ensures healthStatus == Health(true, now, 0, 0, 0)
      ensures retryAttempts == map[] && recoveryActions == []
      ensures responseTimes == [] && errorLog == []
    {
      maxRetries := Setting(options.maxRetries, 3);
      retryDelay := Setting(options.retryDelay, 5000);
      circuitBreakerThreshold := Setting(options.circuitBreakerThreshold, 5);
      circuitBreakerTimeout := Setting(options.circuitBreakerTimeout, 60000);
      circuitBreaker := ClosedBreaker;
      healthStatus := Health(true, now, 0, 0, 0);
      retryAttempts := map[];
      recoveryActions := [];
      responseTimes := [];
      errorLog := [];
    }

    /** The breaker refuses calls at `now`; an unset retry time compares as 0. */
    predicate Blocked(now: int)
      reads this
    {
      circuitBreaker.isOpen &&
      now < (if circuitBreaker.nextRetryTime.Some? then circuitBreaker.nextRetryTime.value else 0)
    }

    /** `recordSuccessMetrics()`: push a timing entry, then cut the buffer back. */
    method RecordSuccessMetrics(operationName: string, responseTime: int, now: int)
      requires Valid()
      modifies this
      ensures Valid()
      ensures responseTimes == KeepRecent(old(responseTimes) + [TimingEntry(operationName, responseTime, now, true)])
      ensures circuitBreaker == old(circuitBreaker) && healthStatus == old(healthStatus)
      ensures retryAttempts == old(retryAttempts) && recoveryActions == old(recoveryActions)
      ensures errorLog == old(errorLog)
    {
      var pushed := responseTimes + [TimingEntry(operationName, responseTime, now, true)];
      KeptSuccesses(pushed);
      responseTimes := KeepRecent(pushed);
    }

    /** `recordFailureMetrics()`: push an error entry, then cut the buffer back. */
    method RecordFailureMetrics(operationName: string, message: string, now: int)
      requires Valid()
      modifies this
      ensures Valid()
      ensures errorLog == KeepRecent(old(errorLog) + [ErrorEntry(operationName, message, now, false)])
      ensures circuitBreaker == old(circuitBreaker) && healthStatus == old(healthStatus)
      ensures retryAttempts == old(retryAttempts) && recoveryActions == old(recoveryActions)
      ensures responseTimes == old(responseTimes)
    {
      var pushed := errorLog + [ErrorEntry(operationName, message, now, false)];
      KeptFailures(pushed);
      errorLog := KeepRecent(pushed);
    }

    /** `executeWithRetry()`. Returns the result or the thrown error, the
        number of times the operation was invoked, and the delays slept. */
    method ExecuteWithRetry(now: int, operationName: string, outcome: nat -> Outcome, draw: nat -> real)
      returns (r: Result<string>, calls: nat, delays: seq<real>)
      requires Valid()
      modifies this
      ensures Valid()
      // An open breaker before its retry time fails fast and touches nothing.
      ensures old(Blocked(now)) ==>
        r == Err(BreakerOpenMessage(operationName)) && calls == 0 && delays == [] && unchanged(this)
      ensures !old(Blocked(now)) ==>
        Invoked(maxRetries, circuitBreakerThreshold, old(Admitted(circuitBreaker)).failureCount, outcome, calls)
      ensures r.Ok? <==> calls >= 1 && outcome(calls).Succeeded?
      // A success returns the operation's value and records its timing.
      ensures r.Ok? ==>
        && r.value == outcome(calls).result
        && AfterSuccess(old(Admitted(circuitBreaker)), old(healthStatus), outcome, calls, circuitBreaker, healthStatus)
        && responseTimes == KeepRecent(old(responseTimes) +
             [TimingEntry(operationName, outcome(calls).responseTime, outcome(calls).at, true)])
        && errorLog == old(errorLog)
      // A failure throws the last error and records it; the count stays for
      // the next call.
      ensures r.Err? && calls >= 1 ==>
        && r.message == outcome(calls).message
        && AfterFailure(maxRetries, circuitBreakerThreshold, circuitBreakerTimeout,
             old(Admitted(circuitBreaker)), old(healthStatus), outcome, calls, circuitBreaker, healthStatus)
        && errorLog == KeepRecent(old(errorLog) +
             [ErrorEntry(operationName, outcome(calls).message, outcome(calls).at, false)])
        && responseTimes == old(responseTimes)
      // With no attempt there is no error whose message could be read.
      ensures !old(Blocked(now)) && calls == 0 ==>
        && r == Err(MissingErrorMessage)
        && circuitBreaker == old(Admitted(circuitBreaker)) && healthStatus == old(healthStatus)
        && responseTimes == old(responseTimes) && errorLog == old(errorLog)
      ensures retryAttempts == old(retryAttempts) && recoveryActions == old(recoveryActions)
      // One sleep after every attempt but the last, never longer than 30 s.
      ensures |delays| == if calls == 0 then 0 else calls - 1
      ensures forall i :: 0 <= i < |delays| ==>
        delays[i] == RetryDelay(retryDelay, i + 1, draw(i + 1)) && delays[i] <= MaxRetryDelay
    {
      if Blocked(now) {
        return Err(BreakerOpenMessage(operationName)), 0, [];
      }
      circuitBreaker := Admitted(circuitBreaker);
      var succeeded;
      circuitBreaker, healthStatus, calls, succeeded, delays :=
        RunAttempts(maxRetries, circuitBreakerThreshold, circuitBreakerTimeout, retryDelay,
                    circuitBreaker, healthStatus, outcome, draw);
      if succeeded {
        var o := outcome(calls);
        RecordSuccessMetrics(operationName, o.responseTime, o.at);
        return Ok(o.result), calls, delays;
      }
      if calls == 0 {
        return Err(MissingErrorMessage), 0, delays;
      }
      var e := outcome(calls);
      RecordFailureMetrics(operationName, e.message, e.at);
      r := Err(e.message);
    }

    /** `reset()`: a closed breaker with no failures, no recovery actions and
        no retry tracking; the totals and the metric buffers stay. */
    method Reset()
      requires Valid()
      modifies this
      ensures Valid()
      ensures circuitBreaker == ClosedBreaker
      ensures healthStatus == old(healthStatus).(consecutiveFailures := 0)
      ensures recoveryActions == [] && retryAttempts == map[]
      ensures responseTimes == old(responseTimes) && errorLog == old(errorLog)
    {
      circuitBreaker := ClosedBreaker;
      healthStatus := healthStatus.(consecutiveFailures := 0);
      recoveryActions := [];
      retryAttempts := map[];
    }
  }
}

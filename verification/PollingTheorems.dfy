/** What the polling loop guarantees over every sequence of backend answers. */
module PollingTheorems {
  import opened Basics
  import opened Backends
  import opened CircuitBreaking
  import opened Polling

  // ----- transient errors -----

  /** Both fetch branches together swallow no more than the budget. */
  lemma {:induction false} SwallowedWithinBudget(config: PollingConfig, script: Script, n: nat)
    requires forall i: nat :: i < n ==> Verdict(config, script, i).None?
    ensures Transients(script, n) <= Max(0, config.maxRetries)
  {
    if n > 0 {
      SwallowedWithinBudget(config, script, n - 1);
      assert Verdict(config, script, n - 1).None?;
    }
  }

  /** A run gives up on transient errors after exactly one more than the budget. */
  lemma ExhaustedAfterBudget(config: PollingConfig, script: Script, n: nat, error: string)
    requires EndsAt(config, script, n) && Verdict(config, script, n) == Some(Exhausted(error))
    ensures Seen(script, n, Exhausted(error)) == Max(0, config.maxRetries) + 1
  {
    SwallowedWithinBudget(config, script, n);
  }

  // ----- why a run ends -----

  /** What must have been met, after `elapsed` seconds, for a run to end with `outcome`. */
  predicate Explains(config: PollingConfig, e: Encounter, elapsed: real, outcome: Outcome) {
    var inTime := !e.cancelled && elapsed <= config.timeout;
    match outcome
    case Unavailable => false
    case CancelledByCaller => e.cancelled && e.cancelFault.None?
    case TimedOut => !e.cancelled && elapsed > config.timeout && e.cancelFault.None?
    case CancelFailed(error) => !inTime && e.cancelFault == Some(error)
    case JobCancelled => inTime && e.polled == Status(CANCELLED)
    case PollFailed(error) => inTime && e.polled == PollRaised(error)
    case Returned(result) => inTime && Finished(e.polled) && e.fetched == Result(result)
    case FetchFailed(error) => inTime && Finished(e.polled) && e.fetched == FetchRaised(error)
    case Exhausted(error) => inTime && Finished(e.polled) && e.fetched == Transient(error)
  }

  predicate Finished(polled: Polled) {
    polled == Status(COMPLETED) || polled == Status(FAILED)
  }

  /** What lets a run go on: a job still queued or running, or a transient error within the budget. */
  predicate GoesOn(config: PollingConfig, e: Encounter, elapsed: real, transients: int) {
    && !e.cancelled && elapsed <= config.timeout
    && (e.polled == Status(QUEUED) || e.polled == Status(RUNNING)
        || (Finished(e.polled) && e.fetched.Transient? && transients < config.maxRetries))
  }

  /** An iteration ends with an outcome exactly when the outcome's reason is met, and goes on exactly when none is. */
  lemma JudgedIff(config: PollingConfig, e: Encounter, elapsed: real, transients: int, outcome: Outcome)
    ensures Judged(config, e, elapsed, transients) == Some(outcome)
            <==> Explains(config, e, elapsed, outcome) && (outcome.Exhausted? ==> transients >= config.maxRetries)
    ensures Judged(config, e, elapsed, transients) == None <==> GoesOn(config, e, elapsed, transients)
  {
  }

  /** A run ends at iteration `n` with `outcome` exactly when the reason for it is met there and all earlier iterations
      go on: none was cancelled or late, polled a cancelled job, met a poll error, or fetched a result or a permanent
      error. */
  lemma EndsForItsReason(config: PollingConfig, script: Script, n: nat, outcome: Outcome)
    ensures EndsAt(config, script, n) && Verdict(config, script, n) == Some(outcome)
            <==> && Explains(config, script(n), Elapsed(config, script, n), outcome)
                 && (outcome.Exhausted? ==> Transients(script, n) >= config.maxRetries)
                 && forall i: nat :: i < n ==>
                      GoesOn(config, script(i), Elapsed(config, script, i), Transients(script, i))
  {
    hide Judged, Elapsed, Explains, Transients, GoesOn;
    JudgedIff(config, script(n), Elapsed(config, script, n), Transients(script, n), outcome);
    forall i: nat | i < n
      ensures Verdict(config, script, i).None?
              <==> GoesOn(config, script(i), Elapsed(config, script, i), Transients(script, i))
    {
      JudgedIff(config, script(i), Elapsed(config, script, i), Transients(script, i), outcome);
    }
  }

  /** A job cancelled on the backend ends the run at the first poll that sees it, whatever is configured. */
  lemma CancelledJobEnds(config: PollingConfig, script: Script, n: nat)
    requires !script(n).cancelled && Elapsed(config, script, n) <= config.timeout && script(n).polled == Status(CANCELLED)
    ensures Verdict(config, script, n) == Some(JobCancelled)
  {
    hide Elapsed, Transients;
  }

  // ----- what a run has taken -----

  /** The awaits of the polls and fetches before iteration `n`, and what its sleeps took beyond the interval. */
  function AwaitTotal(script: Script, n: nat): real {
    if n == 0 then 0.0
    else
      var e := script(n - 1);
      AwaitTotal(script, n - 1) + e.pollTime + (if Finished(e.polled) then e.fetchTime else 0.0) + e.lag
  }

  /** The clock at iteration `n`: all sleeps and all awaits before it. */
  lemma {:induction false} ElapsedSplit(config: PollingConfig, script: Script, n: nat)
    ensures Elapsed(config, script, n) == SleepTotal(config, n) + AwaitTotal(script, n)
  {
    if n > 0 {
      hide Interval;
      ElapsedSplit(config, script, n - 1);
    }
  }

  /** The last iteration takes the cancellation if it is cancelled or late, else its poll and, of a finished job, its
      fetch. */
  lemma LastIteration(config: PollingConfig, script: Script, n: nat, outcome: Outcome)
    requires Verdict(config, script, n) == Some(outcome)
    ensures LastSpent(script(n), outcome)
         == if script(n).cancelled || Elapsed(config, script, n) > config.timeout then script(n).cancelTime
            else script(n).pollTime + if Finished(script(n).polled) then script(n).fetchTime else 0.0
  {
    hide Elapsed, Transients;
  }

  // ----- the intervals -----

  function Power(base: real, n: nat): real {
    if n == 0 then 1.0 else Power(base, n - 1) * base
  }

  lemma PowerStart(base: real)
    ensures Power(base, 0) == 1.0
  {
  }

  lemma PowerStep(base: real, n: nat)
    ensures Power(base, n + 1) == Power(base, n) * base
  {
  }

  lemma BackedOffIs(config: PollingConfig, interval: real)
    ensures BackedOff(config, interval) == MinReal(interval * config.backoffFactor, config.maxInterval)
  {
  }

  lemma GrownInterval(x: real, y: real, factor: real, cap: real)
    requires factor >= 1.0 && cap > 0.0 && y == MinReal(x, cap)
    ensures MinReal(y * factor, cap) == MinReal(x * factor, cap)
  {
    if x >= cap {
      assert (x - cap) * factor >= 0.0;
      assert cap * (factor - 1.0) >= 0.0;
    }
  }

  lemma PowerTimes(x: real, base: real, n: nat)
    ensures x * Power(base, n + 1) == (x * Power(base, n)) * base
  {
    assert Power(base, n + 1) == Power(base, n) * base;
  }

  /** initial * factor^n */
  function Grown(config: PollingConfig, n: nat): real {
    config.initialInterval * Power(config.backoffFactor, n)
  }

  lemma GrownStep(config: PollingConfig, n: nat)
    ensures Grown(config, 0) == config.initialInterval
    ensures n > 0 ==> Grown(config, n) == Grown(config, n - 1) * config.backoffFactor
  {
    if n > 0 {
      assert Power(config.backoffFactor, n) == Power(config.backoffFactor, n - 1) * config.backoffFactor;
    }
  }

  /** With a growing backoff the n-th wait is min(initial * factor^n, max). */
  lemma {:induction false} IntervalClosed(config: PollingConfig, n: nat)
    requires 0.0 < config.maxInterval && config.backoffFactor >= 1.0
    requires n > 0 || config.initialInterval <= config.maxInterval
    ensures Interval(config, n) == MinReal(Grown(config, n), config.maxInterval)
  {
    hide Interval, Grown, BackedOff;
    IntervalStart(config);
    GrownStep(config, n);
    if n > 0 {
      IntervalStep(config, n - 1);
      BackedOffIs(config, Interval(config, n - 1));
      if n > 1 {
        IntervalClosed(config, n - 1);
        GrownInterval(Grown(config, n - 1), Interval(config, n - 1), config.backoffFactor, config.maxInterval);
      }
    }
  }

  /** With a shrinking one it is the second wait times factor^(n-1). */
  lemma {:induction false} ShrunkInterval(config: PollingConfig, n: nat)
    requires 0.0 < config.initialInterval && 0.0 < config.backoffFactor < 1.0 && 0.0 < config.maxInterval
    ensures Interval(config, n + 1) == Interval(config, 1) * Power(config.backoffFactor, n)
    ensures 0.0 < Interval(config, n + 1) <= config.maxInterval
  {
    hide Interval, Power, BackedOff;
    var b, f := Interval(config, 1), config.backoffFactor;
    IntervalStart(config);
    FirstBackoff(config);
    if n > 0 {
      ShrunkInterval(config, n - 1);
      IntervalStep(config, n);
      BackedOffIs(config, Interval(config, n));
      ShrunkStep(Interval(config, n), f, config.maxInterval);
      PowerTimes(b, f, n - 1);
    } else {
      PowerStart(f);
    }
  }

  lemma FirstBackoff(config: PollingConfig)
    requires 0.0 < config.initialInterval && 0.0 < config.backoffFactor && 0.0 < config.maxInterval
    ensures Interval(config, 1) == MinReal(config.initialInterval * config.backoffFactor, config.maxInterval)
    ensures 0.0 < Interval(config, 1) <= config.maxInterval
  {
    IntervalStep(config, 0);
    assert config.initialInterval * config.backoffFactor > 0.0;
  }

  lemma ShrunkStep(x: real, f: real, cap: real)
    requires 0.0 < x <= cap && 0.0 < f < 1.0
    ensures MinReal(x * f, cap) == x * f && 0.0 < x * f <= cap
  {
    assert x * (1.0 - f) > 0.0;
  }

  lemma GrownFloor(x: real, f: real)
    requires x >= 0.0 && f >= 1.0
    ensures x * f >= x
  {
    assert x * (f - 1.0) >= 0.0;
  }

  lemma {:induction false} IntervalFloor(config: PollingConfig, n: nat)
    requires 0.0 < config.initialInterval && 0.0 < config.maxInterval && config.backoffFactor >= 1.0
    ensures Interval(config, n) >= MinReal(config.initialInterval, config.maxInterval)
  {
    hide Interval, BackedOff;
    if n == 0 {
      IntervalStart(config);
    } else {
      IntervalFloor(config, n - 1);
      IntervalStep(config, n - 1);
      BackedOffIs(config, Interval(config, n - 1));
      GrownFloor(Interval(config, n - 1), config.backoffFactor);
    }
  }

  // ----- how long it sleeps -----

  function SleepTotal(config: PollingConfig, n: nat): real {
    if n == 0 then 0.0 else SleepTotal(config, n - 1) + Slept(Interval(config, n - 1))
  }

  lemma {:induction false} ElapsedAtLeastSleep(config: PollingConfig, script: Script, n: nat)
    requires ValidScript(script)
    ensures Elapsed(config, script, n) >= SleepTotal(config, n)
  {
    if n > 0 {
      assert script(n - 1).Valid();
      ElapsedAtLeastSleep(config, script, n - 1);
    }
  }

  /** Once the sleeps exceed the timeout, every run has ended. */
  lemma SleepEnds(config: PollingConfig, script: Script, n: nat)
    requires ValidScript(script) && SleepTotal(config, n) > config.timeout
    ensures Verdict(config, script, n).Some?
  {
    ElapsedAtLeastSleep(config, script, n);
  }

  lemma {:induction false} SleepFloor(config: PollingConfig, n: nat)
    requires 0.0 < config.initialInterval && 0.0 < config.maxInterval && config.backoffFactor >= 1.0
    ensures SleepTotal(config, n) >= n as real * MinReal(config.initialInterval, config.maxInterval)
  {
    if n > 0 {
      SleepFloor(config, n - 1);
      IntervalFloor(config, n - 1);
      var low := MinReal(config.initialInterval, config.maxInterval);
      assert n as real * low == (n - 1) as real * low + low;
    }
  }

  lemma BeyondTimeout(timeout: real, low: real)
    requires low > 0.0
    ensures ((timeout / low).Floor + 1) as real * low > timeout
  {
    var q := timeout / low;
    assert (q.Floor + 1) as real > q;
    assert ((q.Floor + 1) as real - q) * low > 0.0;
    assert q * low == timeout;
  }

  lemma FloorNonNegative(timeout: real, low: real)
    requires low > 0.0 && timeout >= 0.0
    ensures (timeout / low).Floor >= 0
  {
    assert timeout / low >= 0.0;
  }

  /** With factor >= 1 every run ends, within floor(timeout / shortest interval) + 2 polls, or in the first one if
      the timeout is negative. */
  lemma PollCountBounded(config: PollingConfig, script: Script)
    requires 0.0 < config.initialInterval && 0.0 < config.maxInterval && config.backoffFactor >= 1.0
    requires ValidScript(script)
    ensures var low := MinReal(config.initialInterval, config.maxInterval);
            && Ends(config, script)
            && forall n: nat :: EndsAt(config, script, n) ==>
                                  n + 1 <= if config.timeout < 0.0 then 1 else (config.timeout / low).Floor + 2
  {
    var low := MinReal(config.initialInterval, config.maxInterval);
    if config.timeout < 0.0 {
      SleepEnds(config, script, 0);
    } else {
      FloorNonNegative(config.timeout, low);
      var bound: nat := (config.timeout / low).Floor + 1;
      BeyondTimeout(config.timeout, low);
      SleepFloor(config, bound);
      SleepEnds(config, script, bound);
    }
  }

  predicate Instant(e: Encounter) {
    e.cancelTime == 0.0 && e.pollTime == 0.0 && e.fetchTime == 0.0 && e.lag == 0.0
  }

  lemma {:induction false} IntervalCeiling(config: PollingConfig, n: nat)
    requires config.initialInterval <= config.maxInterval
    ensures Interval(config, n) <= config.maxInterval
  {
    if n > 0 {
      IntervalStep(config, n - 1);
    }
  }

  /** A backend that answers at once keeps the caller no longer than the timeout and one more interval. */
  lemma ExitsInTime(config: PollingConfig, script: Script, n: nat, outcome: Outcome)
    requires forall i: nat :: Instant(script(i))
    requires 0.0 < config.initialInterval <= config.maxInterval
    requires EndsAt(config, script, n) && Verdict(config, script, n) == Some(outcome)
    ensures Elapsed(config, script, n) + LastSpent(script(n), outcome)
         <= (if config.timeout < 0.0 then 0.0 else config.timeout) + config.maxInterval
  {
    assert Instant(script(n));
    if n > 0 {
      assert Instant(script(n - 1));
      assert Verdict(config, script, n - 1).None?;
      IntervalCeiling(config, n - 1);
    }
  }

  // ----- exactly which configurations always end -----

  ghost predicate AlwaysEnds(config: PollingConfig) {
    forall script: Script :: ValidScript(script) ==> Ends(config, script)
  }

  const IDLE := Encounter(false, None, 0.0, Status(RUNNING), 0.0, FetchRaised(""), 0.0, 0.0)

  /** The job that never finishes. */
  function Forever(): Script {
    (i: nat) => IDLE
  }

  lemma {:induction false} ForeverSleeps(config: PollingConfig, n: nat)
    ensures Elapsed(config, Forever(), n) == SleepTotal(config, n)
  {
    if n > 0 {
      ForeverSleeps(config, n - 1);
    }
  }

  /** Every run ends if and only if the sleeps alone get past the timeout. */
  lemma AlwaysEndsIffSleeps(config: PollingConfig)
    ensures AlwaysEnds(config) <==> exists n: nat :: SleepTotal(config, n) > config.timeout
  {
    if n: nat :| SleepTotal(config, n) > config.timeout {
      forall script: Script | ValidScript(script) ensures Ends(config, script) {
        SleepEnds(config, script, n);
      }
    }
    if AlwaysEnds(config) {
      assert ValidScript(Forever());
      assert Ends(config, Forever());
      var n: nat :| Verdict(config, Forever(), n).Some?;
      ForeverSleeps(config, n);
    }
  }

  lemma {:induction false} PowerRange(f: real, n: nat)
    requires 0.0 < f < 1.0
    ensures 0.0 < Power(f, n) <= 1.0
  {
    if n > 0 {
      PowerRange(f, n - 1);
      ShrunkStep(Power(f, n - 1), f, 1.0);
    }
  }

  /** f^n <= 1 / (1 + n (1 - f)) */
  lemma {:induction false} PowerVanishes(f: real, n: nat)
    requires 0.0 < f < 1.0
    ensures Power(f, n) * (1.0 + n as real * (1.0 - f)) <= 1.0
  {
    if n > 0 {
      PowerVanishes(f, n - 1);
      PowerRange(f, n - 1);
      VanishStep(f, Power(f, n - 1), (n - 1) as real);
    }
  }

  lemma VanishStep(f: real, p: real, m: real)
    requires 0.0 < f < 1.0 && 0.0 < p <= 1.0 && m >= 0.0
    requires p * (1.0 + m * (1.0 - f)) <= 1.0
    ensures (p * f) * (1.0 + (m + 1.0) * (1.0 - f)) <= 1.0
  {
    var g := 1.0 - f;
    calc {
      (p * f) * (1.0 + (m + 1.0) * g);
      f * (p * (1.0 + m * g)) + (f * p) * g;
      <= { assert f * (1.0 - p * (1.0 + m * g)) >= 0.0; }
      f + (f * p) * g;
      <= { ShrunkStep(p, f, 1.0); assert (1.0 - f * p) * g >= 0.0; }
      f + g;
    }
  }

  /** Some power of f makes b * f^n smaller than `gap`. */
  lemma PowerBelow(f: real, b: real, gap: real) returns (n: nat)
    requires 0.0 < f < 1.0 && b > 0.0 && gap > 0.0
    ensures b * Power(f, n) < gap
  {
    hide Power;
    n := StepsBeyond(b, Gap(1.0 - f, gap, 0.0));
    PowerVanishes(f, n);
    PowerRange(f, n);
    TooSmall(f, b, gap, Power(f, n), n as real);
  }

  lemma StepsBeyond(b: real, step: real) returns (n: nat)
    requires b > 0.0 && step > 0.0
    ensures n as real * step > b
  {
    FloorNonNegative(b, step);
    n := (b / step).Floor + 1;
    BeyondTimeout(b, step);
  }

  lemma TooSmall(f: real, b: real, gap: real, p: real, n: real)
    requires 0.0 < f < 1.0 && b > 0.0 && gap > 0.0 && p > 0.0 && n >= 0.0
    requires p * (1.0 + n * (1.0 - f)) <= 1.0 && n * Gap(1.0 - f, gap, 0.0) > b
    ensures b * p < gap
  {
    var k := 1.0 + n * (1.0 - f);
    calc {
      (gap - b * p) * k;
      gap + n * (gap * (1.0 - f)) - b * (p * k);
      >= { assert b * (1.0 - p * k) >= 0.0; }
      gap + n * (gap * (1.0 - f)) - b;
    }
    assert k > 0.0 by { assert n * (1.0 - f) >= 0.0; }
    FactorSign(gap - b * p, k);
  }

  /** The sleeps of a shrinking backoff are a geometric sum. */
  lemma {:induction false} ShrinkingSleep(config: PollingConfig, n: nat)
    requires 0.0 < config.initialInterval && 0.0 < config.backoffFactor < 1.0 && 0.0 < config.maxInterval
    ensures (1.0 - config.backoffFactor) * (SleepTotal(config, n + 1) - config.initialInterval)
         == Interval(config, 1) * (1.0 - Power(config.backoffFactor, n))
  {
    hide Interval, Power, SleepTotal;
    var f, b := config.backoffFactor, Interval(config, 1);
    if n == 0 {
      FirstSleep(config);
      PowerStart(f);
    } else {
      ShrinkingSleep(config, n - 1);
      ShrunkInterval(config, n - 1);
      SleepStep(config, n);
      PowerStep(f, n - 1);
      GeometricStep(f, b, SleepTotal(config, n) - config.initialInterval, Power(f, n - 1));
    }
  }

  lemma FirstSleep(config: PollingConfig)
    requires config.initialInterval >= 0.0
    ensures SleepTotal(config, 1) == config.initialInterval
  {
    assert SleepTotal(config, 1) == SleepTotal(config, 0) + Slept(Interval(config, 0));
  }

  lemma SleepStep(config: PollingConfig, n: nat)
    ensures SleepTotal(config, n + 1) == SleepTotal(config, n) + Slept(Interval(config, n))
  {
  }

  lemma GeometricStep(f: real, b: real, s: real, p: real)
    requires (1.0 - f) * s == b * (1.0 - p)
    ensures (1.0 - f) * (s + b * p) == b * (1.0 - p * f)
  {
  }

  lemma {:induction false} SleepGrows(config: PollingConfig, n: nat)
    ensures SleepTotal(config, n + 1) >= SleepTotal(config, n) >= 0.0
  {
    if n > 0 {
      SleepGrows(config, n - 1);
    }
  }

  /** The whole time a shrinking backoff can sleep. */
  function SleepLimit(config: PollingConfig): real
    requires config.backoffFactor < 1.0
  {
    config.initialInterval + Interval(config, 1) / (1.0 - config.backoffFactor)
  }

  lemma LimitIs(config: PollingConfig)
    requires config.backoffFactor < 1.0
    ensures (1.0 - config.backoffFactor) * (SleepLimit(config) - config.initialInterval) == Interval(config, 1)
  {
    assert (SleepLimit(config) - config.initialInterval) == Interval(config, 1) / (1.0 - config.backoffFactor);
  }

  lemma ShrinkingBelowLimit(config: PollingConfig, n: nat)
    requires 0.0 < config.initialInterval && 0.0 < config.backoffFactor < 1.0 && 0.0 < config.maxInterval
    ensures SleepTotal(config, n) < SleepLimit(config)
  {
    hide SleepTotal, SleepLimit, Interval, Power;
    SleepGrows(config, n);
    ShrinkingSleep(config, n);
    LimitIs(config);
    FirstBackoff(config);
    PowerRange(config.backoffFactor, n);
    BelowLimit(1.0 - config.backoffFactor, SleepTotal(config, n + 1) - config.initialInterval,
               SleepLimit(config) - config.initialInterval, Interval(config, 1), Power(config.backoffFactor, n));
  }

  lemma BelowLimit(g: real, s: real, l: real, b: real, p: real)
    requires g > 0.0 && b > 0.0 && p > 0.0 && g * l == b && g * s == b * (1.0 - p)
    ensures s < l
  {
    assert (l - s) * g == b * p;
    FactorSign(l - s, g);
  }

  lemma ShrinkingReaches(config: PollingConfig) returns (n: nat)
    requires 0.0 < config.initialInterval && 0.0 < config.backoffFactor < 1.0 && 0.0 < config.maxInterval
    requires config.timeout < SleepLimit(config)
    ensures SleepTotal(config, n) > config.timeout
  {
    hide SleepTotal, SleepLimit, Interval, Power;
    var f, b := config.backoffFactor, Interval(config, 1);
    var gap := Gap(1.0 - f, SleepLimit(config), config.timeout);
    FirstBackoff(config);
    LimitIs(config);
    var k := PowerBelow(f, b, gap);
    n := k + 1;
    ShrinkingSleep(config, k);
    ReachedGap(1.0 - f, SleepTotal(config, n), SleepLimit(config), config.timeout, config.initialInterval, b, Power(f, k));
  }

  function Gap(g: real, l: real, t: real): (r: real)
    requires g > 0.0 && l > t
    ensures r > 0.0
  {
    g * (l - t)
  }

  lemma ReachedGap(g: real, s: real, l: real, t: real, x: real, b: real, p: real)
    requires g > 0.0 && l > t && g * (l - x) == b && g * (s - x) == b * (1.0 - p) && b * p < Gap(g, l, t)
    ensures s > t
  {
    assert (s - t) * g == g * (s - x) - g * (l - x) + g * (l - t);
    FactorSign(s - t, g);
  }

  /**
   The loop ends against every backend exactly when the timeout is negative, the backoff does not
   shrink, or the whole of a shrinking backoff is longer than the timeout.
   */
  lemma AlwaysEndsIff(config: PollingConfig)
    requires 0.0 < config.initialInterval && 0.0 < config.backoffFactor && 0.0 < config.maxInterval
    ensures AlwaysEnds(config) <==>
            config.timeout < 0.0 || config.backoffFactor >= 1.0 || config.timeout < SleepLimit(config)
  {
    hide SleepLimit, SleepTotal, AlwaysEnds;
    AlwaysEndsIffSleeps(config);
    if config.timeout < 0.0 {
      SleepGrows(config, 0);
    } else if config.backoffFactor >= 1.0 {
      var low := MinReal(config.initialInterval, config.maxInterval);
      FloorNonNegative(config.timeout, low);
      var bound: nat := (config.timeout / low).Floor + 1;
      BeyondTimeout(config.timeout, low);
      SleepFloor(config, bound);
    } else if config.timeout < SleepLimit(config) {
      var n := ShrinkingReaches(config);
    } else {
      forall n: nat ensures SleepTotal(config, n) <= config.timeout {
        ShrinkingBelowLimit(config, n);
      }
    }
  }
}

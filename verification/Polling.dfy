/**
 The polling loop on an arbitrary backend and an explicit clock.  A `Script` says what the i-th
 iteration meets and how long every await takes; `Interval`, `Elapsed` and `Verdict` say what the
 loop does with it, iteration by iteration, and `WaitForResult` is the loop itself.
 */
module Polling {
  import opened Basics
  import opened Backends
  import opened CircuitBreaking

  datatype PollingConfig = PollingConfig(
    initialInterval: real,
    maxInterval: real,
    backoffFactor: real,
    timeout: real,
    maxRetries: int)

  /** What one iteration meets: the cancellation token, the backend's answers, and the durations of its
      awaits.  `lag` is what the sleep takes beyond the interval asked for. */
  datatype Encounter = Encounter(
    cancelled: bool,
    cancelFault: Option<string>,
    cancelTime: real,
    polled: Polled,
    pollTime: real,
    fetched: Fetched,
    fetchTime: real,
    lag: real)
  {
    predicate Valid() { cancelTime >= 0.0 && pollTime >= 0.0 && fetchTime >= 0.0 && lag >= 0.0 }

    /** The loop asks for the result after the states COMPLETED and FAILED. */
    predicate Fetches() { polled.Status? && (polled.status == COMPLETED || polled.status == FAILED) }

    predicate SeesTransient() { Fetches() && fetched.Transient? }
  }

  type Script = nat -> Encounter

  ghost predicate ValidScript(script: Script) {
    forall i: nat :: script(i).Valid()
  }

  datatype Outcome =
    | Returned(result: ExperimentResult)
    | Unavailable
    | CancelledByCaller
    | JobCancelled
    | TimedOut
    | CancelFailed(error: string)
    | PollFailed(error: string)
    | FetchFailed(error: string)
    | Exhausted(error: string)

  function BackedOff(config: PollingConfig, interval: real): real {
    MinReal(interval * config.backoffFactor, config.maxInterval)
  }

  /** The interval the i-th iteration would sleep. */
  function Interval(config: PollingConfig, i: nat): real {
    if i == 0 then config.initialInterval else BackedOff(config, Interval(config, i - 1))
  }

  /** `asyncio.sleep` returns at once for a negative delay. */
  function Slept(delay: real): real {
    if delay < 0.0 then 0.0 else delay
  }

  /** What the awaits of an iteration that goes on take. */
  function Spent(config: PollingConfig, e: Encounter, i: nat): real {
    e.pollTime + (if e.Fetches() then e.fetchTime else 0.0) + Slept(Interval(config, i)) + e.lag
  }

  /** The time since the start at the beginning of iteration `i`. */
  function Elapsed(config: PollingConfig, script: Script, i: nat): real {
    if i == 0 then 0.0 else Elapsed(config, script, i - 1) + Spent(config, script(i - 1), i - 1)
  }

  /** Transient errors met before iteration `i`. */
  function Transients(script: Script, i: nat): nat {
    if i == 0 then 0 else Transients(script, i - 1) + if script(i - 1).SeesTransient() then 1 else 0
  }

  function Cancelling(e: Encounter, outcome: Outcome): Option<Outcome> {
    if e.cancelFault.Some? then Some(CancelFailed(e.cancelFault.value)) else Some(outcome)
  }

  /** How an iteration that begins after `elapsed` seconds and `transients` transient errors ends the loop,
      if it does. */
  function Judged(config: PollingConfig, e: Encounter, elapsed: real, transients: int): Option<Outcome> {
    if e.cancelled then Cancelling(e, CancelledByCaller)
    else if elapsed > config.timeout then Cancelling(e, TimedOut)
    else if e.polled.PollRaised? then Some(PollFailed(e.polled.error))
    else if e.Fetches() then
      match e.fetched
      case Result(result) => Some(Returned(result))
      case Transient(error) => if transients + 1 > config.maxRetries then Some(Exhausted(error)) else None
      case FetchRaised(error) => Some(FetchFailed(error))
    else if e.polled.status == CANCELLED then Some(JobCancelled)
    else None
  }

  function Verdict(config: PollingConfig, script: Script, i: nat): Option<Outcome> {
    Judged(config, script(i), Elapsed(config, script, i), Transients(script, i))
  }

  /** Iteration `n` is the last one. */
  ghost predicate EndsAt(config: PollingConfig, script: Script, n: nat) {
    && Verdict(config, script, n).Some?
    && forall i: nat :: i < n ==> Verdict(config, script, i).None?
  }

  ghost predicate Ends(config: PollingConfig, script: Script) {
    exists n: nat :: Verdict(config, script, n).Some?
  }

  /** The awaits of the last iteration. */
  function LastSpent(e: Encounter, outcome: Outcome): real {
    match outcome
    case CancelledByCaller => e.cancelTime
    case TimedOut => e.cancelTime
    case CancelFailed(_) => e.cancelTime
    case Returned(_) => e.pollTime + e.fetchTime
    case FetchFailed(_) => e.pollTime + e.fetchTime
    case Exhausted(_) => e.pollTime + e.fetchTime
    case _ => e.pollTime
  }

  /** All transient errors of a run that ends at `n`. */
  function Seen(script: Script, n: nat, outcome: Outcome): nat {
    Transients(script, n) + if outcome.Exhausted? then 1 else 0
  }

  /** What the run reports to the breaker. */
  function Reported(outcome: Outcome, at: real): seq<Report> {
    match outcome
    case Returned(_) => [Succeeded]
    case PollFailed(_) => [FailedAt(at)]
    case Exhausted(_) => [FailedAt(at)]
    case _ => []
  }

  class PollingMetrics {
    var transientRetries: int
    var breakerWasOpen: bool
    var waitTime: real
    var pollCount: int

    constructor ()
      ensures transientRetries == 0 && !breakerWasOpen && waitTime == 0.0 && pollCount == 0
    {
      transientRetries, breakerWasOpen, waitTime, pollCount := 0, false, 0.0, 0;
    }
  }

  lemma {:induction false} ElapsedGrows(config: PollingConfig, script: Script, i: nat)
    requires ValidScript(script)
    ensures Elapsed(config, script, i) >= 0.0
    ensures Elapsed(config, script, i + 1) >= Elapsed(config, script, i) + Slept(Interval(config, i))
  {
    assert script(i).Valid();
    if i > 0 {
      ElapsedGrows(config, script, i - 1);
    }
  }

  /** The awaits of an iteration that goes on, before it sleeps. */
  function Polling(e: Encounter): real {
    e.pollTime + if e.Fetches() then e.fetchTime else 0.0
  }

  function CountTransient(e: Encounter, verdict: Option<Outcome>): nat {
    if (verdict.None? && e.SeesTransient()) || (verdict.Some? && verdict.value.Exhausted?) then 1 else 0
  }

  /** The fetch of a finished job: both branches of the loop treat a transient error alike. */
  method Fetch(e: Encounter, config: PollingConfig, breaker: CircuitBreaker, metrics: PollingMetrics?, now: real,
               transientRetries: int)
    returns (verdict: Option<Outcome>, retries: int)
    requires breaker.Valid() && breaker.latest <= now
    modifies breaker, metrics
    ensures breaker.Valid() && breaker.latest <= now
    ensures verdict == match e.fetched
                       case Result(result) => Some(Returned(result))
                       case Transient(error) =>
                         if transientRetries + 1 > config.maxRetries then Some(Exhausted(error)) else None
                       case FetchRaised(error) => Some(FetchFailed(error))
    ensures retries == transientRetries + if e.fetched.Transient? then 1 else 0
    ensures breaker.reports == old(breaker.reports) + if verdict.Some? then Reported(verdict.value, now) else []
    ensures metrics != null ==>
              && metrics.pollCount == old(metrics.pollCount) && metrics.breakerWasOpen == old(metrics.breakerWasOpen)
              && metrics.transientRetries == if e.fetched.Transient? then retries else old(metrics.transientRetries)
  {
    retries := transientRetries;
    match e.fetched
    case Result(result) =>
      breaker.RecordSuccess(now);
      verdict := Some(Returned(result));
    case FetchRaised(error) =>
      verdict := Some(FetchFailed(error));
    case Transient(error) =>
      retries := retries + 1;
      if metrics != null {
        metrics.transientRetries := retries;
      }
      if retries > config.maxRetries {
        breaker.RecordFailure(now);
        verdict := Some(Exhausted(error));
      } else {
        verdict := None;
      }
  }

  /** One iteration, up to its sleep. */
  method PollOnce(e: Encounter, config: PollingConfig, breaker: CircuitBreaker, metrics: PollingMetrics?, start: real,
                  begin: real, transientRetries: int)
    returns (verdict: Option<Outcome>, now: real, retries: int)
    requires e.Valid() && breaker.Valid() && breaker.latest <= begin
    modifies breaker, metrics
    ensures breaker.Valid() && breaker.latest <= now
    ensures verdict == Judged(config, e, begin - start, transientRetries)
    ensures now == begin + if verdict.Some? then LastSpent(e, verdict.value) else Polling(e)
    ensures retries == transientRetries + CountTransient(e, verdict)
    ensures breaker.reports == old(breaker.reports) + if verdict.Some? then Reported(verdict.value, now) else []
    ensures metrics != null ==>
              && metrics.pollCount == old(metrics.pollCount) + 1
              && metrics.breakerWasOpen == old(metrics.breakerWasOpen)
              && metrics.transientRetries == if retries > transientRetries then retries else old(metrics.transientRetries)
  {
    now, retries := begin, transientRetries;
    if metrics != null {
      metrics.pollCount := metrics.pollCount + 1;
    }
    if e.cancelled {
      now := now + e.cancelTime;
      verdict := Cancelling(e, CancelledByCaller);
      return;
    }
    if now - start > config.timeout {
      now := now + e.cancelTime;
      verdict := Cancelling(e, TimedOut);
      return;
    }
    now := now + e.pollTime;
    if e.polled.PollRaised? {
      breaker.RecordFailure(now);
      verdict := Some(PollFailed(e.polled.error));
      return;
    }
    var status := e.polled.status;
    if status == COMPLETED || status == FAILED {
      now := now + e.fetchTime;
      verdict, retries := Fetch(e, config, breaker, metrics, now, retries);
    } else if status == CANCELLED {
      verdict := Some(JobCancelled);
    } else {
      verdict := None;
    }
  }

  /** The `while True` loop, started at time `start`. */
  method PollUntilDone(script: Script, config: PollingConfig, breaker: CircuitBreaker, metrics: PollingMetrics?,
                       start: real)
    returns (outcome: Outcome, finish: real, ghost last: nat)
    requires ValidScript(script) && Ends(config, script)
    requires breaker.Valid() && breaker.latest <= start
    modifies breaker, metrics
    ensures breaker.Valid() && breaker.latest <= finish
    ensures EndsAt(config, script, last) && Verdict(config, script, last) == Some(outcome)
    ensures finish == start + (Elapsed(config, script, last) + LastSpent(script(last), outcome))
    ensures breaker.reports == old(breaker.reports) + Reported(outcome, finish)
    ensures metrics != null ==>
              && metrics.breakerWasOpen == old(metrics.breakerWasOpen)
              && metrics.pollCount == old(metrics.pollCount) + last + 1
              && metrics.transientRetries
                 == if Seen(script, last, outcome) > 0 then Seen(script, last, outcome) else old(metrics.transientRetries)
  {
    hide Judged, LastSpent, Reported, Interval, Elapsed, Transients, Trailing, Max;
    var now, interval, transientRetries := start, config.initialInterval, 0;
    var i := 0;
    IntervalStart(config);
    LoopStart(config, script);
    ghost var bound: nat :| Verdict(config, script, bound).Some?;
    while true
      invariant breaker.Valid() && breaker.latest <= now && breaker.reports == old(breaker.reports)
      invariant interval == Interval(config, i) && transientRetries == Transients(script, i)
      invariant now == start + Elapsed(config, script, i)
      invariant forall j: nat :: j < i ==> Verdict(config, script, j).None?
      invariant metrics != null ==>
                  && metrics.pollCount == old(metrics.pollCount) + i
                  && metrics.breakerWasOpen == old(metrics.breakerWasOpen)
                  && metrics.transientRetries
                     == if transientRetries > 0 then transientRetries else old(metrics.transientRetries)
      invariant i <= bound
      decreases bound - i
    {
      assert script(i).Valid();
      var verdict;
      verdict, now, transientRetries :=
        PollOnce(script(i), config, breaker, metrics, start, now, transientRetries);
      if verdict.Some? {
        return verdict.value, now, i;
      }
      // still queued or running, or a transient error within the budget: wait and back off
      now := now + Slept(interval) + script(i).lag;
      interval := BackedOff(config, interval);
      IntervalStep(config, i);
      LoopStep(config, script, i);
      i := i + 1;
    }
  }

  lemma IntervalStart(config: PollingConfig)
    ensures Interval(config, 0) == config.initialInterval
  {
  }

  lemma IntervalStep(config: PollingConfig, i: nat)
    ensures Interval(config, i + 1) == BackedOff(config, Interval(config, i))
  {
  }

  lemma LoopStart(config: PollingConfig, script: Script)
    ensures Elapsed(config, script, 0) == 0.0 && Transients(script, 0) == 0
  {
  }

  lemma LoopStep(config: PollingConfig, script: Script, i: nat)
    ensures Elapsed(config, script, i + 1)
         == Elapsed(config, script, i) + Polling(script(i)) + Slept(Interval(config, i)) + script(i).lag
    ensures Transients(script, i + 1) == Transients(script, i) + CountTransient(script(i), None)
  {
  }

  /**
   `wait_for_result`, called at time `start` of the monotonic clock.  `last` is the index of the
   iteration that ended it.
   */
  method WaitForResult(script: Script, config: PollingConfig, maybeBreaker: CircuitBreaker?, metrics: PollingMetrics?,
                       start: real)
    returns (outcome: Outcome, finish: real, ghost last: nat)
    requires ValidScript(script) && Ends(config, script)
    requires maybeBreaker != null ==> maybeBreaker.Valid() && maybeBreaker.latest <= start
    modifies maybeBreaker, metrics
    ensures maybeBreaker != null ==> maybeBreaker.Valid() && maybeBreaker.latest <= finish
    ensures outcome.Unavailable? <==>
            maybeBreaker != null
            && OpenAt(maybeBreaker.failureThreshold, maybeBreaker.resetAfter, old(maybeBreaker.reports), start)
    ensures outcome.Unavailable? ==>
              && finish == start && (maybeBreaker != null ==> maybeBreaker.reports == old(maybeBreaker.reports))
              && (metrics != null ==>
                    && metrics.breakerWasOpen && metrics.pollCount == old(metrics.pollCount)
                    && metrics.waitTime == old(metrics.waitTime)
                    && metrics.transientRetries == old(metrics.transientRetries))
    ensures !outcome.Unavailable? ==>
              && EndsAt(config, script, last) && Verdict(config, script, last) == Some(outcome)
              && finish == start + (Elapsed(config, script, last) + LastSpent(script(last), outcome))
              && (maybeBreaker != null ==>
                    maybeBreaker.reports == old(maybeBreaker.reports)
                                            + if outcome.Returned? then [Succeeded]
                                              else if outcome.PollFailed? || outcome.Exhausted? then [FailedAt(finish)]
                                              else [])
    ensures !outcome.Unavailable? && metrics != null ==>
              && metrics.breakerWasOpen == old(metrics.breakerWasOpen)
              && metrics.pollCount == old(metrics.pollCount) + last + 1
              && metrics.waitTime == finish - start
              && metrics.transientRetries
                 == if Seen(script, last, outcome) > 0 then Seen(script, last, outcome) else old(metrics.transientRetries)
  {
    hide Elapsed, LastSpent, Transients;
    var breaker := maybeBreaker;
    if breaker == null {
      breaker := new CircuitBreaker(5, 15.0, start);
    }
    var open := breaker.IsOpen(start);
    if open {
      if metrics != null {
        metrics.breakerWasOpen := true;
      }
      return Unavailable, start, 0;
    }
    outcome, finish, last := PollUntilDone(script, config, breaker, metrics, start);
    if metrics != null {
      metrics.waitTime := finish - start;
    }
  }
}

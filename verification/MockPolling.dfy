/** The polling loop on the mock backend, whose job lives on between any two awaits. */
module MockPolling {
  import opened Basics
  import opened Backends
  import opened MockBackend
  import opened Polling
  import opened PollingTheorems

  ghost predicate Leads(rates: Rates, jobId: string, before: Job, after: Job) {
    exists events :: after == Lived(rates, jobId, before, events)
  }

  /** The job as the i-th iteration polls it and as it would fetch its result. */
  datatype Sighting = Sighting(atPoll: Job, atFetch: Job)

  ghost predicate Watched(rates: Rates, jobId: string, script: Script, seen: nat -> Sighting, i: nat) {
    && Leads(rates, jobId, seen(i).atPoll, seen(i).atFetch)
    && Leads(rates, jobId, seen(i).atFetch, seen(i + 1).atPoll)
    && script(i).polled == Status(seen(i).atPoll.status)
    && script(i).fetched == Answer(seen(i).atFetch)
    && script(i).cancelFault == None
  }

  /** The script is what a submitted job of the mock backend answers, with any events in between. */
  ghost predicate MockScript(rates: Rates, jobId: string, script: Script, seen: nat -> Sighting) {
    Leads(rates, jobId, SUBMITTED, seen(0).atPoll) && forall i: nat :: Watched(rates, jobId, script, seen, i)
  }

  lemma LeadsOk(rates: Rates, jobId: string, before: Job, after: Job)
    requires JobOk(before) && Leads(rates, jobId, before, after)
    ensures JobOk(after)
    ensures Terminal(before.status) ==> after.status == before.status && after.result == before.result
  {
    var events :| after == Lived(rates, jobId, before, events);
    LivedOk(rates, jobId, before, events);
    if Terminal(before.status) {
      TerminalAbsorbs(rates, jobId, before, events);
    }
  }

  lemma {:induction false} SeenOk(rates: Rates, jobId: string, script: Script, seen: nat -> Sighting, i: nat)
    requires MockScript(rates, jobId, script, seen)
    ensures JobOk(seen(i).atPoll) && JobOk(seen(i).atFetch)
    ensures Terminal(seen(i).atPoll.status) ==>
              seen(i).atFetch.status == seen(i).atPoll.status && seen(i).atFetch.result == seen(i).atPoll.result
  {
    if i == 0 {
      LeadsOk(rates, jobId, SUBMITTED, seen(0).atPoll);
    } else {
      SeenOk(rates, jobId, script, seen, i - 1);
      assert Watched(rates, jobId, script, seen, i - 1);
      LeadsOk(rates, jobId, seen(i - 1).atFetch, seen(i - 1 + 1).atPoll);
    }
    assert Watched(rates, jobId, script, seen, i);
    LeadsOk(rates, jobId, seen(i).atPoll, seen(i).atFetch);
  }

  predicate Retryable(job: Job) {
    job.status == FAILED && job.result.Some? && job.result.value.retryable
  }

  /** Once a retryable failure, always one. */
  lemma {:induction false} StaysRetryable(rates: Rates, jobId: string, script: Script, seen: nat -> Sighting, i: nat, j: nat)
    requires MockScript(rates, jobId, script, seen) && Retryable(seen(i).atPoll) && i <= j
    ensures Retryable(seen(j).atPoll)
    decreases j
  {
    if j > i {
      StaysRetryable(rates, jobId, script, seen, i, j - 1);
      SeenOk(rates, jobId, script, seen, j - 1);
      assert Watched(rates, jobId, script, seen, j - 1);
      LeadsOk(rates, jobId, seen(j - 1).atFetch, seen(j - 1 + 1).atPoll);
    }
  }

  /** The outcomes left to a run by the state of the job when it is last polled. */
  predicate Fits(job: Job, outcome: Outcome) {
    || outcome == CancelledByCaller
    || outcome == TimedOut
    || (Retryable(job) && outcome.Exhausted?)
    || (job.result.Some? && !Retryable(job) && outcome == Returned(job.result.value))
    || (job.status == CANCELLED && outcome == JobCancelled)
  }

  /** The loop cannot end in a poll error, a fetch error or a failed cancellation; a retryable failure ends only
      in a timeout, the caller's cancellation, or giving up. */
  lemma OutcomeFitsJob(rates: Rates, jobId: string, config: PollingConfig, script: Script, seen: nat -> Sighting,
                       n: nat, outcome: Outcome)
    requires MockScript(rates, jobId, script, seen)
    requires EndsAt(config, script, n) && Verdict(config, script, n) == Some(outcome)
    ensures Fits(seen(n).atPoll, outcome)
  {
    SeenOk(rates, jobId, script, seen, n);
    assert Watched(rates, jobId, script, seen, n);
  }

  /** Iterations before `n` that fetched. */
  function Fetches(script: Script, n: nat): nat {
    if n == 0 then 0 else Fetches(script, n - 1) + if script(n - 1).Fetches() then 1 else 0
  }

  /** On any backend, every fetch before the last iteration met a transient error. */
  lemma {:induction false} EveryFetchWasTransient(config: PollingConfig, script: Script, n: nat)
    requires forall i: nat :: i < n ==> Verdict(config, script, i).None?
    ensures Fetches(script, n) == Transients(script, n)
  {
    if n > 0 {
      EveryFetchWasTransient(config, script, n - 1);
      assert Verdict(config, script, n - 1).None?;
    }
  }

  /** A raise comes after exactly max(0, max_retries) + 1 fetches. */
  lemma GivesUpAfterFetches(config: PollingConfig, script: Script, n: nat, error: string)
    requires EndsAt(config, script, n) && Verdict(config, script, n) == Some(Exhausted(error))
    ensures Fetches(script, n + 1) == Max(0, config.maxRetries) + 1
  {
    EveryFetchWasTransient(config, script, n);
    ExhaustedAfterBudget(config, script, n, error);
  }

  lemma {:induction false} TransientMeansRetryable(rates: Rates, jobId: string, script: Script, seen: nat -> Sighting, n: nat)
    requires MockScript(rates, jobId, script, seen) && Transients(script, n) > 0
    ensures Retryable(seen(n).atPoll)
  {
    if script(n - 1).SeesTransient() {
      SeenOk(rates, jobId, script, seen, n - 1);
      assert Watched(rates, jobId, script, seen, n - 1);
      StaysRetryable(rates, jobId, script, seen, n - 1, n);
    } else {
      TransientMeansRetryable(rates, jobId, script, seen, n - 1);
      StaysRetryable(rates, jobId, script, seen, n - 1, n);
    }
  }

  /** On this backend retrying a fetch never helps: a run that returns a result has seen no transient error. */
  lemma RetryingNeverHelps(rates: Rates, jobId: string, config: PollingConfig, script: Script, seen: nat -> Sighting,
                           n: nat, result: ExperimentResult)
    requires MockScript(rates, jobId, script, seen)
    requires EndsAt(config, script, n) && Verdict(config, script, n) == Some(Returned(result))
    ensures Seen(script, n, Returned(result)) == 0
  {
    if Transients(script, n) > 0 {
      TransientMeansRetryable(rates, jobId, script, seen, n);
      OutcomeFitsJob(rates, jobId, config, script, seen, n, Returned(result));
      assert false;
    }
  }

  // ----- a run that gives up -----

  const FLAKY := Rates(0.0, 1.0)
  const PATIENCE := PollingConfig(0.25, 5.0, 1.8, 30.0, 3)
  const MISHAP := "transient: calibration cycle in progress"
  const FAILED_JOB := Job(FAILED, Some(ExperimentResult("a", FAILED, None, true, Some(MISHAP))), Ended)

  /** The job has failed retryably before the first poll; every answer is immediate. */
  function Mishap(): Script {
    (i: nat) => Encounter(false, None, 0.0, Status(FAILED), 0.0, Transient(MISHAP), 0.0, 0.0)
  }

  function AlwaysFailed(): nat -> Sighting {
    (i: nat) => Sighting(FAILED_JOB, FAILED_JOB)
  }

  lemma FailsRetryably()
    ensures Leads(FLAKY, "a", SUBMITTED, FAILED_JOB) && Leads(FLAKY, "a", FAILED_JOB, FAILED_JOB)
  {
    var first, both := [Wake(0.5, map[])], [Wake(0.5, map[]), Wake(0.5, map[])];
    assert first[..0] == [] && both[..1] == first;
    assert Lived(FLAKY, "a", SUBMITTED, []) == SUBMITTED;
    assert Lived(FLAKY, "a", SUBMITTED, first) == Job(RUNNING, None, OnDevice);
    assert Lived(FLAKY, "a", SUBMITTED, both) == FAILED_JOB;
    assert Lived(FLAKY, "a", FAILED_JOB, []) == FAILED_JOB;
  }

  lemma MishapSchedule()
    ensures Elapsed(PATIENCE, Mishap(), 1) == 0.25 && Elapsed(PATIENCE, Mishap(), 2) == 0.7
    ensures Elapsed(PATIENCE, Mishap(), 3) == 1.51
    ensures Transients(Mishap(), 1) == 1 && Transients(Mishap(), 2) == 2 && Transients(Mishap(), 3) == 3
  {
    IntervalStart(PATIENCE);
    IntervalStep(PATIENCE, 0);
    IntervalStep(PATIENCE, 1);
    assert Elapsed(PATIENCE, Mishap(), 0) == 0.0 && Transients(Mishap(), 0) == 0;
  }

  /** The failure is real: a submitted job fails retryably, and the loop spends its whole budget on it in vain. */
  lemma RetriesInVain()
    ensures MockScript(FLAKY, "a", Mishap(), AlwaysFailed())
    ensures EndsAt(PATIENCE, Mishap(), 3) && Verdict(PATIENCE, Mishap(), 3) == Some(Exhausted(MISHAP))
    ensures Seen(Mishap(), 3, Exhausted(MISHAP)) == 4
  {
    FailsRetryably();
    MishapSchedule();
    forall i: nat ensures Watched(FLAKY, "a", Mishap(), AlwaysFailed(), i) {
      hide Leads;
    }
    assert Elapsed(PATIENCE, Mishap(), 0) == 0.0 && Transients(Mishap(), 0) == 0;
    forall i: nat | i < 3 ensures Verdict(PATIENCE, Mishap(), i).None? {
      assert i == 0 || i == 1 || i == 2;
    }
  }
}

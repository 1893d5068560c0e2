/** The mock hardware backend: jobs advanced by a background task, raced by cancellations. */
module MockBackend {
  import opened Basics
  import opened Backends
  import opened Binary
  import opened Histograms

  /** Where the background task of a job is: in its first sleep, in its second, or gone. */
  datatype Stage = InQueue | OnDevice | Ended

  datatype Job = Job(status: JobStatus, result: Option<ExperimentResult>, stage: Stage)

  datatype Rates = Rates(hardFailure: real, transientFailure: real)

  predicate Terminal(s: JobStatus) {
    s == COMPLETED || s == FAILED || s == CANCELLED
  }

  const SUBMITTED := Job(QUEUED, None, InQueue)

  /** How a job that is not cancelled ends, by the random roll. */
  function Ending(rates: Rates, jobId: string, roll: real, counts: Histogram): ExperimentResult {
    if roll < rates.hardFailure then
      ExperimentResult(jobId, FAILED, None, false, Some("hardware fault: qubit readout error (non-retryable)"))
    else if roll < rates.hardFailure + rates.transientFailure then
      ExperimentResult(jobId, FAILED, None, true, Some("transient: calibration cycle in progress"))
    else ExperimentResult(jobId, COMPLETED, Some(counts), false, None)
  }

  /** The background task wakes up. */
  function Woken(rates: Rates, jobId: string, job: Job, roll: real, counts: Histogram): Job {
    match job.stage
    case Ended => job
    case InQueue => if job.status == CANCELLED then job.(stage := Ended) else job.(status := RUNNING, stage := OnDevice)
    case OnDevice =>
      if job.status == CANCELLED then job.(stage := Ended)
      else
        var result := Ending(rates, jobId, roll, counts);
        Job(result.status, Some(result), Ended)
  }

  function Cancelled(job: Job): Job {
    if job.status == QUEUED || job.status == RUNNING then job.(status := CANCELLED) else job
  }

  datatype Event = Wake(roll: real, counts: Histogram) | Cancel

  function After(rates: Rates, jobId: string, job: Job, e: Event): Job {
    match e
    case Wake(roll, counts) => Woken(rates, jobId, job, roll, counts)
    case Cancel => Cancelled(job)
  }

  function Lived(rates: Rates, jobId: string, job: Job, events: seq<Event>): Job {
    if events == [] then job
    else After(rates, jobId, Lived(rates, jobId, job, events[..|events| - 1]), events[|events| - 1])
  }

  // ----- what every interleaving keeps -----

  ghost predicate JobOk(job: Job) {
    && (job.status == QUEUED ==> job.stage == InQueue)
    && (job.status == RUNNING ==> job.stage == OnDevice)
    && (job.status == COMPLETED || job.status == FAILED ==> job.stage == Ended)
    && (job.result.Some? <==> job.status == COMPLETED || job.status == FAILED)
    && (job.result.Some? ==> job.result.value.status == job.status)
    && (job.result.Some? && job.result.value.retryable ==> job.status == FAILED)
  }

  lemma AfterOk(rates: Rates, jobId: string, job: Job, event: Event)
    requires JobOk(job)
    ensures JobOk(After(rates, jobId, job, event))
  {
  }

  lemma {:induction false} LivedOk(rates: Rates, jobId: string, job: Job, events: seq<Event>)
    requires JobOk(job)
    ensures JobOk(Lived(rates, jobId, job, events))
  {
    if events != [] {
      LivedOk(rates, jobId, job, events[..|events| - 1]);
      AfterOk(rates, jobId, Lived(rates, jobId, job, events[..|events| - 1]), events[|events| - 1]);
    }
  }

  /** COMPLETED, FAILED and CANCELLED are absorbing, and the result is never touched again. */
  lemma {:induction false} TerminalAbsorbs(rates: Rates, jobId: string, job: Job, events: seq<Event>)
    requires JobOk(job) && Terminal(job.status)
    ensures Lived(rates, jobId, job, events).status == job.status
    ensures Lived(rates, jobId, job, events).result == job.result
  {
    if events != [] {
      TerminalAbsorbs(rates, jobId, job, events[..|events| - 1]);
      LivedOk(rates, jobId, job, events[..|events| - 1]);
    }
  }

  // ----- who wins the race -----

  /** The wake-ups before the first cancellation. */
  function WakesFirst(events: seq<Event>): (wakes: seq<Event>)
    ensures forall i :: 0 <= i < |wakes| ==> wakes[i].Wake?
  {
    if events == [] then []
    else
      var front, last := events[..|events| - 1], events[|events| - 1];
      if last.Cancel? || Cancel in front then WakesFirst(front) else WakesFirst(front) + [last]
  }

  /** The job a submission has become, read off the events alone: the second wake-up decides, unless a
      cancellation comes first. */
  ghost predicate RaceWon(rates: Rates, jobId: string, events: seq<Event>, job: Job) {
    var wakes := WakesFirst(events);
    if |wakes| >= 2 then
      var ending := Ending(rates, jobId, wakes[1].roll, wakes[1].counts);
      job == Job(ending.status, Some(ending), Ended)
    else if Cancel in events then job.status == CANCELLED && job.result == None
    else job == if wakes == [] then SUBMITTED else Job(RUNNING, None, OnDevice)
  }

  lemma {:induction false} RaceDecides(rates: Rates, jobId: string, events: seq<Event>)
    ensures RaceWon(rates, jobId, events, Lived(rates, jobId, SUBMITTED, events))
  {
    if events != [] {
      hide Ending;
      var front, last := events[..|events| - 1], events[|events| - 1];
      RaceDecides(rates, jobId, front);
      EndingIsFinal(rates, jobId);
      assert Cancel in events <==> Cancel in front || last.Cancel?;
    }
  }

  lemma EndingIsFinal(rates: Rates, jobId: string)
    ensures forall roll, counts :: Ending(rates, jobId, roll, counts).status in {COMPLETED, FAILED}
  {
  }

  // ----- the backend object -----

  /** What poll_status and fetch_result say of a known job. */
  function Answer(job: Job): Fetched {
    if job.status != COMPLETED && job.status != FAILED then FetchRaised("not finished yet")
    else if job.result.None? then FetchRaised("assertion")
    else if job.result.value.status == FAILED && job.result.value.retryable then
      Transient(if job.result.value.error.Some? then job.result.value.error.value else "None")
    else Result(job.result.value)
  }

  class MockHardwareBackend {
    const rates: Rates
    var jobs: map<string, Job>

    ghost predicate Valid()
      reads this
    {
      forall id :: id in jobs ==> JobOk(jobs[id])
    }

    constructor (rates: Rates)
      ensures Valid() && jobs == map[] && this.rates == rates
    {
      this.rates := rates;
      jobs := map[];
    }

    method Submit(jobId: string)
      requires Valid() && jobId !in jobs
      modifies this
      ensures Valid() && jobs == old(jobs)[jobId := SUBMITTED]
    {
      jobs := jobs[jobId := Job(QUEUED, None, InQueue)];
    }

    /** The background task of a job, from one sleep to the next. */
    method RunJob(jobId: string, roll: real, counts: Histogram)
      requires Valid() && jobId in jobs
      modifies this
      ensures Valid() && jobs == old(jobs)[jobId := After(rates, jobId, old(jobs[jobId]), Wake(roll, counts))]
      ensures jobs.Keys == old(jobs).Keys && forall id :: id in jobs && id != jobId ==> jobs[id] == old(jobs)[id]
      ensures old(jobs)[jobId].status == CANCELLED || old(jobs)[jobId].stage == Ended ==>
                jobs[jobId].status == old(jobs)[jobId].status && jobs[jobId].result == old(jobs)[jobId].result
      ensures old(jobs)[jobId].status != CANCELLED && old(jobs)[jobId].stage == InQueue ==>
                jobs[jobId] == Job(RUNNING, None, OnDevice)
      ensures old(jobs)[jobId].status != CANCELLED && old(jobs)[jobId].stage == OnDevice ==>
                && jobs[jobId].stage == Ended
                && (jobs[jobId].status == if roll < rates.hardFailure + rates.transientFailure || roll < rates.hardFailure
                                          then FAILED else COMPLETED)
                && jobs[jobId].result.Some? && jobs[jobId].result.value.jobId == jobId
                && jobs[jobId].result.value.status == jobs[jobId].status
                && (jobs[jobId].result.value.error.None? <==> jobs[jobId].status == COMPLETED)
                && jobs[jobId].result.value.counts == (if jobs[jobId].status == COMPLETED then Some(counts) else None)
                && (jobs[jobId].result.value.retryable
                    <==> rates.hardFailure <= roll < rates.hardFailure + rates.transientFailure)
    {
      hide JobOk;
      var record := jobs[jobId];
      AfterOk(rates, jobId, record, Wake(roll, counts));
      if record.stage == InQueue {
        if record.status == CANCELLED {
          jobs := jobs[jobId := record.(stage := Ended)];
          return;
        }
        jobs := jobs[jobId := record.(status := RUNNING, stage := OnDevice)];
      } else if record.stage == OnDevice {
        if record.status == CANCELLED {
          jobs := jobs[jobId := record.(stage := Ended)];
          return;
        }
        if roll < rates.hardFailure {
          var result := ExperimentResult(jobId, FAILED, None, false,
                                         Some("hardware fault: qubit readout error (non-retryable)"));
          jobs := jobs[jobId := Job(FAILED, Some(result), Ended)];
          return;
        }
        if roll < rates.hardFailure + rates.transientFailure {
          var result := ExperimentResult(jobId, FAILED, None, true, Some("transient: calibration cycle in progress"));
          jobs := jobs[jobId := Job(FAILED, Some(result), Ended)];
          return;
        }
        jobs := jobs[jobId := Job(COMPLETED, Some(ExperimentResult(jobId, COMPLETED, Some(counts), false, None)), Ended)];
      } else {
        jobs := jobs[jobId := record];
      }
    }

    method CancelJob(jobId: string)
      requires Valid()
      modifies this
      ensures Valid()
      ensures jobs == if jobId in old(jobs) then old(jobs)[jobId := After(rates, jobId, old(jobs)[jobId], Cancel)]
                      else old(jobs)
      ensures jobs.Keys == old(jobs).Keys && forall id :: id in jobs && id != jobId ==> jobs[id] == old(jobs)[id]
      ensures jobId in jobs ==>
                jobs[jobId] == old(jobs)[jobId].(status := if old(jobs)[jobId].status == QUEUED
                                                              || old(jobs)[jobId].status == RUNNING
                                                           then CANCELLED else old(jobs)[jobId].status)
    {
      if jobId in jobs && (jobs[jobId].status == QUEUED || jobs[jobId].status == RUNNING) {
        jobs := jobs[jobId := jobs[jobId].(status := CANCELLED)];
      } else if jobId in jobs {
        jobs := jobs[jobId := jobs[jobId]];
      }
    }

    method PollStatus(jobId: string) returns (polled: Polled)
      ensures polled == if jobId in jobs then Status(jobs[jobId].status) else PollRaised("unknown job_id")
    {
      if jobId !in jobs {
        return PollRaised("unknown job_id");
      }
      return Status(jobs[jobId].status);
    }

    /** The internal assertion of fetch_result never fails. */
    method FetchResult(jobId: string) returns (fetched: Fetched)
      requires Valid()
      ensures fetched == if jobId in jobs then Answer(jobs[jobId]) else FetchRaised("unknown job_id")
      ensures fetched != FetchRaised("assertion")
      ensures jobId in jobs && jobs[jobId].status in {COMPLETED, FAILED} ==>
                && jobs[jobId].result.Some?
                && (fetched.Transient? <==> jobs[jobId].status == FAILED && jobs[jobId].result.value.retryable)
                && (!fetched.Transient? ==> fetched == Result(jobs[jobId].result.value))
      ensures jobId in jobs && jobs[jobId].status !in {COMPLETED, FAILED} ==> fetched == FetchRaised("not finished yet")
    {
      if jobId !in jobs {
        return FetchRaised("unknown job_id");
      }
      var record := jobs[jobId];
      if record.status != COMPLETED && record.status != FAILED {
        return FetchRaised("not finished yet");
      }
      assert JobOk(record);
      var result := record.result.value;
      if result.status == FAILED && result.retryable {
        return Transient(if result.error.Some? then result.error.value else "None");
      }
      return Result(result);
    }
  }

  // ----- the fake histogram -----

  predicate Distinct(outcomes: seq<string>) {
    forall i, j :: 0 <= i < j < |outcomes| ==> outcomes[i] != outcomes[j]
  }

  /** The share of bucket `i` of `n`: the quotient, and one more for the last `shots % n` buckets. */
  function Share(shots: int, n: int, i: int): int
    requires n > 0
  {
    shots / n + if i >= n - shots % n then 1 else 0
  }

  lemma SharesAre(shots: int, n: nat)
    requires n > 0
    ensures forall i :: Share(shots, n, i) == shots / n + if i >= n - shots % n then 1 else 0
  {
  }

  lemma ShareOfRest(q: int, m: int, r: int)
    requires 0 <= m && r > 0
    ensures var left := q * r + (if m < r then m else r);
            left / r == q + (if m < r then 0 else 1)
  {
    if m < r {
      ModUnique(q * r + m, r, q, m);
    } else {
      assert q * r + r == r * (q + 1);
      ModUnique(q * r + r, r, q + 1, 0);
    }
  }

  /** What is left for the last `r` buckets. */
  function Left(q: int, m: int, r: int): int {
    q * r + if m < r then m else r
  }

  lemma LeftStep(q: int, m: int, r: int)
    requires 0 <= m && r > 0
    ensures Left(q, m, r) / r == q + (if m < r then 0 else 1)
    ensures Left(q, m, r) - Left(q, m, r) / r == Left(q, m, r - 1)
  {
    ShareOfRest(q, m, r);
    assert q * (r - 1) == q * r - q;
  }

  /** The shots not yet dealt before bucket `i` of `n`. */
  function Remaining(shots: int, n: int, i: int): int
    requires n > 0
  {
    Left(shots / n, shots % n, n - i)
  }

  lemma RemainingEnds(shots: int, n: int)
    requires n > 0
    ensures Remaining(shots, n, 0) == shots && Remaining(shots, n, n) == 0
  {
  }

  lemma RemainingStep(shots: int, n: int, i: int)
    requires 0 <= i < n
    ensures Remaining(shots, n, i) / (n - i) == Share(shots, n, i)
    ensures Remaining(shots, n, i + 1) == Remaining(shots, n, i) - Share(shots, n, i)
  {
    LeftStep(shots / n, shots % n, n - i);
  }

  /** What the loop has done before bucket `i`. */
  ghost predicate Dealt(counts: Histogram, shots: int, outcomes: seq<string>, i: nat)
    requires i <= |outcomes| && outcomes != []
  {
    && (forall o :: o in counts <==> o in outcomes[..i])
    && TotalShots(counts) == shots - Remaining(shots, |outcomes|, i)
    && (forall j :: 0 <= j < i ==> outcomes[j] in counts && counts[outcomes[j]] == Share(shots, |outcomes|, j))
  }

  lemma DealtStep(counts: Histogram, shots: int, outcomes: seq<string>, i: nat)
    requires i < |outcomes| && Distinct(outcomes) && Dealt(counts, shots, outcomes, i)
    ensures Dealt(counts[outcomes[i] := Share(shots, |outcomes|, i)], shots, outcomes, i + 1)
  {
    hide Remaining, Share;
    var n := |outcomes|;
    RemainingStep(shots, n, i);
    assert outcomes[i] !in counts;
    ShotsAdd(counts, outcomes[i], Share(shots, n, i), Everything());
    assert outcomes[..i + 1] == outcomes[..i] + [outcomes[i]];
  }

  /** `_fake_counts` over the sorted distinct outcomes: the histogram has exactly these outcomes, adds up to
      the shots, and its buckets differ by at most one. */
  method FakeCounts(shots: int, outcomes: seq<string>) returns (counts: Histogram)
    requires outcomes != [] && Distinct(outcomes)
    ensures counts.Keys == set o | o in outcomes
    ensures TotalShots(counts) == shots
    ensures forall i :: 0 <= i < |outcomes| ==> outcomes[i] in counts && counts[outcomes[i]] == Share(shots, |outcomes|, i)
    ensures forall i :: 0 <= i < |outcomes| ==>
              counts[outcomes[i]] == shots / |outcomes| + if i >= |outcomes| - shots % |outcomes| then 1 else 0
  {
    hide Remaining, Share;
    var n := |outcomes|;
    var shotsLeft := shots;
    counts := map[];
    RemainingEnds(shots, n);
    for i := 0 to n
      invariant shotsLeft == Remaining(shots, n, i)
      invariant Dealt(counts, shots, outcomes, i)
    {
      var remainingBuckets := n - i;
      var share := shotsLeft / remainingBuckets;
      RemainingStep(shots, n, i);
      DealtStep(counts, shots, outcomes, i);
      counts := counts[outcomes[i] := share];
      shotsLeft := shotsLeft - share;
    }
    assert outcomes[..n] == outcomes;
    SharesAre(shots, n);
  }
}

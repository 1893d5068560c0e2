/** What a user of the platform can rely on, as statements about arbitrary runs. */
module ProtocolTheorems {
  import opened Basics
  import opened Protocol
  import opened ProtocolSteps
  import opened ProtocolWeights
  import opened ProtocolSafety
  import opened ProtocolRuns

  ghost predicate NoCopy(s: State, id: Id) {
    && (forall m :: m in s.tasks || m in s.waiting || m in s.deadLetters ==> !IsFor(m, id))
    && (forall w :: w in s.workers ==> !HandFor(w, id))
  }

  /** Conservation: a published experiment without any copy left has a completed or failed last word. */
  lemma NothingIsLost(c: Config, workers: nat, now: int, run: seq<Action>, s: State, id: Id)
    requires Reaches(c, Init(workers, now), run, s)
    requires id in s.history.published && NoCopy(s, id)
    ensures id in s.store && Settled(s, id)
  {
    AlwaysSafe(c, workers, now, run, s);
    var w := Owing(id);
    SumZero(s.tasks, w.task);
    SumZero(s.waiting, w.waiting);
    SumZero(s.deadLetters, w.dead);
    SumZero(s.workers, w.hand);
  }

  /** Executions and published outcomes of `id` beyond the first are each paid for by a crash that hit a copy of it. */
  lemma DuplicationIsPaid(c: Config, workers: nat, now: int, run: seq<Action>, s: State, id: Id)
    requires Reaches(c, Init(workers, now), run, s)
    ensures s.history.executed[id] <= One(id in s.history.published) + s.history.crashed[id]
    ensures s.history.answered[id] <= One(id in s.history.published) + s.history.crashed[id]
  {
    AlwaysSafe(c, workers, now, run, s);
    assert DuplicationPaid(s, id);
    TotalNonNegative(s, Executable(id));
    TotalNonNegative(s, Answerable(id));
  }

  /** Terminal records are stamped, and headers stay within their caps, in every reachable state. */
  lemma BoundsHold(c: Config, workers: nat, now: int, run: seq<Action>, s: State)
    requires Reaches(c, Init(workers, now), run, s)
    ensures forall id :: id in s.store ==> (s.store[id].completedAt.Some? <==> s.store[id].Terminal())
    ensures forall m :: m in s.tasks || m in s.waiting || m in s.deadLetters ==>
                          m.retries <= MAX_RETRIES && m.waits <= c.maxWaits
                          && (m.body.Task? ==> m.body.id in s.store)
  {
    AlwaysSafe(c, workers, now, run, s);
  }

  /** The calibration gate: no vqe execution without a stored, fresh and acceptable observation. */
  lemma GateHolds(c: Config, workers: nat, now: int, run: seq<Action>, s: State, e: Execution)
    requires Reaches(c, Init(workers, now), run, s)
    requires e in s.history.executions && e.algorithm == VQE
    ensures e.basis.Some? && e.basis.value in s.history.observed
    ensures c.policy.Evaluate(e.basis, e.decidedAt) == Allow
  {
    AlwaysSafe(c, workers, now, run, s);
  }

  // ----- a terminal record that no crash has touched is final -----

  lemma FinalStep(c: Config, s: State, a: Action, id: Id)
    requires Safe(c, s) && Unspoken(s) && Next(c, s, a).Some?
    requires s.history.crashed[id] == 0
    requires id in s.store && s.store[id].Terminal()
    ensures var t := Next(c, s, a).value;
            id in t.store && t.store[id] == s.store[id]
  {
    hide Consistent, NothingLost, DuplicationPaid, Accounted, Route;
    assert TerminalIsLast(s, id);
    if a.Consume? {
      assert s.results[0] in s.results;
    } else {
      RecordTouchedOnly(c, s, a, id);
    }
  }

  /** Only submitting and consuming write records. */
  lemma RecordTouchedOnly(c: Config, s: State, a: Action, id: Id)
    requires Next(c, s, a).Some? && !a.Consume? && id in s.store && id !in s.submitting
    ensures var t := Next(c, s, a).value;
            id in t.store && t.store[id] == s.store[id] && id !in t.submitting
  {
    hide Route, ApplyResult;
  }

  lemma {:induction false} TerminalIsFinal(c: Config, workers: nat, now: int, run: seq<Action>, s: State,
                                           more: seq<Action>, t: State, id: Id)
    requires Reaches(c, Init(workers, now), run, s)
    requires Reaches(c, s, more, t)
    requires t.history.crashed[id] == 0
    requires id in s.store && s.store[id].Terminal()
    ensures id in t.store && t.store[id] == s.store[id]
  {
    if more != [] {
      var n := |more| - 1;
      var before := Run(c, s, more[..n]).value;
      CountersStep(c, before, more[n], id);
      TerminalIsFinal(c, workers, now, run, s, more[..n], before, id);
      RunConcat(c, Init(workers, now), run, s, more[..n]);
      AlwaysSafe(c, workers, now, run + more[..n], before);
      FinalStep(c, before, more[n], id);
    }
  }

  /** What a record is after a message, part by part, whatever it was before. */
  lemma HeardRecord(store: map<Id, Record>, m: ResultMessage, now: int, id: Id)
    requires id in store
    ensures id in ApplyResult(store, m, now)
    ensures var before, after := store[id], ApplyResult(store, m, now)[id];
            && (m.id != id || m.status.SaysOther? ==> after == before)
            && (m.id == id && m.status.SaysCompleted? ==>
                  after.status == Completed && after.completedAt == Some(now) && after.result == m.result)
            && (m.id == id && m.status.SaysFailed? ==>
                  after.status == Failed && after.completedAt == Some(now) && after.result == m.result)
            && (m.id == id && m.status.SaysWaiting? ==>
                  after.status == WaitingForCalibration && after.completedAt == None && after.result == before.result)
            && (m.id == id && !m.status.SaysOther? ==> after.error == m.error)
            && after.algorithm == before.algorithm && after.submittedAt == before.submittedAt
  {
  }

  /** The consumer takes the oldest message and stamps an outcome with the time of that step. */
  lemma ConsumedRecord(c: Config, s: State)
    requires Next(c, s, Consume).Some? && s.results[0].id in s.store && s.results[0].Terminal()
    ensures var t, m := Next(c, s, Consume).value, s.results[0];
            && t.results == s.results[1..] && t.clock == s.clock
            && t.store == s.store[m.id := Record(s.store[m.id].algorithm,
                                                 if m.status.SaysCompleted? then Completed else Failed,
                                                 s.store[m.id].submittedAt, Some(s.clock), m.result, m.error)]
  {
  }

  /** Exactly when applying a message takes a terminal record back to a non-terminal one. */
  lemma TerminalUndoneIff(store: map<Id, Record>, m: ResultMessage, now: int, id: Id)
    requires id in store && store[id].Terminal()
    ensures !ApplyResult(store, m, now)[id].Terminal() <==> m.id == id && m.status.SaysWaiting?
  {
  }

  /** Exactly when applying a message changes each part of a terminal record: a later outcome replaces the status
      and the result of an earlier one, and any recognised message replaces its error and its time stamp. */
  lemma AnswerChangedIff(store: map<Id, Record>, m: ResultMessage, now: int, id: Id)
    requires id in store && store[id].Terminal()
    ensures var before, after := store[id], ApplyResult(store, m, now)[id];
            var heard := m.id == id && !m.status.SaysOther?;
            && (after.status != before.status <==> heard && StatusOf(m.status) != before.status)
            && (after.result != before.result <==> heard && m.Terminal() && m.result != before.result)
            && (after.error != before.error <==> heard && m.error != before.error)
            && (after.completedAt != before.completedAt
                <==> heard && before.completedAt != if m.Terminal() then Some(now) else None)
            && after.algorithm == before.algorithm && after.submittedAt == before.submittedAt
  {
  }

  /** What a record tells its reader, but for when it was stamped. */
  predicate SameAnswer(a: Record, b: Record) {
    && a.(completedAt := None) == b.(completedAt := None)
    && (a.completedAt.Some? <==> b.completedAt.Some?)
  }

  /** At-least-once delivery is harmless in place: applying a message again at any later time, after messages
      about other experiments, leaves every answer as it was. */
  lemma {:induction false} ReplayedResult(store: map<Id, Record>, m: ResultMessage, between: seq<ResultMessage>,
                                          first: int, meanwhile: int, again: int)
    requires forall r :: r in between ==> r.id != m.id
    ensures var once := ApplyAll(ApplyResult(store, m, first), between, meanwhile);
            var twice := ApplyResult(once, m, again);
            && twice.Keys == once.Keys == store.Keys
            && forall id :: id in store ==> SameAnswer(once[id], twice[id])
  {
    ApplyAllElsewhere(ApplyResult(store, m, first), between, meanwhile, m.id);
  }

  function ApplyAll(store: map<Id, Record>, messages: seq<ResultMessage>, now: int): map<Id, Record> {
    if messages == [] then store
    else ApplyResult(ApplyAll(store, messages[..|messages| - 1], now), messages[|messages| - 1], now)
  }

  lemma {:induction false} ApplyAllElsewhere(store: map<Id, Record>, messages: seq<ResultMessage>, now: int, id: Id)
    requires forall r :: r in messages ==> r.id != id
    ensures ApplyAll(store, messages, now).Keys == store.Keys
    ensures id in store ==> ApplyAll(store, messages, now)[id] == store[id]
  {
    if messages != [] {
      ApplyAllElsewhere(store, messages[..|messages| - 1], now, id);
      assert messages[|messages| - 1] in messages;
    }
  }

  // ----- with a crash, a late waiting notice does undo a terminal record -----

  const JOB: Id := "a"
  const OUTCOME := ResultMessage(JOB, SaysCompleted, Some("energy"), None)
  const GATE := Config(12, Policy(600, 0.1))
  const PROBE := Observation("aer-simulator", 0, 0.0, 1024)
  const DEGRADED := Observation("aer-simulator", 0, 0.5, 1024)

  lemma Then(c: Config, origin: State, run: seq<Action>, s: State, a: Action) returns (longer: seq<Action>, t: State)
    requires Reaches(c, origin, run, s) && Next(c, s, a).Some?
    ensures longer == run + [a] && t == Next(c, s, a).value && Reaches(c, origin, longer, t)
  {
    RunStep(c, origin, run, a);
    longer, t := run + [a], Next(c, s, a).value;
  }

  lemma StartsJob() returns (run: seq<Action>, s: State)
    ensures Reaches(GATE, Init(1, 0), run, s)
    ensures s.store == map[JOB := Record(VQE, Queued, 0, None, None, None)]
    ensures s.workers == [Busy(FreshTask(JOB, VQE), Executing)]
    ensures s.tasks == [] && s.results == [] && s.snapshot == Some(PROBE) && s.clock == 0
    ensures s.history.crashed == multiset{}
  {
    hide Run, Reaches;
    run, s := [], Init(1, 0);
    RunNothing(GATE, s);
    run, s := Then(GATE, Init(1, 0), run, s, Observe(PROBE));
    run, s := Then(GATE, Init(1, 0), run, s, Save(JOB, VQE));
    run, s := Then(GATE, Init(1, 0), run, s, Enqueue(JOB));
    run, s := Then(GATE, Init(1, 0), run, s, Take(0, 0));
    run, s := Then(GATE, Init(1, 0), run, s, Dispatch(0));
  }

  lemma AnswersJob() returns (run: seq<Action>, s: State)
    ensures Reaches(GATE, Init(1, 0), run, s)
    ensures s.store == map[JOB := Record(VQE, Queued, 0, None, None, None)]
    ensures s.workers == [Busy(FreshTask(JOB, VQE), Acking)]
    ensures s.tasks == [] && s.results == [OUTCOME] && s.snapshot == Some(PROBE) && s.clock == 0
    ensures s.history.crashed == multiset{}
  {
    hide Run, Reaches, Route;
    run, s := StartsJob();
    run, s := Then(GATE, Init(1, 0), run, s, Finish(0, OUTCOME));
    run, s := Then(GATE, Init(1, 0), run, s, Answer(0));
  }

  /** The worker dies between publishing `completed` and the ack. */
  lemma CompletesThenCrashes() returns (run: seq<Action>, s: State)
    ensures Reaches(GATE, Init(1, 0), run, s)
    ensures JOB in s.store && s.store[JOB].status == Completed && s.store[JOB].result == OUTCOME.result
    ensures s.workers == [Idle] && s.tasks == [Struck(FreshTask(JOB, VQE))]
    ensures s.results == [] && s.snapshot == Some(PROBE) && s.clock == 0
    ensures s.history.crashed[JOB] == 1
  {
    hide Run, Reaches, Route;
    run, s := AnswersJob();
    run, s := Then(GATE, Init(1, 0), run, s, Crash(0));
    run, s := Then(GATE, Init(1, 0), run, s, Consume);
  }

  /** The redelivered copy is retried at time `wake`. */
  lemma RetriesJob(s: State, wake: int) returns (more: seq<Action>, t: State)
    requires JOB in s.store && s.workers == [Idle] && s.tasks == [Struck(FreshTask(JOB, VQE))] && s.clock == 0
    requires wake >= 2
    ensures Reaches(GATE, s, more, t)
    ensures t.store == s.store && t.results == s.results && t.snapshot == s.snapshot && t.clock == wake
    ensures t.workers == [Idle] && t.tasks == [RetryCopy(Struck(FreshTask(JOB, VQE)), wake)]
    ensures t.history.crashed == s.history.crashed
  {
    hide Run, Reaches, ApplyResult;
    more, t := [], s;
    RunNothing(GATE, s);
    more, t := Then(GATE, s, more, t, Take(0, 0));
    more, t := Then(GATE, s, more, t, Dispatch(0));
    more, t := Then(GATE, s, more, t, Tick(wake));
    more, t := Then(GATE, s, more, t, Republish(0));
    more, t := Then(GATE, s, more, t, Ack(0));
  }

  /** The retry copy is delivered while the observation is stale. */
  lemma AnnouncesWait(s: State) returns (more: seq<Action>, t: State)
    requires JOB in s.store && s.workers == [Idle] && s.tasks == [RetryCopy(Struck(FreshTask(JOB, VQE)), 601)]
    requires s.clock == 601 && s.results == [] && s.snapshot == Some(PROBE)
    ensures Reaches(GATE, s, more, t)
    ensures JOB in t.store && t.store[JOB].status == WaitingForCalibration
    ensures t.history.crashed == s.history.crashed
  {
    hide Run, Reaches;
    more, t := [], s;
    RunNothing(GATE, s);
    more, t := Then(GATE, s, more, t, Take(0, 0));
    more, t := Then(GATE, s, more, t, Dispatch(0));
    more, t := Then(GATE, s, more, t, Announce(0));
    more, t := Then(GATE, s, more, t, Consume);
  }

  /** The retry copy is delivered after the backend has become worse than the reject rate. */
  lemma AnswersRejection(s: State) returns (more: seq<Action>, t: State)
    requires JOB in s.store && s.workers == [Idle] && s.tasks == [RetryCopy(Struck(FreshTask(JOB, VQE)), 2)]
    requires s.clock == 2 && s.results == []
    ensures Reaches(GATE, s, more, t)
    ensures JOB in t.store && t.store[JOB].status == Failed && t.store[JOB].result == None
    ensures t.history.crashed == s.history.crashed
  {
    hide Run, Reaches;
    more, t := [], s;
    RunNothing(GATE, s);
    more, t := Then(GATE, s, more, t, Observe(DEGRADED));
    more, t := Then(GATE, s, more, t, Take(0, 0));
    more, t := Then(GATE, s, more, t, Dispatch(0));
    more, t := Then(GATE, s, more, t, Answer(0));
    more, t := Then(GATE, s, more, t, Consume);
  }

  lemma ReachesConcat(c: Config, s: State, first: seq<Action>, mid: State, second: seq<Action>, t: State)
    requires Reaches(c, s, first, mid) && Reaches(c, mid, second, t)
    ensures Reaches(c, s, first + second, t)
  {
    hide Next;
    RunConcat(c, s, first, mid, second);
  }

  /** By then the observation is stale, so the redelivered copy announces that it waits. */
  lemma LateNoticeUndoesCompletion() returns (run: seq<Action>, s: State, more: seq<Action>, t: State)
    ensures Reaches(GATE, Init(1, 0), run, s) && Reaches(GATE, s, more, t)
    ensures JOB in s.store && s.store[JOB].status == Completed
    ensures JOB in t.store && t.store[JOB].status == WaitingForCalibration
    ensures t.history.crashed[JOB] == 1
  {
    hide Run, Reaches, Next;
    run, s := CompletesThenCrashes();
    var first, mid := RetriesJob(s, 601);
    var second, last := AnnouncesWait(mid);
    ReachesConcat(GATE, s, first, mid, second, last);
    more, t := first + second, last;
  }

  /** By then the backend is worse than the reject rate, so the redelivered copy is answered as failed: the completed
      status and the result with it are gone. */
  lemma LateRejectionDestroysResult() returns (run: seq<Action>, s: State, more: seq<Action>, t: State)
    ensures Reaches(GATE, Init(1, 0), run, s) && Reaches(GATE, s, more, t)
    ensures JOB in s.store && s.store[JOB].status == Completed && s.store[JOB].result == OUTCOME.result
    ensures JOB in t.store && t.store[JOB].status == Failed && t.store[JOB].result == None
    ensures t.history.crashed[JOB] == 1
  {
    hide Run, Reaches, Next;
    run, s := CompletesThenCrashes();
    var first, mid := RetriesJob(s, 2);
    var second, last := AnswersRejection(mid);
    ReachesConcat(GATE, s, first, mid, second, last);
    more, t := first + second, last;
  }

  // ----- the retry cap -----

  lemma CrashesInBackoff(run: seq<Action>, s: State, n: nat) returns (more: seq<Action>, t: State)
    requires n > 0 && Reaches(GATE, Init(1, 0), run, s)
    requires s.workers == [Idle] && s.tasks == [Message(Task(JOB, VQE), 0, 0, true, Past(0, n, n - 1))]
    ensures Reaches(GATE, Init(1, 0), more, t)
    ensures t.workers == [Idle] && t.tasks == [Message(Task(JOB, VQE), 0, 0, true, Past(0, n + 1, n))]
    ensures t.history.crashed[JOB] == s.history.crashed[JOB] + 1
  {
    hide Run, Reaches, ApplyResult;
    more, t := Then(GATE, Init(1, 0), run, s, Take(0, 0));
    more, t := Then(GATE, Init(1, 0), more, t, Dispatch(0));
    more, t := Then(GATE, Init(1, 0), more, t, Crash(0));
  }

  /** The cap of three retries counts published retry copies only: a worker that dies during the
      backoff sleep, however often, leaves the header of the redelivered copy at zero; all of these crashes but the first are late. */
  lemma {:induction false} BackoffCrashesAreNotCounted(n: nat) returns (run: seq<Action>, s: State)
    ensures Reaches(GATE, Init(1, 0), run, s)
    ensures s.workers == [Idle] && s.tasks == [Message(Task(JOB, VQE), 0, 0, true, Past(0, n + 1, n))]
    ensures s.history.crashed[JOB] == n + 1
  {
    hide Run, Reaches;
    if n == 0 {
      run, s := StartsJob();
      run, s := Then(GATE, Init(1, 0), run, s, Crash(0));
    } else {
      run, s := BackoffCrashesAreNotCounted(n - 1);
      run, s := CrashesInBackoff(run, s, n);
    }
  }
}

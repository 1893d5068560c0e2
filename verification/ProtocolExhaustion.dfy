/**
 The bounds of `ProtocolAttempts` are met: one worker that parks what it can park, executes the rest and
 crashes before each ack uses every retry of every copy.
 */
module ProtocolExhaustion {
  import opened Basics
  import opened Protocol
  import opened ProtocolSteps
  import opened ProtocolSafety
  import opened ProtocolLineage
  import opened Maxima
  import opened ProtocolAttempts
  import opened ProtocolTheorems

  // ----- what the single worker does with the last message of the queue -----

  ghost predicate LastQueued(s: State, rest: seq<Message>, m: Message) {
    s.workers == [Idle] && s.tasks == rest + [m]
  }

  /** From `s` to `t` so many crashes, none of them late, and executions of `id` have happened. */
  ghost predicate Costs(s: State, t: State, id: Id, crashes: int, executions: int) {
    && t.workers == [Idle] && t.store == s.store
    && t.history.crashed[id] == s.history.crashed[id] + crashes
    && t.history.executed[id] == s.history.executed[id] + executions
    && t.history.late[id] == s.history.late[id]
  }

  lemma Takes(c: Config, s: State, rest: seq<Message>, m: Message) returns (more: seq<Action>, t: State)
    requires LastQueued(s, rest, m)
    ensures Reaches(c, s, more, t) && t == s.(tasks := rest, workers := [Busy(m, Received)])
  {
    hide Run, Reaches;
    RunNothing(c, s);
    more, t := Then(c, s, [], s, Take(0, |rest|));
    assert rest == Without(s.tasks, |rest|);
  }

  lemma Republishes(c: Config, s: State, rest: seq<Message>, m: Message) returns (more: seq<Action>, t: State)
    requires LastQueued(s, rest, m) && m.redelivered && m.retries < MAX_RETRIES
    ensures Reaches(c, s, more, t)
    ensures var delay := ComputeBackoffDelay(m.retries + 1);
            t == s.(tasks := rest + [RetryCopy(m, delay)], workers := [Busy(m, Acking)], clock := s.clock + delay)
  {
    hide Run, Reaches, ApplyResult, ComputeBackoffDelay;
    more, t := Takes(c, s, rest, m);
    more, t := Then(c, s, more, t, Dispatch(0));
    more, t := Then(c, s, more, t, Tick(s.clock + ComputeBackoffDelay(m.retries + 1)));
    more, t := Then(c, s, more, t, Republish(0));
  }

  lemma Retries(c: Config, s: State, rest: seq<Message>, m: Message) returns (more: seq<Action>, t: State)
    requires LastQueued(s, rest, m) && m.redelivered && m.retries < MAX_RETRIES
    ensures Reaches(c, s, more, t)
    ensures var delay := ComputeBackoffDelay(m.retries + 1);
            t == s.(tasks := rest + [RetryCopy(m, delay)], clock := s.clock + delay)
  {
    hide Run, Reaches, ApplyResult, Route, ComputeBackoffDelay;
    more, t := Republishes(c, s, rest, m);
    more, t := Then(c, s, more, t, Ack(0));
  }

  lemma Drops(c: Config, s: State, rest: seq<Message>, m: Message) returns (more: seq<Action>, t: State)
    requires LastQueued(s, rest, m) && m.redelivered && m.retries >= MAX_RETRIES
    ensures Reaches(c, s, more, t)
    ensures t == s.(tasks := rest, deadLetters := s.deadLetters + [DeadCopy(m)])
  {
    hide Run, Reaches, ApplyResult;
    more, t := Takes(c, s, rest, m);
    more, t := Then(c, s, more, t, Dispatch(0));
    more, t := Then(c, s, more, t, DeadLetter(0));
    more, t := Then(c, s, more, t, Ack(0));
  }

  lemma Executes(c: Config, s: State, rest: seq<Message>, m: Message) returns (more: seq<Action>, t: State)
    requires LastQueued(s, rest, m) && !m.redelivered && m.body.Task?
    ensures Reaches(c, s, more, t)
    ensures t == s.(tasks := rest, workers := [Busy(m, Executing)], snapshot := t.snapshot, history := t.history)
    ensures t.history.executed == s.history.executed + multiset{m.body.id}
    ensures t.history.crashed == s.history.crashed && t.history.late == s.history.late
    ensures t.snapshot == Some(Good(c, s.clock))
  {
    hide Run, Reaches, ApplyResult;
    more, t := Takes(c, s, rest, m);
    more, t := Then(c, s, more, t, Observe(Good(c, s.clock)));
    more, t := Then(c, s, more, t, Dispatch(0));
  }

  /** The worker dies with a fresh delivery in hand. */
  lemma Dies(c: Config, s: State, m: Message, pc: Pc) returns (more: seq<Action>, t: State)
    requires s.workers == [Busy(m, pc)] && !m.redelivered && m.body.Task?
    ensures Reaches(c, s, more, t)
    ensures t == s.(tasks := s.tasks + [Struck(m)], workers := [Idle], history := t.history)
    ensures Costs(s, t, m.body.id, 1, 0)
  {
    hide Run, Reaches, ApplyResult, Route;
    RunNothing(c, s);
    more, t := Then(c, s, [], s, Crash(0));
  }

  /** A moment at which the observation is stale. */
  function StaleAt(c: Config, s: State): int {
    if s.snapshot.None? then s.clock else Max(s.clock, s.snapshot.value.observedAt + c.policy.freshness + 1)
  }

  lemma Parks(c: Config, s: State, rest: seq<Message>, m: Message) returns (more: seq<Action>, t: State)
    requires LastQueued(s, rest, m) && !m.redelivered && m.body.Task? && m.body.algorithm == VQE && m.waits < c.maxWaits
    ensures Reaches(c, s, more, t)
    ensures t == s.(tasks := rest, workers := [Busy(m, Acking)], waiting := s.waiting + [WaitCopy(m)],
                    results := s.results + [WaitingNotice(m.body.id)], clock := StaleAt(c, s))
  {
    hide Run, Reaches, ApplyResult;
    more, t := Takes(c, s, rest, m);
    more, t := Then(c, s, more, t, Tick(StaleAt(c, s)));
    more, t := Then(c, s, more, t, Dispatch(0));
    more, t := Then(c, s, more, t, Announce(0));
    more, t := Then(c, s, more, t, Reschedule(0));
  }

  lemma Releases(c: Config, s: State, m: Message) returns (more: seq<Action>, t: State)
    requires s.waiting != [] && s.waiting[|s.waiting| - 1] == m
    ensures Reaches(c, s, more, t)
    ensures t == s.(tasks := s.tasks + [m], waiting := s.waiting[..|s.waiting| - 1])
  {
    hide Run, Reaches, ApplyResult;
    RunNothing(c, s);
    more, t := Then(c, s, [], s, Expire(|s.waiting| - 1));
    assert Without(s.waiting, |s.waiting| - 1) == s.waiting[..|s.waiting| - 1];
  }

  // ----- using up every copy -----

  /** A fresh delivery is parked if it can be, otherwise executed, and the worker dies before the ack. */
  lemma UsesDelivery(c: Config, s: State, rest: seq<Message>, m: Message) returns (more: seq<Action>, t: State)
    requires LastQueued(s, rest, m) && !m.redelivered && m.body.Task?
    ensures Reaches(c, s, more, t) && LastQueued(t, rest, Struck(m))
    ensures Costs(s, t, m.body.id, 1, One(WaitsLeft(c, m) == 0))
    ensures t.waiting == s.waiting + if WaitsLeft(c, m) > 0 then [WaitCopy(m)] else []
  {
    hide Run, Reaches, Next;
    var first, mid;
    if WaitsLeft(c, m) > 0 {
      first, mid := Parks(c, s, rest, m);
      more, t := Dies(c, mid, m, Acking);
    } else {
      first, mid := Executes(c, s, rest, m);
      more, t := Dies(c, mid, m, Executing);
    }
    ReachesConcat(c, s, first, mid, more, t);
    more := first + more;
  }

  /** A fresh copy, and all the copies made from it, one after the other. */
  lemma {:induction false} Exhausts(c: Config, s: State, rest: seq<Message>, m: Message)
    returns (more: seq<Action>, t: State)
    requires LastQueued(s, rest, m) && !m.redelivered && m.body.Task?
    ensures Reaches(c, s, more, t) && t.tasks == rest && t.waiting == s.waiting
    ensures Costs(s, t, m.body.id, FreshCrashes(c, m), FreshAttempts(c, m))
    decreases RetriesLeft(m) + WaitsLeft(c, m), 1
  {
    hide Run, Reaches, Next, FreshCrashes, FreshAttempts, RetriedCrashes, RetriedAttempts;
    FreshWorth(c, m);
    var first, mid := UsesDelivery(c, s, rest, m);
    var second, retried := ExhaustsRetry(c, mid, rest, m);
    ReachesConcat(c, s, first, mid, second, retried);
    more, t := first + second, retried;
    if WaitsLeft(c, m) > 0 {
      var third, released := Releases(c, retried, WaitCopy(m));
      var fourth, last := Exhausts(c, released, rest, WaitCopy(m));
      ReachesConcat(c, retried, third, released, fourth, last);
      ReachesConcat(c, s, more, t, third + fourth, last);
      more, t := more + (third + fourth), last;
      assert t.waiting == s.waiting;
    }
  }

  lemma {:induction false} ExhaustsRetry(c: Config, s: State, rest: seq<Message>, m: Message)
    returns (more: seq<Action>, t: State)
    requires LastQueued(s, rest, Struck(m)) && !m.redelivered && m.body.Task?
    ensures Reaches(c, s, more, t) && t.tasks == rest && t.waiting == s.waiting
    ensures Costs(s, t, m.body.id, RetriedCrashes(c, m), RetriedAttempts(c, m))
    decreases RetriesLeft(m) + WaitsLeft(c, m), 0
  {
    hide Run, Reaches, Next, FreshCrashes, FreshAttempts, ComputeBackoffDelay, Crashes, Attempts;
    if m.retries < MAX_RETRIES {
      var copy := RetryCopy(Struck(m), ComputeBackoffDelay(m.retries + 1));
      var first, mid := Retries(c, s, rest, Struck(m));
      var second, last := Exhausts(c, mid, rest, copy);
      SameWorth(c, m, copy);
      ReachesConcat(c, s, first, mid, second, last);
      more, t := first + second, last;
    } else {
      more, t := Drops(c, s, rest, Struck(m));
    }
  }

  lemma SameWorth(c: Config, m: Message, copy: Message)
    requires m.retries < MAX_RETRIES && copy.retries == m.retries + 1 && copy.waits == m.waits && copy.body == m.body
    ensures FreshCrashes(c, copy) == RetriedCrashes(c, m) && FreshAttempts(c, copy) == RetriedAttempts(c, m)
  {
  }

  /** Both bounds of `AttemptsAreBounded` are reached, by one worker, for every policy and algorithm. */
  lemma BoundsAreReached(c: Config, now: int, algorithm: string) returns (run: seq<Action>, s: State)
    ensures Reaches(c, Init(1, now), run, s)
    ensures JOB in s.store && s.store[JOB].algorithm == algorithm && s.history.late[JOB] == 0
    ensures s.history.crashed[JOB] == Crashes(MAX_RETRIES, Waits(c, algorithm))
    ensures s.history.executed[JOB] == Attempts(MAX_RETRIES, Waits(c, algorithm))
  {
    hide Run, Reaches, Crashes, Attempts, FreshCrashes, FreshAttempts;
    var first, mid := Submits(c, now, algorithm);
    StartWorth(c, FreshTask(JOB, algorithm));
    var second, last := Exhausts(c, mid, [], FreshTask(JOB, algorithm));
    ReachesConcat(c, Init(1, now), first, mid, second, last);
    run, s := first + second, last;
  }

  lemma Submits(c: Config, now: int, algorithm: string) returns (run: seq<Action>, s: State)
    ensures Reaches(c, Init(1, now), run, s)
    ensures LastQueued(s, [], FreshTask(JOB, algorithm)) && s.waiting == [] && s.deadLetters == [] && s.results == []
    ensures s.clock == now && s.snapshot == None
    ensures s.store == map[JOB := Record(algorithm, Queued, now, None, None, None)]
    ensures s.history.crashed == multiset{} && s.history.late == multiset{} && s.history.executed == multiset{}
  {
    hide Run, Reaches, ApplyResult;
    RunNothing(c, Init(1, now));
    run, s := Then(c, Init(1, now), [], Init(1, now), Save(JOB, algorithm));
    run, s := Then(c, Init(1, now), run, s, Enqueue(JOB));
    assert s.tasks == [] + [FreshTask(JOB, algorithm)];
  }

  // ----- when the documented cap holds -----

  /** No run in which every crash hits a fresh delivery crashes more than four times, or executes more than four
      times, an experiment with this algorithm. */
  ghost predicate Capped(c: Config, algorithm: string) {
    forall workers, now, run, s, id :: Reaches(c, Init(workers, now), run, s) && Spared(s, id, algorithm) ==>
                                         s.history.crashed[id] <= 4 && s.history.executed[id] <= 4
  }

  ghost predicate Spared(s: State, id: Id, algorithm: string) {
    id in s.store && s.store[id].algorithm == algorithm && s.history.late[id] == 0
  }

  /** The cap on the retry header is a cap on the experiment exactly when its copies can never be parked. */
  lemma CappedIff(c: Config, algorithm: string)
    ensures Capped(c, algorithm) <==> algorithm != VQE || c.maxWaits == 0
  {
    hide Reaches;
    CrashesClosed(Waits(c, algorithm));
    AttemptsClosed(Waits(c, algorithm));
    if Waits(c, algorithm) == 0 {
      forall workers, now, run, s, id | Reaches(c, Init(workers, now), run, s) && Spared(s, id, algorithm)
        ensures s.history.crashed[id] <= 4 && s.history.executed[id] <= 4
      {
        AttemptsAreBounded(c, workers, now, run, s, id);
      }
    } else {
      var run, s := BoundsAreReached(c, 0, algorithm);
      TooMany(Waits(c, algorithm));
      assert Spared(s, JOB, algorithm);
    }
  }

  lemma TooMany(waits: nat)
    requires waits > 0
    ensures Crashes(MAX_RETRIES, waits) > 4
  {
    assert Crashes(3, waits) > Crashes(3, waits - 1) && Crashes(2, waits) > Crashes(1, waits) > Crashes(0, waits);
  }
}

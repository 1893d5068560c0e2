/** Two ways past the retry cap: a crash between parking a copy and the ack, and late crashes. */
module ProtocolForks {
  import opened Basics
  import opened Protocol
  import opened ProtocolSafety
  import opened ProtocolAttempts
  import opened ProtocolTheorems
  import opened ProtocolExhaustion

  // ----- the smallest way past the cap -----

  lemma Answers(c: Config, s: State, m: Message) returns (more: seq<Action>, t: State)
    requires s.workers == [Busy(m, Executing)] && m.body.Task?
    ensures Reaches(c, s, more, t)
    ensures t == s.(workers := [Idle], results := t.results, history := t.history)
    ensures Costs(s, t, m.body.id, 0, 0)
  {
    hide Run, Reaches, ApplyResult, Route;
    RunNothing(c, s);
    more, t := Then(c, s, [], s, Finish(0, FailureNotice(m.body.id, "")));
    more, t := Then(c, s, more, t, Answer(0));
    more, t := Then(c, s, more, t, Ack(0));
  }

  /** Every attempt but the last dies during its execution; the last one is answered. */
  lemma {:induction false} Survives(c: Config, s: State, rest: seq<Message>, m: Message)
    returns (more: seq<Action>, t: State)
    requires LastQueued(s, rest, m) && !m.redelivered && m.body.Task?
    ensures Reaches(c, s, more, t) && t.tasks == rest && t.waiting == s.waiting && t.deadLetters == s.deadLetters
    ensures Costs(s, t, m.body.id, RetriesLeft(m), RetriesLeft(m) + 1)
    decreases RetriesLeft(m)
  {
    hide Run, Reaches, Next, ComputeBackoffDelay;
    var first, mid := Executes(c, s, rest, m);
    if m.retries >= MAX_RETRIES {
      var second, last := Answers(c, mid, m);
      ReachesConcat(c, s, first, mid, second, last);
      more, t := first + second, last;
    } else {
      var second, struck := Dies(c, mid, m, Executing);
      var third, retried := Retries(c, struck, rest, Struck(m));
      var fourth, last := Survives(c, retried, rest, RetryCopy(Struck(m), ComputeBackoffDelay(m.retries + 1)));
      ReachesConcat(c, s, first, mid, second, struck);
      ReachesConcat(c, struck, third, retried, fourth, last);
      ReachesConcat(c, s, first + second, struck, third + fourth, last);
      more, t := (first + second) + (third + fourth), last;
    }
  }

  /** A crash between the publish to the wait queue and the ack leaves two copies with three retries each: seven
      executions and six crashes, all of fresh deliveries, and not even a dead letter. */
  lemma ParkedCopyForks() returns (run: seq<Action>, s: State)
    ensures Reaches(GATE, Init(1, 0), run, s)
    ensures s.history.executed[JOB] == 7 && s.history.crashed[JOB] == 6 && s.history.late[JOB] == 0
    ensures s.tasks == [] && s.waiting == [] && s.deadLetters == [] && s.workers == [Idle]
  {
    hide Run, Reaches, Next, ComputeBackoffDelay;
    var m := FreshTask(JOB, VQE);
    var first, submitted := Submits(GATE, 0, VQE);
    var second, parked := Parks(GATE, submitted, [], m);
    var third, forked := Dies(GATE, parked, m, Acking);
    var fourth, retried := Retries(GATE, forked, [], Struck(m));
    var fifth, survived := Survives(GATE, retried, [], RetryCopy(Struck(m), ComputeBackoffDelay(1)));
    var sixth, released := Releases(GATE, survived, WaitCopy(m));
    var seventh, last := Survives(GATE, released, [], WaitCopy(m));
    ReachesConcat(GATE, Init(1, 0), first, submitted, second, parked);
    ReachesConcat(GATE, Init(1, 0), first + second, parked, third, forked);
    ReachesConcat(GATE, forked, fourth, retried, fifth, survived);
    ReachesConcat(GATE, survived, sixth, released, seventh, last);
    ReachesConcat(GATE, forked, fourth + fifth, survived, sixth + seventh, last);
    run, s := (first + second + third) + (fourth + fifth + (sixth + seventh)), last;
    ReachesConcat(GATE, Init(1, 0), first + second + third, forked, (fourth + fifth) + (sixth + seventh), last);
  }

  // ----- late crashes: no cap at all -----

  /** The worker dies after publishing the retry copy of a redelivered message and before the ack. */
  lemma Doubles(c: Config, s: State, rest: seq<Message>, m: Message) returns (more: seq<Action>, t: State)
    requires LastQueued(s, rest, m) && m.redelivered && m.retries == 0 && m.body.Task?
    ensures Reaches(c, s, more, t)
    ensures LastQueued(t, rest + [RetryCopy(m, ComputeBackoffDelay(1))], Struck(m)) && t.store == s.store
    ensures t.history.crashed[m.body.id] == s.history.crashed[m.body.id] + 1
    ensures t.history.late[m.body.id] == s.history.late[m.body.id] + 1
    ensures t.history.executed == s.history.executed
  {
    hide Run, Reaches, ApplyResult, Route, ComputeBackoffDelay;
    more, t := Republishes(c, s, rest, m);
    more, t := Then(c, s, more, t, Crash(0));
  }

  ghost predicate AllFresh(tasks: seq<Message>, id: Id) {
    forall m :: m in tasks ==> IsFor(m, id) && !m.redelivered
  }

  lemma {:induction false} Multiplies(c: Config, s: State, rest: seq<Message>, m: Message, n: nat)
    returns (more: seq<Action>, t: State, copies: seq<Message>, last: Message)
    requires LastQueued(s, rest, m) && m.redelivered && m.retries == 0 && m.body.Task? && AllFresh(rest, m.body.id)
    ensures Reaches(c, s, more, t) && LastQueued(t, copies, last) && t.store == s.store
    ensures last.redelivered && last.retries == 0 && last.body == m.body
    ensures AllFresh(copies, m.body.id) && |copies| == |rest| + n
    ensures t.history.crashed[m.body.id] == s.history.crashed[m.body.id] + n
    ensures t.history.late[m.body.id] == s.history.late[m.body.id] + n
    ensures t.history.executed == s.history.executed
    decreases n
  {
    hide Run, Reaches, Next, ComputeBackoffDelay;
    if n == 0 {
      RunNothing(c, s);
      more, t, copies, last := [], s, rest, m;
    } else {
      var first, mid := Doubles(c, s, rest, m);
      more, t, copies, last := Multiplies(c, mid, rest + [RetryCopy(m, ComputeBackoffDelay(1))], Struck(m), n - 1);
      ReachesConcat(c, s, first, mid, more, t);
      more := first + more;
    }
  }

  lemma {:induction false} AnswersAll(c: Config, s: State, id: Id) returns (more: seq<Action>, t: State)
    requires s.workers == [Idle] && AllFresh(s.tasks, id)
    ensures Reaches(c, s, more, t) && Costs(s, t, id, 0, |s.tasks|)
    decreases |s.tasks|
  {
    hide Run, Reaches, Next;
    if s.tasks == [] {
      RunNothing(c, s);
      more, t := [], s;
    } else {
      var rest, m := s.tasks[..|s.tasks| - 1], s.tasks[|s.tasks| - 1];
      assert s.tasks == rest + [m] && m in s.tasks;
      var first, mid := Executes(c, s, rest, m);
      var second, answered := Answers(c, mid, m);
      var third, last := AnswersAll(c, answered, id);
      ReachesConcat(c, s, first, mid, second, answered);
      ReachesConcat(c, s, first + second, answered, third, last);
      more, t := (first + second) + third, last;
    }
  }

  lemma Redelivers(c: Config, s: State, m: Message) returns (more: seq<Action>, t: State)
    requires LastQueued(s, [], m) && !m.redelivered && m.body.Task?
    ensures Reaches(c, s, more, t) && LastQueued(t, [], Struck(m)) && Costs(s, t, m.body.id, 1, 0)
  {
    hide Run, Reaches, Next;
    var first, taken := Takes(c, s, [], m);
    more, t := Dies(c, taken, m, Received);
    ReachesConcat(c, s, first, taken, more, t);
    more := first + more;
  }

  /** With late crashes there is no cap, for any configuration and algorithm: n of them buy n more executions. */
  lemma NoCapWithLateCrashes(c: Config, now: int, algorithm: string, n: nat) returns (run: seq<Action>, s: State)
    ensures Reaches(c, Init(1, now), run, s)
    ensures JOB in s.store && s.store[JOB].algorithm == algorithm
    ensures s.history.crashed[JOB] == n + 1 && s.history.late[JOB] == n && s.history.executed[JOB] == n + 1
  {
    hide Run, Reaches, Next, ComputeBackoffDelay;
    var first, submitted := Submits(c, now, algorithm);
    var second, struck := Redelivers(c, submitted, FreshTask(JOB, algorithm));
    var third, many, copies, m := Multiplies(c, struck, [], Struck(FreshTask(JOB, algorithm)), n);
    var fourth, retried := Retries(c, many, copies, m);
    var fifth, last := AnswersAll(c, retried, JOB);
    ReachesConcat(c, Init(1, now), first, submitted, second, struck);
    ReachesConcat(c, Init(1, now), first + second, struck, third, many);
    ReachesConcat(c, many, fourth, retried, fifth, last);
    ReachesConcat(c, Init(1, now), (first + second) + third, many, fourth + fifth, last);
    run, s := ((first + second) + third) + (fourth + fifth), last;
  }
}

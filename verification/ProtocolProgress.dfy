/**
 Liveness of the experiment task protocol, as bounds: every run makes boundedly many steps
 per submission and per crash, and a run that can make no further step has settled
 everything that crashes did not push into the dead-letter queue.
 */
module ProtocolProgress {
  import opened Basics
  import opened Protocol
  import opened ProtocolSteps
  import opened ProtocolWeights
  import opened ProtocolSafety
  import opened ProtocolRuns
  import opened ProtocolLineage
  import opened ProtocolDispatch

  /** Steps of the workers, of the TTL and of the results consumer. */
  predicate Progress(a: Action) {
    match a
    case Consume => true
    case Take(_, _) => true
    case Dispatch(_) => true
    case Republish(_) => true
    case DeadLetter(_) => true
    case Announce(_) => true
    case Reschedule(_) => true
    case Finish(_, _) => true
    case Answer(_) => true
    case Ack(_) => true
    case Expire(_) => true
    case _ => false
  }

  predicate Arrival(a: Action) {
    a.Enqueue? || a.Foreign?
  }

  // ----- the measure -----

  /** Steps that a fresh copy can still cause: seven for every wait it has left, and six to finish. */
  function FreshCost(c: Config, m: Message): nat {
    6 + 7 * (if m.waits < c.maxWaits then c.maxWaits - m.waits else 0)
  }

  function TaskCost(c: Config, m: Message): nat {
    FreshCost(c, m) + if m.redelivered then 4 else 0
  }

  function HandCost(c: Config, w: Worker): nat {
    if w.Idle? then 0
    else
      match w.pc
      case Received => TaskCost(c, w.message) - 1
      case BackingOff(_) => FreshCost(c, w.message) + 2
      case DeadLettering => 2
      case Announcing => FreshCost(c, WaitCopy(w.message)) + 5
      case Rescheduling => FreshCost(c, WaitCopy(w.message)) + 3
      case Executing => 4
      case Answering(_) => 3
      case Acking => 1
  }

  function Costs(c: Config): Weights {
    Weights(m => TaskCost(c, m), m => FreshCost(c, m) + 1, m => 0, w => HandCost(c, w))
  }

  ghost function Measure(c: Config, s: State): int {
    Total(s, Costs(c)) + |s.results|
  }

  /** Every copy waiting to re-enter the task queue is fresh for the broker. */
  ghost predicate WaitingFresh(s: State) {
    forall m :: m in s.waiting ==> !m.redelivered
  }

  lemma WaitingFreshStep(c: Config, s: State, a: Action)
    requires WaitingFresh(s) && Next(c, s, a).Some?
    ensures WaitingFresh(Next(c, s, a).value)
  {
  }

  lemma DispatchPays(c: Config, s: State, i: nat)
    requires Consistent(c, s) && Next(c, s, Dispatch(i)).Some?
    ensures Delta(c, s, Dispatch(i), Costs(c)) < 0 && Next(c, s, Dispatch(i)).value.results == s.results
  {
    hide QueueOk, Gated, Stamped, Recorded, ApplyResult, Total;
    assert s.workers[i] in s.workers;
  }

  /** The steps that leave a copy for later: it costs less than the hand did. */
  lemma CopyPays(c: Config, s: State, a: Action)
    requires Consistent(c, s) && Next(c, s, a).Some? && (a.Republish? || a.Announce? || a.Reschedule?)
    ensures Delta(c, s, a, Costs(c)) + |Next(c, s, a).value.results| < |s.results|
  {
    hide QueueOk, Gated, Stamped, Recorded, ApplyResult, Total, Route;
    assert s.workers[a.i] in s.workers;
  }

  /** The steps of a worker after the dispatch. */
  lemma HandPays(c: Config, s: State, a: Action)
    requires Consistent(c, s) && Next(c, s, a).Some?
    requires a.Republish? || a.DeadLetter? || a.Announce? || a.Reschedule? || a.Finish? || a.Answer? || a.Ack?
    ensures Delta(c, s, a, Costs(c)) + |Next(c, s, a).value.results| < |s.results|
  {
    hide QueueOk, Gated, Stamped, Recorded, ApplyResult, Total, Route, Consistent;
    match a
    case Republish(i) => CopyPays(c, s, a);
    case Announce(i) => CopyPays(c, s, a);
    case Reschedule(i) => CopyPays(c, s, a);
    case _ =>
  }

  lemma ProgressDelta(c: Config, s: State, a: Action)
    requires Consistent(c, s) && WaitingFresh(s) && Next(c, s, a).Some? && Progress(a)
    ensures Delta(c, s, a, Costs(c)) + |Next(c, s, a).value.results| < |s.results|
  {
    hide QueueOk, Gated, Stamped, Recorded, ApplyResult, Total;
    match a
    case Dispatch(i) => DispatchPays(c, s, i);
    case Consume =>
    case Take(_, _) =>
    case Expire(k) => assert s.waiting[k] in s.waiting;
    case _ => HandPays(c, s, a);
  }

  lemma OtherDelta(c: Config, s: State, a: Action)
    requires Next(c, s, a).Some? && !Progress(a)
    ensures Next(c, s, a).value.results == s.results
    ensures Delta(c, s, a, Costs(c)) <= Allowance(c)(a)
  {
    hide Route;
  }

  /** Every step of the system pays; arrivals and crashes add at most their allowance; the rest is free. */
  lemma MeasureStep(c: Config, s: State, a: Action)
    requires Consistent(c, s) && WaitingFresh(s) && Next(c, s, a).Some?
    ensures Measure(c, Next(c, s, a).value) + One(Progress(a)) <= Measure(c, s) + Allowance(c)(a)
  {
    TotalStep(c, s, a, Costs(c));
    if Progress(a) {
      ProgressDelta(c, s, a);
    } else {
      OtherDelta(c, s, a);
    }
  }

  lemma MeasureNonNegative(c: Config, s: State)
    ensures Measure(c, s) >= 0
  {
    TotalNonNegative(s, Costs(c));
  }

  lemma {:induction false} AlwaysWaitingFresh(c: Config, workers: nat, now: int, run: seq<Action>, s: State)
    requires Reaches(c, Init(workers, now), run, s)
    ensures WaitingFresh(s)
  {
    if run != [] {
      var n := |run| - 1;
      var before := Run(c, Init(workers, now), run[..n]).value;
      AlwaysWaitingFresh(c, workers, now, run[..n], before);
      WaitingFreshStep(c, before, run[n]);
    }
  }

  // ----- bounded runs -----

  function Steps(): Action -> int { (a: Action) => One(Progress(a)) }

  /** The steps each arrival and each crash can cause. */
  function Allowance(c: Config): Action -> int {
    (a: Action) => if Arrival(a) then 6 + 7 * c.maxWaits else if a.Crash? then 9 + 7 * c.maxWaits else 0
  }

  /** Any run: at most 6 + 7 * maxWaits steps per arrival and 9 + 7 * maxWaits per crash. */
  lemma {:induction false} RunsAreBounded(c: Config, workers: nat, now: int, run: seq<Action>, s: State)
    requires Reaches(c, Init(workers, now), run, s)
    ensures Sum(run, Steps()) + Measure(c, s) <= Sum(run, Allowance(c))
    ensures Measure(c, s) >= 0
  {
    MeasureNonNegative(c, s);
    if run == [] {
      IdleTotal(workers, Costs(c), now);
    } else {
      var n := |run| - 1;
      var before := Run(c, Init(workers, now), run[..n]).value;
      RunsAreBounded(c, workers, now, run[..n], before);
      AlwaysSafe(c, workers, now, run[..n], before);
      AlwaysWaitingFresh(c, workers, now, run[..n], before);
      MeasureStep(c, before, run[n]);
    }
  }

  // ----- what a run that cannot go on has achieved -----

  /** No step is left, however long one waits. */
  ghost predicate Stuck(c: Config, s: State) {
    forall a, now :: Progress(a) && now >= s.clock ==> Next(c, s.(clock := now), a).None?
  }

  /** A moment at which the worker's next step is possible: a backoff has to be slept first. */
  function Ready(s: State, w: Worker): int {
    if w.Busy? && w.pc.BackingOff? && w.pc.since + ComputeBackoffDelay(w.message.retries + 1) > s.clock
    then w.pc.since + ComputeBackoffDelay(w.message.retries + 1)
    else s.clock
  }

  /** The step the worker at `pc` takes next. */
  function NextStep(i: nat, w: Worker): Action
    requires w.Busy?
  {
    match w.pc
    case Received => Dispatch(i)
    case BackingOff(_) => Republish(i)
    case DeadLettering => DeadLetter(i)
    case Announcing => Announce(i)
    case Rescheduling => Reschedule(i)
    case Executing =>
      Finish(i, FailureNotice(if w.message.body.Task? then w.message.body.id else "", "backend error"))
    case Answering(_) => Answer(i)
    case Acking => Ack(i)
  }

  lemma NextStepEnabled(c: Config, s: State, i: nat)
    requires Consistent(c, s) && Holds(s, i)
    ensures Progress(NextStep(i, s.workers[i])) && Ready(s, s.workers[i]) >= s.clock
    ensures Next(c, s.(clock := Ready(s, s.workers[i])), NextStep(i, s.workers[i])).Some?
  {
    assert s.workers[i] in s.workers;
  }

  /** No deadlock: with at least one worker, only a drained system is stuck. */
  lemma StuckIsDrained(c: Config, s: State)
    requires Consistent(c, s) && Stuck(c, s) && s.workers != []
    ensures s.tasks == [] && s.waiting == [] && s.results == []
    ensures forall w :: w in s.workers ==> w.Idle?
  {
    forall i | 0 <= i < |s.workers| ensures s.workers[i].Idle? {
      if s.workers[i].Busy? {
        NextStepEnabled(c, s, i);
        assert false;
      }
    }
    assert Progress(Take(0, 0)) && Progress(Expire(0)) && Progress(Consume);
    assert s.(clock := s.clock) == s;
    assert Next(c, s, Take(0, 0)).None? && Next(c, s, Expire(0)).None? && Next(c, s, Consume).None?;
  }

  /** When a run can go no further, every published experiment hit by fewer than four counted crashes, that is
      crashes of fresh deliveries, is completed or failed in the store; any other is, or has a dead letter. */
  lemma QuiescenceSettles(c: Config, workers: nat, now: int, run: seq<Action>, s: State, id: Id)
    requires Reaches(c, Init(workers, now), run, s)
    requires s.workers != [] && Stuck(c, s) && id in s.history.published
    ensures id in s.store
    ensures s.store[id].Terminal() || exists m :: m in s.deadLetters && IsFor(m, id)
    ensures s.history.crashed[id] < 4 + s.history.late[id] ==> s.store[id].Terminal()
    ensures !Known(s.store[id].algorithm) && s.store[id].Terminal() ==> s.store[id].status == Failed
  {
    AlwaysSafe(c, workers, now, run, s);
    AlwaysLineage(c, workers, now, run, s);
    AlwaysDispatched(c, workers, now, run, s);
    StuckIsDrained(c, s);
    if forall m :: m in s.deadLetters ==> !IsFor(m, id) {
      var w := Owing(id);
      SumZero(s.deadLetters, w.dead);
      SumZero(s.workers, w.hand);
    }
  }
}

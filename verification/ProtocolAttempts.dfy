/**
 How often one experiment can be tried.  The retry header is carried by each copy, and a crash between
 parking a copy and acking its original leaves two copies, each with the retries of the original.  As long
 as no crash hits a delivery already marked as redelivered, the crashes and the executions of an
 experiment have exact maxima, which depend on the retries and the waits it has.
 */
module ProtocolAttempts {
  import opened Basics
  import opened Protocol
  import opened Maxima
  import opened ProtocolSteps
  import opened ProtocolWeights
  import opened ProtocolSafety
  import opened ProtocolRuns
  import opened ProtocolLineage
  import opened ProtocolDispatch

  // ----- what a fresh copy is good for -----

  function RetriesLeft(m: Message): nat {
    if m.retries < MAX_RETRIES then MAX_RETRIES - m.retries else 0
  }

  /** The waits of an experiment: only vqe copies are ever parked. */
  function Waits(c: Config, algorithm: string): nat {
    if algorithm == VQE then c.maxWaits else 0
  }

  function WaitsLeft(c: Config, m: Message): nat {
    if m.body.Task? && m.waits < Waits(c, m.body.algorithm) then Waits(c, m.body.algorithm) - m.waits else 0
  }

  function FreshCrashes(c: Config, m: Message): nat {
    Crashes(RetriesLeft(m), WaitsLeft(c, m))
  }

  /** After a crash: what the retry copy is good for. */
  function RetriedCrashes(c: Config, m: Message): nat {
    if RetriesLeft(m) > 0 then Crashes(RetriesLeft(m) - 1, WaitsLeft(c, m)) else 0
  }

  function FreshAttempts(c: Config, m: Message): nat {
    Attempts(RetriesLeft(m), WaitsLeft(c, m))
  }

  function RetriedAttempts(c: Config, m: Message): nat {
    if RetriesLeft(m) > 0 then Attempts(RetriesLeft(m) - 1, WaitsLeft(c, m)) else 0
  }

  // ----- the crashes of an experiment -----

  function TaskCrashes(c: Config, id: Id, m: Message): nat {
    if !IsFor(m, id) then 0 else if m.redelivered then RetriedCrashes(c, m) else FreshCrashes(c, m)
  }

  /** A hand whose copy has done its work can only be crashed once more, before the ack. */
  function HandCrashes(c: Config, id: Id, w: Worker): nat {
    if !HandFor(w, id) then 0
    else if w.pc != Acking then TaskCrashes(c, id, w.message)
    else if w.message.redelivered then 0 else 1 + RetriedCrashes(c, w.message)
  }

  function CrashWeights(c: Config, id: Id): Weights {
    Weights(m => TaskCrashes(c, id, m), m => TaskCrashes(c, id, m), m => 0, w => HandCrashes(c, id, w))
  }

  function TaskAttempts(c: Config, id: Id, m: Message): nat {
    if !IsFor(m, id) then 0 else if m.redelivered then RetriedAttempts(c, m) else FreshAttempts(c, m)
  }

  function HandAttempts(c: Config, id: Id, w: Worker): nat {
    if !HandFor(w, id) then 0
    else
      match w.pc
      case Executing => RetriedAttempts(c, w.message)
      case Answering(_) => RetriedAttempts(c, w.message)
      case Acking => if w.message.redelivered then 0 else RetriedAttempts(c, w.message)
      case _ => TaskAttempts(c, id, w.message)
  }

  function AttemptWeights(c: Config, id: Id): Weights {
    Weights(m => TaskAttempts(c, id, m), m => TaskAttempts(c, id, m), m => 0, w => HandAttempts(c, id, w))
  }

  /** A crash that hits a redelivered copy of `id`. */
  predicate LateHit(s: State, a: Action, id: Id) {
    Hits(s, a, id) && s.workers[a.i].message.redelivered
  }

  lemma LateStep(c: Config, s: State, a: Action, id: Id)
    requires Next(c, s, a).Some?
    ensures Next(c, s, a).value.history.late[id] == s.history.late[id] + One(LateHit(s, a, id))
  {
    hide Route, ApplyResult;
  }

  /** What a published experiment starts with. */
  ghost function StartCrashes(c: Config, s: State, id: Id): nat {
    if id in s.history.published && id in s.store then Crashes(MAX_RETRIES, Waits(c, s.store[id].algorithm)) else 0
  }

  ghost function StartAttempts(c: Config, s: State, id: Id): nat {
    if id in s.history.published && id in s.store then Attempts(MAX_RETRIES, Waits(c, s.store[id].algorithm)) else 0
  }

  lemma FreshWorth(c: Config, m: Message)
    ensures FreshCrashes(c, m) == 1 + RetriedCrashes(c, m) + if WaitsLeft(c, m) > 0 then FreshCrashes(c, WaitCopy(m)) else 0
    ensures FreshAttempts(c, m) == RetriedAttempts(c, m) + if WaitsLeft(c, m) > 0 then FreshAttempts(c, WaitCopy(m)) else 1
    ensures FreshAttempts(c, m) >= 1 + RetriedAttempts(c, m)
    ensures forall slept :: m.retries < MAX_RETRIES ==>
              FreshCrashes(c, RetryCopy(m, slept)) == RetriedCrashes(c, m)
              && FreshAttempts(c, RetryCopy(m, slept)) == RetriedAttempts(c, m)
    ensures RetriedCrashes(c, Struck(m)) == RetriedCrashes(c, m) && RetriedAttempts(c, Struck(m)) == RetriedAttempts(c, m)
  {
    if WaitsLeft(c, m) > 0 {
      AttemptsPositive(RetriesLeft(m), WaitsLeft(c, m) - 1);
    }
  }

  // ----- one step -----

  lemma HandKnown(c: Config, s: State, i: nat)
    requires Consistent(c, s) && Lineage(s) && Holds(s, i)
    ensures var w := s.workers[i];
            && w.message.retries <= MAX_RETRIES
            && (w.pc.BackingOff? ==> w.message.retries < MAX_RETRIES && w.message.redelivered)
            && (w.pc == Announcing || w.pc == Rescheduling ==> !w.message.redelivered && WaitsLeft(c, w.message) > 0)
            && (w.pc == DeadLettering && w.message.body.Task? ==> w.message.redelivered)
  {
    assert s.workers[i] in s.workers;
  }

  /** No action but a publication and a crash of a fresh delivery changes what the copies of `id` are good for
      in crashes by more than it takes away. */
  lemma CrashesDelta(c: Config, s: State, a: Action, id: Id)
    requires Consistent(c, s) && Lineage(s) && Next(c, s, a).Some? && !LateHit(s, a, id)
    ensures Delta(c, s, a, CrashWeights(c, id)) + One(Hits(s, a, id))
         <= if a == Enqueue(id) then Crashes(MAX_RETRIES, Waits(c, s.store[id].algorithm)) else 0
  {
    hide Consistent, Lineage, Route, ApplyResult, FreshCrashes, RetriedCrashes, WaitsLeft;
    if Actor(a).Some? {
      CrashesHandDelta(c, s, a, id);
    } else if a.Enqueue? {
      StartWorth(c, FreshTask(a.id, s.store[a.id].algorithm));
    }
  }

  lemma StartWorth(c: Config, m: Message)
    requires m.body.Task? && m.retries == 0 && m.waits == 0
    ensures FreshCrashes(c, m) == Crashes(MAX_RETRIES, Waits(c, m.body.algorithm))
    ensures FreshAttempts(c, m) == Attempts(MAX_RETRIES, Waits(c, m.body.algorithm))
  {
  }

  lemma CrashesHandDelta(c: Config, s: State, a: Action, id: Id)
    requires Consistent(c, s) && Lineage(s) && Next(c, s, a).Some? && Actor(a).Some? && !LateHit(s, a, id)
    ensures Delta(c, s, a, CrashWeights(c, id)) + One(Hits(s, a, id)) <= 0
  {
    hide Consistent, Lineage, Route, ApplyResult, FreshCrashes, RetriedCrashes, WaitsLeft;
    if a.Republish? || a.Reschedule? || a.Crash? {
      hide Next, CrashWeights;
      CopyDelta(c, s, a, id);
    } else if !a.Take? {
      HandKnown(c, s, a.i);
      FreshCovers(c, s.workers[a.i].message);
    }
  }

  lemma FreshCovers(c: Config, m: Message)
    ensures FreshCrashes(c, m) >= 1 + RetriedCrashes(c, m) && FreshAttempts(c, m) >= 1 + RetriedAttempts(c, m)
  {
    FreshWorth(c, m);
  }

  /** The actions that make a copy. */
  lemma CopyDelta(c: Config, s: State, a: Action, id: Id)
    requires Consistent(c, s) && Lineage(s) && Next(c, s, a).Some? && (a.Republish? || a.Reschedule? || a.Crash?)
    requires !LateHit(s, a, id)
    ensures Delta(c, s, a, CrashWeights(c, id)) + One(Hits(s, a, id)) <= 0
    ensures Delta(c, s, a, AttemptWeights(c, id)) <= 0
  {
    hide Consistent, Lineage, Route, ApplyResult, FreshCrashes, RetriedCrashes, WaitsLeft, FreshAttempts, RetriedAttempts;
    HandKnown(c, s, a.i);
    FreshWorth(c, s.workers[a.i].message);
  }

  lemma AttemptsDelta(c: Config, s: State, a: Action, id: Id)
    requires Consistent(c, s) && Lineage(s) && Next(c, s, a).Some? && !LateHit(s, a, id)
    ensures Delta(c, s, a, AttemptWeights(c, id)) + One(StartsExecution(c, s, a, id))
         <= if a == Enqueue(id) then Attempts(MAX_RETRIES, Waits(c, s.store[id].algorithm)) else 0
  {
    hide Consistent, Lineage, Route, ApplyResult, FreshAttempts, RetriedAttempts, WaitsLeft;
    if Actor(a).Some? {
      AttemptsHandDelta(c, s, a, id);
    } else if a.Enqueue? {
      StartWorth(c, FreshTask(a.id, s.store[a.id].algorithm));
    }
  }

  lemma AttemptsHandDelta(c: Config, s: State, a: Action, id: Id)
    requires Consistent(c, s) && Lineage(s) && Next(c, s, a).Some? && Actor(a).Some? && !LateHit(s, a, id)
    ensures Delta(c, s, a, AttemptWeights(c, id)) + One(StartsExecution(c, s, a, id)) <= 0
  {
    hide Consistent, Lineage, Route, ApplyResult, WaitsLeft, FreshAttempts, RetriedAttempts;
    if a.Dispatch? {
      ExecutionPays(c, s, a.i, id);
    } else if a.Republish? || a.Reschedule? || a.Crash? {
      hide Next, AttemptWeights;
      CopyDelta(c, s, a, id);
    } else if !a.Take? {
      HandKnown(c, s, a.i);
      FreshCovers(c, s.workers[a.i].message);
    }
  }

  lemma ExecutionPays(c: Config, s: State, i: nat, id: Id)
    requires Consistent(c, s) && Lineage(s) && Next(c, s, Dispatch(i)).Some?
    ensures Delta(c, s, Dispatch(i), AttemptWeights(c, id)) + One(StartsExecution(c, s, Dispatch(i), id)) <= 0
  {
    hide Consistent, Lineage, ApplyResult, FreshAttempts, RetriedAttempts, WaitsLeft, FreshCrashes, RetriedCrashes;
    FreshWorth(c, s.workers[i].message);
  }

  // ----- every run -----

  ghost predicate CrashesPaid(c: Config, s: State, id: Id) {
    s.history.late[id] == 0 ==> s.history.crashed[id] + Total(s, CrashWeights(c, id)) <= StartCrashes(c, s, id)
  }

  ghost predicate AttemptsPaid(c: Config, s: State, id: Id) {
    s.history.late[id] == 0 ==> s.history.executed[id] + Total(s, AttemptWeights(c, id)) <= StartAttempts(c, s, id)
  }

  lemma StartStep(c: Config, s: State, a: Action, id: Id)
    requires Consistent(c, s) && Next(c, s, a).Some?
    ensures var t := Next(c, s, a).value;
            && StartCrashes(c, t, id)
               == StartCrashes(c, s, id) + (if a == Enqueue(id) then Crashes(MAX_RETRIES, Waits(c, s.store[id].algorithm)) else 0)
            && StartAttempts(c, t, id)
               == StartAttempts(c, s, id) + (if a == Enqueue(id) then Attempts(MAX_RETRIES, Waits(c, s.store[id].algorithm)) else 0)
  {
    hide Next, MessagesOk, Gated, Stamped, Crashes, Attempts;
    AlgorithmsStay(c, s, a);
    PublicationChanges(c, s, a);
    StoreChanges(c, s, a);
  }

  lemma CrashesPaidStep(c: Config, s: State, a: Action, id: Id)
    requires Consistent(c, s) && Lineage(s) && Next(c, s, a).Some? && CrashesPaid(c, s, id)
    ensures CrashesPaid(c, Next(c, s, a).value, id)
  {
    hide Next, Consistent, Lineage, Delta, Total, StartCrashes, LateHit, Hits;
    LateStep(c, s, a, id);
    CountersStep(c, s, a, id);
    StartStep(c, s, a, id);
    if !LateHit(s, a, id) {
      TotalStep(c, s, a, CrashWeights(c, id));
      CrashesDelta(c, s, a, id);
    }
  }

  lemma AttemptsPaidStep(c: Config, s: State, a: Action, id: Id)
    requires Consistent(c, s) && Lineage(s) && Next(c, s, a).Some? && AttemptsPaid(c, s, id)
    ensures AttemptsPaid(c, Next(c, s, a).value, id)
  {
    hide Next, Consistent, Lineage, Delta, Total, StartAttempts, LateHit, Hits, StartsExecution;
    LateStep(c, s, a, id);
    CountersStep(c, s, a, id);
    StartStep(c, s, a, id);
    if !LateHit(s, a, id) {
      TotalStep(c, s, a, AttemptWeights(c, id));
      AttemptsDelta(c, s, a, id);
    }
  }

  lemma {:induction false} AlwaysPaid(c: Config, workers: nat, now: int, run: seq<Action>, s: State, id: Id)
    requires Reaches(c, Init(workers, now), run, s)
    ensures CrashesPaid(c, s, id) && AttemptsPaid(c, s, id)
  {
    if run == [] {
      IdleTotal(workers, CrashWeights(c, id), now);
      IdleTotal(workers, AttemptWeights(c, id), now);
    } else {
      hide Next, Consistent, Lineage, CrashesPaid, AttemptsPaid, Safe;
      var n := |run| - 1;
      var before := Run(c, Init(workers, now), run[..n]).value;
      AlwaysPaid(c, workers, now, run[..n], before, id);
      AlwaysSafe(c, workers, now, run[..n], before);
      SafeIsConsistent(c, before);
      AlwaysLineage(c, workers, now, run[..n], before);
      CrashesPaidStep(c, before, run[n], id);
      AttemptsPaidStep(c, before, run[n], id);
    }
  }

  /** In every reachable state, an experiment that no late crash has hit has met at most so many crashes and
      started at most so many executions, whatever the workers and the interleaving. */
  lemma AttemptsAreBounded(c: Config, workers: nat, now: int, run: seq<Action>, s: State, id: Id)
    requires Reaches(c, Init(workers, now), run, s)
    requires id in s.store && s.history.late[id] == 0
    ensures s.history.crashed[id] <= Crashes(MAX_RETRIES, Waits(c, s.store[id].algorithm))
    ensures s.history.executed[id] <= Attempts(MAX_RETRIES, Waits(c, s.store[id].algorithm))
  {
    AlwaysPaid(c, workers, now, run, s, id);
    TotalNonNegative(s, CrashWeights(c, id));
    TotalNonNegative(s, AttemptWeights(c, id));
  }
}

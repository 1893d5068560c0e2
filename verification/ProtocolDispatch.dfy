/** What is dead-lettered, and what an algorithm nobody knows comes to. */
module ProtocolDispatch {
  import opened Basics
  import opened Protocol
  import opened ProtocolSteps
  import opened ProtocolSafety
  import opened ProtocolRuns

  /** Only exhausted redeliveries and fresh messages that do not parse go to the dead-letter queue; an unknown
      algorithm is executed, which raises. */
  lemma RouteDeadLettersIff(c: Config, m: Message, snapshot: Option<Observation>, now: int)
    ensures Route(c, m, snapshot, now) == DeadLettering
            <==> (m.redelivered && m.retries >= MAX_RETRIES) || (!m.redelivered && m.body.Malformed?)
    ensures !m.redelivered && m.body.Task? && !Known(m.body.algorithm) ==> Route(c, m, snapshot, now) == Executing
  {
  }

  /** Where every delivery goes, case by case. */
  lemma RouteIs(c: Config, m: Message, snapshot: Option<Observation>, now: int)
    ensures var young := snapshot.Some? && now <= snapshot.value.observedAt + c.policy.freshness;
            var good := young && snapshot.value.errorRate < c.policy.rejectErrorRate;
            var gated := !m.redelivered && m.body.Task? && m.body.algorithm == "vqe";
            var pc := Route(c, m, snapshot, now);
            && (pc == BackingOff(now) <==> m.redelivered && m.retries < 3)
            && (pc == DeadLettering <==> if m.redelivered then m.retries >= 3 else m.body.Malformed?)
            && (pc == Announcing <==> gated && !young && m.waits < c.maxWaits)
            && (pc.Answering? <==> gated && !good && (young || m.waits >= c.maxWaits))
            && (pc.Answering? ==>
                  pc.answer == ResultMessage(m.body.id, SaysFailed, None, Some(if young then REJECTED else NEVER_FRESH)))
            && (pc == Executing <==> !m.redelivered && m.body.Task? && (m.body.algorithm == "vqe" ==> good))
  {
  }

  /** Every copy carries the algorithm its experiment was submitted with. */
  ghost predicate Faithful(store: map<Id, Record>, m: Message) {
    m.body.Task? && m.body.id in store ==> store[m.body.id].algorithm == m.body.algorithm
  }

  ghost predicate HandFaithful(store: map<Id, Record>, w: Worker) {
    w.Busy? ==>
      && Faithful(store, w.message)
      && (w.pc.Answering? && w.pc.answer.status.SaysCompleted? && w.message.body.Task? ==> Known(w.message.body.algorithm))
  }

  /** Whoever says an experiment is completed knows its algorithm. */
  ghost predicate Honest(store: map<Id, Record>, r: ResultMessage) {
    r.status.SaysCompleted? && r.id in store ==> Known(store[r.id].algorithm)
  }

  ghost predicate Dispatched(s: State) {
    && (forall m :: m in s.tasks ==> Faithful(s.store, m))
    && (forall m :: m in s.waiting ==> Faithful(s.store, m))
    && (forall w :: w in s.workers ==> HandFaithful(s.store, w))
    && (forall r :: r in s.results ==> Honest(s.store, r))
    && (forall id :: id in s.store && s.store[id].status == Completed ==> Known(s.store[id].algorithm))
  }

  /** The store only grows, and no record changes its algorithm. */
  lemma AlgorithmsStay(c: Config, s: State, a: Action)
    requires Next(c, s, a).Some?
    ensures var t := Next(c, s, a).value.store;
            forall id :: id in s.store ==> id in t && t[id].algorithm == s.store[id].algorithm
    ensures a.Save? || Next(c, s, a).value.store.Keys == s.store.Keys
  {
    hide Next;
    StoreChanges(c, s, a);
  }

  /** The ids of all copies and results are stored, so a new record cannot contradict them. */
  lemma StaysFaithful(c: Config, s: State, a: Action)
    requires Consistent(c, s) && Dispatched(s) && Next(c, s, a).Some?
    ensures var t := Next(c, s, a).value.store;
            && (forall m :: m in s.tasks || m in s.waiting ==> Faithful(t, m))
            && (forall w :: w in s.workers ==> HandFaithful(t, w))
            && (forall r :: r in s.results ==> Honest(t, r))
  {
    hide Next, Gated, Stamped;
    AlgorithmsStay(c, s, a);
  }

  lemma AddedFaithful(c: Config, s: State, a: Action)
    requires Consistent(c, s) && Dispatched(s) && Next(c, s, a).Some? && Added(s, a).Some?
    ensures Faithful(Next(c, s, a).value.store, Added(s, a).value)
  {
    hide Consistent, Route, ApplyResult, Known, Honest;
    StaysFaithful(c, s, a);
    if a.Republish? || a.Crash? {
      assert s.workers[a.i] in s.workers;
    } else if a.Expire? {
      assert s.waiting[a.k] in s.waiting;
    }
  }

  lemma ParkedFaithful(c: Config, s: State, i: nat)
    requires Dispatched(s) && Next(c, s, Reschedule(i)).Some?
    ensures Faithful(Next(c, s, Reschedule(i)).value.store, WaitCopy(s.workers[i].message))
  {
    hide Honest, Known;
    assert s.workers[i] in s.workers;
  }

  lemma CopiesStep(c: Config, s: State, a: Action)
    requires Consistent(c, s) && Dispatched(s) && Next(c, s, a).Some?
    ensures var t := Next(c, s, a).value;
            && (forall m :: m in t.tasks ==> Faithful(t.store, m))
            && (forall m :: m in t.waiting ==> Faithful(t.store, m))
  {
    hide Next, Consistent, Added, Faithful, HandFaithful, Honest, Known;
    StaysFaithful(c, s, a);
    TasksGrow(c, s, a);
    ParkedGrow(c, s, a);
    if Added(s, a).Some? {
      AddedFaithful(c, s, a);
    }
    if a.Reschedule? {
      ParkedFaithful(c, s, a.i);
    }
  }

  lemma DecisionFaithful(c: Config, s: State, i: nat)
    requires Dispatched(s) && Next(c, s, Dispatch(i)).Some?
    ensures HandFaithful(s.store, Next(c, s, Dispatch(i)).value.workers[i])
  {
    assert s.workers[i] in s.workers;
  }

  lemma HandFaithfulStep(c: Config, s: State, a: Action, i: nat)
    requires Consistent(c, s) && Dispatched(s) && Next(c, s, a).Some?
    requires i < |s.workers| && Next(c, s, a).value.workers[i] != s.workers[i]
    ensures HandFaithful(s.store, Next(c, s, a).value.workers[i])
  {
    hide Consistent, ApplyResult, Route, Known, Honest;
    assert s.workers[i] in s.workers;
    if a.Take? {
      assert s.tasks[a.k] in s.tasks;
    } else if a.Dispatch? {
      DecisionFaithful(c, s, a.i);
    }
  }

  lemma HandsStep(c: Config, s: State, a: Action)
    requires Consistent(c, s) && Dispatched(s) && Next(c, s, a).Some?
    ensures forall w :: w in Next(c, s, a).value.workers ==> HandFaithful(Next(c, s, a).value.store, w)
  {
    hide Next, Consistent, Known;
    var t := Next(c, s, a).value;
    StaysFaithful(c, s, a);
    CrewStays(c, s, a);
    forall w | w in t.workers ensures HandFaithful(t.store, w) {
      var i :| 0 <= i < |t.workers| && t.workers[i] == w;
      if w != s.workers[i] {
        HandFaithfulStep(c, s, a, i);
        WorkersKeepStore(c, s, a);
      }
    }
  }

  /** Only the API writes records. */
  lemma WorkersKeepStore(c: Config, s: State, a: Action)
    requires Next(c, s, a).Some? && Next(c, s, a).value.workers != s.workers
    ensures Next(c, s, a).value.store == s.store
  {
    hide Next;
    StoreChanges(c, s, a);
    OneHandMoves(c, s, a);
  }

  lemma SpeakerHonest(c: Config, s: State, a: Action)
    requires Consistent(c, s) && Dispatched(s) && Next(c, s, a).Some? && (a.Announce? || a.Answer?)
    ensures Holds(s, a.i) && Next(c, s, a).value.store == s.store
    ensures a.Answer? ==> s.workers[a.i].pc.Answering? && Honest(s.store, s.workers[a.i].pc.answer)
  {
    hide QueueOk, Gated, Stamped, Known, Route, ApplyResult;
    assert s.workers[a.i] in s.workers;
  }

  lemma ResultsStep(c: Config, s: State, a: Action)
    requires Consistent(c, s) && Dispatched(s) && Next(c, s, a).Some?
    ensures forall r :: r in Next(c, s, a).value.results ==> Honest(Next(c, s, a).value.store, r)
  {
    hide Next, QueueOk, Gated, Stamped, Known, Recorded, Faithful;
    StaysFaithful(c, s, a);
    ResultsGrow(c, s, a);
    if a.Announce? || a.Answer? {
      SpeakerOk(c, s, a);
      SpeakerHonest(c, s, a);
    }
  }

  lemma CompletedStep(c: Config, s: State, a: Action)
    requires Dispatched(s) && Next(c, s, a).Some?
    ensures var t := Next(c, s, a).value.store;
            forall id :: id in t && t[id].status == Completed ==> Known(t[id].algorithm)
  {
    hide Next, Known, Faithful, HandFaithful;
    StoreChanges(c, s, a);
    if a.Consume? {
      assert s.results[0] in s.results;
    }
  }

  lemma DispatchedStep(c: Config, s: State, a: Action)
    requires Consistent(c, s) && Dispatched(s) && Next(c, s, a).Some?
    ensures Dispatched(Next(c, s, a).value)
  {
    hide Next, Consistent, Faithful, HandFaithful, Honest, Known;
    CopiesStep(c, s, a);
    HandsStep(c, s, a);
    ResultsStep(c, s, a);
    CompletedStep(c, s, a);
  }

  lemma {:induction false} AlwaysDispatched(c: Config, workers: nat, now: int, run: seq<Action>, s: State)
    requires Reaches(c, Init(workers, now), run, s)
    ensures Dispatched(s)
  {
    if run != [] {
      hide Next, Dispatched;
      var n := |run| - 1;
      var before := Run(c, Init(workers, now), run[..n]).value;
      AlwaysDispatched(c, workers, now, run[..n], before);
      AlwaysSafe(c, workers, now, run[..n], before);
      DispatchedStep(c, before, run[n]);
    }
  }

  /** An experiment with an unknown algorithm is never completed, in any run. */
  lemma UnknownNeverCompletes(c: Config, workers: nat, now: int, run: seq<Action>, s: State, id: Id)
    requires Reaches(c, Init(workers, now), run, s)
    requires id in s.store && !Known(s.store[id].algorithm)
    ensures s.store[id].status != Completed
    ensures forall r :: r in s.results && r.id == id ==> !r.status.SaysCompleted?
  {
    AlwaysDispatched(c, workers, now, run, s);
  }
}

/** Safety of the experiment task protocol, over every run of any number of workers. */
module ProtocolSafety {
  import opened Basics
  import opened Protocol
  import opened ProtocolSteps
  import opened ProtocolWeights

  // ----- what holds of every single message -----

  ghost predicate MessageOk(c: Config, published: set<Id>, m: Message) {
    && (m.body.Task? ==> m.body.id in published)
    && m.retries <= MAX_RETRIES
    && m.waits <= c.maxWaits
  }

  ghost predicate HandOk(c: Config, published: set<Id>, w: Worker) {
    w.Busy? ==>
      && MessageOk(c, published, w.message)
      && (w.pc.BackingOff? ==> w.message.retries < MAX_RETRIES)
      && (w.pc == Announcing || w.pc == Rescheduling ==>
            w.message.body.Task? && w.message.body.algorithm == VQE && w.message.waits < c.maxWaits)
      && (w.pc == Executing ==> w.message.body.Task?)
      && (w.pc.Answering? ==> IsFor(w.message, w.pc.answer.id) && w.pc.answer.Terminal())
  }

  ghost predicate QueueOk(c: Config, published: set<Id>, q: seq<Message>) {
    forall m :: m in q ==> MessageOk(c, published, m)
  }

  ghost predicate Recorded(s: State) {
    && s.history.published <= s.store.Keys
    && s.submitting <= s.store.Keys
    && s.submitting !! s.history.published
  }

  /** Every copy is of a published experiment with a stored record, within both header bounds. */
  ghost predicate MessagesOk(c: Config, s: State) {
    && QueueOk(c, s.history.published, s.tasks)
    && QueueOk(c, s.history.published, s.waiting)
    && QueueOk(c, s.history.published, s.deadLetters)
    && (forall w :: w in s.workers ==> HandOk(c, s.history.published, w))
    && (forall r :: r in s.results ==> r.id in s.history.published && !r.status.SaysOther?)
  }

  /** `completed_at` is set exactly on terminal records. */
  ghost predicate Stamped(s: State) {
    forall id :: id in s.store ==> (s.store[id].completedAt.Some? <==> s.store[id].Terminal())
  }

  /** Every vqe execution was decided on an observation the probe had stored, young enough and good enough. */
  ghost predicate Gated(c: Config, s: State) {
    forall e :: e in s.history.executions && e.algorithm == VQE ==>
      && e.basis.Some?
      && e.basis.value in s.history.observed
      && e.decidedAt - e.basis.value.observedAt <= c.policy.freshness
      && e.basis.value.errorRate < c.policy.rejectErrorRate
  }

  ghost predicate Consistent(c: Config, s: State) {
    && Recorded(s)
    && MessagesOk(c, s)
    && Stamped(s)
    && Gated(c, s)
    && (s.snapshot.Some? ==> s.snapshot.value in s.history.observed)
  }

  lemma ApplyKeepsKeys(store: map<Id, Record>, m: ResultMessage, now: int)
    ensures ApplyResult(store, m, now).Keys == store.Keys
  {
  }

  lemma RecordedStep(c: Config, s: State, a: Action)
    requires Consistent(c, s) && Next(c, s, a).Some?
    ensures Recorded(Next(c, s, a).value)
    ensures s.history.published <= Next(c, s, a).value.history.published
    ensures s.store.Keys <= Next(c, s, a).value.store.Keys
  {
    hide Next, MessagesOk, Gated, Stamped, ApplyResult;
    StoreChanges(c, s, a);
    SubmissionChanges(c, s, a);
    PublicationChanges(c, s, a);
    if a.Consume? {
      ApplyKeepsKeys(s.store, s.results[0], s.clock);
    }
  }

  lemma StampedStep(c: Config, s: State, a: Action)
    requires Consistent(c, s) && Next(c, s, a).Some?
    ensures Stamped(Next(c, s, a).value)
  {
    hide Next, MessagesOk, Gated, Recorded;
    StoreChanges(c, s, a);
  }

  /** An execution of vqe starts only on an observation the policy allows. */
  lemma DispatchGated(c: Config, s: State, i: nat)
    requires Gated(c, s) && (s.snapshot.Some? ==> s.snapshot.value in s.history.observed)
    requires Next(c, s, Dispatch(i)).Some?
    ensures Gated(c, Next(c, s, Dispatch(i)).value)
  {
    var t := Next(c, s, Dispatch(i)).value;
    if t.history.executions != s.history.executions {
      var e := t.history.executions[|s.history.executions|];
      assert t.history.executions == s.history.executions + [e];
    }
  }

  lemma GatedStep(c: Config, s: State, a: Action)
    requires Consistent(c, s) && Next(c, s, a).Some?
    ensures var t := Next(c, s, a).value;
            Gated(c, t) && (t.snapshot.Some? ==> t.snapshot.value in t.history.observed)
  {
    hide MessagesOk, Stamped, Recorded;
    OthersKeepGate(c, s, a);
    if a.Dispatch? {
      DispatchGated(c, s, a.i);
    } else {
      OthersKeepExecutions(c, s, a);
      hide Next;
    }
  }

  /** The hand of worker `i` after an action of that worker, the other hands unchanged. */
  lemma HandsStep(c: Config, published: set<Id>, before: seq<Worker>, i: nat, after: Worker)
    requires i < |before|
    requires forall w :: w in before ==> HandOk(c, published, w)
    requires HandOk(c, published, after)
    ensures forall w :: w in before[i := after] ==> HandOk(c, published, w)
  {
  }

  lemma HandOkStep(c: Config, s: State, a: Action, i: nat)
    requires Consistent(c, s) && Next(c, s, a).Some? && Actor(a) == Some(i)
    ensures i < |s.workers| && i < |Next(c, s, a).value.workers|
    ensures HandOk(c, s.history.published, Next(c, s, a).value.workers[i])
  {
    hide ApplyResult, Stamped, Gated, Recorded;
    if a.Take? {
      assert s.tasks[a.k] in s.tasks;
    } else {
      assert s.workers[i] in s.workers;
    }
  }

  lemma HandsOkStep(c: Config, s: State, a: Action)
    requires Consistent(c, s) && Next(c, s, a).Some?
    ensures forall w :: w in Next(c, s, a).value.workers ==> HandOk(c, s.history.published, w)
  {
    hide Next, Stamped, Gated, QueueOk;
    OneHandMoves(c, s, a);
    if Actor(a).Some? {
      HandOkStep(c, s, a, Actor(a).value);
      HandsStep(c, s.history.published, s.workers, Actor(a).value, Next(c, s, a).value.workers[Actor(a).value]);
    }
  }

  lemma AddedOk(c: Config, s: State, a: Action)
    requires Consistent(c, s) && Next(c, s, a).Some? && Added(s, a).Some?
    ensures MessageOk(c, Next(c, s, a).value.history.published, Added(s, a).value)
  {
    hide Stamped, Gated, Route, ApplyResult;
    if a.Republish? || a.Crash? {
      assert s.workers[a.i] in s.workers;
    } else if a.Expire? {
      assert s.waiting[a.k] in s.waiting;
    }
  }

  /** The copies that leave a hand for the wait queue or the dead letters. */
  lemma LeftOk(c: Config, s: State, a: Action)
    requires Consistent(c, s) && Next(c, s, a).Some? && (a.Reschedule? || a.DeadLetter?)
    ensures a.Reschedule? ==> MessageOk(c, s.history.published, WaitCopy(s.workers[a.i].message))
    ensures a.DeadLetter? ==> MessageOk(c, s.history.published, DeadCopy(s.workers[a.i].message))
  {
    hide Stamped, Gated, Route, ApplyResult, QueueOk;
    assert s.workers[a.i] in s.workers;
  }

  lemma QueuesOkStep(c: Config, s: State, a: Action)
    requires Consistent(c, s) && Next(c, s, a).Some?
    ensures var t := Next(c, s, a).value;
            && QueueOk(c, t.history.published, t.tasks)
            && QueueOk(c, t.history.published, t.waiting)
            && QueueOk(c, t.history.published, t.deadLetters)
  {
    hide Next, Stamped, Gated, Added;
    TasksGrow(c, s, a);
    ParkedGrow(c, s, a);
    SubmissionChanges(c, s, a);
    PublicationChanges(c, s, a);
    if Added(s, a).Some? {
      AddedOk(c, s, a);
    }
    if a.Reschedule? || a.DeadLetter? {
      LeftOk(c, s, a);
    }
  }

  lemma SpeakerOk(c: Config, s: State, a: Action)
    requires Consistent(c, s) && Next(c, s, a).Some? && (a.Announce? || a.Answer?)
    ensures Holds(s, a.i) && (a.Answer? ==> s.workers[a.i].pc.Answering?)
    ensures s.workers[a.i].message.body.Task? && s.workers[a.i].message.body.id in s.history.published
    ensures a.Answer? ==> IsFor(s.workers[a.i].message, s.workers[a.i].pc.answer.id) && s.workers[a.i].pc.answer.Terminal()
  {
    hide Route, ApplyResult, QueueOk, Gated, Stamped;
    assert s.workers[a.i] in s.workers;
  }

  lemma ResultsOkStep(c: Config, s: State, a: Action)
    requires Consistent(c, s) && Next(c, s, a).Some?
    ensures forall r :: r in Next(c, s, a).value.results ==> r.id in s.history.published && !r.status.SaysOther?
  {
    hide Next, Stamped, Gated, QueueOk, Recorded;
    ResultsGrow(c, s, a);
    if a.Announce? || a.Answer? {
      SpeakerOk(c, s, a);
    }
  }

  lemma MessagesStep(c: Config, s: State, a: Action)
    requires Consistent(c, s) && Next(c, s, a).Some?
    ensures MessagesOk(c, Next(c, s, a).value)
  {
    RecordedStep(c, s, a);
    HandsOkStep(c, s, a);
    QueuesOkStep(c, s, a);
    ResultsOkStep(c, s, a);
  }

  lemma ConsistentStep(c: Config, s: State, a: Action)
    requires Consistent(c, s) && Next(c, s, a).Some?
    ensures Consistent(c, Next(c, s, a).value)
  {
    RecordedStep(c, s, a);
    StampedStep(c, s, a);
    MessagesStep(c, s, a);
    GatedStep(c, s, a);
  }

  // ----- counting the copies of one experiment -----

  function One(b: bool): int {
    if b then 1 else 0
  }

  predicate HandFor(w: Worker, id: Id) {
    w.Busy? && IsFor(w.message, id)
  }

  /** Copies that still owe `id` an outcome: everything but a copy whose outcome is published. */
  function Owing(id: Id): Weights {
    Weights(m => One(IsFor(m, id)), m => One(IsFor(m, id)), m => One(IsFor(m, id)),
            w => One(HandFor(w, id) && w.pc != Acking))
  }

  predicate MayExecute(pc: Pc) {
    pc == Received || pc.BackingOff? || pc == Announcing || pc == Rescheduling
  }

  /** Copies of `id` that can still lead to an execution. */
  function Executable(id: Id): Weights {
    Weights(m => One(IsFor(m, id)), m => One(IsFor(m, id)), m => 0,
            w => One(HandFor(w, id) && MayExecute(w.pc)))
  }

  /** Copies of `id` that can still lead to a completed or failed result. */
  function Answerable(id: Id): Weights {
    Weights(m => One(IsFor(m, id)), m => One(IsFor(m, id)), m => 0,
            w => One(HandFor(w, id) && w.pc != Acking && w.pc != DeadLettering))
  }

  // ----- nothing is lost -----

  /** The last message about `id` in the results queue. */
  ghost function LastWord(results: seq<ResultMessage>, id: Id): Option<ResultMessage> {
    if results == [] then None
    else
      var last := results[|results| - 1];
      if last.id == id then Some(last) else LastWord(results[..|results| - 1], id)
  }

  lemma LastWordAppend(results: seq<ResultMessage>, r: ResultMessage, id: Id)
    ensures LastWord(results + [r], id) == if r.id == id then Some(r) else LastWord(results, id)
  {
    assert (results + [r])[..|results|] == results;
  }

  lemma {:induction false} LastWordTail(results: seq<ResultMessage>, id: Id)
    requires results != []
    ensures LastWord(results, id) ==
            if LastWord(results[1..], id).Some? then LastWord(results[1..], id)
            else if results[0].id == id then Some(results[0]) else None
  {
    var n := |results| - 1;
    if n > 0 {
      LastWordTail(results[..n], id);
      assert results[..n][1..] == results[1..][..n - 1];
    }
  }

  /** What the API will end up showing for `id` once the results queue is drained is terminal. */
  ghost predicate Settled(s: State, id: Id) {
    match LastWord(s.results, id)
    case Some(r) => r.Terminal()
    case None => id in s.store && s.store[id].Terminal()
  }

  ghost predicate NothingLost(s: State) {
    forall id :: id in s.history.published ==> Total(s, Owing(id)) > 0 || Settled(s, id)
  }

  lemma ConsumeKeepsLastWord(c: Config, s: State, id: Id)
    requires Consistent(c, s) && s.results != []
    ensures Settled(Next(c, s, Consume).value, id) == Settled(s, id)
  {
    LastWordTail(s.results, id);
    assert s.results[0] in s.results;
    LastWordRecognised(c, s, s.results[1..], id);
  }

  /** A last word is a message of the queue. */
  lemma LastWordRecognised(c: Config, s: State, results: seq<ResultMessage>, id: Id)
    ensures LastWord(results, id).Some? ==> LastWord(results, id).value in results
  {
  }

  /** Nothing but publishing the outcome of `id` gives up an owing copy of it. */
  lemma OwingDelta(c: Config, s: State, a: Action, id: Id)
    requires Consistent(c, s) && Next(c, s, a).Some?
    ensures (a.Answer? && HandFor(s.workers[a.i], id)) || Delta(c, s, a, Owing(id)) >= 0
    ensures a == Enqueue(id) ==> Delta(c, s, a, Owing(id)) == 1
  {
    hide QueueOk, Gated, Stamped, Recorded, ApplyResult;
  }

  lemma SettledStep(c: Config, s: State, a: Action, id: Id)
    requires Consistent(c, s) && Next(c, s, a).Some? && Settled(s, id)
    ensures (a.Announce? && HandFor(s.workers[a.i], id)) || Settled(Next(c, s, a).value, id)
  {
    hide Next, Gated, QueueOk, HandOk;
    ResultsGrow(c, s, a);
    StoreChanges(c, s, a);
    if a.Consume? {
      ConsumeKeepsLastWord(c, s, id);
    } else if a.Announce? {
      SpeakerOk(c, s, a);
      LastWordAppend(s.results, WaitingNotice(s.workers[a.i].message.body.id), id);
    } else if a.Answer? {
      SpeakerOk(c, s, a);
      LastWordAppend(s.results, s.workers[a.i].pc.answer, id);
    }
  }

  lemma OwingHand(s: State, i: nat, id: Id)
    requires i < |s.workers| && Owing(id).hand(s.workers[i]) == 1
    ensures Total(s, Owing(id)) > 0
  {
    SumAtLeast(s.workers, i, Owing(id).hand);
    TotalAtLeastHands(s, Owing(id));
  }

  lemma OwingStep(c: Config, s: State, a: Action, id: Id)
    requires Consistent(c, s) && Next(c, s, a).Some?
    requires Total(s, Owing(id)) > 0 || Settled(s, id) || a == Enqueue(id)
    ensures Total(Next(c, s, a).value, Owing(id)) > 0 || Settled(Next(c, s, a).value, id)
  {
    var t := Next(c, s, a).value;
    TotalStep(c, s, a, Owing(id));
    OwingDelta(c, s, a, id);
    if a.Answer? && HandFor(s.workers[a.i], id) {
      assert s.workers[a.i] in s.workers;
      LastWordAppend(s.results, s.workers[a.i].pc.answer, id);
    } else if a.Announce? && HandFor(s.workers[a.i], id) {
      OwingHand(t, a.i, id);
    } else {
      TotalNonNegative(s, Owing(id));
      if Settled(s, id) {
        SettledStep(c, s, a, id);
      }
    }
  }

  lemma TotalNonNegative(s: State, w: Weights)
    requires forall m :: w.task(m) >= 0 && w.waiting(m) >= 0 && w.dead(m) >= 0
    requires forall h :: w.hand(h) >= 0
    ensures Total(s, w) >= 0
  {
    SumNonNegative(s.tasks, w.task);
    SumNonNegative(s.waiting, w.waiting);
    SumNonNegative(s.deadLetters, w.dead);
    SumNonNegative(s.workers, w.hand);
  }

  lemma TotalAtLeastHands(s: State, w: Weights)
    requires forall m :: w.task(m) >= 0 && w.waiting(m) >= 0 && w.dead(m) >= 0
    ensures Total(s, w) >= Sum(s.workers, w.hand)
  {
    SumNonNegative(s.tasks, w.task);
    SumNonNegative(s.waiting, w.waiting);
    SumNonNegative(s.deadLetters, w.dead);
  }
}

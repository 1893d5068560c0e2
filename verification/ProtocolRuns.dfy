/** Whole-run theorems of the experiment task protocol: conservation, duplication, terminal order. */
module ProtocolRuns {
  import opened Basics
  import opened Protocol
  import opened ProtocolSteps
  import opened ProtocolWeights
  import opened ProtocolSafety

  // ----- duplication is paid for by crashes -----

  ghost predicate ExecutionsPaid(s: State, id: Id) {
    s.history.executed[id] + Total(s, Executable(id)) <= One(id in s.history.published) + s.history.crashed[id]
  }

  ghost predicate AnswersPaid(s: State, id: Id) {
    s.history.answered[id] + Total(s, Answerable(id)) <= One(id in s.history.published) + s.history.crashed[id]
  }

  ghost predicate DuplicationPaid(s: State, id: Id) {
    ExecutionsPaid(s, id) && AnswersPaid(s, id)
  }

  predicate StartsExecution(c: Config, s: State, a: Action, id: Id) {
    a.Dispatch? && a.i < |s.workers| && HandFor(s.workers[a.i], id)
    && Route(c, s.workers[a.i].message, s.snapshot, s.clock) == Executing
  }

  predicate Hits(s: State, a: Action, id: Id) {
    a.Crash? && a.i < |s.workers| && HandFor(s.workers[a.i], id)
  }

  lemma CountersStep(c: Config, s: State, a: Action, id: Id)
    requires Next(c, s, a).Some?
    ensures var t := Next(c, s, a).value;
            && t.history.executed[id] == s.history.executed[id] + One(StartsExecution(c, s, a, id))
            && t.history.crashed[id] == s.history.crashed[id] + One(Hits(s, a, id))
            && (id in t.history.published <==> id in s.history.published || a == Enqueue(id))
  {
    hide ApplyResult;
  }

  /** What the executions of `id` gain in one step, its copies lose, but for publications and crashes. */
  lemma ExecutableDelta(c: Config, s: State, a: Action, id: Id)
    requires Consistent(c, s) && Next(c, s, a).Some?
    ensures Delta(c, s, a, Executable(id)) + One(StartsExecution(c, s, a, id)) <= One(a == Enqueue(id)) + One(Hits(s, a, id))
  {
    hide QueueOk, Gated, Stamped, ApplyResult, Consistent, Total;
    if !a.Dispatch? {
      hide Route;
    }
  }

  /** No experiment is published twice. */
  lemma PublishedOnce(c: Config, s: State, id: Id)
    requires Consistent(c, s) && Next(c, s, Enqueue(id)).Some?
    ensures id !in s.history.published
  {
  }

  lemma ExecutionsStep(c: Config, s: State, a: Action, id: Id)
    requires Consistent(c, s) && Next(c, s, a).Some? && ExecutionsPaid(s, id)
    ensures ExecutionsPaid(Next(c, s, a).value, id)
  {
    hide Sum, Next, Consistent, Delta;
    if a == Enqueue(id) {
      PublishedOnce(c, s, id);
    }
    TotalStep(c, s, a, Executable(id));
    CountersStep(c, s, a, id);
    ExecutableDelta(c, s, a, id);
  }

  lemma AnsweredStep(c: Config, s: State, a: Action, id: Id)
    requires Consistent(c, s) && Next(c, s, a).Some?
    ensures Next(c, s, a).value.history.answered[id]
         == s.history.answered[id] + One(a.Answer? && HandFor(s.workers[a.i], id))
  {
    if a.Answer? {
      assert s.workers[a.i] in s.workers;
    }
  }

  /** The same account for published outcomes. */
  lemma AnswerableDelta(c: Config, s: State, a: Action, id: Id)
    requires Consistent(c, s) && Next(c, s, a).Some?
    ensures Delta(c, s, a, Answerable(id)) + One(a.Answer? && HandFor(s.workers[a.i], id))
         <= One(a == Enqueue(id)) + One(Hits(s, a, id))
  {
    hide QueueOk, Gated, Stamped, ApplyResult;
  }

  lemma AnswersStep(c: Config, s: State, a: Action, id: Id)
    requires Consistent(c, s) && Next(c, s, a).Some? && AnswersPaid(s, id)
    ensures AnswersPaid(Next(c, s, a).value, id)
  {
    hide Sum, Next, Consistent, Delta;
    if a == Enqueue(id) {
      PublishedOnce(c, s, id);
    }
    TotalStep(c, s, a, Answerable(id));
    CountersStep(c, s, a, id);
    AnsweredStep(c, s, a, id);
    AnswerableDelta(c, s, a, id);
  }

  lemma DuplicationStep(c: Config, s: State, a: Action, id: Id)
    requires Consistent(c, s) && Next(c, s, a).Some? && DuplicationPaid(s, id)
    ensures DuplicationPaid(Next(c, s, a).value, id)
  {
    ExecutionsStep(c, s, a, id);
    AnswersStep(c, s, a, id);
  }

  // ----- order of the results of an experiment no crash has touched -----

  /** A terminal result in the queue, or a terminal record of a published experiment, has been counted. */
  ghost predicate Accounted(s: State, id: Id) {
    && (id in s.store && id in s.history.published && s.store[id].Terminal() ==> s.history.answered[id] >= 1)
    && (forall r :: r in s.results && r.id == id && r.Terminal() ==> s.history.answered[id] >= 1)
  }

  /** No message about `id` follows its outcome in the results queue. */
  ghost predicate OutcomeLast(results: seq<ResultMessage>, id: Id) {
    forall i, j :: 0 <= i < j < |results| && results[i].id == id && results[j].id == id ==> !results[i].Terminal()
  }

  ghost predicate Silent(results: seq<ResultMessage>, id: Id) {
    forall r :: r in results ==> r.id != id
  }

  ghost predicate TerminalIsLast(s: State, id: Id) {
    && OutcomeLast(s.results, id)
    && (id in s.store && s.store[id].Terminal() ==> Silent(s.results, id))
  }

  ghost predicate Safe(c: Config, s: State) {
    && Consistent(c, s)
    && NothingLost(s)
    && (forall id :: DuplicationPaid(s, id))
    && (forall id :: id in s.history.published ==> Accounted(s, id))
    && (forall id :: s.history.crashed[id] == 0 ==> TerminalIsLast(s, id))
  }

  lemma AccountedConsume(c: Config, s: State, id: Id)
    requires Next(c, s, Consume).Some? && (id in s.history.published ==> Accounted(s, id))
    ensures id in s.history.published ==> Accounted(Next(c, s, Consume).value, id)
  {
    assert s.results[0] in s.results;
  }

  lemma AccountedStep(c: Config, s: State, a: Action, id: Id)
    requires Consistent(c, s) && Next(c, s, a).Some?
    requires id in Next(c, s, a).value.history.published
    requires id in s.history.published ==> Accounted(s, id)
    ensures Recorded(Next(c, s, a).value)
    ensures a != Enqueue(id) ==> Accounted(Next(c, s, a).value, id)
  {
    hide QueueOk, Route, Gated, Stamped, ApplyResult;
    RecordedStep(c, s, a);
    if a.Consume? {
      AccountedConsume(c, s, id);
    }
  }

  /** An untouched experiment has no copy left that could speak after its outcome. */
  lemma NoLateSpeaker(c: Config, s: State, i: nat, id: Id)
    requires Safe(c, s) && i < |s.workers| && s.history.crashed[id] == 0
    requires HandFor(s.workers[i], id) && (s.workers[i].pc == Announcing || s.workers[i].pc.Answering?)
    ensures s.history.answered[id] == 0
  {
    SumAtLeast(s.workers, i, Answerable(id).hand);
    TotalAtLeastHands(s, Answerable(id));
    assert DuplicationPaid(s, id);
  }

  lemma SpeakStep(results: seq<ResultMessage>, r: ResultMessage, id: Id)
    requires OutcomeLast(results, id)
    requires r.id == id ==> forall x :: x in results && x.id == id ==> !x.Terminal()
    ensures OutcomeLast(results + [r], id)
  {
    forall i, j | 0 <= i < j < |results| + 1 && (results + [r])[i].id == id && (results + [r])[j].id == id
      ensures !(results + [r])[i].Terminal()
    {
      assert results[i] in results;
    }
  }

  lemma SpeakerStep(c: Config, s: State, a: Action, id: Id)
    requires Safe(c, s) && Next(c, s, a).Some? && (a.Announce? || a.Answer?)
    requires s.history.crashed[id] == 0
    ensures TerminalIsLast(Next(c, s, a).value, id)
  {
    hide Route, ApplyResult;
    var hand := s.workers[a.i];
    assert hand in s.workers && TerminalIsLast(s, id);
    var r := if a.Announce? then WaitingNotice(hand.message.body.id) else hand.pc.answer;
    if HandFor(hand, id) {
      NoLateSpeaker(c, s, a.i, id);
      assert Accounted(s, id);
    }
    SpeakStep(s.results, r, id);
  }

  lemma ListenerStep(c: Config, s: State, id: Id)
    requires Safe(c, s) && Next(c, s, Consume).Some?
    requires s.history.crashed[id] == 0
    ensures TerminalIsLast(Next(c, s, Consume).value, id)
  {
    var t := Next(c, s, Consume).value;
    assert s.results[0] in s.results && TerminalIsLast(s, id);
    if id in t.store && t.store[id].Terminal() {
      forall r | r in t.results ensures r.id != id {
        var j :| 0 <= j < |t.results| && t.results[j] == r;
        assert s.results[j + 1] == r;
        assert r in s.results;
      }
    }
  }

  lemma CrashesOnlyGrow(c: Config, s: State, a: Action, id: Id)
    requires Next(c, s, a).Some?
    ensures s.history.crashed[id] <= Next(c, s, a).value.history.crashed[id]
  {
    hide Route, ApplyResult;
  }

  /** Nobody speaks about an experiment before it is published. */
  lemma UnpublishedSilent(c: Config, s: State, id: Id)
    requires Consistent(c, s) && id in s.submitting
    ensures Silent(s.results, id)
  {
    hide QueueOk, HandOk, Gated, Stamped;
  }

  lemma TerminalIsLastStep(c: Config, s: State, a: Action, id: Id)
    requires Safe(c, s) && Next(c, s, a).Some?
    requires Next(c, s, a).value.history.crashed[id] == 0
    ensures TerminalIsLast(Next(c, s, a).value, id)
  {
    hide Next, Consistent, NothingLost, DuplicationPaid, Accounted, Stamped, OutcomeLast, Silent;
    CrashesOnlyGrow(c, s, a, id);
    assert TerminalIsLast(s, id);
    if a.Announce? || a.Answer? {
      SpeakerStep(c, s, a, id);
    } else if a.Consume? {
      ListenerStep(c, s, id);
    } else {
      ResultsGrow(c, s, a);
      StoreChanges(c, s, a);
      if a == EnqueueFails(id, if a.EnqueueFails? then a.error else "") {
        UnpublishedSilent(c, s, id);
      }
    }
  }

  /** Publication: the record was saved as queued before, so no outcome can be known yet. */
  ghost predicate Unspoken(s: State) {
    forall id :: id in s.submitting ==> id in s.store && !s.store[id].Terminal()
  }

  lemma UnspokenStep(c: Config, s: State, a: Action)
    requires Consistent(c, s) && Unspoken(s) && Next(c, s, a).Some?
    ensures Unspoken(Next(c, s, a).value)
  {
    if a.Consume? {
      assert s.results[0] in s.results;
    }
  }

  lemma EnqueueAccounted(c: Config, s: State, id: Id)
    requires Consistent(c, s) && Unspoken(s) && Next(c, s, Enqueue(id)).Some?
    ensures Accounted(Next(c, s, Enqueue(id)).value, id)
  {
  }

  lemma SafeStep(c: Config, s: State, a: Action)
    requires Safe(c, s) && Unspoken(s) && Next(c, s, a).Some?
    ensures Safe(c, Next(c, s, a).value) && Unspoken(Next(c, s, a).value)
  {
    hide Next, Consistent;
    var t := Next(c, s, a).value;
    ConsistentStep(c, s, a);
    UnspokenStep(c, s, a);
    forall id | id in t.history.published
      ensures (Total(t, Owing(id)) > 0 || Settled(t, id)) && Accounted(t, id)
    {
      CountersStep(c, s, a, id);
      OwingStep(c, s, a, id);
      if a == Enqueue(id) {
        EnqueueAccounted(c, s, id);
      } else {
        AccountedStep(c, s, a, id);
      }
    }
    forall id ensures DuplicationPaid(t, id) {
      assert DuplicationPaid(s, id);
      DuplicationStep(c, s, a, id);
    }
    forall id | t.history.crashed[id] == 0 ensures TerminalIsLast(t, id) {
      TerminalIsLastStep(c, s, a, id);
    }
  }

  lemma SafeInit(c: Config, workers: nat, now: int)
    ensures Safe(c, Init(workers, now)) && Unspoken(Init(workers, now))
  {
    var s := Init(workers, now);
    forall id ensures DuplicationPaid(s, id) {
      IdleTotal(workers, Executable(id), now);
      IdleTotal(workers, Answerable(id), now);
    }
  }

  /** Every reachable state is safe: any number of workers, any interleaving, any crashes. */
  lemma {:induction false} AlwaysSafe(c: Config, workers: nat, now: int, run: seq<Action>, s: State)
    requires Reaches(c, Init(workers, now), run, s)
    ensures Safe(c, s) && Unspoken(s)
  {
    if run == [] {
      SafeInit(c, workers, now);
    } else {
      var n := |run| - 1;
      var before := Run(c, Init(workers, now), run[..n]).value;
      AlwaysSafe(c, workers, now, run[..n], before);
      SafeStep(c, before, run[n]);
    }
  }
}

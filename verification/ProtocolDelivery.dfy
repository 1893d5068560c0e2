/** What a worker answers is what the API ends up showing, when nothing else is said about the experiment. */
module ProtocolDelivery {
  import opened Basics
  import opened Protocol
  import opened ProtocolSteps
  import opened ProtocolSafety
  import opened ProtocolRuns
  import opened ProtocolTheorems

  /** The action publishes a message about `id`. */
  predicate SpeaksOf(s: State, a: Action, id: Id) {
    (a.Announce? || a.Answer?) && a.i < |s.workers| && HandFor(s.workers[a.i], id)
  }

  /** No action of the run publishes a message about `id`. */
  ghost predicate Hushed(c: Config, s: State, run: seq<Action>, id: Id) {
    if run == [] then true
    else
      && Hushed(c, s, run[..|run| - 1], id)
      && match Run(c, s, run[..|run| - 1])
         case None => false
         case Some(before) => !SpeaksOf(before, run[|run| - 1], id)
  }

  /** `answer` is in the results queue, and no other message there is about its experiment. */
  ghost predicate Underway(s: State, answer: ResultMessage) {
    exists j :: 0 <= j < |s.results| && AloneAt(s, answer, j)
  }

  ghost predicate AloneAt(s: State, answer: ResultMessage, j: int) {
    0 <= j < |s.results| && s.results[j] == answer && forall k :: 0 <= k < |s.results| && k != j ==> s.results[k].id != answer.id
  }

  /** The record shows the answer, stamped between `since` and now. */
  ghost predicate Shows(s: State, answer: ResultMessage, since: int) {
    && answer.id in s.store
    && s.store[answer.id].status == (if answer.status.SaysCompleted? then Completed else Failed)
    && s.store[answer.id].result == answer.result
    && s.store[answer.id].error == answer.error
    && s.store[answer.id].completedAt.Some?
    && since <= s.store[answer.id].completedAt.value <= s.clock
  }

  ghost predicate Delivering(s: State, answer: ResultMessage, since: int) {
    && since <= s.clock && answer.id in s.store && answer.id in s.history.published
    && (Underway(s, answer) || (Silent(s.results, answer.id) && Shows(s, answer, since)))
  }

  lemma ClockGrows(c: Config, s: State, a: Action)
    requires Next(c, s, a).Some?
    ensures Next(c, s, a).value.clock >= s.clock
  {
    hide Route, ApplyResult;
  }

  lemma ConsumeDelivers(c: Config, s: State, answer: ResultMessage, since: int)
    requires Next(c, s, Consume).Some? && Delivering(s, answer, since) && answer.Terminal()
    ensures Delivering(Next(c, s, Consume).value, answer, since)
  {
    var t := Next(c, s, Consume).value;
    if Underway(s, answer) {
      var j :| 0 <= j < |s.results| && AloneAt(s, answer, j);
      if j > 0 {
        assert AloneAt(t, answer, j - 1);
      }
    } else {
      assert s.results[0] in s.results;
    }
  }

  lemma SpeechIsFor(c: Config, s: State, a: Action, id: Id)
    requires Consistent(c, s) && Next(c, s, a).Some? && (a.Announce? || a.Answer?) && !SpeaksOf(s, a, id)
    ensures exists r :: Next(c, s, a).value.results == s.results + [r] && r.id != id
  {
    hide QueueOk, Gated, Stamped, Recorded, ApplyResult, Route;
    SpeakerOk(c, s, a);
    var t := Next(c, s, a).value;
    assert t.results == s.results + [t.results[|s.results|]];
  }

  lemma OthersDeliver(c: Config, s: State, a: Action, answer: ResultMessage, since: int)
    requires Consistent(c, s) && Next(c, s, a).Some? && !a.Consume? && !SpeaksOf(s, a, answer.id)
    requires Delivering(s, answer, since)
    ensures Delivering(Next(c, s, a).value, answer, since)
  {
    hide Next, MessagesOk, Gated, Stamped, ApplyResult;
    var t := Next(c, s, a).value;
    ClockGrows(c, s, a);
    StoreChanges(c, s, a);
    PublicationChanges(c, s, a);
    ResultsGrow(c, s, a);
    if a.Announce? || a.Answer? {
      SpeechIsFor(c, s, a, answer.id);
    }
    if Underway(s, answer) {
      var j :| 0 <= j < |s.results| && AloneAt(s, answer, j);
      assert AloneAt(t, answer, j);
    }
  }

  lemma {:induction false} KeepsDelivering(c: Config, s: State, answer: ResultMessage, since: int, more: seq<Action>, t: State)
    requires Consistent(c, s) && Delivering(s, answer, since) && answer.Terminal()
    requires Reaches(c, s, more, t) && Hushed(c, s, more, answer.id)
    ensures Consistent(c, t) && Delivering(t, answer, since)
  {
    if more != [] {
      hide Next, Consistent, Delivering, SpeaksOf;
      var n := |more| - 1;
      var before := Run(c, s, more[..n]).value;
      KeepsDelivering(c, s, answer, since, more[..n], before);
      ConsistentStep(c, before, more[n]);
      if more[n].Consume? {
        ConsumeDelivers(c, before, answer, since);
      } else {
        OthersDeliver(c, before, more[n], answer, since);
      }
    }
  }

  /** An execution of a published experiment ends with `outcome` in any reachable state that holds no message about
      it, and nothing else is said about it until the answer is consumed: whatever happens meanwhile, the record then
      shows that outcome, its result and its error, stamped after the answer. */
  lemma ExecutionIsStored(c: Config, workers: nat, now: int, run: seq<Action>, s: State, i: nat, outcome: ResultMessage,
                          answered: State, more: seq<Action>, t: State)
    requires Reaches(c, Init(workers, now), run, s) && Silent(s.results, outcome.id)
    requires Reaches(c, s, [Finish(i, outcome), Answer(i)], answered)
    requires Reaches(c, answered, more, t) && Hushed(c, answered, more, outcome.id) && Silent(t.results, outcome.id)
    ensures outcome.id in t.store && t.store[outcome.id].completedAt.Some?
    ensures s.clock <= t.store[outcome.id].completedAt.value <= t.clock
    ensures outcome.status.SaysCompleted? ==>
              t.store[outcome.id].status == Completed && t.store[outcome.id].result == outcome.result
    ensures outcome.status.SaysFailed? ==>
              t.store[outcome.id].status == Failed && t.store[outcome.id].error == outcome.error
  {
    hide Consistent;
    AlwaysSafe(c, workers, now, run, s);
    SafeConsistent(c, s);
    Answered(c, s, i, outcome, answered);
    KeepsDelivering(c, answered, outcome, s.clock, more, t);
  }

  lemma SafeConsistent(c: Config, s: State)
    requires Safe(c, s)
    ensures Consistent(c, s)
  {
  }

  lemma Answered(c: Config, s: State, i: nat, outcome: ResultMessage, answered: State)
    requires Consistent(c, s) && Silent(s.results, outcome.id)
    requires Reaches(c, s, [Finish(i, outcome), Answer(i)], answered)
    ensures Consistent(c, answered) && Delivering(answered, outcome, s.clock) && outcome.Terminal()
  {
    hide Consistent, Route, ApplyResult, Run;
    RunNothing(c, s);
    RunStep(c, s, [], Finish(i, outcome));
    RunStep(c, s, [Finish(i, outcome)], Answer(i));
    assert [] + [Finish(i, outcome)] == [Finish(i, outcome)];
    assert [Finish(i, outcome)] + [Answer(i)] == [Finish(i, outcome), Answer(i)];
    var finished := Next(c, s, Finish(i, outcome)).value;
    assert Next(c, finished, Answer(i)) == Some(answered);
    ConsistentStep(c, s, Finish(i, outcome));
    ConsistentStep(c, finished, Answer(i));
    HolderIsPublished(c, s, i, outcome.id);
    assert answered.results == s.results + [outcome];
    assert AloneAt(answered, outcome, |s.results|);
  }

  lemma HolderIsPublished(c: Config, s: State, i: nat, id: Id)
    requires Consistent(c, s) && Holds(s, i) && IsFor(s.workers[i].message, id)
    ensures id in s.history.published && id in s.store
  {
    assert s.workers[i] in s.workers;
  }
}

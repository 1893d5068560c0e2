/**
 When the status of a terminal record is final, whatever becomes of its time stamp: exactly when all that
 is left in the system can only repeat it.
 */
module ProtocolStatus {
  import opened Basics
  import opened Protocol
  import opened ProtocolSteps
  import opened ProtocolSafety
  import opened ProtocolRuns
  import opened ProtocolLineage
  import opened ProtocolDispatch
  import opened ProtocolFinality

  predicate Repeats(said: ResultStatus, status: Status) {
    !said.SaysOther? && StatusOf(said) == status
  }

  /** A copy of a known algorithm can come to either outcome; an unknown one only ever fails. */
  predicate CopyMayDiffer(m: Message, id: Id) {
    CopyMaySpeak(m, id) && Known(m.body.algorithm)
  }

  predicate HandMayDiffer(w: Worker, id: Id, status: Status) {
    && HandFor(w, id)
    && match w.pc
       case Received => CopyMayDiffer(w.message, id)
       case DeadLettering => false
       case Answering(answer) =>
         !Repeats(answer.status, status) || (w.message.retries < MAX_RETRIES && Known(w.message.body.algorithm))
       case Acking => w.message.retries < MAX_RETRIES && Known(w.message.body.algorithm)
       case _ => Known(w.message.body.algorithm)
  }

  ghost predicate Agreed(results: seq<ResultMessage>, id: Id, status: Status) {
    forall r :: r in results && r.id == id ==> Repeats(r.status, status)
  }

  ghost predicate Unanimous(s: State, id: Id, status: Status) {
    && (forall m :: m in s.tasks ==> !CopyMayDiffer(m, id))
    && (forall m :: m in s.waiting ==> !CopyMayDiffer(m, id))
    && (forall w :: w in s.workers ==> !HandMayDiffer(w, id, status))
    && Agreed(s.results, id, status)
  }

  ghost predicate Decided(s: State, id: Id, status: Status) {
    id in s.store && id !in s.submitting && s.store[id].status == status && (status == Completed || status == Failed)
  }

  // ----- what is unanimous stays so -----

  lemma AddedAgrees(c: Config, s: State, a: Action, id: Id, status: Status)
    requires Lineage(s) && Unanimous(s, id, status) && id !in s.submitting && Next(c, s, a).Some? && Added(s, a).Some?
    ensures !CopyMayDiffer(Added(s, a).value, id)
  {
    hide Route, ApplyResult, Witnessed, Accounts, DeadOk, Known, Agreed, Repeats;
    if a.Republish? || a.Crash? {
      assert s.workers[a.i] in s.workers;
    } else if a.Expire? {
      assert s.waiting[a.k] in s.waiting;
    }
  }

  lemma TasksAgree(c: Config, s: State, a: Action, id: Id, status: Status)
    requires Lineage(s) && Unanimous(s, id, status) && id !in s.submitting && Next(c, s, a).Some?
    ensures forall m :: m in Next(c, s, a).value.tasks ==> !CopyMayDiffer(m, id)
  {
    hide Next, Lineage, Added, CopyMayDiffer, HandMayDiffer, Agreed;
    TasksGrow(c, s, a);
    if Added(s, a).Some? {
      AddedAgrees(c, s, a, id, status);
    }
  }

  lemma ParkedAgrees(c: Config, s: State, i: nat, id: Id, status: Status)
    requires Consistent(c, s) && Unanimous(s, id, status) && Next(c, s, Reschedule(i)).Some?
    ensures !CopyMayDiffer(WaitCopy(s.workers[i].message), id)
  {
    hide QueueOk, Gated, Stamped, Recorded, Agreed;
    assert s.workers[i] in s.workers;
  }

  lemma WaitingAgrees(c: Config, s: State, a: Action, id: Id, status: Status)
    requires Consistent(c, s) && Unanimous(s, id, status) && Next(c, s, a).Some?
    ensures forall m :: m in Next(c, s, a).value.waiting ==> !CopyMayDiffer(m, id)
  {
    hide Next, Consistent, CopyMayDiffer, HandMayDiffer, Agreed;
    ParkedGrow(c, s, a);
    if a.Reschedule? {
      ParkedAgrees(c, s, a.i, id, status);
    }
  }

  /** An unknown algorithm can only repeat a failure: a completed record has a known one. */
  lemma UnknownRepeats(c: Config, s: State, i: nat, outcome: ResultMessage, id: Id, status: Status)
    requires Dispatched(s) && Decided(s, id, status) && Next(c, s, Finish(i, outcome)).Some?
    requires HandFor(s.workers[i], id) && !Known(s.workers[i].message.body.algorithm)
    ensures Repeats(outcome.status, status)
  {
    hide Known;
    assert s.workers[i] in s.workers;
  }

  lemma DecisionAgrees(c: Config, s: State, i: nat, id: Id, status: Status)
    requires Consistent(c, s) && Lineage(s) && Unanimous(s, id, status) && Next(c, s, Dispatch(i)).Some?
    ensures !HandMayDiffer(Next(c, s, Dispatch(i)).value.workers[i], id, status)
  {
    hide Consistent, Lineage, Agreed, Repeats;
    assert s.workers[i] in s.workers;
  }

  lemma HandAgrees(c: Config, s: State, a: Action, t: State, i: nat, id: Id, status: Status)
    requires Consistent(c, s) && Lineage(s) && Dispatched(s) && Unanimous(s, id, status) && Decided(s, id, status)
    requires Next(c, s, a) == Some(t)
    requires i < |s.workers| == |t.workers| && t.workers[i] != s.workers[i]
    ensures !HandMayDiffer(t.workers[i], id, status)
  {
    hide ApplyResult, Consistent, Lineage, Dispatched, Route, Known, Agreed, Repeats;
    assert s.workers[i] in s.workers;
    DeadEnd(c, s, i);
    match a
    case Take(_, k) => assert s.tasks[k] in s.tasks;
    case Dispatch(j) => DecisionAgrees(c, s, j, id, status);
    case Finish(j, outcome) =>
      if HandFor(s.workers[j], id) {
        UnknownRepeats(c, s, j, outcome, id, status);
      }
    case _ =>
  }

  lemma HandsAgree(c: Config, s: State, a: Action, id: Id, status: Status)
    requires Consistent(c, s) && Lineage(s) && Dispatched(s) && Unanimous(s, id, status) && Decided(s, id, status)
    requires Next(c, s, a).Some?
    ensures forall w :: w in Next(c, s, a).value.workers ==> !HandMayDiffer(w, id, status)
  {
    hide Next, Consistent, Lineage, Dispatched, HandMayDiffer, CopyMayDiffer, Agreed;
    var t := Next(c, s, a).value;
    CrewStays(c, s, a);
    forall w | w in t.workers ensures !HandMayDiffer(w, id, status) {
      var i :| 0 <= i < |t.workers| && t.workers[i] == w;
      if w != s.workers[i] {
        HandAgrees(c, s, a, t, i, id, status);
      }
    }
  }

  lemma ResultsAgree(c: Config, s: State, a: Action, id: Id, status: Status)
    requires Consistent(c, s) && Unanimous(s, id, status) && Next(c, s, a).Some?
    ensures Agreed(Next(c, s, a).value.results, id, status)
  {
    hide Next, QueueOk, Gated, Stamped, Recorded, Repeats;
    ResultsGrow(c, s, a);
    if a.Announce? || a.Answer? {
      SpeakerOk(c, s, a);
      SpeakerAgrees(c, s, a, id, status);
    }
  }

  lemma SpeakerAgrees(c: Config, s: State, a: Action, id: Id, status: Status)
    requires Consistent(c, s) && Unanimous(s, id, status) && Next(c, s, a).Some? && (a.Announce? || a.Answer?)
    ensures Holds(s, a.i)
    ensures a.Announce? ==> !HandFor(s.workers[a.i], id)
    ensures a.Answer? && HandFor(s.workers[a.i], id) ==> Repeats(s.workers[a.i].pc.answer.status, status)
  {
    hide QueueOk, Gated, Stamped, Recorded, Repeats, Agreed, Route, ApplyResult;
    assert s.workers[a.i] in s.workers;
  }

  lemma RecordAgrees(c: Config, s: State, a: Action, id: Id, status: Status)
    requires Agreed(s.results, id, status) && Decided(s, id, status) && Next(c, s, a).Some?
    ensures Decided(Next(c, s, a).value, id, status)
  {
    hide Next;
    StoreChanges(c, s, a);
    SubmissionChanges(c, s, a);
    if a.Consume? {
      assert s.results[0] in s.results;
    }
  }

  /** Along every continuation the status of a unanimous experiment does not change. */
  lemma {:induction false} StatusIsFinal(c: Config, s: State, id: Id, status: Status, more: seq<Action>, t: State)
    requires Consistent(c, s) && Lineage(s) && Dispatched(s) && Unanimous(s, id, status) && Decided(s, id, status)
    requires Reaches(c, s, more, t)
    ensures Consistent(c, t) && Lineage(t) && Dispatched(t) && Unanimous(t, id, status) && Decided(t, id, status)
  {
    if more != [] {
      hide Next, Consistent, Lineage, Dispatched, CopyMayDiffer, HandMayDiffer, Agreed, Decided;
      var n := |more| - 1;
      var before := Run(c, s, more[..n]).value;
      StatusIsFinal(c, s, id, status, more[..n], before);
      ConsistentStep(c, before, more[n]);
      LineageStep(c, before, more[n]);
      DispatchedStep(c, before, more[n]);
      StillOpen(before, id, status);
      TasksAgree(c, before, more[n], id, status);
      WaitingAgrees(c, before, more[n], id, status);
      HandsAgree(c, before, more[n], id, status);
      ResultsAgree(c, before, more[n], id, status);
      RecordAgrees(c, before, more[n], id, status);
    }
  }

  lemma StillOpen(s: State, id: Id, status: Status)
    requires Decided(s, id, status)
    ensures id !in s.submitting
  {
  }

  // ----- whatever may differ can be made to change the status -----

  ghost predicate CanFlip(c: Config, s: State, id: Id, status: Status) {
    exists run, t :: Reaches(c, s, run, t) && id in t.store && t.store[id].status != status
  }

  lemma FlippedNow(c: Config, s: State, id: Id, status: Status)
    requires id in s.store && s.store[id].status != status
    ensures CanFlip(c, s, id, status)
  {
    RunNothing(c, s);
  }

  lemma FlipsAfter(c: Config, s: State, a: Action, id: Id, status: Status)
    requires Next(c, s, a).Some? && CanFlip(c, Next(c, s, a).value, id, status)
    ensures CanFlip(c, s, id, status)
  {
    hide Next, Reaches;
    var run, u :| Reaches(c, Next(c, s, a).value, run, u) && id in u.store && u.store[id].status != status;
    ReachesCons(c, s, a, run, u);
  }

  /** Consuming up to a message with another status changes the status, there or earlier. */
  lemma {:induction false} HeardFlips(c: Config, s: State, id: Id, status: Status, j: nat)
    requires Consistent(c, s) && id in s.store && j < |s.results|
    requires s.results[j].id == id && !Repeats(s.results[j].status, status)
    ensures CanFlip(c, s, id, status)
    decreases j
  {
    hide CanFlip, Consistent, Route;
    ConsistentStep(c, s, Consume);
    var t := Next(c, s, Consume).value;
    if j == 0 {
      RecognisedResult(c, s);
      FlippedNow(c, t, id, status);
    } else {
      HeardFlips(c, t, id, status, j - 1);
    }
    FlipsAfter(c, s, Consume, id, status);
  }

  lemma RecognisedResult(c: Config, s: State)
    requires Consistent(c, s) && s.results != []
    ensures !s.results[0].status.SaysOther?
  {
    assert s.results[0] in s.results;
  }

  lemma SaidFlips(c: Config, s: State, id: Id, status: Status, said: ResultStatus)
    requires Consistent(c, s) && id in s.store && CanSay(c, s, id, said) && !Repeats(said, status)
    ensures CanFlip(c, s, id, status)
  {
    hide Next, Consistent, Run, Repeats;
    var run, t :| Reaches(c, s, run, t) && SaidAt(c, s, t, id, said);
    var r :| r in t.results && r.id == id && r.status == said;
    var j :| 0 <= j < |t.results| && t.results[j] == r;
    HeardFlips(c, t, id, status, j);
    var more, u :| Reaches(c, t, more, u) && id in u.store && u.store[id].status != status;
    RunConcat(c, s, run, t, more);
    assert Reaches(c, s, run + more, u);
  }

  /** The other outcome. */
  function Opposite(status: Status): ResultStatus {
    if status == Failed then SaysCompleted else SaysFailed
  }

  lemma WorkerDiffers(c: Config, s: State, i: nat, id: Id, status: Status)
    requires Consistent(c, s) && i < |s.workers| && HandMayDiffer(s.workers[i], id, status)
    ensures exists said :: CanSay(c, s, id, said) && !Repeats(said, status)
  {
    hide CanSay, QueueOk, Gated, Stamped, Recorded;
    var w := s.workers[i];
    assert w in s.workers;
    if w.pc.Answering? && !Repeats(w.pc.answer.status, status) {
      AnsweringSays(c, s, i);
    } else {
      WorkerSays(c, s, i, id, Opposite(status));
    }
  }

  lemma NotUnanimousDiffers(c: Config, s: State, id: Id, status: Status)
    requires Consistent(c, s) && s.workers != [] && !Unanimous(s, id, status)
    ensures exists said :: CanSay(c, s, id, said) && !Repeats(said, status)
  {
    hide CanSay, Consistent, HandMayDiffer;
    if r :| r in s.results && r.id == id && !Repeats(r.status, status) {
      SaysNow(c, s, r);
    } else if m :| m in s.tasks && CopyMayDiffer(m, id) {
      var k :| 0 <= k < |s.tasks| && s.tasks[k] == m;
      TaskSays(c, s, k, id, Opposite(status));
    } else if m :| m in s.waiting && CopyMayDiffer(m, id) {
      var k :| 0 <= k < |s.waiting| && s.waiting[k] == m;
      WaitingSays(c, s, k, id, Opposite(status));
    } else {
      var w :| w in s.workers && HandMayDiffer(w, id, status);
      var i :| 0 <= i < |s.workers| && s.workers[i] == w;
      WorkerDiffers(c, s, i, id, status);
    }
  }

  /** In every reachable state, the status of a terminal record is final along every continuation if and only if
      everything that may still be said about the experiment repeats it. */
  lemma StatusFinalIff(c: Config, workers: nat, now: int, run: seq<Action>, s: State, id: Id)
    requires Reaches(c, Init(workers, now), run, s) && s.workers != []
    requires id in s.store && s.store[id].Terminal()
    ensures (forall more, t :: Reaches(c, s, more, t) ==> id in t.store && t.store[id].status == s.store[id].status)
            <==> Unanimous(s, id, s.store[id].status)
  {
    hide Unanimous, Lineage, Dispatched, CanSay;
    var status := s.store[id].status;
    AlwaysSafe(c, workers, now, run, s);
    AlwaysLineage(c, workers, now, run, s);
    AlwaysDispatched(c, workers, now, run, s);
    if Unanimous(s, id, status) {
      forall more, t | Reaches(c, s, more, t) ensures id in t.store && t.store[id].status == status {
        StatusIsFinal(c, s, id, status, more, t);
      }
    } else {
      NotUnanimousDiffers(c, s, id, status);
      var said :| CanSay(c, s, id, said) && !Repeats(said, status);
      SaidFlips(c, s, id, status, said);
      var more, t :| Reaches(c, s, more, t) && id in t.store && t.store[id].status != status;
    }
  }
}

/**
 When a record is final, crashes or not: exactly when nothing that could still speak about its
 experiment is left in the system.
 */
module ProtocolFinality {
  import opened Basics
  import opened Protocol
  import opened ProtocolSteps
  import opened ProtocolSafety
  import opened ProtocolRuns
  import opened ProtocolLineage

  /** A queued copy that a worker would not dead-letter at once. */
  predicate CopyMaySpeak(m: Message, id: Id) {
    IsFor(m, id) && (m.redelivered ==> m.retries < MAX_RETRIES)
  }

  /** A delivery that leads, or after a crash could lead, to another message about `id`. */
  predicate HandMaySpeak(w: Worker, id: Id) {
    && HandFor(w, id)
    && match w.pc
       case Received => CopyMaySpeak(w.message, id)
       case DeadLettering => false
       case Acking => w.message.retries < MAX_RETRIES
       case _ => true
  }

  ghost predicate Quiet(s: State, id: Id) {
    && (forall m :: m in s.tasks ==> !CopyMaySpeak(m, id))
    && (forall m :: m in s.waiting ==> !CopyMaySpeak(m, id))
    && (forall w :: w in s.workers ==> !HandMaySpeak(w, id))
    && Silent(s.results, id)
  }

  // ----- quiet experiments stay quiet -----

  lemma QuietTasks(c: Config, s: State, a: Action, id: Id)
    requires Consistent(c, s) && Lineage(s) && Quiet(s, id) && id !in s.submitting && Next(c, s, a).Some?
    ensures forall m :: m in Next(c, s, a).value.tasks ==> !CopyMaySpeak(m, id)
  {
    hide Next, Consistent, Witnessed, Accounts;
    TasksGrow(c, s, a);
    if Added(s, a).Some? {
      QuietAdded(c, s, a, id);
    }
  }

  lemma QuietAdded(c: Config, s: State, a: Action, id: Id)
    requires Lineage(s) && Quiet(s, id) && id !in s.submitting && Next(c, s, a).Some? && Added(s, a).Some?
    ensures !CopyMaySpeak(Added(s, a).value, id)
  {
    hide Route, ApplyResult, Witnessed, Accounts, DeadOk;
    if a.Republish? || a.Crash? {
      assert s.workers[a.i] in s.workers;
    } else if a.Expire? {
      assert s.waiting[a.k] in s.waiting;
    }
  }

  lemma QuietWaiting(c: Config, s: State, a: Action, id: Id)
    requires Quiet(s, id) && Next(c, s, a).Some?
    ensures forall m :: m in Next(c, s, a).value.waiting ==> !CopyMaySpeak(m, id)
  {
    hide Route, ApplyResult, Silent;
    if a.Reschedule? {
      assert s.workers[a.i] in s.workers;
    }
  }

  lemma DeadEnd(c: Config, s: State, i: nat)
    requires Consistent(c, s) && Lineage(s) && i < |s.workers|
    ensures s.workers[i].Busy? && s.workers[i].message.body.Task? && s.workers[i].pc == DeadLettering ==>
              s.workers[i].message.retries >= MAX_RETRIES
  {
    assert s.workers[i] in s.workers;
  }

  lemma QuietDecision(c: Config, s: State, id: Id, i: nat)
    requires Consistent(c, s) && Lineage(s) && Quiet(s, id) && Next(c, s, Dispatch(i)).Some?
    ensures !HandMaySpeak(Next(c, s, Dispatch(i)).value.workers[i], id)
  {
    hide Witnessed, Accounts, DeadOk, QueueOk, Gated, Stamped, Silent;
    assert s.workers[i] in s.workers;
  }

  lemma QuietHand(c: Config, s: State, a: Action, id: Id, i: nat)
    requires Consistent(c, s) && Lineage(s) && Quiet(s, id) && Next(c, s, a).Some?
    requires i < |s.workers| && Next(c, s, a).value.workers[i] != s.workers[i]
    ensures !HandMaySpeak(Next(c, s, a).value.workers[i], id)
  {
    hide ApplyResult, Consistent, Lineage, Silent, Route;
    assert s.workers[i] in s.workers;
    DeadEnd(c, s, i);
    if a.Take? {
      assert s.tasks[a.k] in s.tasks;
    } else if a.Dispatch? {
      QuietDecision(c, s, id, a.i);
    }
  }

  lemma QuietHands(c: Config, s: State, a: Action, id: Id)
    requires Consistent(c, s) && Lineage(s) && Quiet(s, id) && Next(c, s, a).Some?
    ensures forall w :: w in Next(c, s, a).value.workers ==> !HandMaySpeak(w, id)
  {
    hide Next, Consistent, Lineage, HandMaySpeak;
    var t := Next(c, s, a).value;
    CrewStays(c, s, a);
    forall w | w in t.workers ensures !HandMaySpeak(w, id) {
      var i :| 0 <= i < |t.workers| && t.workers[i] == w;
      if w != s.workers[i] {
        QuietHand(c, s, a, id, i);
      }
    }
  }

  lemma QuietResults(c: Config, s: State, a: Action, id: Id)
    requires Consistent(c, s) && Quiet(s, id) && Next(c, s, a).Some?
    ensures Silent(Next(c, s, a).value.results, id)
  {
    hide Route, ApplyResult, QueueOk, Gated, Stamped;
    if a.Announce? || a.Answer? {
      assert s.workers[a.i] in s.workers;
    }
  }

  lemma QuietRecord(c: Config, s: State, a: Action, id: Id)
    requires Silent(s.results, id) && id in s.store && id !in s.submitting && Next(c, s, a).Some?
    ensures var t := Next(c, s, a).value;
            id in t.store && t.store[id] == s.store[id] && id !in t.submitting
  {
    hide Route;
    if a.Consume? {
      assert s.results[0] in s.results;
    }
  }

  /** Along every continuation, crashes included, the record of a quiet experiment does not change. */
  lemma {:induction false} QuietIsFinal(c: Config, s: State, id: Id, more: seq<Action>, t: State)
    requires Consistent(c, s) && Lineage(s) && Quiet(s, id) && id in s.store && id !in s.submitting
    requires Reaches(c, s, more, t)
    ensures id in t.store && t.store[id] == s.store[id]
    ensures Consistent(c, t) && Lineage(t) && Quiet(t, id) && id !in t.submitting
  {
    if more != [] {
      hide Next, Consistent, Lineage, CopyMaySpeak, HandMaySpeak;
      var n := |more| - 1;
      var before := Run(c, s, more[..n]).value;
      QuietIsFinal(c, s, id, more[..n], before);
      ConsistentStep(c, before, more[n]);
      LineageStep(c, before, more[n]);
      QuietTasks(c, before, more[n], id);
      QuietWaiting(c, before, more[n], id);
      QuietHands(c, before, more[n], id);
      QuietResults(c, before, more[n], id);
      QuietRecord(c, before, more[n], id);
    }
  }

  // ----- whatever may speak can be made to speak -----

  /** Some continuation that consumes no result puts a message about `id` with status `said` into the results
      queue. */
  ghost predicate CanSay(c: Config, s: State, id: Id, said: ResultStatus) {
    exists run, t :: Reaches(c, s, run, t) && SaidAt(c, s, t, id, said)
  }

  ghost predicate SaidAt(c: Config, s: State, t: State, id: Id, said: ResultStatus) {
    Consistent(c, t) && t.store == s.store && exists r :: r in t.results && r.id == id && r.status == said
  }

  ghost predicate CanSpeak(c: Config, s: State, id: Id) {
    exists said :: CanSay(c, s, id, said)
  }

  /** The outcomes an execution of `algorithm` can have. */
  predicate Possible(algorithm: string, said: ResultStatus) {
    said.SaysFailed? || (said.SaysCompleted? && Known(algorithm))
  }

  predicate CopyFor(m: Message, id: Id, said: ResultStatus) {
    IsFor(m, id) && Possible(m.body.algorithm, said)
  }

  lemma ReachesCons(c: Config, s: State, a: Action, run: seq<Action>, u: State)
    requires Next(c, s, a).Some? && Reaches(c, Next(c, s, a).value, run, u)
    ensures Reaches(c, s, [a] + run, u)
  {
    hide Next;
    RunNothing(c, s);
    RunStep(c, s, [], a);
    assert [] + [a] == [a];
    RunConcat(c, s, [a], Next(c, s, a).value, run);
  }

  lemma SaysNow(c: Config, s: State, r: ResultMessage)
    requires Consistent(c, s) && r in s.results
    ensures CanSay(c, s, r.id, r.status)
  {
    hide Consistent;
    RunNothing(c, s);
    assert SaidAt(c, s, s, r.id, r.status);
  }

  lemma SaysAfter(c: Config, s: State, a: Action, id: Id, said: ResultStatus)
    requires Next(c, s, a).Some? && Next(c, s, a).value.store == s.store
    requires CanSay(c, Next(c, s, a).value, id, said)
    ensures CanSay(c, s, id, said)
  {
    hide Next, Reaches, Consistent;
    var t := Next(c, s, a).value;
    var run, u :| Reaches(c, t, run, u) && SaidAt(c, t, u, id, said);
    ReachesCons(c, s, a, run, u);
    assert SaidAt(c, s, u, id, said);
  }

  lemma AnsweringSays(c: Config, s: State, i: nat)
    requires Consistent(c, s) && Holds(s, i) && s.workers[i].pc.Answering?
    ensures CanSay(c, s, s.workers[i].pc.answer.id, s.workers[i].pc.answer.status)
  {
    hide CanSay, Consistent;
    var answer := s.workers[i].pc.answer;
    ConsistentStep(c, s, Answer(i));
    var t := Next(c, s, Answer(i)).value;
    assert t.results[|s.results|] == answer;
    SaysNow(c, t, answer);
    SaysAfter(c, s, Answer(i), answer.id, answer.status);
  }

  lemma ExecutingSays(c: Config, s: State, i: nat, id: Id, said: ResultStatus)
    requires Consistent(c, s) && Holds(s, i) && s.workers[i].pc == Executing && CopyFor(s.workers[i].message, id, said)
    ensures CanSay(c, s, id, said)
  {
    hide CanSay, Consistent;
    var finish := Finish(i, ResultMessage(id, said, None, None));
    ConsistentStep(c, s, finish);
    AnsweringSays(c, Next(c, s, finish).value, i);
    SaysAfter(c, s, finish, id, said);
  }

  /** With a fresh and good observation every fresh delivery is executed. */
  lemma FreshDeliverySays(c: Config, s: State, i: nat, id: Id, said: ResultStatus)
    requires Consistent(c, s) && Holds(s, i) && CopyFor(s.workers[i].message, id, said)
    requires s.workers[i].pc == Received && !s.workers[i].message.redelivered
    ensures CanSay(c, s, id, said)
  {
    hide CanSay, Consistent;
    var look := Observe(Good(c, s.clock));
    ConsistentStep(c, s, look);
    var seen := Next(c, s, look).value;
    ConsistentStep(c, seen, Dispatch(i));
    ExecutingSays(c, Next(c, seen, Dispatch(i)).value, i, id, said);
    SaysAfter(c, seen, Dispatch(i), id, said);
    SaysAfter(c, s, look, id, said);
  }

  /** Worker 0 can be made to take any queued message: if it is busy, it crashes first. */
  lemma CanTake(c: Config, s: State, k: nat) returns (free: State, t: State)
    requires Consistent(c, s) && s.workers != [] && k < |s.tasks|
    ensures free == s || Next(c, s, Crash(0)) == Some(free)
    ensures Next(c, free, Take(0, k)) == Some(t)
    ensures Consistent(c, free) && Consistent(c, t) && free.store == s.store && t.store == s.store
    ensures Holds(t, 0) && t.workers[0] == Busy(s.tasks[k], Received)
  {
    hide Route, Consistent;
    free := s;
    if s.workers[0].Busy? {
      ConsistentStep(c, s, Crash(0));
      free := Next(c, s, Crash(0)).value;
    }
    ConsistentStep(c, free, Take(0, k));
    t := Next(c, free, Take(0, k)).value;
  }

  lemma TakenSays(c: Config, s: State, k: nat, id: Id, said: ResultStatus, free: State, t: State)
    requires free == s || Next(c, s, Crash(0)) == Some(free)
    requires Next(c, free, Take(0, k)) == Some(t)
    requires free.store == s.store && t.store == s.store
    requires CanSay(c, t, id, said)
    ensures CanSay(c, s, id, said)
  {
    hide CanSay, Next;
    SaysAfter(c, free, Take(0, k), id, said);
    if free != s {
      SaysAfter(c, s, Crash(0), id, said);
    }
  }

  lemma FreshTaskSays(c: Config, s: State, k: nat, id: Id, said: ResultStatus)
    requires Consistent(c, s) && s.workers != [] && k < |s.tasks|
    requires CopyFor(s.tasks[k], id, said) && !s.tasks[k].redelivered
    ensures CanSay(c, s, id, said)
  {
    hide CanSay, Consistent, Next;
    var free, t := CanTake(c, s, k);
    FreshDeliverySays(c, t, 0, id, said);
    TakenSays(c, s, k, id, said, free, t);
  }

  /** Once the delay is over the retry copy is published, and it is fresh. */
  lemma BackoffSays(c: Config, s: State, i: nat, id: Id, said: ResultStatus)
    requires Consistent(c, s) && Holds(s, i) && CopyFor(s.workers[i].message, id, said) && s.workers[i].pc.BackingOff?
    ensures CanSay(c, s, id, said)
  {
    hide CanSay, Consistent, Route;
    var w := s.workers[i];
    var due := w.pc.since + ComputeBackoffDelay(w.message.retries + 1);
    var tick := Tick(if due > s.clock then due else s.clock);
    ConsistentStep(c, s, tick);
    var later := Next(c, s, tick).value;
    ConsistentStep(c, later, Republish(i));
    var t := Next(c, later, Republish(i)).value;
    assert t.tasks[|s.tasks|] == RetryCopy(w.message, later.clock - w.pc.since);
    FreshTaskSays(c, t, |s.tasks|, id, said);
    SaysAfter(c, later, Republish(i), id, said);
    SaysAfter(c, s, tick, id, said);
  }

  lemma DeliverySays(c: Config, s: State, i: nat, id: Id, said: ResultStatus)
    requires Consistent(c, s) && Holds(s, i) && s.workers[i].pc == Received
    requires CopyMaySpeak(s.workers[i].message, id) && CopyFor(s.workers[i].message, id, said)
    ensures CanSay(c, s, id, said)
  {
    hide CanSay, Consistent;
    if s.workers[i].message.redelivered {
      ConsistentStep(c, s, Dispatch(i));
      BackoffSays(c, Next(c, s, Dispatch(i)).value, i, id, said);
      SaysAfter(c, s, Dispatch(i), id, said);
    } else {
      FreshDeliverySays(c, s, i, id, said);
    }
  }

  lemma TaskSays(c: Config, s: State, k: nat, id: Id, said: ResultStatus)
    requires Consistent(c, s) && s.workers != [] && k < |s.tasks|
    requires CopyMaySpeak(s.tasks[k], id) && CopyFor(s.tasks[k], id, said)
    ensures CanSay(c, s, id, said)
  {
    hide CanSay, Consistent, Next;
    var free, t := CanTake(c, s, k);
    DeliverySays(c, t, 0, id, said);
    TakenSays(c, s, k, id, said, free, t);
  }

  lemma WaitingSays(c: Config, s: State, k: nat, id: Id, said: ResultStatus)
    requires Consistent(c, s) && s.workers != [] && k < |s.waiting|
    requires CopyMaySpeak(s.waiting[k], id) && CopyFor(s.waiting[k], id, said)
    ensures CanSay(c, s, id, said)
  {
    hide CanSay, Consistent, Route;
    ConsistentStep(c, s, Expire(k));
    var t := Next(c, s, Expire(k)).value;
    assert t.tasks[|s.tasks|] == s.waiting[k];
    TaskSays(c, t, |s.tasks|, id, said);
    SaysAfter(c, s, Expire(k), id, said);
  }

  lemma ReschedulingSays(c: Config, s: State, i: nat, id: Id, said: ResultStatus)
    requires Consistent(c, s) && Holds(s, i) && s.workers[i].pc == Rescheduling
    requires CopyFor(s.workers[i].message, id, said)
    ensures CanSay(c, s, id, said)
  {
    hide CanSay, Consistent, Route;
    ConsistentStep(c, s, Reschedule(i));
    var t := Next(c, s, Reschedule(i)).value;
    assert t.waiting[|s.waiting|] == WaitCopy(s.workers[i].message);
    WaitingSays(c, t, |s.waiting|, id, said);
    SaysAfter(c, s, Reschedule(i), id, said);
  }

  /** A crash makes a copy with retries left speak again. */
  lemma CrashSays(c: Config, s: State, i: nat, id: Id, said: ResultStatus)
    requires Consistent(c, s) && Holds(s, i) && CopyFor(s.workers[i].message, id, said)
    requires s.workers[i].message.retries < MAX_RETRIES
    ensures CanSay(c, s, id, said)
  {
    hide CanSay, Consistent, Route;
    ConsistentStep(c, s, Crash(i));
    var t := Next(c, s, Crash(i)).value;
    assert t.tasks[|s.tasks|] == Struck(s.workers[i].message);
    TaskSays(c, t, |s.tasks|, id, said);
    SaysAfter(c, s, Crash(i), id, said);
  }

  lemma AnnouncingSays(c: Config, s: State, i: nat, id: Id, said: ResultStatus)
    requires Consistent(c, s) && Holds(s, i) && s.workers[i].pc == Announcing
    requires CopyFor(s.workers[i].message, id, said)
    ensures CanSay(c, s, id, said)
  {
    hide CanSay, Consistent, Route;
    ConsistentStep(c, s, Announce(i));
    ReschedulingSays(c, Next(c, s, Announce(i)).value, i, id, said);
    SaysAfter(c, s, Announce(i), id, said);
  }

  /** Every outcome its algorithm can have, but for a hand with an answer and no retries left. */
  lemma WorkerSays(c: Config, s: State, i: nat, id: Id, said: ResultStatus)
    requires Consistent(c, s) && i < |s.workers| && HandMaySpeak(s.workers[i], id)
    requires CopyFor(s.workers[i].message, id, said)
    requires s.workers[i].pc.Answering? ==> s.workers[i].message.retries < MAX_RETRIES
    ensures CanSay(c, s, id, said)
  {
    hide CanSay, Consistent, CopyFor;
    match s.workers[i].pc
    case Received => DeliverySays(c, s, i, id, said);
    case BackingOff(_) => BackoffSays(c, s, i, id, said);
    case Rescheduling => ReschedulingSays(c, s, i, id, said);
    case Announcing => AnnouncingSays(c, s, i, id, said);
    case Executing => ExecutingSays(c, s, i, id, said);
    case _ => CrashSays(c, s, i, id, said);
  }

  lemma AnswerIsFor(c: Config, s: State, i: nat)
    requires Consistent(c, s) && Holds(s, i) && s.workers[i].pc.Answering?
    ensures IsFor(s.workers[i].message, s.workers[i].pc.answer.id) && s.workers[i].pc.answer.Terminal()
  {
    assert s.workers[i] in s.workers;
  }

  /** The converse: an experiment that is not quiet can still be spoken about. */
  lemma NotQuietSpeaks(c: Config, s: State, id: Id)
    requires Consistent(c, s) && s.workers != [] && !Quiet(s, id)
    ensures CanSpeak(c, s, id)
  {
    hide CanSay, Consistent;
    if r :| r in s.results && r.id == id {
      SaysNow(c, s, r);
    } else if m :| m in s.tasks && CopyMaySpeak(m, id) {
      var k :| 0 <= k < |s.tasks| && s.tasks[k] == m;
      TaskSays(c, s, k, id, SaysFailed);
    } else if m :| m in s.waiting && CopyMaySpeak(m, id) {
      var k :| 0 <= k < |s.waiting| && s.waiting[k] == m;
      WaitingSays(c, s, k, id, SaysFailed);
    } else {
      var w :| w in s.workers && HandMaySpeak(w, id);
      var i :| 0 <= i < |s.workers| && s.workers[i] == w;
      if w.pc.Answering? {
        AnswerIsFor(c, s, i);
        AnsweringSays(c, s, i);
      } else {
        WorkerSays(c, s, i, id, SaysFailed);
      }
    }
  }

  // ----- whatever is said about a terminal record changes it -----

  ghost predicate CanChange(c: Config, s: State, id: Id, record: Record) {
    exists run, t :: Reaches(c, s, run, t) && id in t.store && t.store[id] != record
  }

  lemma ChangesAfter(c: Config, s: State, a: Action, id: Id, record: Record)
    requires Next(c, s, a).Some? && CanChange(c, Next(c, s, a).value, id, record)
    ensures CanChange(c, s, id, record)
  {
    hide Next, Reaches;
    var run, u :| Reaches(c, Next(c, s, a).value, run, u) && id in u.store && u.store[id] != record;
    ReachesCons(c, s, a, run, u);
  }

  lemma ChangedNow(c: Config, s: State, id: Id, record: Record)
    requires id in s.store && s.store[id] != record
    ensures CanChange(c, s, id, record)
  {
    RunNothing(c, s);
  }

  /** A message about `id` at the head of the results queue: consumed at a new moment it changes at least the stamp. */
  lemma HeadChanges(c: Config, s: State, id: Id)
    requires Consistent(c, s) && id in s.store && s.store[id].Terminal() && s.results != [] && s.results[0].id == id
    ensures CanChange(c, s, id, s.store[id])
  {
    hide CanChange, Route, QueueOk, HandOk, Gated;
    assert s.results[0] in s.results;
    var tick := Tick(if s.store[id].completedAt == Some(s.clock) then s.clock + 1 else s.clock);
    var later := Next(c, s, tick).value;
    var t := Next(c, later, Consume).value;
    ChangedNow(c, t, id, s.store[id]);
    ChangesAfter(c, later, Consume, id, s.store[id]);
    ChangesAfter(c, s, tick, id, s.store[id]);
  }

  lemma {:induction false} HeardChanges(c: Config, s: State, id: Id, j: nat)
    requires Consistent(c, s) && id in s.store && s.store[id].Terminal() && j < |s.results| && s.results[j].id == id
    ensures CanChange(c, s, id, s.store[id])
    decreases j
  {
    hide CanChange, Consistent, Route;
    if j == 0 {
      HeadChanges(c, s, id);
    } else {
      ConsistentStep(c, s, Consume);
      var t := Next(c, s, Consume).value;
      if t.store[id] != s.store[id] {
        ChangedNow(c, t, id, s.store[id]);
      } else {
        HeardChanges(c, t, id, j - 1);
      }
      ChangesAfter(c, s, Consume, id, s.store[id]);
    }
  }

  lemma SpokenChanges(c: Config, s: State, id: Id)
    requires Consistent(c, s) && id in s.store && s.store[id].Terminal() && CanSpeak(c, s, id)
    ensures CanChange(c, s, id, s.store[id])
  {
    hide Next, Consistent, Run;
    var said :| CanSay(c, s, id, said);
    var run, t :| Reaches(c, s, run, t) && SaidAt(c, s, t, id, said);
    var r :| r in t.results && r.id == id;
    var j :| 0 <= j < |t.results| && t.results[j] == r;
    HeardChanges(c, t, id, j);
    var more, u :| Reaches(c, t, more, u) && id in u.store && u.store[id] != t.store[id];
    RunConcat(c, s, run, t, more);
    assert Reaches(c, s, run + more, u);
  }

  /** A terminal record is final if and only if its experiment is quiet. */
  lemma FinalIffQuiet(c: Config, workers: nat, now: int, run: seq<Action>, s: State, id: Id)
    requires Reaches(c, Init(workers, now), run, s) && s.workers != []
    requires id in s.store && s.store[id].Terminal()
    ensures (forall more, t :: Reaches(c, s, more, t) ==> id in t.store && t.store[id] == s.store[id]) <==> Quiet(s, id)
  {
    hide Quiet, Lineage, CanSpeak;
    AlwaysSafe(c, workers, now, run, s);
    AlwaysLineage(c, workers, now, run, s);
    if Quiet(s, id) {
      forall more, t | Reaches(c, s, more, t) ensures id in t.store && t.store[id] == s.store[id] {
        QuietIsFinal(c, s, id, more, t);
      }
    } else {
      NotQuietSpeaks(c, s, id);
      SpokenChanges(c, s, id);
      var more, t :| Reaches(c, s, more, t) && id in t.store && t.store[id] != s.store[id];
    }
  }
}

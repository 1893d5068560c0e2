/**
 Bookkeeping for the protocol: every copy of a message, wherever it is, gets a weight,
 and `TotalStep` says by how much each action changes the total.
 */
module ProtocolWeights {
  import opened Basics
  import opened Protocol

  /** A weight for a message in each queue and in a worker's hands. */
  datatype Weights = Weights(
    task: Message -> int,
    waiting: Message -> int,
    dead: Message -> int,
    hand: Worker -> int)

  ghost function Total(s: State, w: Weights): int {
    Sum(s.tasks, w.task) + Sum(s.waiting, w.waiting) + Sum(s.deadLetters, w.dead) + Sum(s.workers, w.hand)
  }

  /** The change of the hands of worker `i` when it becomes `after`. */
  function HandDelta(s: State, w: Weights, i: nat, after: Worker): int
    requires i < |s.workers|
  {
    w.hand(after) - w.hand(s.workers[i])
  }

  /** The change of `Total` under `a`, read off the copies the action creates and destroys. */
  function Delta(c: Config, s: State, a: Action, w: Weights): int
    requires Next(c, s, a).Some?
  {
    match a
    case Enqueue(id) => w.task(FreshTask(id, s.store[id].algorithm))
    case Take(i, k) => HandDelta(s, w, i, Busy(s.tasks[k], Received)) - w.task(s.tasks[k])
    case Dispatch(i) =>
      HandDelta(s, w, i, Busy(s.workers[i].message, Route(c, s.workers[i].message, s.snapshot, s.clock)))
    case Republish(i) =>
      HandDelta(s, w, i, Busy(s.workers[i].message, Acking)) + w.task(RetryCopy(s.workers[i].message, s.clock - s.workers[i].pc.since))
    case DeadLetter(i) =>
      HandDelta(s, w, i, Busy(s.workers[i].message, Acking)) + w.dead(DeadCopy(s.workers[i].message))
    case Announce(i) => HandDelta(s, w, i, Busy(s.workers[i].message, Rescheduling))
    case Reschedule(i) =>
      HandDelta(s, w, i, Busy(s.workers[i].message, Acking)) + w.waiting(WaitCopy(s.workers[i].message))
    case Finish(i, outcome) => HandDelta(s, w, i, Busy(s.workers[i].message, Answering(outcome)))
    case Answer(i) => HandDelta(s, w, i, Busy(s.workers[i].message, Acking))
    case Ack(i) => HandDelta(s, w, i, Idle)
    case Crash(i) => HandDelta(s, w, i, Idle) + w.task(Struck(s.workers[i].message))
    case Expire(k) => w.task(s.waiting[k]) - w.waiting(s.waiting[k])
    case Foreign(bytes) => w.task(Message(Malformed(bytes), 0, 0, false, UNTOUCHED))
    case _ => 0
  }

  /** Actions that change one hand and no queue of copies. */
  lemma HandTotal(c: Config, s: State, a: Action, w: Weights)
    requires Next(c, s, a).Some? && (a.Dispatch? || a.Announce? || a.Finish? || a.Answer? || a.Ack?)
    ensures Total(Next(c, s, a).value, w) == Total(s, w) + Delta(c, s, a, w)
  {
    hide Sum, Route, ApplyResult;
    SumUpdate(s.workers, a.i, Next(c, s, a).value.workers[a.i], w.hand);
  }

  /** Actions that move a copy between a hand and a queue. */
  lemma MoveTotal(c: Config, s: State, a: Action, w: Weights)
    requires Next(c, s, a).Some? && (a.Take? || a.Republish? || a.DeadLetter? || a.Reschedule? || a.Crash?)
    ensures Total(Next(c, s, a).value, w) == Total(s, w) + Delta(c, s, a, w)
  {
    hide Sum, Route, ApplyResult;
    var t := Next(c, s, a).value;
    SumUpdate(s.workers, a.i, t.workers[a.i], w.hand);
    match a
    case Take(_, k) => SumRemove(s.tasks, k, w.task);
    case Republish(i) =>
      SumAppend(s.tasks, RetryCopy(s.workers[i].message, s.clock - s.workers[i].pc.since), w.task);
    case DeadLetter(i) => SumAppend(s.deadLetters, DeadCopy(s.workers[i].message), w.dead);
    case Reschedule(i) => SumAppend(s.waiting, WaitCopy(s.workers[i].message), w.waiting);
    case Crash(i) => SumAppend(s.tasks, Struck(s.workers[i].message), w.task);
  }

  /** Actions of the API, the broker and the rest of the world. */
  lemma OutsideTotal(c: Config, s: State, a: Action, w: Weights)
    requires Next(c, s, a).Some?
    requires a.Save? || a.Enqueue? || a.EnqueueFails? || a.Consume? || a.Expire? || a.Observe? || a.Tick? || a.Foreign?
    ensures Total(Next(c, s, a).value, w) == Total(s, w) + Delta(c, s, a, w)
  {
    hide Sum, Route, ApplyResult;
    match a
    case Enqueue(id) => SumAppend(s.tasks, FreshTask(id, s.store[id].algorithm), w.task);
    case Expire(k) =>
      SumAppend(s.tasks, s.waiting[k], w.task);
      SumRemove(s.waiting, k, w.waiting);
    case Foreign(bytes) => SumAppend(s.tasks, Message(Malformed(bytes), 0, 0, false, UNTOUCHED), w.task);
    case _ =>
  }

  lemma TotalStep(c: Config, s: State, a: Action, w: Weights)
    requires Next(c, s, a).Some?
    ensures Total(Next(c, s, a).value, w) == Total(s, w) + Delta(c, s, a, w)
  {
    match a
    case Dispatch(_) => HandTotal(c, s, a, w);
    case Announce(_) => HandTotal(c, s, a, w);
    case Finish(_, _) => HandTotal(c, s, a, w);
    case Answer(_) => HandTotal(c, s, a, w);
    case Ack(_) => HandTotal(c, s, a, w);
    case Take(_, _) => MoveTotal(c, s, a, w);
    case Republish(_) => MoveTotal(c, s, a, w);
    case DeadLetter(_) => MoveTotal(c, s, a, w);
    case Reschedule(_) => MoveTotal(c, s, a, w);
    case Crash(_) => MoveTotal(c, s, a, w);
    case _ => OutsideTotal(c, s, a, w);
  }

  lemma IdleTotal(n: nat, w: Weights, now: int)
    requires w.hand(Idle) == 0
    ensures Total(Init(n, now), w) == 0
  {
    IdleSum(Init(n, now).workers, w.hand);
  }

  lemma IdleSum(s: seq<Worker>, hand: Worker -> int)
    requires hand(Idle) == 0
    requires forall x :: x in s ==> x.Idle?
    ensures Sum(s, hand) == 0
  {
    if s != [] {
      assert s[|s| - 1] in s;
      IdleSum(s[..|s| - 1], hand);
    }
  }
}

/** What one action adds to each queue and changes in the hands, in the executions and in the store. */
module ProtocolSteps {
  import opened Basics
  import opened Protocol

  /** An observation that the policy allows now. */
  function Good(c: Config, now: int): (o: Observation)
    ensures c.policy.Evaluate(Some(o), now) == Allow
  {
    Observation("aer-simulator", if c.policy.freshness >= 0 then now else now - c.policy.freshness,
                if c.policy.rejectErrorRate > 0.0 then 0.0 else c.policy.rejectErrorRate - 1.0, 1024)
  }

  /** The only copy an action can add to the task queue. */
  function Added(s: State, a: Action): Option<Message> {
    match a
    case Enqueue(id) => if id in s.store then Some(FreshTask(id, s.store[id].algorithm)) else None
    case Republish(i) =>
      if Holds(s, i) && s.workers[i].pc.BackingOff?
      then Some(RetryCopy(s.workers[i].message, s.clock - s.workers[i].pc.since)) else None
    case Crash(i) => if Holds(s, i) then Some(Struck(s.workers[i].message)) else None
    case Expire(k) => if k < |s.waiting| then Some(s.waiting[k]) else None
    case Foreign(bytes) => Some(Message(Malformed(bytes), 0, 0, false, UNTOUCHED))
    case _ => None
  }

  lemma TasksGrow(c: Config, s: State, a: Action)
    requires Next(c, s, a).Some?
    ensures forall m :: m in Next(c, s, a).value.tasks ==> m in s.tasks || Added(s, a) == Some(m)
  {
    hide Route, ApplyResult;
  }

  lemma ParkedGrow(c: Config, s: State, a: Action)
    requires Next(c, s, a).Some?
    ensures var t := Next(c, s, a).value;
            && (forall m :: m in t.waiting ==> m in s.waiting || (a.Reschedule? && m == WaitCopy(s.workers[a.i].message)))
            && (forall m :: m in t.deadLetters ==>
                              m in s.deadLetters || (a.DeadLetter? && m == DeadCopy(s.workers[a.i].message)))
  {
    hide Route, ApplyResult;
  }

  /** Only announcing and answering add to the results, and only consuming takes from them. */
  lemma ResultsGrow(c: Config, s: State, a: Action)
    requires Next(c, s, a).Some?
    ensures Next(c, s, a).value.results
         == match a
            case Announce(i) =>
              s.results + [WaitingNotice(if s.workers[i].message.body.Task? then s.workers[i].message.body.id else "")]
            case Answer(i) => s.results + [s.workers[i].pc.answer]
            case Consume => s.results[1..]
            case _ => s.results
  {
    hide Route, ApplyResult;
  }

  /** The worker an action belongs to. */
  function Actor(a: Action): Option<nat> {
    match a
    case Take(i, _) => Some(i)
    case Dispatch(i) => Some(i)
    case Republish(i) => Some(i)
    case DeadLetter(i) => Some(i)
    case Announce(i) => Some(i)
    case Reschedule(i) => Some(i)
    case Finish(i, _) => Some(i)
    case Answer(i) => Some(i)
    case Ack(i) => Some(i)
    case Crash(i) => Some(i)
    case _ => None
  }

  lemma OneHandMoves(c: Config, s: State, a: Action)
    requires Next(c, s, a).Some?
    ensures var t := Next(c, s, a).value;
            match Actor(a)
            case None => t.workers == s.workers
            case Some(i) => i < |s.workers| && |t.workers| == |s.workers| && t.workers == s.workers[i := t.workers[i]]
  {
    hide Route, ApplyResult;
  }

  /** Only dispatching starts executions. */
  lemma OthersKeepExecutions(c: Config, s: State, a: Action)
    requires Next(c, s, a).Some? && !a.Dispatch?
    ensures Next(c, s, a).value.history.executions == s.history.executions
  {
    hide Route, ApplyResult;
  }

  /** Only the probe stores observations. */
  lemma OthersKeepGate(c: Config, s: State, a: Action)
    requires Next(c, s, a).Some?
    ensures var t := Next(c, s, a).value;
            !a.Observe? ==> t.snapshot == s.snapshot && t.history.observed == s.history.observed
  {
    hide Route, ApplyResult;
  }

  /** Records are written by the API alone. */
  lemma StoreChanges(c: Config, s: State, a: Action)
    requires Next(c, s, a).Some?
    ensures Next(c, s, a).value.store
         == match a
            case Save(id, algorithm) => s.store[id := Record(algorithm, Queued, s.clock, None, None, None)]
            case EnqueueFails(id, error) =>
              if id in s.store
              then s.store[id := Record(s.store[id].algorithm, Failed, s.store[id].submittedAt, Some(s.clock), None, Some(error))]
              else s.store
            case Consume => if s.results == [] then s.store else ApplyResult(s.store, s.results[0], s.clock)
            case _ => s.store
    ensures a.Save? ==> a.id !in s.store
    ensures a.EnqueueFails? ==> a.id in s.submitting && a.id in s.store
    ensures a.Enqueue? ==> a.id in s.submitting && a.id in s.store
    ensures a.Consume? ==> s.results != []
  {
    hide Route, ApplyResult;
  }

  lemma SubmissionChanges(c: Config, s: State, a: Action)
    requires Next(c, s, a).Some?
    ensures var t := Next(c, s, a).value;
            t.submitting == match a
                            case Save(id, _) => s.submitting + {id}
                            case Enqueue(id) => s.submitting - {id}
                            case EnqueueFails(id, _) => s.submitting - {id}
                            case _ => s.submitting
  {
    hide Route, ApplyResult;
  }

  lemma PublicationChanges(c: Config, s: State, a: Action)
    requires Next(c, s, a).Some?
    ensures Next(c, s, a).value.history.published
         == if a.Enqueue? then s.history.published + {a.id} else s.history.published
  {
    hide Route, ApplyResult;
  }
}

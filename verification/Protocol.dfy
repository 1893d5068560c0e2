/**
 The experiment task protocol as a state machine.

 Every `await` of the API and of the orchestrator worker that touches a queue, the
 store or an acknowledgement is one atomic `Action`.  `Next` says what the action does,
 or `None` when the program cannot take it in that state.  A crash of a worker is an
 action too, enabled at every program point of a message in hand.
 */
module Protocol {
  import opened Basics

  type Id = string
  type Payload = string

  // ----- services/orchestrator/app/calibration_policy.py -----

  datatype Observation = Observation(backendName: string, observedAt: int, errorRate: real, shots: int)

  datatype Decision = Allow | Wait | Reject

  datatype Policy = Policy(freshness: int, rejectErrorRate: real) {
    function Evaluate(observation: Option<Observation>, now: int): (d: Decision)
      ensures d == Allow <==>
              observation.Some? && now <= observation.value.observedAt + freshness
              && observation.value.errorRate < rejectErrorRate
      ensures d == Reject <==>
              observation.Some? && now <= observation.value.observedAt + freshness
              && observation.value.errorRate >= rejectErrorRate
    {
      if observation.None? then Wait
      else if now - observation.value.observedAt > freshness then Wait
      else if observation.value.errorRate >= rejectErrorRate then Reject
      else Allow
    }
  }

  // ----- services/quantum-core/quantum_core/tasks.py and the RabbitMQ envelope -----

  const VQE := "vqe"

  datatype Body = Task(id: Id, algorithm: string) | Malformed(bytes: string)

  /** What happened to a message and to the copies it was made from; no program reads it: the seconds
      slept in completed backoffs, the crashes that hit it in a worker's hands, and those of them that
      hit a delivery already marked as redelivered. */
  datatype Past = Past(slept: int, crashes: nat, late: nat)

  /** A message of the task, wait or dead-letter queue: `retries` is the header x-retry-count,
      `waits` the header x-calibration-wait-count (0 when absent). */
  datatype Message = Message(body: Body, retries: nat, waits: nat, redelivered: bool, past: Past)

  const UNTOUCHED := Past(0, 0, 0)

  // ----- services/orchestrator/app/tasks/run_experiment.py -----

  /** The algorithms execute_task dispatches; it raises on any other. */
  predicate Known(algorithm: string) {
    algorithm == "grover" || algorithm == "sat_grover" || algorithm == "qpe" || algorithm == VQE
  }

  // ----- services/orchestrator/app/retry_policy.py: the backoff, in whole seconds -----

  const BASE_DELAY_S := 2
  const BACKOFF_FACTOR := 2

  function Power(base: nat, exponent: nat): nat {
    if exponent == 0 then 1 else base * Power(base, exponent - 1)
  }

  /** The sleep before the `retryCount`-th retry copy is published. */
  function ComputeBackoffDelay(retryCount: nat): nat
    requires retryCount >= 1
  {
    BASE_DELAY_S * Power(BACKOFF_FACTOR, retryCount - 1)
  }

  datatype ResultStatus = SaysWaiting | SaysCompleted | SaysFailed | SaysOther(name: string)

  datatype ResultMessage = ResultMessage(id: Id, status: ResultStatus, result: Option<Payload>, error: Option<string>) {
    predicate Terminal() { status.SaysCompleted? || status.SaysFailed? }
  }

  // ----- services/api: stored records -----

  datatype Status = Queued | WaitingForCalibration | Completed | Failed

  datatype Record = Record(
    algorithm: string,
    status: Status,
    submittedAt: int,
    completedAt: Option<int>,
    result: Option<Payload>,
    error: Option<string>)
  {
    predicate Terminal() { status.Completed? || status.Failed? }
  }

  function StatusOf(said: ResultStatus): Status
    requires !said.SaysOther?
  {
    match said
    case SaysWaiting => WaitingForCalibration
    case SaysCompleted => Completed
    case SaysFailed => Failed
  }

  /** The record that `apply_result_message` saves over `existing`. */
  function Updated(existing: Record, m: ResultMessage, now: int): Record
    requires !m.status.SaysOther?
  {
    existing.(status := StatusOf(m.status),
              completedAt := if m.Terminal() then Some(now) else None,
              result := if m.Terminal() then m.result else existing.result,
              error := m.error)
  }

  /** The whole store after `apply_result_message`: unknown ids and unknown statuses change nothing. */
  function ApplyResult(store: map<Id, Record>, m: ResultMessage, now: int): map<Id, Record> {
    if m.id !in store || m.status.SaysOther? then store
    else store[m.id := Updated(store[m.id], m, now)]
  }

  // ----- services/orchestrator: one worker process and its message in hand -----

  const MAX_RETRIES := 3

  /** Where the worker is with the message it holds unacknowledged. */
  datatype Pc =
    | Received                         // delivered, nothing done yet
    | BackingOff(since: int)           // sleeping inside schedule_retry
    | DeadLettering                    // about to publish to the dead-letter queue
    | Announcing                       // trigger set, about to publish waiting_for_calibration
    | Rescheduling                     // about to publish the copy to the wait queue
    | Executing                        // inside execute_task
    | Answering(answer: ResultMessage) // about to publish a completed or failed result
    | Acking                           // published, about to ack

  datatype Worker = Idle | Busy(message: Message, pc: Pc)

  /** One call of execute_task: what it ran and the observation that let it run (vqe only). */
  datatype Execution = Execution(id: Id, algorithm: string, basis: Option<Observation>, decidedAt: int)

  /** What has happened so far; no program reads it. */
  datatype History = History(
    published: set<Id>,             // ids whose task was enqueued
    observed: set<Observation>,     // every observation ever stored
    executions: seq<Execution>,
    executed: multiset<Id>,         // one per execution
    answered: multiset<Id>,         // one per completed/failed result published
    crashed: multiset<Id>,          // one per crash while a copy of this id was in hand
    late: multiset<Id>)             // one per crash that hit a delivery marked as redelivered

  datatype State = State(
    store: map<Id, Record>,
    submitting: set<Id>,            // saved by submit_experiment, not published yet
    tasks: seq<Message>,
    waiting: seq<Message>,
    deadLetters: seq<Message>,
    results: seq<ResultMessage>,
    workers: seq<Worker>,
    snapshot: Option<Observation>,  // the row the calibration gate reads
    clock: int,
    history: History)

  datatype Config = Config(maxWaits: nat, policy: Policy)

  datatype Action =
    // the API process
    | Save(id: Id, algorithm: string)
    | Enqueue(id: Id)
    | EnqueueFails(id: Id, error: string)
    | Consume
    // worker process `i`
    | Take(i: nat, k: nat)
    | Dispatch(i: nat)
    | Republish(i: nat)
    | DeadLetter(i: nat)
    | Announce(i: nat)
    | Reschedule(i: nat)
    | Finish(i: nat, outcome: ResultMessage)
    | Answer(i: nat)
    | Ack(i: nat)
    | Crash(i: nat)
    // the broker and the rest of the world
    | Expire(k: nat)
    | Observe(observation: Observation)
    | Tick(now: int)
    | Foreign(bytes: string)

  function EmptyHistory(): History {
    History({}, {}, [], multiset{}, multiset{}, multiset{}, multiset{})
  }

  function Init(workers: nat, now: int): State {
    State(map[], {}, [], [], [], [], seq(workers, i => Idle), None, now, EmptyHistory())
  }

  // ----- the messages the program builds -----

  function FreshTask(id: Id, algorithm: string): Message {
    Message(Task(id, algorithm), 0, 0, false, UNTOUCHED)
  }

  /** The copy schedule_retry publishes: fresh for the broker, one more retry, other headers kept. */
  function RetryCopy(m: Message, slept: int): Message {
    Message(m.body, m.retries + 1, m.waits, false, m.past.(slept := m.past.slept + slept))
  }

  /** The copy reschedule publishes to the wait queue. */
  function WaitCopy(m: Message): Message {
    Message(m.body, m.retries, m.waits + 1, false, m.past)
  }

  function DeadCopy(m: Message): Message {
    m.(redelivered := false)
  }

  /** The delivery the broker makes again after its worker died. */
  function Struck(m: Message): Message {
    m.(redelivered := true,
       past := m.past.(crashes := m.past.crashes + 1, late := m.past.late + if m.redelivered then 1 else 0))
  }

  function WaitingNotice(id: Id): ResultMessage {
    ResultMessage(id, SaysWaiting, None, None)
  }

  function FailureNotice(id: Id, error: string): ResultMessage {
    ResultMessage(id, SaysFailed, None, Some(error))
  }

  const REJECTED := "backend calibration rejected execution"
  const NEVER_FRESH := "calibration did not become fresh within the wait policy"

  /** Where handle_redelivery and handle_message go with a delivered message. */
  function Route(c: Config, m: Message, snapshot: Option<Observation>, now: int): Pc {
    if m.redelivered then
      if m.retries >= MAX_RETRIES then DeadLettering else BackingOff(now)
    else if m.body.Malformed? then DeadLettering
    else if m.body.algorithm == VQE then
      match c.policy.Evaluate(snapshot, now)
      case Reject => Answering(FailureNotice(m.body.id, REJECTED))
      case Wait =>
        if m.waits >= c.maxWaits then Answering(FailureNotice(m.body.id, NEVER_FRESH)) else Announcing
      case Allow => Executing
    else Executing
  }

  predicate IsFor(m: Message, id: Id) {
    m.body.Task? && m.body.id == id
  }

  function IdOf(m: Message): multiset<Id> {
    if m.body.Task? then multiset{m.body.id} else multiset{}
  }

  predicate Holds(s: State, i: nat) {
    i < |s.workers| && s.workers[i].Busy?
  }

  function At(s: State, i: nat, pc: Pc): State
    requires Holds(s, i)
  {
    s.(workers := s.workers[i := s.workers[i].(pc := pc)])
  }

  function Without<T>(q: seq<T>, k: nat): seq<T>
    requires k < |q|
  {
    q[..k] + q[k + 1..]
  }

  function Next(c: Config, s: State, a: Action): Option<State> {
    match a
    case Save(id, algorithm) =>
      if id in s.store then None
      else Some(s.(store := s.store[id := Record(algorithm, Queued, s.clock, None, None, None)],
                   submitting := s.submitting + {id}))
    case Enqueue(id) =>
      if id !in s.submitting || id !in s.store then None
      else Some(s.(tasks := s.tasks + [FreshTask(id, s.store[id].algorithm)],
                   submitting := s.submitting - {id},
                   history := s.history.(published := s.history.published + {id})))
    case EnqueueFails(id, error) =>
      if id !in s.submitting || id !in s.store then None
      else Some(s.(store := s.store[id := Record(s.store[id].algorithm, Failed, s.store[id].submittedAt,
                                                 Some(s.clock), None, Some(error))],
                   submitting := s.submitting - {id}))
    case Consume =>
      if s.results == [] then None
      else Some(s.(store := ApplyResult(s.store, s.results[0], s.clock), results := s.results[1..]))
    case Take(i, k) =>
      if i >= |s.workers| || s.workers[i].Busy? || k >= |s.tasks| then None
      else Some(s.(tasks := Without(s.tasks, k), workers := s.workers[i := Busy(s.tasks[k], Received)]))
    case Dispatch(i) =>
      if !Holds(s, i) || s.workers[i].pc != Received then None
      else
        var m := s.workers[i].message;
        var pc := Route(c, m, s.snapshot, s.clock);
        if pc == Executing && m.body.Task? then
          var basis := if m.body.algorithm == VQE then s.snapshot else None;
          Some(At(s, i, pc).(history := s.history.(
                               executions := s.history.executions
                                             + [Execution(m.body.id, m.body.algorithm, basis, s.clock)],
                               executed := s.history.executed + multiset{m.body.id})))
        else Some(At(s, i, pc))
    case Republish(i) =>
      if !Holds(s, i) || !s.workers[i].pc.BackingOff? then None
      else
        var m, slept := s.workers[i].message, s.clock - s.workers[i].pc.since;
        if slept < ComputeBackoffDelay(m.retries + 1) then None
        else Some(At(s, i, Acking).(tasks := s.tasks + [RetryCopy(m, slept)]))
    case DeadLetter(i) =>
      if !Holds(s, i) || s.workers[i].pc != DeadLettering then None
      else Some(At(s, i, Acking).(deadLetters := s.deadLetters + [DeadCopy(s.workers[i].message)]))
    case Announce(i) =>
      if !Holds(s, i) || s.workers[i].pc != Announcing || s.workers[i].message.body.Malformed? then None
      else Some(At(s, i, Rescheduling).(results := s.results + [WaitingNotice(s.workers[i].message.body.id)]))
    case Reschedule(i) =>
      if !Holds(s, i) || s.workers[i].pc != Rescheduling then None
      else Some(At(s, i, Acking).(waiting := s.waiting + [WaitCopy(s.workers[i].message)]))
    case Finish(i, outcome) =>
      if !Holds(s, i) || s.workers[i].pc != Executing || !IsFor(s.workers[i].message, outcome.id)
         || !outcome.Terminal() || (outcome.status.SaysCompleted? && !Known(s.workers[i].message.body.algorithm))
      then None
      else Some(At(s, i, Answering(outcome)))
    case Answer(i) =>
      if !Holds(s, i) || !s.workers[i].pc.Answering? then None
      else
        var answer := s.workers[i].pc.answer;
        Some(At(s, i, Acking).(results := s.results + [answer],
                               history := s.history.(answered := s.history.answered + multiset{answer.id})))
    case Ack(i) =>
      if !Holds(s, i) || s.workers[i].pc != Acking then None
      else Some(s.(workers := s.workers[i := Idle]))
    case Crash(i) =>
      if !Holds(s, i) then None
      else
        var m := s.workers[i].message;
        Some(s.(tasks := s.tasks + [Struck(m)],
                workers := s.workers[i := Idle],
                history := s.history.(crashed := s.history.crashed + IdOf(m),
                                      late := s.history.late + if m.redelivered then IdOf(m) else multiset{})))
    case Expire(k) =>
      if k >= |s.waiting| then None
      else Some(s.(tasks := s.tasks + [s.waiting[k]], waiting := Without(s.waiting, k)))
    case Observe(o) =>
      Some(s.(snapshot := Some(o), history := s.history.(observed := s.history.observed + {o})))
    case Tick(now) =>
      if now < s.clock then None else Some(s.(clock := now))
    case Foreign(bytes) =>
      Some(s.(tasks := s.tasks + [Message(Malformed(bytes), 0, 0, false, UNTOUCHED)]))
  }

  /** The state after a whole run, or `None` when some action of it is not enabled. */
  ghost function Run(c: Config, s: State, run: seq<Action>): Option<State> {
    if run == [] then Some(s)
    else
      match Run(c, s, run[..|run| - 1])
      case None => None
      case Some(t) => Next(c, t, run[|run| - 1])
  }

  ghost predicate Reaches(c: Config, s: State, run: seq<Action>, t: State) {
    Run(c, s, run) == Some(t)
  }

  lemma CrewStays(c: Config, s: State, a: Action)
    requires Next(c, s, a).Some?
    ensures |Next(c, s, a).value.workers| == |s.workers|
  {
  }

  lemma RunNothing(c: Config, s: State)
    ensures Reaches(c, s, [], s)
  {
  }

  lemma RunStep(c: Config, s: State, run: seq<Action>, a: Action)
    ensures Run(c, s, run + [a]) == match Run(c, s, run) case None => None case Some(t) => Next(c, t, a)
  {
    assert (run + [a])[..|run|] == run;
  }

  lemma {:induction false} RunConcat(c: Config, s: State, first: seq<Action>, t: State, second: seq<Action>)
    requires Reaches(c, s, first, t)
    ensures Run(c, s, first + second) == Run(c, t, second)
  {
    hide Next;
    if second == [] {
      assert first + second == first;
    } else {
      var n := |second| - 1;
      RunConcat(c, s, first, t, second[..n]);
      assert first + second == (first + second[..n]) + [second[n]];
      RunStep(c, s, first + second[..n], second[n]);
    }
  }
}

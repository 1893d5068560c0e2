/**
 The API and the orchestrator worker as imperative programs over the broker, the store and
 the calibration snapshot.  Every publish, save and ack is logged as the protocol action it
 performs, so `Valid` says that the object is in a state the protocol machine reaches, and each
 method's contract gives the exact actions it took, in order.
 */
module Platform {
  import opened Basics
  import opened Protocol
  import opened ProtocolRuns

  datatype Attempt = Success(result: Payload) | Raised(error: string)

  /** What handle_message publishes for an execution that returned or raised. */
  function Outcome(id: Id, attempt: Attempt): ResultMessage {
    match attempt
    case Success(result) => ResultMessage(id, SaysCompleted, Some(result), None)
    case Raised(error) => FailureNotice(id, error)
  }

  const UNKNOWN := "unknown algorithm"

  /** What execute_task comes to: an algorithm it does not dispatch raises whatever the backend would do. */
  function Executed(algorithm: string, attempt: Attempt): Attempt {
    if Known(algorithm) then attempt else Raised(UNKNOWN)
  }

  /** The actions between the delivery of a message and its ack, when nothing crashes; `wake` is the moment a
      backoff sleep returns. */
  function Handling(i: nat, m: Message, pc: Pc, attempt: Attempt, wake: int): seq<Action> {
    match pc
    case BackingOff(_) => [Dispatch(i), Tick(wake), Republish(i), Ack(i)]
    case DeadLettering => [Dispatch(i), DeadLetter(i), Ack(i)]
    case Announcing => [Dispatch(i), Announce(i), Reschedule(i), Ack(i)]
    case Executing =>
      var outcome := if m.body.Task? then Outcome(m.body.id, Executed(m.body.algorithm, attempt)) else FailureNotice("", "");
      [Dispatch(i), Finish(i, outcome), Answer(i), Ack(i)]
    case _ => [Dispatch(i), Answer(i), Ack(i)]
  }

  lemma RedeliveredHandling(c: Config, i: nat, m: Message, snapshot: Option<Observation>, now: int, attempt: Attempt, wake: int)
    requires m.redelivered
    ensures Handling(i, m, Route(c, m, snapshot, now), attempt, wake)
         == [Dispatch(i)] + (if m.retries >= MAX_RETRIES then [DeadLetter(i)] else [Tick(wake), Republish(i)]) + [Ack(i)]
    ensures Route(c, m, snapshot, now) != Announcing && Route(c, m, snapshot, now) != Executing
  {
  }

  lemma ExecutingKnown(c: Config, m: Message, snapshot: Option<Observation>, now: int)
    ensures Route(c, m, snapshot, now) == Executing && m.body.Task? && m.body.algorithm == "vqe" ==>
              && snapshot.Some? && now <= snapshot.value.observedAt + c.policy.freshness
              && snapshot.value.errorRate < c.policy.rejectErrorRate
  {
  }

  class System {
    const config: Config
    const origin: State

    var store: map<Id, Record>
    var tasks: seq<Message>
    var waiting: seq<Message>
    var deadLetters: seq<Message>
    var results: seq<ResultMessage>
    var snapshot: Option<Observation>
    var clock: int
    var triggers: seq<bool>          // the asyncio.Event of each worker process
    var announced: seq<Record>       // completed-experiment events published by the API

    ghost var submitting: set<Id>
    ghost var workers: seq<Worker>   // unacknowledged deliveries and program points
    ghost var history: History
    ghost var trace: seq<Action>

    ghost function View(): State
      reads this
    {
      State(store, submitting, tasks, waiting, deadLetters, results, workers, snapshot, clock, history)
    }

    ghost predicate Valid()
      reads this
    {
      Reaches(config, origin, trace, View()) && |triggers| == |workers|
    }

    constructor (config: Config, processes: nat, now: int)
      ensures Valid() && View() == Init(processes, now) && trace == []
      ensures this.config == config && origin == Init(processes, now) && announced == []
    {
      this.config := config;
      origin := Init(processes, now);
      store, tasks, waiting, deadLetters, results := map[], [], [], [], [];
      snapshot, clock, triggers, announced := None, now, seq(processes, i => false), [];
      submitting, workers, history := {}, seq(processes, i => Idle), EmptyHistory();
      trace := [];
    }

    /** The machine moves with the program: `a` is logged and the invisible part of the state follows it. */
    ghost method Log(a: Action, before: State)
      requires Reaches(config, origin, trace, before) && Next(config, before, a).Some?
      requires |triggers| == |workers| == |before.workers|
      requires var after := Next(config, before, a).value;
               && store == after.store && tasks == after.tasks && waiting == after.waiting
               && deadLetters == after.deadLetters && results == after.results
               && snapshot == after.snapshot && clock == after.clock
      modifies this`trace, this`submitting, this`workers, this`history
      ensures trace == old(trace) + [a]
      ensures View() == Next(config, before, a).value && Valid()
    {
      hide Run, Next;
      CrewStays(config, before, a);
      RunStep(config, origin, trace, a);
      var after := Next(config, before, a).value;
      submitting, workers, history, trace := after.submitting, after.workers, after.history, trace + [a];
    }

    // ----- services/orchestrator/app/retry_policy.py and calibration_wait.py -----

    /** Sleeps from `since` to `wake`, at least the backoff delay of the next retry, then publishes its copy. */
    method ScheduleRetry(i: nat, m: Message, since: int, wake: int)
      requires Valid() && Holds(View(), i) && workers[i] == Busy(m, BackingOff(since))
      requires wake >= clock && wake >= since + ComputeBackoffDelay(m.retries + 1)
      modifies this`tasks, this`clock, this`trace, this`submitting, this`workers, this`history
      ensures Valid() && trace == old(trace) + [Tick(wake), Republish(i)]
      ensures tasks == old(tasks)
                       + [Message(m.body, m.retries + 1, m.waits, false, m.past.(slept := m.past.slept + (wake - since)))]
      ensures workers == old(workers)[i := Busy(m, Acking)] && clock == wake
    {
      hide Run, Reaches;
      var retryCount := m.retries + 1;
      clock := wake;
      Log(Tick(wake), old(View()));
      label slept:
      var past := m.past.(slept := m.past.slept + (wake - since));
      tasks := tasks + [Message(m.body, retryCount, m.waits, false, past)];
      Log(Republish(i), old@slept(View()));
    }

    method SendToDeadLetterQueue(i: nat, m: Message)
      requires Valid() && Holds(View(), i) && workers[i] == Busy(m, DeadLettering)
      modifies this`deadLetters, this`trace, this`submitting, this`workers, this`history
      ensures Valid() && trace == old(trace) + [DeadLetter(i)]
      ensures deadLetters == old(deadLetters) + [Message(m.body, m.retries, m.waits, false, m.past)]
      ensures workers == old(workers)[i := Busy(m, Acking)]
    {
      hide Run, Reaches;
      deadLetters := deadLetters + [Message(m.body, m.retries, m.waits, false, m.past)];
      Log(DeadLetter(i), old(View()));
    }

    method RescheduleWait(i: nat, m: Message) returns (attempt: nat)
      requires Valid() && Holds(View(), i) && workers[i] == Busy(m, Rescheduling)
      modifies this`waiting, this`trace, this`submitting, this`workers, this`history
      ensures attempt == m.waits + 1
      ensures Valid() && trace == old(trace) + [Reschedule(i)]
      ensures waiting == old(waiting) + [Message(m.body, m.retries, m.waits + 1, false, m.past)]
      ensures workers == old(workers)[i := Busy(m, Acking)]
    {
      hide Run, Reaches;
      attempt := m.waits + 1;
      waiting := waiting + [Message(m.body, m.retries, attempt, false, m.past)];
      Log(Reschedule(i), old(View()));
    }

    method Acknowledge(i: nat, m: Message)
      requires Valid() && Holds(View(), i) && workers[i] == Busy(m, Acking)
      modifies this`trace, this`submitting, this`workers, this`history
      ensures Valid() && trace == old(trace) + [Ack(i)] && workers == old(workers)[i := Idle]
    {
      hide Run, Reaches;
      Log(Ack(i), old(View()));
    }

    /** handle_message has looked at the delivery and, for vqe, at the snapshot. */
    ghost method Decide(i: nat, m: Message)
      requires Valid() && Holds(View(), i) && workers[i] == Busy(m, Received)
      modifies this`trace, this`submitting, this`workers, this`history
      ensures Valid() && trace == old(trace) + [Dispatch(i)]
      ensures workers == old(workers)[i := Busy(m, Route(config, m, snapshot, clock))]
    {
      hide Run, Reaches;
      Log(Dispatch(i), View());
    }

    /** True: go on with handle_message.  False: a copy has been published, only the ack is left. */
    method HandleRedelivery(i: nat, m: Message, wake: int) returns (shouldProcess: bool)
      requires Valid() && Holds(View(), i) && workers[i] == Busy(m, Received)
      requires m.redelivered ==> wake >= clock + ComputeBackoffDelay(m.retries + 1)
      modifies this`tasks, this`deadLetters, this`clock, this`trace, this`submitting, this`workers, this`history
      ensures Valid()
      ensures shouldProcess == !m.redelivered
      ensures shouldProcess ==>
                && trace == old(trace) && workers == old(workers) && tasks == old(tasks)
                && deadLetters == old(deadLetters) && clock == old(clock)
      ensures !shouldProcess ==>
                && trace == old(trace) + [Dispatch(i)]
                            + (if m.retries >= MAX_RETRIES then [DeadLetter(i)] else [Tick(wake), Republish(i)])
                && workers == old(workers)[i := Busy(m, Acking)]
      ensures m.redelivered && m.retries >= 3 ==>
                && deadLetters == old(deadLetters) + [Message(m.body, m.retries, m.waits, false, m.past)]
                && tasks == old(tasks) && clock == old(clock)
      ensures m.redelivered && m.retries < 3 ==>
                && tasks == old(tasks) + [Message(m.body, m.retries + 1, m.waits, false,
                                                  m.past.(slept := m.past.slept + (wake - old(clock))))]
                && deadLetters == old(deadLetters) && clock == wake
    {
      hide Run, Reaches, Next;
      if !m.redelivered {
        return true;
      }
      Decide(i, m);
      if m.retries >= MAX_RETRIES {
        SendToDeadLetterQueue(i, m);
      } else {
        ScheduleRetry(i, m, clock, wake);
      }
      return false;
    }

    // ----- services/orchestrator/app/worker.py -----

    method PublishResult(i: nat, m: Message, answer: ResultMessage)
      requires Valid() && Holds(View(), i) && workers[i] == Busy(m, Answering(answer))
      modifies this`results, this`trace, this`submitting, this`workers, this`history
      ensures Valid() && trace == old(trace) + [Answer(i)]
      ensures results == old(results) + [answer] && workers == old(workers)[i := Busy(m, Acking)]
    {
      hide Run, Reaches;
      results := results + [answer];
      Log(Answer(i), old(View()));
    }

    /** Publishes a completed or failed result, then acks. */
    method AnswerAndAcknowledge(i: nat, m: Message, answer: ResultMessage)
      requires Valid() && Holds(View(), i) && workers[i] == Busy(m, Answering(answer))
      modifies this`results, this`trace, this`submitting, this`workers, this`history
      ensures Valid() && trace == old(trace) + [Answer(i), Ack(i)]
      ensures results == old(results) + [answer] && workers == old(workers)[i := Idle]
    {
      hide Run, Reaches, Next;
      PublishResult(i, m, answer);
      Acknowledge(i, m);
    }

    method AnnounceWaiting(i: nat, m: Message)
      requires Valid() && Holds(View(), i) && workers[i] == Busy(m, Announcing) && m.body.Task?
      modifies this`results, this`trace, this`submitting, this`workers, this`history
      ensures Valid() && trace == old(trace) + [Announce(i)]
      ensures results == old(results) + [ResultMessage(m.body.id, SaysWaiting, None, None)]
      ensures workers == old(workers)[i := Busy(m, Rescheduling)]
    {
      hide Run, Reaches;
      results := results + [WaitingNotice(m.body.id)];
      Log(Announce(i), old(View()));
    }

    /** Tells the API that the experiment waits, parks a copy, then acks. */
    method WaitForCalibration(i: nat, m: Message)
      requires Valid() && Holds(View(), i) && workers[i] == Busy(m, Announcing) && m.body.Task?
      modifies this`results, this`waiting, this`trace, this`submitting, this`workers, this`history
      ensures Valid() && trace == old(trace) + [Announce(i), Reschedule(i), Ack(i)]
      ensures results == old(results) + [ResultMessage(m.body.id, SaysWaiting, None, None)]
      ensures waiting == old(waiting) + [Message(m.body, m.retries, m.waits + 1, false, m.past)]
      ensures workers == old(workers)[i := Idle]
    {
      hide Run, Reaches, Next;
      AnnounceWaiting(i, m);
      var _ := RescheduleWait(i, m);
      Acknowledge(i, m);
    }

    /** The dispatch of execute_task; `attempt` is what the function for a known algorithm would do. */
    static method ExecuteTask(algorithm: string, attempt: Attempt) returns (result: Attempt)
      ensures result == Executed(algorithm, attempt)
      ensures result == if algorithm in {"grover", "sat_grover", "qpe", "vqe"} then attempt
                        else Raised("unknown algorithm")
    {
      if algorithm == "grover" {
        return attempt;
      }
      if algorithm == "sat_grover" {
        return attempt;
      }
      if algorithm == "qpe" {
        return attempt;
      }
      if algorithm == "vqe" {
        return attempt;
      }
      return Raised(UNKNOWN);
    }

    /** execute_task returns or raises; either way there is a definitive answer. */
    method ExecuteAndAnswer(i: nat, m: Message, attempt: Attempt)
      requires Valid() && Holds(View(), i) && workers[i] == Busy(m, Executing) && m.body.Task?
      modifies this`results, this`trace, this`submitting, this`workers, this`history
      ensures Valid()
      ensures trace == old(trace) + [Finish(i, Outcome(m.body.id, Executed(m.body.algorithm, attempt))), Answer(i), Ack(i)]
      ensures results == old(results) + [Outcome(m.body.id, Executed(m.body.algorithm, attempt))]
      ensures m.body.algorithm in {"grover", "sat_grover", "qpe", "vqe"} ==>
                results == old(results) + match attempt
                                          case Success(r) => [ResultMessage(m.body.id, SaysCompleted, Some(r), None)]
                                          case Raised(e) => [ResultMessage(m.body.id, SaysFailed, None, Some(e))]
      ensures m.body.algorithm !in {"grover", "sat_grover", "qpe", "vqe"} ==>
                results == old(results) + [ResultMessage(m.body.id, SaysFailed, None, Some("unknown algorithm"))]
      ensures workers == old(workers)[i := Idle]
    {
      hide Run, Reaches;
      var result := ExecuteTask(m.body.algorithm, attempt);
      var message := Outcome(m.body.id, result);
      Log(Finish(i, message), View());
      AnswerAndAcknowledge(i, m, message);
    }

    /** One fresh delivery from decode to ack; `attempt` is what execute_task would do. */
    method HandleMessage(i: nat, m: Message, attempt: Attempt)
      requires Valid() && Holds(View(), i) && workers[i] == Busy(m, Received) && !m.redelivered
      modifies this`results, this`waiting, this`deadLetters, this`triggers
      modifies this`trace, this`submitting, this`workers, this`history
      ensures Valid() && workers == old(workers)[i := Idle]
      ensures trace == old(trace) + Handling(i, m, Route(config, m, snapshot, clock), attempt, clock)
      ensures m.body.Malformed? ==>
                && deadLetters == old(deadLetters) + [Message(m.body, m.retries, m.waits, false, m.past)]
                && results == old(results) && waiting == old(waiting)
      ensures m.body.Task? && m.body.algorithm !in {"grover", "sat_grover", "qpe", "vqe"} ==>
                && results == old(results) + [ResultMessage(m.body.id, SaysFailed, None, Some("unknown algorithm"))]
                && deadLetters == old(deadLetters) && waiting == old(waiting)
      ensures m.body.Task? && (m.body.algorithm in {"grover", "sat_grover", "qpe"}
                               || (m.body.algorithm == "vqe" && snapshot.Some?
                                   && clock <= snapshot.value.observedAt + config.policy.freshness
                                   && snapshot.value.errorRate < config.policy.rejectErrorRate)) ==>
                && results == old(results) + (match attempt
                                              case Success(r) => [ResultMessage(m.body.id, SaysCompleted, Some(r), None)]
                                              case Raised(e) => [ResultMessage(m.body.id, SaysFailed, None, Some(e))])
                && deadLetters == old(deadLetters) && waiting == old(waiting)
      ensures m.body.Task? && m.body.algorithm == "vqe" && snapshot.Some?
              && clock <= snapshot.value.observedAt + config.policy.freshness
              && snapshot.value.errorRate >= config.policy.rejectErrorRate ==>
                && results == old(results) + [ResultMessage(m.body.id, SaysFailed, None, Some(REJECTED))]
                && deadLetters == old(deadLetters) && waiting == old(waiting)
      ensures m.body.Task? && m.body.algorithm == "vqe"
              && (snapshot.None? || clock > snapshot.value.observedAt + config.policy.freshness) ==>
                if m.waits >= config.maxWaits then
                  && results == old(results) + [ResultMessage(m.body.id, SaysFailed, None, Some(NEVER_FRESH))]
                  && deadLetters == old(deadLetters) && waiting == old(waiting)
                else
                  && results == old(results) + [ResultMessage(m.body.id, SaysWaiting, None, None)]
                  && waiting == old(waiting) + [Message(m.body, m.retries, m.waits + 1, false, m.past)]
                  && deadLetters == old(deadLetters)
      ensures triggers == if Route(config, m, snapshot, clock) == Announcing then old(triggers)[i := true]
                          else old(triggers)
    {
      hide Run, Reaches, Next, Policy.Evaluate, ComputeBackoffDelay, Outcome, Executed;
      Decide(i, m);
      if m.body.Malformed? {
        SendToDeadLetterQueue(i, m);
        Acknowledge(i, m);
        return;
      }
      if m.body.algorithm == VQE {
        var decision := config.policy.Evaluate(snapshot, clock);
        if decision == Reject {
          AnswerAndAcknowledge(i, m, FailureNotice(m.body.id, REJECTED));
          return;
        }
        if decision == Wait {
          if m.waits >= config.maxWaits {
            AnswerAndAcknowledge(i, m, FailureNotice(m.body.id, NEVER_FRESH));
            return;
          }
          triggers := triggers[i := true];
          WaitForCalibration(i, m);
          return;
        }
      }
      ExecuteAndAnswer(i, m, attempt);
    }

    /** The broker hands delivery `k` to an idle worker. */
    method Deliver(i: nat, k: nat) returns (message: Message)
      requires Valid() && i < |workers| && workers[i].Idle? && k < |tasks|
      modifies this`tasks, this`trace, this`submitting, this`workers, this`history
      ensures Valid() && trace == old(trace) + [Take(i, k)] && message == old(tasks)[k]
      ensures tasks == Without(old(tasks), k) && workers == old(workers)[i := Busy(message, Received)]
    {
      hide Run, Reaches;
      message := tasks[k];
      tasks := Without(tasks, k);
      Log(Take(i, k), old(View()));
    }

    /** One iteration of the consume loop of `main`: from delivery `k` of the queue to its ack. */
    method ConsumeTask(i: nat, k: nat, attempt: Attempt, wake: int)
      requires Valid() && i < |workers| && workers[i].Idle? && k < |tasks|
      requires tasks[k].redelivered ==> wake >= clock + ComputeBackoffDelay(tasks[k].retries + 1)
      modifies this`tasks, this`waiting, this`deadLetters, this`results, this`clock, this`triggers
      modifies this`trace, this`submitting, this`workers, this`history
      ensures Valid() && workers == old(workers) && announced == old(announced)
      ensures trace == old(trace) + [Take(i, k)]
                       + Handling(i, old(tasks[k]), old(Route(config, tasks[k], snapshot, clock)), attempt,
                                  if old(tasks[k]).redelivered then wake else old(clock))
      ensures triggers == if old(Route(config, tasks[k], snapshot, clock)) == Announcing then old(triggers)[i := true]
                          else old(triggers)
      ensures store == old(store) && snapshot == old(snapshot)
      ensures old(tasks[k]).redelivered ==> results == old(results) && waiting == old(waiting)
      ensures old(tasks[k]).redelivered && old(tasks[k]).retries < 3 ==>
                var m := old(tasks[k]);
                && tasks == Without(old(tasks), k)
                            + [Message(m.body, m.retries + 1, m.waits, false,
                                       m.past.(slept := m.past.slept + (wake - old(clock))))]
                && deadLetters == old(deadLetters)
      ensures old(tasks[k]).redelivered && old(tasks[k]).retries >= 3 ==>
                var m := old(tasks[k]);
                && tasks == Without(old(tasks), k)
                && deadLetters == old(deadLetters) + [Message(m.body, m.retries, m.waits, false, m.past)]
      ensures !old(tasks[k]).redelivered ==> tasks == Without(old(tasks), k) && clock == old(clock)
      ensures !old(tasks[k]).redelivered && old(tasks[k]).body.Task?
              && old(Route(config, tasks[k], snapshot, clock)) == Executing
              && old(tasks[k]).body.algorithm in {"grover", "sat_grover", "qpe", "vqe"} ==>
                && results == old(results)
                              + (match attempt
                                 case Success(r) => [ResultMessage(old(tasks[k]).body.id, SaysCompleted, Some(r), None)]
                                 case Raised(e) => [ResultMessage(old(tasks[k]).body.id, SaysFailed, None, Some(e))])
                && waiting == old(waiting) && deadLetters == old(deadLetters)
    {
      hide Run, Reaches, Next, Route, Handling, Policy.Evaluate, ComputeBackoffDelay, Without, Outcome, Executed, Known;
      var message := Deliver(i, k);
      var shouldProcess := HandleRedelivery(i, message, wake);
      if !shouldProcess {
        RedeliveredHandling(config, i, message, snapshot, old(clock), attempt, wake);
        Acknowledge(i, message);
      } else {
        ExecutingKnown(config, message, snapshot, clock);
        HandleMessage(i, message, attempt);
      }
    }

    // ----- services/api -----

    /** The record is saved before the task is published; a failed publish saves it as failed. */
    method SubmitExperiment(id: Id, algorithm: string, publishError: Option<string>)
      requires Valid() && id !in store
      modifies this
      ensures Valid() && triggers == old(triggers) && announced == old(announced)
      ensures trace == old(trace) + [Save(id, algorithm),
                                     if publishError.None? then Enqueue(id)
                                     else EnqueueFails(id, "failed to enqueue: " + publishError.value)]
      ensures store == old(store)[id := if publishError.None?
                                        then Record(algorithm, Queued, clock, None, None, None)
                                        else Record(algorithm, Failed, clock, Some(clock), None,
                                                    Some("failed to enqueue: " + publishError.value))]
      ensures tasks == old(tasks) + if publishError.None?
                                    then [Message(Task(id, algorithm), 0, 0, false, UNTOUCHED)] else []
      ensures clock == old(clock) && results == old(results)
    {
      hide Run, Reaches;
      store := store[id := Record(algorithm, Queued, clock, None, None, None)];
      Log(Save(id, algorithm), old(View()));
      label saved:
      if publishError.None? {
        tasks := tasks + [Message(Task(id, algorithm), 0, 0, false, UNTOUCHED)];
        Log(Enqueue(id), old@saved(View()));
      } else {
        var error := "failed to enqueue: " + publishError.value;
        store := store[id := Record(algorithm, Failed, store[id].submittedAt, Some(clock), None, Some(error))];
        Log(EnqueueFails(id, error), old@saved(View()));
      }
    }

    method ApplyResultMessage(m: ResultMessage) returns (updated: Option<Record>)
      modifies this`store
      ensures store == ApplyResult(old(store), m, clock)
      ensures m.id !in old(store) || m.status.SaysOther? ==> store == old(store)
      ensures m.id in old(store) && !m.status.SaysOther? ==>
                var before, terminal := old(store)[m.id], m.status.SaysCompleted? || m.status.SaysFailed?;
                store == old(store)[m.id := Record(before.algorithm,
                                                   if m.status.SaysCompleted? then Completed
                                                   else if m.status.SaysFailed? then Failed else WaitingForCalibration,
                                                   before.submittedAt,
                                                   if terminal then Some(clock) else None,
                                                   if terminal then m.result else before.result,
                                                   m.error)]
      ensures updated.Some? <==> m.id in old(store) && !m.status.SaysOther?
      ensures updated.Some? ==> m.id in store && updated.value == store[m.id]
    {
      if m.id !in store {
        return None;
      }
      var existing := store[m.id];
      if m.status.SaysOther? {
        return None;
      }
      var terminal := m.status.SaysCompleted? || m.status.SaysFailed?;
      var record := existing.(status := StatusOf(m.status),
                              completedAt := if terminal then Some(clock) else None,
                              result := if terminal then m.result else existing.result,
                              error := m.error);
      store := store[m.id := record];
      return Some(record);
    }

    /** One iteration of consume_results. */
    method ConsumeResult()
      requires Valid() && results != []
      modifies this
      ensures Valid() && trace == old(trace) + [Consume] && triggers == old(triggers)
      ensures results == old(results)[1..] && store == ApplyResult(old(store), old(results)[0], clock)
      ensures var m := old(results)[0];
              announced == old(announced) + if m.Terminal() && m.id in store then [store[m.id]] else []
    {
      hide Run, Reaches;
      var message := results[0];
      results := results[1..];
      var updated := ApplyResultMessage(message);
      if updated.Some? && (message.status.SaysCompleted? || message.status.SaysFailed?) {
        announced := announced + [updated.value];
      }
      Log(Consume, old(View()));
    }

    // ----- the broker and the rest of the world -----

    /** The probe stores a calibration result. */
    method Observe(observation: Observation)
      requires Valid()
      modifies this`snapshot, this`trace, this`submitting, this`workers, this`history
      ensures Valid() && trace == old(trace) + [Action.Observe(observation)] && snapshot == Some(observation)
    {
      hide Run, Reaches;
      snapshot := Some(observation);
      Log(Action.Observe(observation), old(View()));
    }

    method PassTime(now: int)
      requires Valid() && now >= clock
      modifies this`clock, this`trace, this`submitting, this`workers, this`history
      ensures Valid() && trace == old(trace) + [Tick(now)] && clock == now
    {
      hide Run, Reaches;
      clock := now;
      Log(Tick(now), old(View()));
    }

    /** The TTL of a parked copy is over: it re-enters the task queue. */
    method ExpireParked(k: nat)
      requires Valid() && k < |waiting|
      modifies this`tasks, this`waiting, this`trace, this`submitting, this`workers, this`history
      ensures Valid() && trace == old(trace) + [Expire(k)]
      ensures tasks == old(tasks) + [old(waiting)[k]] && waiting == Without(old(waiting), k)
    {
      hide Run, Reaches;
      tasks, waiting := tasks + [waiting[k]], Without(waiting, k);
      Log(Expire(k), old(View()));
    }

    /** A worker process dies with `m` in its hands, at any program point: the broker queues the message again,
        marked as redelivered, and the new process has a cleared event. */
    method CrashWorker(i: nat, m: Message)
      requires Valid() && Holds(View(), i) && workers[i].message == m
      modifies this`tasks, this`triggers, this`trace, this`submitting, this`workers, this`history
      ensures Valid() && trace == old(trace) + [Crash(i)]
      ensures |tasks| == |old(tasks)| + 1 && tasks[..|old(tasks)|] == old(tasks) && tasks[|old(tasks)|] == Struck(m)
      ensures tasks[|old(tasks)|].body == m.body && tasks[|old(tasks)|].redelivered
      ensures tasks[|old(tasks)|].retries == m.retries && tasks[|old(tasks)|].waits == m.waits
      ensures workers == old(workers)[i := Idle]
      ensures triggers == old(triggers)[i := false]
    {
      hide Run, Reaches;
      tasks, triggers := tasks + [Struck(m)], triggers[i := false];
      Log(Crash(i), old(View()));
    }

    method ReceiveForeign(bytes: string)
      requires Valid()
      modifies this`tasks, this`trace, this`submitting, this`workers, this`history
      ensures Valid() && trace == old(trace) + [Foreign(bytes)]
      ensures tasks == old(tasks) + [Message(Malformed(bytes), 0, 0, false, UNTOUCHED)]
    {
      hide Run, Reaches;
      tasks := tasks + [Message(Malformed(bytes), 0, 0, false, UNTOUCHED)];
      Log(Foreign(bytes), old(View()));
    }
  }

  /** Whatever methods were called in whatever order, the platform is in a safe state. */
  lemma PlatformIsSafe(system: System, processes: nat, start: int)
    requires system.Valid() && system.origin == Init(processes, start)
    ensures Safe(system.config, system.View())
  {
    AlwaysSafe(system.config, processes, start, system.trace, system.View());
  }
}

# Verification of the quantum experiment platform

This Dafny project models the parts of the platform whose correctness rests on reasoning across
several functions, processes or loops, and proves what they promise for all inputs and all runs.
`dafny verify dfyconfig.toml` checks everything.

**Experiment task protocol.** `Protocol` is a state machine over the API's store, the task, wait,
dead-letter and results queues, and any number of workers, each with the program point it has reached
with the message it holds unacknowledged. Every queue publish, save and ack is one action; a crash is
an action enabled at every program point. `Platform` is the imperative program: an object whose methods
follow the API and the worker statement by statement and log the action each statement performs, so that
its invariant places every object in a state the machine reaches; crashes, expiry, observations and time
are methods of the same object. `ProtocolSteps` says which part of the state an action writes;
`ProtocolWeights`, `ProtocolSafety`, `ProtocolRuns`, `ProtocolProgress` and `ProtocolTheorems` prove
conservation, the price of duplicates, the order of results, the calibration gate, bounds on runs, and what
a run that cannot go on has settled, and `ProtocolDelivery` that an outcome reaches its record. Properties that the code meets only under a condition have modules of
their own, which prove the condition exact: `ProtocolFinality` and `ProtocolStatus` for terminal records and
their status, `ProtocolAttempts`, `ProtocolExhaustion` and `ProtocolForks` for the retry cap on an
experiment, whose exact maxima (`Maxima`) they prove and reach, `ProtocolDispatch` for dead letters and
unknown algorithms. `ProtocolLineage` is the account of retries, crashes and delays of a single message.

**Circuits.** `Qft`, `Qpe` and `Grover` are the builders, appending gates to a mutable circuit in the
program's loops, and the gate lists they are specified by. `PhaseStates` gives meaning to circuits on
states in which each qubit is a basis bit or an equal superposition with a phase, and checks each rule
against amplitudes; `QftMeaning` and `Qpe` prove that the QFT is the discrete Fourier transform and that
phase estimation is exact. `Rewriting` and `QftInverse` prove that the inverse circuit undoes the forward
one by local gate rules, and `LinearStates` and `RewritingSound` that these rules preserve the action on
every vector of complex amplitudes. `QftVectors` proves that the two meanings of the gates agree, so that
the discrete Fourier transform holds of vectors too. `GroverMeaning` and `GroverSearch` prove what oracle,
diffuser and any number of iterations do to real amplitudes. Hadamards are unnormalised, each one being sqrt 2 times the
unitary gate, and the statements carry the power of two this accounts for.

**Waiting on hardware.** `CircuitBreaking` and `Polling` are the breaker and the polling loop on an
explicit clock and an arbitrary script of backend answers; `PollingTheorems` decides which configurations
always end and how soon. `MockBackend` is the job lifecycle raced by cancellations, `MockPolling` the two
together, and `Vqe` the energy evaluation on top of the polling loop.

**Streaming analytics and calibration.** `Alerting`, `Drift` and `StreamAgent` show that constant-size
incremental state equals a function of the whole history, for one backend and for any interleaving of
backends; `VqeStream` does the same for mutable window aggregates. `Calibration` covers demo parity errors
and the error rate, `ProbeLoop` the calibration loop with its trigger event. `Histograms`, `Binary`,
`Circuits`, `Backends` and `Basics` are shared vocabulary.

## Where the code and its documentation differ

The model follows the code in each case.

- The retry policy is described as capping a message at three attempts (`docs/architecture/orchestration.md:81`).
  The cap is on the header of each copy, and two kinds of crash get round it. A late crash, one that hits a delivery
  already marked as redelivered, is not counted (`ProtocolLineage.CrashCountedIff`): during the backoff it leaves
  the header at zero any number of times (`ProtocolTheorems.BackoffCrashesAreNotCounted`), and between the retry
  copy and the ack it makes one more copy each time, so that with late crashes there is no cap under any
  configuration and for any algorithm (`ProtocolForks.NoCapWithLateCrashes`). A crash between parking a copy
  and the ack is counted, yet leaves two copies with all their retries: `ProtocolForks.ParkedCopyForks` is a run with seven
  executions and six crashes, none of them late, and no dead letter. Without late crashes the exact maxima of crashes
  and executions of an experiment are those of `ProtocolAttempts.AttemptsAreBounded`, 2379 and 560 with the default
  of twelve waits (`Maxima.DefaultMaxima`); `ProtocolExhaustion.BoundsAreReached` reaches both in one run. So the cap of
  four executions and four crashes holds of all runs without late crashes exactly when the experiment cannot be
  parked, because it is not a vqe experiment or no waits are configured (`ProtocolExhaustion.CappedIff`).
- A terminal status is not always final. After a crash a late `waiting_for_calibration` message can undo it
  (`ProtocolTheorems.LateNoticeUndoesCompletion`), and a late rejection replaces a completed record by a failed one
  and deletes its result (`LateRejectionDestroysResult`). `TerminalUndoneIff` and `AnswerChangedIff` say exactly
  which message changes which part. No crash-free experiment suffers it (`TerminalIsFinal`). With crashes, the whole
  record with its time stamp is final exactly when no copy and no message that could still speak about its
  experiment is left (`ProtocolFinality.FinalIffQuiet`), and its status is final exactly when whatever can still
  speak can only repeat it (`ProtocolStatus.StatusFinalIff`).
- `docs/architecture/orchestration.md:65` sends an unrecognised algorithm to the dead-letter queue. In the code
  `execute_task` raises and the experiment is answered as failed. Exactly exhausted redeliveries and fresh messages
  that do not parse are dead-lettered (`ProtocolDispatch.RouteDeadLettersIff`), and an unknown algorithm is
  executed and never completed (`UnknownNeverCompletes`).
- The breaker is documented to let a single trial call through when half-open. It lets every caller through
  until reported failures complete a run again (`CircuitBreaking.ClosedUntilNextFailure`); `TwoTrialsPass` has two
  such callers.
- The inverse QFT is described as the literal adjoint of the forward construction. As a gate list it is that
  only below two qubits (`QftInverse.LiteralAdjointIff`), and below three up to the order of the two qubits of a
  controlled phase, the gates being in another order from then on (`AdjointOrderIff`); it is an inverse at every
  size.
- Retrying a fetch is meant to ride out transient errors. On the mock backend it cannot: the job's failure is
  final (`MockPolling.RetryingNeverHelps`), and `RetriesInVain` is a run that spends its whole budget on one.

## Model

| member | source | states |
|---|---|---|
| Protocol.Policy.Evaluate | services/orchestrator/app/calibration_policy.py:29-45 | allows exactly on a present observation within the freshness limit and below the reject rate, and rejects exactly on a fresh one at or above it |
| Platform.System.ScheduleRetry | services/orchestrator/app/retry_policy.py:64-98 | sleeps at least the backoff delay of the next retry, then publishes one fresh copy with one more retry and the other headers kept; the original stays unacknowledged until the ack |
| Platform.System.SendToDeadLetterQueue | services/orchestrator/app/retry_policy.py:101-121 | publishes one dead letter with the body and both headers kept |
| Platform.System.HandleRedelivery | services/orchestrator/app/retry_policy.py:124-147 | processing goes on exactly for fresh deliveries; a redelivered one leaves as a retry copy after its delay or, from three retries on, as a dead letter |
| Platform.System.RescheduleWait | services/orchestrator/app/calibration_wait.py:28-46 | parks a copy with the wait count one higher and returns that count |
| Platform.System.WaitForCalibration | services/orchestrator/app/worker.py:164-182 | the waiting notice is published before the parked copy, and both before the ack |
| Platform.System.ExecuteTask | services/orchestrator/app/tasks/run_experiment.py:34-85 | the four known algorithms run and every other name raises |
| Platform.System.AnswerAndAcknowledge | services/orchestrator/app/worker.py:195-196 | a result is published before the delivery is acknowledged |
| Platform.System.CrashWorker | services/orchestrator/app/retry_policy.py:27-31 | a worker may die at any program point with a message in hand: the broker queues it again marked as redelivered, headers kept, and the new process has a cleared trigger |
| Platform.System.ExpireParked | services/orchestrator/app/calibration_wait.py:17-25 | a parked copy re-enters the task queue unchanged |
| Platform.System.Observe | services/orchestrator/app/tasks/calibration.py:148-150 | a probe replaces the observation the gate reads and nothing else |
| Platform.System.HandleMessage | services/orchestrator/app/worker.py:115-197 | for every message, snapshot and execution outcome, the messages published, written out: a result as completed with it, an exception as failed with its text, a rejection, an exhausted wait or an unknown algorithm as failed with its reason, a wait as a notice and a parked copy, an unreadable message as a dead letter; the exact sequence of steps from decode to ack; and the trigger set exactly by an announced wait |
| Platform.System.ConsumeTask | services/orchestrator/app/worker.py:245-266 | one pass of the consume loop takes one delivery and gives it back to no one: the retry copy, the dead letter or the answer of the execution written out, the steps in order, ending in its ack |
| Platform.System.SubmitExperiment | services/api/app/routers/experiments.py:41-87 | the record is saved before the task is published, a fresh message without headers; a failed publish leaves a failed record with the error and no task |
| Platform.System.ApplyResultMessage | services/api/app/main.py:53-95 | unknown ids and unknown statuses change nothing; otherwise one record changes, part by part: status, the present time or none, the new or the old result, the error |
| Platform.System.ConsumeResult | services/api/app/main.py:113-119 | the oldest result leaves the queue and is applied to the store, and the updated record is announced exactly when the result is terminal and its experiment known |
| Platform.PlatformIsSafe | services/orchestrator/app/worker.py:200-266 | after any calls in any order the object is in a safe state of the protocol |
| ProtocolWeights.TotalStep | services/orchestrator/app/worker.py:115-197 | for any weighting of copies, each action changes the total by exactly the copies it creates and destroys |
| ProtocolSafety.ConsistentStep | services/orchestrator/app/worker.py:115-197 | every action keeps: copies only of published experiments with a record, both headers within their caps, timestamps exactly on terminal records, gated executions |
| ProtocolSafety.OwingStep | services/orchestrator/app/worker.py:124-197 | no action leaves a published experiment without a copy that owes it an outcome and without a terminal last word |
| ProtocolSafety.SettledStep | services/api/app/main.py:84-93 | a settled experiment is unsettled only by announcing a copy of it as waiting |
| ProtocolSafety.LastWordTail | services/api/app/main.py:113-119 | the last word about an experiment survives consuming the head of the results queue |
| ProtocolRuns.ExecutionsStep | services/orchestrator/app/worker.py:184-196 | executions so far plus copies that can still execute never outgrow one publication plus the crashes that hit a copy |
| ProtocolRuns.AnswersStep | services/orchestrator/app/worker.py:195-196 | the same account for published terminal results |
| ProtocolRuns.NoLateSpeaker | services/orchestrator/app/worker.py:152-197 | a copy of an experiment no crash has touched speaks only before its first outcome |
| ProtocolRuns.TerminalIsLastStep | services/api/app/main.py:84-93 | for experiments no crash has touched, nothing follows the outcome in the results queue or behind a terminal record |
| ProtocolRuns.AlwaysSafe | services/orchestrator/app/worker.py:200-266 | all of the above in every reachable state, for any number of workers, crashes and interleavings |
| ProtocolTheorems.NothingIsLost | docs/developer-guide.md:226-227 | a published experiment with no copy in any queue or hand has a completed or failed last word |
| ProtocolTheorems.DuplicationIsPaid | services/orchestrator/app/retry_policy.py:91-98 | executions and terminal results of an experiment are at most one plus the crashes that hit a copy of it |
| ProtocolTheorems.BoundsHold | services/orchestrator/app/retry_policy.py:138-147 | at most three retries and the configured waits on every message, a record for every queued experiment, and a completion time exactly on terminal records |
| ProtocolTheorems.GateHolds | services/orchestrator/app/worker.py:134-185 | every VQE execution was decided on an observation that had been stored and that the policy allows at that time |
| ProtocolTheorems.TerminalIsFinal | services/api/app/main.py:84-93 | along any continuation, the terminal record of an experiment no crash has touched never changes |
| ProtocolTheorems.TerminalUndoneIff | services/api/app/main.py:71-93 | a message takes a terminal record back exactly when it is a waiting notice for it |
| ProtocolTheorems.HeardRecord | services/api/app/main.py:71-93 | what each kind of message leaves of any record, terminal or not, part by part |
| ProtocolTheorems.ConsumedRecord | services/api/app/main.py:84-93 | the consumer stamps an outcome with the time of the step that consumes it |
| ProtocolDelivery.ExecutionIsStored | services/orchestrator/app/worker.py:184-196 | whatever else happens, when nothing else is said about an experiment the outcome of its execution ends up in its record: completed with its result or failed with its error, stamped after the answer |
| ProtocolTheorems.AnswerChangedIff | services/api/app/main.py:71-93 | exactly which messages change the status, result, error and time stamp of a terminal record, a later outcome included |
| ProtocolTheorems.ReplayedResult | services/api/app/main.py:84-93 | applying a result again later, with messages about other experiments in between, changes no answer but its time stamp |
| ProtocolTheorems.LateNoticeUndoesCompletion | services/orchestrator/app/worker.py:164-175 | a run in which one crash lets a completed experiment go back to waiting |
| ProtocolTheorems.LateRejectionDestroysResult | services/orchestrator/app/worker.py:138-153 | a run in which one crash and a worse probe turn a completed experiment into a failed one without its result |
| ProtocolFinality.QuietIsFinal | services/api/app/main.py:84-93 | when no copy and no message can still speak about an experiment, its record never changes along any continuation, crashes included |
| ProtocolFinality.NotQuietSpeaks | services/orchestrator/app/worker.py:245-266 | the converse: from any other state some continuation publishes another message about it |
| ProtocolFinality.FinalIffQuiet | services/api/app/main.py:84-93 | in every reachable state a terminal record is final along every continuation if and only if its experiment is quiet |
| ProtocolStatus.StatusIsFinal | services/api/app/main.py:84-93 | when everything that may still be said about an experiment repeats its status, the status never changes along any continuation, crashes included |
| ProtocolStatus.StatusFinalIff | services/api/app/main.py:84-93 | in every reachable state a terminal status is final along every continuation if and only if all messages repeat it and every copy that may still speak is of an algorithm that can only fail |
| ProtocolLineage.TotalBackoffClosed | services/orchestrator/app/retry_policy.py:56-61 | the delays of the first n retries add up to base * 2^n - base |
| ProtocolLineage.DelaysDouble | services/orchestrator/app/retry_policy.py:44-61 | the first delay is 2 s and each next one twice the last |
| ProtocolLineage.BackoffSlept | services/orchestrator/app/retry_policy.py:44-61 | the time slept behind a message is at least the delays of its retries: 2, 6 and 14 seconds for one, two and three |
| ProtocolTheorems.BackoffCrashesAreNotCounted | services/orchestrator/app/retry_policy.py:80-98 | any number of crashes during the backoff leave the retry header at zero, all but the first of them late |
| ProtocolProgress.MeasureStep | services/orchestrator/app/worker.py:115-197 | every step of a worker, the TTL or the consumer lowers the measure; arrivals and crashes raise it by a fixed allowance |
| ProtocolProgress.RunsAreBounded | services/orchestrator/app/calibration_wait.py:34-46 | a run has at most 6 + 7 * maxWaits steps per arrival and 9 + 7 * maxWaits per crash |
| ProtocolProgress.StuckIsDrained | services/orchestrator/app/worker.py:245-266 | with at least one worker, a state without a next step has empty queues and idle workers |
| ProtocolLineage.AlwaysLineage | services/orchestrator/app/retry_policy.py:138-147 | in every reachable state the crashes behind each message are its retries, its redelivered flag and its late crashes, and are among those that hit its experiment |
| ProtocolLineage.HeaderCountsIff | services/orchestrator/app/retry_policy.py:138-147 | header and flag account for all crashes behind a queued message if and only if none was late |
| ProtocolLineage.DeadLetterIff | services/orchestrator/app/retry_policy.py:141-144 | along the path of a dead-lettered copy there were four crashes plus its late ones, so exactly four if and only if none was late |
| ProtocolLineage.CrashCountedIff | services/orchestrator/app/retry_policy.py:80-98 | a crash is counted by header or flag if and only if the delivery it hits is not yet marked as redelivered |
| ProtocolAttempts.FreshWorth | services/orchestrator/app/worker.py:172-175 | a fresh copy is good for its own crash, for what its retry copy is good for and, if it can be parked, for what the parked copy is good for besides |
| ProtocolAttempts.CrashesDelta | services/orchestrator/app/worker.py:115-197 | but for publications and late crashes, no action adds to the crashes so far and still possible |
| ProtocolAttempts.AttemptsDelta | services/orchestrator/app/worker.py:184-196 | the same account for executions |
| ProtocolAttempts.AttemptsAreBounded | services/orchestrator/app/retry_policy.py:138-147 | in every reachable state, an experiment no late crash has hit has met and started at most the stated numbers of crashes and executions, given by its retries and waits |
| Maxima.CrashesClosed | services/orchestrator/app/retry_policy.py:44 | with w waits the maximum of crashes is (w + 2)(w + 3)(w + 4)(w + 5) / 24 - 1, which is four without waits |
| Maxima.AttemptsClosed | services/orchestrator/app/retry_policy.py:44 | with w waits the maximum of executions is (w + 2)(w + 3)(w + 4) / 6, which is four without waits |
| ProtocolForks.ParkedCopyForks | services/orchestrator/app/worker.py:172-175 | a run with one crash between parking and ack, seven executions and six crashes in all, none late, and no dead letter |
| ProtocolExhaustion.BoundsAreReached | services/orchestrator/app/worker.py:164-175 | for every configuration and algorithm one run reaches both maxima without a late crash |
| ProtocolExhaustion.CappedIff | services/orchestrator/app/retry_policy.py:138-147 | all runs without late crashes keep an algorithm to four crashes and four executions if and only if it cannot be parked: it is not vqe, or no waits are configured |
| ProtocolForks.NoCapWithLateCrashes | services/orchestrator/app/retry_policy.py:91-98 | for every configuration and algorithm, n late crashes between the retry copy and the ack buy n more executions |
| ProtocolDispatch.RouteDeadLettersIff | services/orchestrator/app/worker.py:124-130 | dead-lettered are exactly redeliveries with three retries and fresh messages that do not parse; an unknown algorithm is executed |
| ProtocolDispatch.RouteIs | services/orchestrator/app/worker.py:124-182 | where every delivery goes, case by case over redelivery, retries, algorithm, age and error rate of the observation, and waits |
| ProtocolDispatch.AlwaysDispatched | services/orchestrator/app/tasks/run_experiment.py:34-85 | in every reachable state copies carry the algorithm their experiment was submitted with, and whoever reports completion knows it |
| ProtocolDispatch.UnknownNeverCompletes | services/orchestrator/app/tasks/run_experiment.py:85 | in no run is an experiment with an unknown algorithm ever completed or reported as completed |
| ProtocolProgress.QuiescenceSettles | services/orchestrator/app/retry_policy.py:138-147 | when nothing can move, now or later, every published experiment is terminal or a dead letter, terminal if fewer than four crashes hit it besides the late ones, and failed if terminal with an unknown algorithm |
| Qft.BuildQftCircuit | services/quantum-core/quantum_core/algorithms/qft.py:31-64 | both directions append, at every size, the gate lists whose meaning the lemmas give |
| Qft.AppendForwardBlocks | services/quantum-core/quantum_core/algorithms/qft.py:45-49 | the nested loops emit the blocks of all qubits in order |
| Qft.AppendInverseBlocks | services/quantum-core/quantum_core/algorithms/qft.py:55-60 | the reversed index list yields the blocks from the last qubit down, with the signs and distances of the original |
| Qft.PhasesUpAre | services/quantum-core/quantum_core/algorithms/qft.py:47-49 | the controls of a forward block, their distances and signs, position by position |
| Qft.PhasesDownAre | services/quantum-core/quantum_core/algorithms/qft.py:58-60 | the same for an inverse block |
| QftMeaning.SwapsReverse | services/quantum-core/quantum_core/algorithms/qft.py:43-44 | half as many swaps as qubits reverse the whole register |
| QftMeaning.ForwardIsFourier | services/quantum-core/quantum_core/algorithms/qft.py:39-49 | on basis input x qubit j ends with phase x * 2^j / 2^t, and no controlled phase meets two superposed qubits |
| QftMeaning.ForwardIsDft | services/quantum-core/quantum_core/algorithms/qft.py:39-49 | after the forward circuit on x, every basis state y has amplitude w^(x * y), w a primitive 2^t-th root of unity |
| QftMeaning.InverseReadsPhase | services/quantum-core/quantum_core/algorithms/qft.py:50-62 | the inverse circuit takes the Fourier register of x back to basis state x |
| PhaseStates.ControlledSound | services/quantum-core/quantum_core/algorithms/qft.py:49-60 | a controlled phase turns exactly the amplitudes of basis states with both bits set |
| PhaseStates.SwapSound | services/quantum-core/quantum_core/algorithms/qft.py:44 | a swap exchanges the amplitudes of basis states with the two bits exchanged |
| PhaseStates.HSound | services/quantum-core/quantum_core/algorithms/qft.py:46 | a Hadamard makes each amplitude the sum, or with the bit set the difference, of the two old ones |
| QftInverse.InverseUndoesForward | services/quantum-core/quantum_core/algorithms/qft.py:39-62 | forward then inverse rewrites to the empty list by cancellation, commutation and controlled-phase symmetry alone, cancelling exactly t Hadamard pairs |
| QftInverse.LiteralAdjointIff | services/quantum-core/quantum_core/algorithms/qft.py:51-54 | the inverse list is the reversed adjoint list exactly below two qubits |
| QftInverse.AdjointOrderIff | services/quantum-core/quantum_core/algorithms/qft.py:51-60 | up to the order of the two qubits of a controlled phase it is that exactly below three qubits |
| RewritingSound.RewritesSound | services/quantum-core/quantum_core/algorithms/qft.py:39-62 | rewriting preserves the action on every amplitude vector, doubling it once per cancelled Hadamard pair |
| RewritingSound.InverseIsInverse | services/quantum-core/quantum_core/algorithms/qft.py:51-62 | forward then inverse is the identity on every state, up to the 2^t of the unnormalised Hadamards |
| QftVectors.GateAgrees | services/quantum-core/quantum_core/algorithms/qft.py:44-60 | each Fourier gate acts on a register as on the vector it denotes, up to the doubling of a Hadamard that meets a superposed qubit |
| QftVectors.RunAgrees | services/quantum-core/quantum_core/algorithms/qft.py:39-62 | the same for whole gate lists, with the doublings counted |
| QftVectors.ForwardIsDftOnVectors | services/quantum-core/quantum_core/algorithms/qft.py:39-49 | on the basis vector x the forward list gives amplitude w^(x * y) at every y, w the root of unity of the dyadic angles |
| LinearStates.ComplexLaws | services/quantum-core/quantum_core/algorithms/qft.py:49-60 | complex amplitudes with any unit numbers as angles satisfy the laws the rewriting needs |
| Qpe.BuildQpeCircuit | services/quantum-core/quantum_core/algorithms/qpe.py:40-84 | raises exactly when the preparation does not fit the unitary; otherwise preparation, Hadamards, doubling powers and the inverse QFT, in place |
| Qpe.Kickback | services/quantum-core/quantum_core/algorithms/qpe.py:34-37 | a controlled power on an eigenstate moves the phase to the control and leaves the target alone |
| Qpe.QpeExact | services/quantum-core/quantum_core/algorithms/qpe.py:66-84 | for every phase m / 2^t the counting register ends in basis state m |
| Qpe.EstimatesAre | services/quantum-core/quantum_core/execution.py:94-100 | every measured string keeps its count, and its estimate times 2^t is the number it spells |
| Qpe.EstimatesAreExact | services/quantum-core/quantum_core/execution.py:94-100 | every bitstring that can be measured then decodes to exactly m / 2^t |
| Binary.ParseBitString | services/quantum-core/quantum_core/execution.py:98 | reading back a measured bitstring in base 2 gives the register's value |
| Grover.MakeProblem | services/quantum-core/quantum_core/algorithms/grover.py:40-49 | accepts exactly non-empty lists of binary strings of the right length |
| Grover.BuildGroverCircuit | services/quantum-core/quantum_core/algorithms/grover.py:109-128 | uniform superposition, then the given number of oracle and diffuser rounds; an error exactly for rounds on zero qubits |
| Grover.ApplyOracle | services/quantum-core/quantum_core/algorithms/grover.py:66-79 | one marking block per listed state, in list order |
| Grover.OracleConcat | services/quantum-core/quantum_core/algorithms/grover.py:71-79 | marking two lists one after the other is marking their concatenation: the blocks are in list order |
| Grover.ZeroFlipsAre | services/quantum-core/quantum_core/algorithms/grover.py:71-79 | exactly the qubits whose character, from the right, is 0 are flipped, in ascending order |
| GroverSearch.TargetValue | services/quantum-core/quantum_core/algorithms/grover.py:71-79 | the basis state a marked string denotes is the number it spells in base 2 |
| Grover.ApplyMcz | services/quantum-core/quantum_core/algorithms/grover.py:82-95 | the single-qubit special case, and the sandwiched multi-controlled X otherwise |
| Grover.ApplyDiffuser | services/quantum-core/quantum_core/algorithms/grover.py:98-106 | appends the diffuser list that DiffuserReflects gives meaning to |
| GroverMeaning.MczRun | services/quantum-core/quantum_core/algorithms/grover.py:82-95 | exactly the all-ones amplitude changes sign |
| GroverMeaning.OracleRun | services/quantum-core/quantum_core/algorithms/grover.py:66-79 | every basis state is multiplied by (-1)^(its occurrences in the list), duplicates included |
| GroverMeaning.HadamardsTwice | services/quantum-core/quantum_core/algorithms/grover.py:102-106 | Hadamards on all qubits, twice, are the identity up to 2^n |
| GroverMeaning.ReflectionAboutMean | services/quantum-core/quantum_core/algorithms/grover.py:98-106 | flipping the zero state between Hadamards is a -> a - 2 * mean |
| GroverSearch.DiffuserReflects | services/quantum-core/quantum_core/algorithms/grover.py:98-106 | the diffuser takes every amplitude vector a to a - 2 * mean(a), up to its scale |
| GroverSearch.SearchRun | services/quantum-core/quantum_core/algorithms/grover.py:116-125 | after any number of iterations on any list, all flipped states share one amplitude and all others another, given by a two-number recurrence |
| GroverSearch.SearchNorm | services/quantum-core/quantum_core/algorithms/grover.py:123-125 | the squared amplitudes over all 2^n basis states keep adding up to those of the uniform state |
| GroverSearch.FlippedIsCount | services/quantum-core/quantum_core/algorithms/grover.py:71-79 | distinct marked strings flip exactly as many basis states as there are strings |
| GroverSearch.CountSearch | services/quantum-core/quantum_core/algorithms/grover.py:121-125 | the scale in the statements is what the circuit's Hadamards account for |
| GroverSearch.SearchTheorem | services/quantum-core/quantum_core/algorithms/grover.py:109-128 | for distinct marked states: one amplitude on marked and one on unmarked states after every number of iterations, with the norm conserved |
| CircuitBreaking.CircuitBreaker.RecordSuccess | services/quantum-core/quantum_core/sync/polling.py:69-71 | a success joins the record and keeps the refinement |
| CircuitBreaking.CircuitBreaker.RecordFailure | services/quantum-core/quantum_core/sync/polling.py:73-76 | a failure joins the record with its time and keeps the refinement |
| CircuitBreaking.CircuitBreaker.IsOpen | services/quantum-core/quantum_core/sync/polling.py:78-87 | open exactly when the last max(1, threshold) reports are failures and the latest is younger than the reset time, whatever was asked before; for every integer threshold |
| CircuitBreaking.ClosedUntilNextFailure | services/quantum-core/quantum_core/sync/polling.py:82-86 | once closed by age, whatever is reported later and at any later time, a caller is refused exactly when the later reports end in failures that complete the run and the latest is younger than the reset time |
| CircuitBreaking.TwoTrialsPass | services/quantum-core/quantum_core/sync/polling.py:82-86 | with the default settings two callers in a row pass a half-open breaker, and one failure then shuts it |
| Polling.Fetch | services/quantum-core/quantum_core/sync/polling.py:169-206 | both fetch branches treat results, transient errors and other errors alike, and report to the breaker at most once |
| Polling.PollOnce | services/quantum-core/quantum_core/sync/polling.py:149-209 | one iteration ends the loop exactly as its verdict says, having taken the time, counted the errors and reported what the verdict implies |
| Polling.PollUntilDone | services/quantum-core/quantum_core/sync/polling.py:144-213 | the loop ends at the first iteration with a verdict, at its exact time, with exactly one or no breaker report |
| Polling.WaitForResult | services/quantum-core/quantum_core/sync/polling.py:121-220 | unavailable exactly when the breaker is open, with nothing else touched; otherwise the loop's outcome, one success or one failure or nothing reported to the breaker, and metrics equal to polls made, transient errors seen and time waited on every exit |
| PollingTheorems.SwallowedWithinBudget | services/quantum-core/quantum_core/sync/polling.py:172-206 | both branches together swallow at most the budget of transient errors |
| PollingTheorems.ExhaustedAfterBudget | services/quantum-core/quantum_core/sync/polling.py:176-197 | giving up happens after exactly max(0, budget) + 1 transient errors |
| PollingTheorems.EndsForItsReason | services/quantum-core/quantum_core/sync/polling.py:153-209 | a run ends at an iteration with an outcome if and only if the reason for that outcome is met there, cancellation before timeout before the backend's answer, and every earlier iteration met a job queued or running or a transient error within the budget |
| PollingTheorems.JudgedIff | services/quantum-core/quantum_core/sync/polling.py:149-213 | an iteration ends with an outcome exactly when its reason is met, and goes on exactly when none is |
| PollingTheorems.CancelledJobEnds | services/quantum-core/quantum_core/sync/polling.py:208-209 | a job cancelled on the backend ends the run at the first poll that sees it |
| PollingTheorems.ElapsedSplit | services/quantum-core/quantum_core/sync/polling.py:149-213 | the time at an iteration is the sum of all sleeps and of all awaits before it |
| PollingTheorems.LastIteration | services/quantum-core/quantum_core/sync/polling.py:153-209 | the last iteration takes its cancellation, or its poll and, of a finished job, its fetch |
| PollingTheorems.IntervalClosed | services/quantum-core/quantum_core/sync/polling.py:145-213 | with factor >= 1 the n-th wait is min(initial * factor^n, max) |
| PollingTheorems.ShrunkInterval | services/quantum-core/quantum_core/sync/polling.py:145-213 | with factor < 1 the waits are a geometric sequence from the second on |
| PollingTheorems.PollCountBounded | services/quantum-core/quantum_core/sync/polling.py:149-161 | with factor >= 1 every run ends within floor(timeout / shortest wait) + 2 polls, and in its first iteration if the timeout is negative |
| PollingTheorems.ExitsInTime | services/quantum-core/quantum_core/sync/polling.py:157-161 | with instantaneous answers the loop is left within the timeout plus one maximal interval |
| PollingTheorems.AlwaysEndsIff | services/quantum-core/quantum_core/sync/polling.py:149-213 | for positive settings, every backend's run ends if and only if the timeout is negative, factor >= 1, or the whole geometric series of waits exceeds the timeout |
| MockBackend.MockHardwareBackend.Submit | services/quantum-core/quantum_core/backends/mock_hw_backend.py:61-68 | a new queued job beside the unchanged others |
| MockBackend.MockHardwareBackend.RunJob | services/quantum-core/quantum_core/backends/mock_hw_backend.py:70-108 | each wake-up changes this job alone, and not at all once it is cancelled or over; a job on the device fails for good, fails retryably or completes with its counts exactly as the roll falls |
| MockBackend.MockHardwareBackend.CancelJob | services/quantum-core/quantum_core/backends/mock_hw_backend.py:145-148 | queued and running jobs become cancelled, result and background task untouched; others and unknown ids stay |
| MockBackend.MockHardwareBackend.PollStatus | services/quantum-core/quantum_core/backends/mock_hw_backend.py:126-130 | the job's status, or an error exactly for unknown jobs |
| MockBackend.MockHardwareBackend.FetchResult | services/quantum-core/quantum_core/backends/mock_hw_backend.py:132-143 | result, transient error, not finished or unknown, and the internal assertion never fails |
| MockBackend.LivedOk | services/quantum-core/quantum_core/backends/mock_hw_backend.py:70-108 | under every interleaving a result exists exactly for completed and failed jobs, with matching status |
| MockBackend.TerminalAbsorbs | services/quantum-core/quantum_core/backends/mock_hw_backend.py:70-148 | completed, failed and cancelled are absorbing, result included |
| MockBackend.RaceDecides | services/quantum-core/quantum_core/backends/mock_hw_backend.py:70-148 | the job's fate read off the events: the second wake-up decides unless a cancellation comes first |
| MockBackend.FakeCounts | services/quantum-core/quantum_core/backends/mock_hw_backend.py:110-124 | the histogram adds up to the shots over exactly the outcomes, each bucket the quotient, the last shots mod n of them one more |
| MockPolling.OutcomeFitsJob | services/quantum-core/quantum_core/sync/polling.py:163-209 | on the mock backend the loop ends only as the job's state allows: a retryable failure only in timeout, cancellation or giving up |
| MockPolling.EveryFetchWasTransient | services/quantum-core/quantum_core/sync/polling.py:169-206 | on any backend every fetch before the last iteration met a transient error |
| MockPolling.GivesUpAfterFetches | services/quantum-core/quantum_core/sync/polling.py:176-197 | a raise on transient errors comes after exactly max(0, budget) + 1 fetches |
| MockPolling.RetryingNeverHelps | services/quantum-core/quantum_core/backends/mock_hw_backend.py:141-142 | a run that returns a result from the mock backend has seen no transient error |
| MockPolling.RetriesInVain | services/quantum-core/quantum_core/backends/mock_hw_backend.py:90-142 | a submitted job that fails retryably, on which the loop spends its whole budget and gives up |
| Alerting.StepChanges | services/stream-analytics/app/alerting.py:72-102 | a transition is emitted exactly when the level changes and carries the new level |
| Alerting.CountersAreRuns | services/stream-analytics/app/alerting.py:91-102 | both counters are the lengths of the trailing runs of the history, at either level |
| Alerting.LevelMeaning | services/stream-analytics/app/alerting.py:91-102 | the level is ALERT exactly when some breach streak of the history is not followed by a recovery streak |
| Alerting.LevelByComparison | services/stream-analytics/app/alerting.py:91-102 | the level by comparisons with the threshold alone: nothing above it never alerts, enough in a row above it always do, enough at or below it always end it |
| Alerting.TransitionsAlternate | services/stream-analytics/app/alerting.py:91-102 | transitions strictly alternate starting with ALERT, and the samples outside the pending run pay for them |
| Alerting.TransitionsNeedSamples | services/stream-analytics/app/alerting.py:91-102 | T transitions need at least ceil(T/2) breach streaks plus floor(T/2) recovery streaks of samples |
| Alerting.AlertTracker.Evaluate | services/stream-analytics/app/alerting.py:123-138 | a transition exactly when the meaning of this backend's own history changes, other backends untouched |
| Alerting.AlertTracker.CurrentLevel | services/stream-analytics/app/alerting.py:140-141 | ALERT exactly when this backend's history is alarmed; unknown backends are OK |
| Drift.WelfordIsBatch | services/stream-analytics/app/drift.py:64-75 | online count, mean and M2 equal the batch count, mean and sum of squared deviations from the final mean |
| Drift.BaselinePermuted | services/stream-analytics/app/drift.py:64-75 | the baseline does not depend on the order of the samples |
| Drift.SpreadVanishes | services/stream-analytics/app/drift.py:48-57 | M2 is never negative and is zero exactly when all samples are equal |
| Drift.VarianceIsBatch | services/stream-analytics/app/drift.py:48-57 | the variance times one less than the number of samples is the sum of the squared deviations from their mean |
| Drift.ZScoreIsBatch | services/stream-analytics/app/drift.py:78-89 | the square and the sign of a score in terms of the samples: the squared distance from their mean in units of their sample variance |
| Drift.ZScoreDefined | services/stream-analytics/app/drift.py:78-89 | a score exists exactly from two samples on that are not all equal |
| Drift.ZScoreExceeds | services/stream-analytics/app/drift.py:78-89 | |z| > t is a comparison of the squared distance from the mean with the summed squared deviations, without score, root or quotient |
| StreamAgent.Agent.ObserveWindow | services/stream-analytics/app/faust_app.py:390-456 | window sums and counts and the alert state follow the backend's own events, and the alert published is that history's |
| StreamAgent.Agent.ObserveDrift | services/stream-analytics/app/faust_app.py:458-527 | the score uses the baseline of strictly earlier samples, the hysteresis moves only when there is a score, and the published event carries the updated baseline |
| StreamAgent.Agent.Process | services/stream-analytics/app/faust_app.py:389-527 | every event keeps all tables and the published alerts and drift alerts of all backends equal to functions of each backend's own events |
| StreamAgent.PublishedAlternate | services/stream-analytics/app/faust_app.py:433-527 | the alerts published for a backend, and its drift alerts, strictly alternate starting with ALERT and end at the level in its table |
| StreamAgent.DriftLevels | services/stream-analytics/app/faust_app.py:476-527 | the published drift alerts are the transitions of the hysteresis over the scored samples |
| StreamAgent.DriftAlertSays | services/stream-analytics/app/faust_app.py:476-527 | a published drift alert in terms of the samples alone: signed score against the earlier ones, mean and standard deviation with the sample included, ALERT exactly above three standard deviations |
| StreamAgent.AlertSays | services/stream-analytics/app/faust_app.py:390-456 | a published alert carries the mean of the backend's samples in the window and is an ALERT exactly when it is above 0.05 |
| StreamAgent.AlertMeaning | services/stream-analytics/app/faust_app.py:415-432 | the alert level is the trace meaning of the hysteresis, three in a row each way, over the window averages |
| StreamAgent.AlertsPublishedStep | services/stream-analytics/app/faust_app.py:433-456 | publishing the alert of one event keeps every backend's published alerts equal to the transitions of the hysteresis over its own window averages |
| StreamAgent.SoloRefinement | services/stream-analytics/app/faust_app.py:382-389 | in any interleaving a backend's tables are those of a run on its events alone |
| StreamAgent.DriftMeaning | services/stream-analytics/app/faust_app.py:476-495 | the drift level is the trace meaning of the hysteresis over the scored samples |
| StreamAgent.ScoredIff | services/stream-analytics/app/faust_app.py:458-476 | a sample is scored exactly when at least two earlier samples exist and are not all equal |
| VqeStream.WindowState.Absorb | services/stream-analytics/app/faust_app.py:568-581 | the mutable aggregate stays the aggregate of its iterations, the least energy included |
| VqeStream.TotalsGrow | services/stream-analytics/app/faust_app.py:568-581 | each total grows by the iteration's own figure |
| VqeStream.VqeAgent.Process | services/stream-analytics/app/faust_app.py:563-614 | the published metrics summarise exactly the iterations of this experiment and window; no window shares its state with another |
| Calibration.InjectDemoParityErrors | services/orchestrator/app/tasks/calibration.py:75-95 | raises exactly outside [0, 1]; keeps the total of every histogram; moves shots from 00 to 01 first and then from 11 to 10, as many as are missing to the target rounded half to even; on two-bit histograms makes the odd count exactly max(before, target) |
| Calibration.InjectionHitsTarget | services/orchestrator/app/tasks/calibration.py:86-94 | two-bit histograms always have enough even shots to reach the target |
| Calibration.RoundIsEven | services/orchestrator/app/tasks/calibration.py:87 | the target is the nearest integer, and the even one of two |
| Calibration.MeasureErrorRate | services/orchestrator/app/tasks/calibration.py:112-114 | the odd count over the total, or over 1 without shots; a share between 0 and 1, zero exactly without odd-parity shots |
| ProbeLoop.CalibrationLoop.Request | services/orchestrator/app/worker.py:164 | a worker's request is recorded and leaves the event set, in every phase of the loop |
| ProbeLoop.CalibrationLoop.StartProbe | services/orchestrator/app/tasks/calibration.py:144-148 | a probe starts only at the top of the loop and answers all earlier requests |
| ProbeLoop.CalibrationLoop.Wait | services/orchestrator/app/tasks/calibration.py:158-164 | an unanswered request ends the wait at once, and the loop stays asleep only without one |
| ProbeLoop.TriggerIsPending | services/orchestrator/app/tasks/calibration.py:145-146 | the event is set exactly while some request has not been followed by the start of a probe |
| ProbeLoop.NoTriggerLost | services/orchestrator/app/tasks/calibration.py:144-164 | with an unanswered request the loop is not asleep and its own next steps reach another probe, also when the current probe fails |
| ProbeLoop.ProbesBounded | services/orchestrator/app/tasks/calibration.py:144-164 | probes started are at most one plus requests plus timeouts |
| Vqe.Sign | services/quantum-core/quantum_core/algorithms/vqe.py:172-177 | the product of the signs over the term's qubits, or an index error, with Python's negative indexing |
| Vqe.SignIsParity | services/quantum-core/quantum_core/algorithms/vqe.py:172-177 | the sign is the parity of the ones read, the rightmost character being qubit 0; reading fails exactly from twice the length on |
| Vqe.PauliExpectationFromCounts | services/quantum-core/quantum_core/algorithms/vqe.py:156-179 | empty totals and unreadable keys raise; otherwise plus shots minus minus shots over all shots, in any dictionary order |
| Vqe.ExpectationBounded | services/quantum-core/quantum_core/algorithms/vqe.py:166-179 | the expectation of an honest histogram lies in [-1, 1] |
| Vqe.ExpectationCounts | services/quantum-core/quantum_core/algorithms/vqe.py:166-179 | the expectation times the shots is the shots with an even less those with an odd number of ones read |
| Vqe.ParityExpectation | services/quantum-core/quantum_core/algorithms/vqe.py:166-179 | the Z0 Z1 expectation is one minus twice the calibration error rate |
| Vqe.MeasureTerm | services/quantum-core/quantum_core/loops/vqe_loop.py:127-152 | one term's run, with metrics folded exactly when the run returned |
| Vqe.EvaluateEnergy | services/quantum-core/quantum_core/loops/vqe_loop.py:121-155 | the weighted sum of the runs' expectations; metrics grow by the time and transient errors of exactly the runs that returned, and breaker trips never change |
| Vqe.EnergyLinear | services/quantum-core/quantum_core/loops/vqe_loop.py:121-155 | replacing one measured expectation moves the energy by the coefficient times the difference, sign included |
| Vqe.EnergyAtZero | services/quantum-core/quantum_core/loops/vqe_loop.py:127-129 | with nothing measured but zeros the energy is the sum of the identity coefficients |
| Vqe.EnergyWithin | services/quantum-core/quantum_core/loops/vqe_loop.py:121-155 | any energy lies within the identity coefficients plus or minus the sum of the other magnitudes |

## Left out

- Broker, database, HTTP and Kafka clients, SQL, JSON and logging: queues are sequences, messages datatypes, and a consumed result cannot fail to apply.
- Queue order: a worker may take any queued message and the TTL may release any parked one, which includes the broker's order; the results queue is first in, first out.
- A submit whose publish raises is taken as not enqueued, and task parameters are not carried.
- The maximal wait count is a natural number; the delays of the wait queue are not modelled beyond expiry being possible at any time.
- The endless loops of the worker's main and of consume_results are methods for one iteration each; the theorems hold after any number of them.
- Fairness: progress is stated as bounds on steps and as what a state without next steps has achieved.
- Polling.PollUntilDone: requires that the run ends, since a Dafny method must terminate; AlwaysEndsIff says when this holds for every backend.
- Polling.WaitForResult: requires that the run ends, for the same reason.
- Configurations with a non-positive initial interval, maximal interval or factor: their intervals follow the model, but no closed form is given.
- Qpe.QpeExact: the unitary is the single-qubit phase gate that run_qpe builds, with a phase that is a multiple of 1 / 2^t; other phases need trigonometry.
- Qpe.BuildQpeCircuit: the unitary is that phase gate, and the final measurement is not part of the gate list.
- Qpe.Kickback: a power of the unitary is its phase on the eigenstate, not a matrix power of a general gate.
- QftVectors.ForwardIsDftOnVectors: for any choice of the square roots that make up the dyadic angles; that one exists needs real square roots.
- Backoff delays and the clock are whole seconds; a sleep may last longer than asked for.
- Grover.BuildGroverCircuit: takes the iteration count as given; optimal_iterations and the success probability it maximises need pi and square roots.
- Measurement, simulation, transpilation and random numbers: rolls, sampled outcomes and histograms are parameters.
- Floating-point rounding: all arithmetic is over the reals, and Python's round is applied to the real product.
- The square root of the variance is any function that squares to its argument; everything about scores holds for each of them.
- Each stream sample carries its window number; Faust's clock, changelog, partitioning and window expiry are not modelled.
- Metadata of experiment results beyond the retryable flag, and the recent-events feed of the dashboard.
- AerBackend, COBYLA and the ansatz circuits, molecular Hamiltonian construction, SAT expressions and the rolling-window consumer.
- The calibration loop without a trigger, which only sleeps.

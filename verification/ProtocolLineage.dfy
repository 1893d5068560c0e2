/**
 What the retry header of a message says about its past.  The documented cap of three attempts is a
 cap on the header; a crash that hits a delivery already marked as redelivered escapes it.
 */
module ProtocolLineage {
  import opened Basics
  import opened Protocol
  import opened ProtocolSteps
  import opened ProtocolSafety
  import opened ProtocolRuns

  // ----- retry backoff -----

  /** All delays behind the retries a copy has in its header. */
  function TotalBackoff(retries: nat): nat {
    if retries == 0 then 0 else TotalBackoff(retries - 1) + ComputeBackoffDelay(retries)
  }

  lemma {:induction false} TotalBackoffClosed(retries: nat)
    ensures TotalBackoff(retries) == BASE_DELAY_S * Power(BACKOFF_FACTOR, retries) - BASE_DELAY_S
  {
    if retries > 0 {
      TotalBackoffClosed(retries - 1);
    }
  }

  /** 2 s, 4 s, 8 s. */
  lemma DelaysDouble(retryCount: nat)
    requires retryCount >= 1
    ensures ComputeBackoffDelay(1) == 2 && ComputeBackoffDelay(retryCount + 1) == 2 * ComputeBackoffDelay(retryCount)
  {
  }

  // ----- the account of one message -----

  /** Every crash behind a message is in its retry header, in its redelivered flag, or late; and the seconds slept
      behind it are at least the delays its header stands for. */
  predicate Accounts(m: Message) {
    && m.past.crashes == m.retries + (if m.redelivered then 1 else 0) + m.past.late
    && m.past.slept >= TotalBackoff(m.retries)
  }

  /** The crashes behind a message are among those that hit its experiment. */
  ghost predicate Witnessed(h: History, m: Message) {
    m.body.Task? ==>
      && m.past.late <= h.late[m.body.id]
      && m.past.crashes + h.late[m.body.id] <= h.crashed[m.body.id] + m.past.late
  }

  ghost predicate CopyOk(h: History, m: Message) {
    Accounts(m) && Witnessed(h, m)
  }

  ghost predicate HandAccounts(h: History, w: Worker) {
    w.Busy? ==>
      && CopyOk(h, w.message)
      && (w.pc.BackingOff? ==> w.message.redelivered)
      && (w.pc == Announcing || w.pc == Rescheduling ==> !w.message.redelivered)
      && (w.pc == DeadLettering && w.message.body.Task? ==> w.message.retries == MAX_RETRIES && w.message.redelivered)
  }

  /** A dead letter of a task took four counted crashes: three in its header and the last one. */
  ghost predicate DeadOk(h: History, m: Message) {
    m.body.Task? ==>
      && m.retries == MAX_RETRIES && m.past.crashes == 4 + m.past.late && Witnessed(h, m)
      && m.past.slept >= TotalBackoff(MAX_RETRIES)
  }

  ghost predicate Lineage(s: State) {
    && (forall m :: m in s.tasks ==> CopyOk(s.history, m))
    && (forall m :: m in s.waiting ==> CopyOk(s.history, m))
    && (forall w :: w in s.workers ==> HandAccounts(s.history, w))
    && (forall m :: m in s.deadLetters ==> DeadOk(s.history, m))
    && (forall id :: s.history.late[id] <= s.history.crashed[id])
  }

  lemma CountsGrow(c: Config, s: State, a: Action)
    requires Next(c, s, a).Some?
    ensures var h, h' := s.history, Next(c, s, a).value.history;
            forall id :: h.late[id] <= h'.late[id] && h.crashed[id] + h'.late[id] <= h'.crashed[id] + h.late[id]
  {
    hide Route, ApplyResult;
  }

  lemma CrashesGrow(c: Config, s: State, a: Action)
    requires Next(c, s, a).Some?
    ensures var t := Next(c, s, a).value;
            && (forall m :: Witnessed(s.history, m) ==> Witnessed(t.history, m))
            && (forall w :: HandAccounts(s.history, w) ==> HandAccounts(t.history, w))
            && (forall m :: DeadOk(s.history, m) ==> DeadOk(t.history, m))
  {
    hide Next, Accounts;
    CountsGrow(c, s, a);
  }

  lemma RetryAccounts(m: Message, slept: int)
    requires Accounts(m) && m.redelivered && slept >= ComputeBackoffDelay(m.retries + 1)
    ensures Accounts(RetryCopy(m, slept))
  {
  }

  lemma StruckAccounts(m: Message)
    requires Accounts(m)
    ensures Accounts(Struck(m))
  {
  }

  lemma StruckWitnessed(c: Config, s: State, i: nat)
    requires Next(c, s, Crash(i)).Some? && Witnessed(s.history, s.workers[i].message)
    ensures Witnessed(Next(c, s, Crash(i)).value.history, Struck(s.workers[i].message))
  {
  }

  /** The copy an action of worker `i` publishes to the task or wait queue keeps the account. */
  lemma PublishedAccounts(c: Config, s: State, a: Action)
    requires Consistent(c, s) && Lineage(s) && Next(c, s, a).Some? && (a.Republish? || a.Reschedule? || a.Crash?)
    ensures var t, m := Next(c, s, a).value, s.workers[a.i].message;
            match a
            case Republish(i) => CopyOk(t.history, RetryCopy(m, s.clock - s.workers[i].pc.since))
            case Reschedule(_) => CopyOk(t.history, WaitCopy(m))
            case _ => CopyOk(t.history, Struck(m))
  {
    assert s.workers[a.i] in s.workers;
    var m := s.workers[a.i].message;
    match a
    case Republish(i) => RetryAccounts(m, s.clock - s.workers[i].pc.since);
    case Reschedule(_) =>
    case Crash(i) =>
      StruckAccounts(m);
      StruckWitnessed(c, s, i);
  }

  lemma AddedAccounts(c: Config, s: State, a: Action)
    requires Consistent(c, s) && Lineage(s) && Next(c, s, a).Some? && Added(s, a).Some?
    ensures CopyOk(Next(c, s, a).value.history, Added(s, a).value)
  {
    hide Consistent, Route;
    CountsGrow(c, s, a);
    if a.Republish? || a.Crash? {
      PublishedAccounts(c, s, a);
    } else if a.Expire? {
      assert s.waiting[a.k] in s.waiting;
    }
  }

  lemma TasksLineage(c: Config, s: State, a: Action)
    requires Consistent(c, s) && Lineage(s) && Next(c, s, a).Some?
    ensures forall m :: m in Next(c, s, a).value.tasks ==> CopyOk(Next(c, s, a).value.history, m)
  {
    hide Next, Consistent, Added, Witnessed, Accounts;
    CrashesGrow(c, s, a);
    TasksGrow(c, s, a);
    if Added(s, a).Some? {
      AddedAccounts(c, s, a);
    }
  }

  lemma WaitingLineage(c: Config, s: State, a: Action)
    requires Consistent(c, s) && Lineage(s) && Next(c, s, a).Some?
    ensures forall m :: m in Next(c, s, a).value.waiting ==> CopyOk(Next(c, s, a).value.history, m)
  {
    hide Consistent, Witnessed, Accounts, Route, ApplyResult;
    CrashesGrow(c, s, a);
    if a.Reschedule? {
      PublishedAccounts(c, s, a);
    }
  }

  lemma DeadLineage(c: Config, s: State, a: Action)
    requires Consistent(c, s) && Lineage(s) && Next(c, s, a).Some?
    ensures forall m :: m in Next(c, s, a).value.deadLetters ==> DeadOk(Next(c, s, a).value.history, m)
  {
    hide Consistent, Route, ApplyResult;
    CrashesGrow(c, s, a);
    if a.DeadLetter? {
      assert s.workers[a.i] in s.workers;
    }
  }

  lemma RoutedRetries(c: Config, s: State, i: nat)
    requires Consistent(c, s) && Holds(s, i)
    ensures s.workers[i].message.retries <= MAX_RETRIES
  {
    assert s.workers[i] in s.workers;
  }

  lemma DecisionLineage(c: Config, s: State, i: nat)
    requires Consistent(c, s) && Lineage(s) && Next(c, s, Dispatch(i)).Some?
    ensures HandAccounts(s.history, Next(c, s, Dispatch(i)).value.workers[i])
  {
    hide Witnessed, Accounts, Consistent;
    assert s.workers[i] in s.workers;
    RoutedRetries(c, s, i);
  }

  /** A worker's hand after its own action. */
  lemma HandLineage(c: Config, s: State, a: Action, i: nat)
    requires Consistent(c, s) && Lineage(s) && Next(c, s, a).Some?
    requires i < |s.workers| && Next(c, s, a).value.workers[i] != s.workers[i]
    ensures HandAccounts(s.history, Next(c, s, a).value.workers[i])
  {
    hide Witnessed, Accounts, ApplyResult, Consistent, Route;
    assert s.workers[i] in s.workers;
    if a.Take? {
      assert s.tasks[a.k] in s.tasks;
    } else if a.Dispatch? {
      DecisionLineage(c, s, a.i);
    }
  }

  lemma HandsLineage(c: Config, s: State, a: Action)
    requires Consistent(c, s) && Lineage(s) && Next(c, s, a).Some?
    ensures forall w :: w in Next(c, s, a).value.workers ==> HandAccounts(Next(c, s, a).value.history, w)
  {
    hide Next, Consistent, HandAccounts;
    var t := Next(c, s, a).value;
    CrashesGrow(c, s, a);
    CrewStays(c, s, a);
    forall w | w in t.workers ensures HandAccounts(t.history, w) {
      var i :| 0 <= i < |t.workers| && t.workers[i] == w;
      if w != s.workers[i] {
        HandLineage(c, s, a, i);
      }
    }
  }

  lemma LineageStep(c: Config, s: State, a: Action)
    requires Consistent(c, s) && Lineage(s) && Next(c, s, a).Some?
    ensures Lineage(Next(c, s, a).value)
  {
    hide Next, Consistent, CopyOk, HandAccounts, DeadOk;
    TasksLineage(c, s, a);
    WaitingLineage(c, s, a);
    HandsLineage(c, s, a);
    DeadLineage(c, s, a);
    CountsGrow(c, s, a);
  }

  lemma {:induction false} AlwaysLineage(c: Config, workers: nat, now: int, run: seq<Action>, s: State)
    requires Reaches(c, Init(workers, now), run, s)
    ensures Lineage(s)
  {
    if run != [] {
      hide Next, Lineage, Safe;
      var n := |run| - 1;
      var before := Run(c, Init(workers, now), run[..n]).value;
      AlwaysLineage(c, workers, now, run[..n], before);
      AlwaysSafe(c, workers, now, run[..n], before);
      SafeIsConsistent(c, before);
      LineageStep(c, before, run[n]);
    }
  }

  lemma SafeIsConsistent(c: Config, s: State)
    requires Safe(c, s)
    ensures Consistent(c, s)
  {
  }

  // ----- exactly when the cap on the header is a cap on crashes -----

  /** In every reachable state the crashes behind a queued copy are its retries, its redelivered flag, and the late
      ones; so the header and the flag account for all of them exactly when none was late. */
  lemma HeaderCountsIff(c: Config, workers: nat, now: int, run: seq<Action>, s: State, m: Message)
    requires Reaches(c, Init(workers, now), run, s) && (m in s.tasks || m in s.waiting)
    ensures m.past.crashes == m.retries + One(m.redelivered) + m.past.late
    ensures m.past.crashes == m.retries + One(m.redelivered) <==> m.past.late == 0
  {
    AlwaysLineage(c, workers, now, run, s);
  }

  /** A dead-lettered task met exactly four crashes if and only if none of them hit a delivery already marked as
      redelivered. */
  lemma DeadLetterIff(c: Config, workers: nat, now: int, run: seq<Action>, s: State, m: Message)
    requires Reaches(c, Init(workers, now), run, s) && m in s.deadLetters && m.body.Task?
    ensures m.retries == MAX_RETRIES && m.past.crashes == 4 + m.past.late
    ensures m.past.crashes == 4 <==> m.past.late == 0
    ensures s.history.crashed[m.body.id] >= 4 + s.history.late[m.body.id]
  {
    AlwaysLineage(c, workers, now, run, s);
  }

  /** The guard: a crash is counted, by the header or by the flag, if and only if the delivery it hits is fresh. */
  lemma CrashCountedIff(c: Config, s: State, i: nat)
    requires Next(c, s, Crash(i)).Some?
    ensures var t, m := Next(c, s, Crash(i)).value, s.workers[i].message;
            && t.tasks == s.tasks + [Struck(m)]
            && Struck(m).past.crashes == m.past.crashes + 1
            && (Struck(m).retries + One(Struck(m).redelivered) > m.retries + One(m.redelivered) <==> !m.redelivered)
            && (t.history.late == s.history.late <==> !m.redelivered || m.body.Malformed?)
  {
    var t, m := Next(c, s, Crash(i)).value, s.workers[i].message;
    if m.redelivered && m.body.Task? {
      assert t.history.late[m.body.id] == s.history.late[m.body.id] + 1;
    } else {
      assert t.history.late == s.history.late + multiset{} == s.history.late;
    }
  }

  /** A message with n retries was published after at least the first n delays had been slept, and the delays asked
      for along its whole past add up to at most 2 + 4 + 8 seconds. */
  lemma BackoffSlept(c: Config, workers: nat, now: int, run: seq<Action>, s: State, m: Message)
    requires Reaches(c, Init(workers, now), run, s)
    requires m in s.tasks || m in s.waiting || (m in s.deadLetters && m.body.Task?)
    ensures TotalBackoff(m.retries) <= m.past.slept
    ensures TotalBackoff(m.retries) <= 14
    ensures m.retries <= 3
    ensures m.past.slept >= if m.retries == 0 then 0 else if m.retries == 1 then 2 else if m.retries == 2 then 6 else 14
  {
    AlwaysLineage(c, workers, now, run, s);
    AlwaysSafe(c, workers, now, run, s);
    TotalBackoffClosed(m.retries);
    assert m.retries <= MAX_RETRIES;
    assert Power(2, 1) == 2 && Power(2, 2) == 4 && Power(2, 3) == 8;
  }
}

/** Alert hysteresis: the incremental state machine, and what it means for the whole sample history. */
module Alerting {
  import opened Basics

  datatype AlertLevel = OK | ALERT

  datatype AlertState = AlertState(level: AlertLevel, consecutiveBreaches: int, consecutiveOk: int)

  datatype AlertTransition = AlertTransition(backendName: string, level: AlertLevel, value: real, threshold: real)

  datatype Settings = Settings(threshold: real, breachStreak: int, recoveryStreak: int)

  const FRESH := AlertState(OK, 0, 0)

  function Step(state: AlertState, value: real, c: Settings, backendName: string): (AlertState, Option<AlertTransition>) {
    if value > c.threshold then
      var breaches := state.consecutiveBreaches + 1;
      if state.level == OK && breaches >= c.breachStreak then
        (AlertState(ALERT, breaches, 0), Some(AlertTransition(backendName, ALERT, value, c.threshold)))
      else (state.(consecutiveBreaches := breaches, consecutiveOk := 0), None)
    else
      var okCount := state.consecutiveOk + 1;
      if state.level == ALERT && okCount >= c.recoveryStreak then
        (AlertState(OK, 0, okCount), Some(AlertTransition(backendName, OK, value, c.threshold)))
      else (state.(consecutiveBreaches := 0, consecutiveOk := okCount), None)
  }

  /** The state after a whole history of samples. */
  function Folded(c: Settings, values: seq<real>): AlertState {
    if values == [] then FRESH else Step(Folded(c, values[..|values| - 1]), values[|values| - 1], c, "").0
  }

  /** The transitions emitted over a history, oldest first. */
  function Emitted(c: Settings, values: seq<real>, backendName: string): seq<AlertTransition> {
    if values == [] then []
    else
      var front := values[..|values| - 1];
      match Step(Folded(c, front), values[|values| - 1], c, backendName).1
      case None => Emitted(c, front, backendName)
      case Some(transition) => Emitted(c, front, backendName) + [transition]
  }

  lemma FoldedAppend(c: Settings, values: seq<real>, value: real, backendName: string)
    ensures Folded(c, values + [value]) == Step(Folded(c, values), value, c, backendName).0
  {
    assert (values + [value])[..|values|] == values;
  }

  // ----- the counters -----

  predicate Breach(c: Settings, value: real) {
    value > c.threshold
  }

  /** The length of the run of breaches (or of non-breaches) at the end. */
  function TrailingRun(c: Settings, values: seq<real>, breach: bool): nat {
    if values == [] || Breach(c, values[|values| - 1]) != breach then 0
    else TrailingRun(c, values[..|values| - 1], breach) + 1
  }

  /** Both counters are the lengths of the trailing runs, whatever the level. */
  lemma {:induction false} CountersAreRuns(c: Settings, values: seq<real>)
    ensures Folded(c, values).consecutiveBreaches == TrailingRun(c, values, true)
    ensures Folded(c, values).consecutiveOk == TrailingRun(c, values, false)
  {
    if values != [] {
      CountersAreRuns(c, values[..|values| - 1]);
    }
  }

  // ----- the level -----

  /** `length` samples from `start` on, all breaches or all not. */
  predicate Streak(c: Settings, values: seq<real>, start: nat, length: nat, breach: bool) {
    start + length <= |values| && forall k :: start <= k < start + length ==> Breach(c, values[k]) == breach
  }

  ghost predicate Recovered(c: Settings, values: seq<real>, since: nat) {
    exists j: nat :: since <= j && Streak(c, values, j, Max(1, c.recoveryStreak), false)
  }

  /** `breachStreak` breaches in a row end before position `i`. */
  predicate Raised(c: Settings, values: seq<real>, i: nat) {
    var b := Max(1, c.breachStreak);
    b <= i && Streak(c, values, i - b, b, true)
  }

  /** Some streak of breaches is not followed by a streak of recoveries. */
  ghost predicate Alarmed(c: Settings, values: seq<real>) {
    exists i: nat :: Raised(c, values, i) && !Recovered(c, values, i)
  }

  lemma {:induction false} TrailingIsStreak(c: Settings, values: seq<real>, length: nat, breach: bool)
    requires length <= |values|
    ensures TrailingRun(c, values, breach) >= length <==> Streak(c, values, |values| - length, length, breach)
    ensures TrailingRun(c, values, breach) <= |values|
  {
    if values != [] {
      var front := values[..|values| - 1];
      if length > 0 {
        TrailingIsStreak(c, front, length - 1, breach);
        StreakFront(c, values, |values| - length, length - 1, breach);
      } else {
        TrailingIsStreak(c, front, 0, breach);
      }
    }
  }

  /** Streaks that end before the last sample do not see it. */
  lemma StreakFront(c: Settings, values: seq<real>, start: nat, length: nat, breach: bool)
    requires values != [] && start + length <= |values| - 1
    ensures Streak(c, values, start, length, breach) == Streak(c, values[..|values| - 1], start, length, breach)
  {
    assert forall k :: start <= k < start + length ==> values[k] == values[..|values| - 1][k];
  }

  /** A streak is old, or it is the end of the sequence. */
  lemma RaisedFront(c: Settings, values: seq<real>, i: nat)
    requires values != []
    ensures i < |values| ==> Raised(c, values, i) == Raised(c, values[..|values| - 1], i)
    ensures Raised(c, values, |values|) <==> TrailingRun(c, values, true) >= Max(1, c.breachStreak)
    ensures i > |values| ==> !Raised(c, values, i)
  {
    var b := Max(1, c.breachStreak);
    if b <= i < |values| {
      StreakFront(c, values, i - b, b, true);
    }
    if b <= |values| {
      TrailingIsStreak(c, values, b, true);
    } else {
      TrailingIsStreak(c, values, 0, true);
    }
  }

  lemma RecoveredFront(c: Settings, values: seq<real>, since: nat)
    requires values != []
    ensures Recovered(c, values[..|values| - 1], since) ==> Recovered(c, values, since)
    ensures Recovered(c, values, since) && TrailingRun(c, values, false) < Max(1, c.recoveryStreak)
            ==> Recovered(c, values[..|values| - 1], since)
  {
    var r, n := Max(1, c.recoveryStreak), |values|;
    var front := values[..n - 1];
    if Recovered(c, front, since) {
      var j: nat :| since <= j && Streak(c, front, j, r, false);
      StreakFront(c, values, j, r, false);
    }
    if Recovered(c, values, since) && TrailingRun(c, values, false) < r {
      var j: nat :| since <= j && Streak(c, values, j, r, false);
      if j + r == n {
        TrailingIsStreak(c, values, r, false);
        assert false;
      }
      StreakFront(c, values, j, r, false);
    }
  }

  /** After enough recoveries at the end, every earlier streak of breaches is recovered from. */
  lemma TrailingRecovers(c: Settings, values: seq<real>, i: nat)
    requires TrailingRun(c, values, false) >= Max(1, c.recoveryStreak) && Raised(c, values, i)
    ensures Recovered(c, values, i)
  {
    var r, n := Max(1, c.recoveryStreak), |values|;
    TrailingIsStreak(c, values, 0, false);
    TrailingIsStreak(c, values, r, false);
    assert Breach(c, values[i - 1]);
    assert i <= n - r;
  }

  lemma RunsExclude(c: Settings, values: seq<real>)
    requires values != []
    ensures Breach(c, values[|values| - 1]) ==> TrailingRun(c, values, false) == 0
    ensures !Breach(c, values[|values| - 1]) ==> TrailingRun(c, values, true) == 0
  {
  }

  lemma AlertingStays(c: Settings, values: seq<real>)
    requires values != [] && Alarmed(c, values[..|values| - 1])
    requires TrailingRun(c, values, false) < Max(1, c.recoveryStreak)
    ensures Alarmed(c, values)
  {
    var front := values[..|values| - 1];
    var i: nat :| Raised(c, front, i) && !Recovered(c, front, i);
    RaisedFront(c, values, i);
    RecoveredFront(c, values, i);
  }

  lemma AlertingBefore(c: Settings, values: seq<real>, i: nat)
    requires values != [] && Raised(c, values, i) && !Recovered(c, values, i) && i != |values|
    ensures Alarmed(c, values[..|values| - 1])
  {
    RaisedFront(c, values, i);
    RecoveredFront(c, values, i);
  }

  lemma AlertingStarts(c: Settings, values: seq<real>)
    requires values != []
    requires !Alarmed(c, values[..|values| - 1])
    ensures Alarmed(c, values) <==> TrailingRun(c, values, true) >= Max(1, c.breachStreak)
  {
    var n := |values|;
    RaisedFront(c, values, n);
    if Raised(c, values, n) {
      assert !Recovered(c, values, n);
    } else if Alarmed(c, values) {
      var i: nat :| Raised(c, values, i) && !Recovered(c, values, i);
      AlertingBefore(c, values, i);
      assert false;
    }
  }

  /** The level is ALERT exactly when some streak of breaches has not been recovered from. */
  lemma {:induction false} LevelMeaning(c: Settings, values: seq<real>)
    ensures Folded(c, values).level == ALERT <==> Alarmed(c, values)
  {
    if values == [] {
      assert forall i: nat :: !Raised(c, values, i);
    } else {
      hide Alarmed;
      var front := values[..|values| - 1];
      LevelMeaning(c, front);
      CountersAreRuns(c, values);
      CountersAreRuns(c, front);
      RunsExclude(c, values);
      if Alarmed(c, front) {
        if TrailingRun(c, values, false) >= Max(1, c.recoveryStreak) {
          NotAlerting(c, values);
        } else {
          AlertingStays(c, values);
        }
      } else {
        AlertingStarts(c, values);
      }
    }
  }

  lemma NotAlerting(c: Settings, values: seq<real>)
    requires TrailingRun(c, values, false) >= Max(1, c.recoveryStreak)
    ensures !Alarmed(c, values)
  {
    forall i: nat | Raised(c, values, i) ensures Recovered(c, values, i) {
      TrailingRecovers(c, values, i);
    }
  }

  // ----- the transitions -----

  /** The level after `k` transitions. */
  function LevelAfter(k: nat): AlertLevel {
    if k % 2 == 0 then OK else ALERT
  }

  /** The samples that `transitions` level changes take at least. */
  function Cost(c: Settings, transitions: nat): nat {
    if transitions == 0 then 0
    else Cost(c, transitions - 1) + if transitions % 2 == 1 then Max(1, c.breachStreak) else Max(1, c.recoveryStreak)
  }

  /** The samples that already count towards the next transition. */
  function Pending(state: AlertState): int {
    if state.level == OK then state.consecutiveBreaches else state.consecutiveOk
  }

  /** One sample pays for what it adds to the pending run, and a transition uses the run up. */
  lemma StepPays(c: Settings, state: AlertState, value: real, backendName: string, k: nat)
    requires state.level == LevelAfter(k) && state.consecutiveBreaches >= 0 && state.consecutiveOk >= 0
    ensures var (after, transition) := Step(state, value, c, backendName);
            var k' := if transition.Some? then k + 1 else k;
            && after.level == LevelAfter(k') && after.consecutiveBreaches >= 0 && after.consecutiveOk >= 0
            && Cost(c, k') + Pending(after) <= Cost(c, k) + Pending(state) + 1
            && (transition.Some? ==> transition.value.level == LevelAfter(k + 1)
                                     && transition.value.backendName == backendName)
  {
  }

  /** Transitions strictly alternate starting with ALERT, the last one announces the current level, and they are
      paid for by the samples outside the pending run. */
  lemma {:induction false} TransitionsAlternate(c: Settings, values: seq<real>, backendName: string)
    ensures var t, state := Emitted(c, values, backendName), Folded(c, values);
            && (forall k :: 0 <= k < |t| ==> t[k].level == LevelAfter(k + 1) && t[k].backendName == backendName)
            && state.level == LevelAfter(|t|)
            && state.consecutiveBreaches >= 0 && state.consecutiveOk >= 0
            && |values| >= Cost(c, |t|) + Pending(state)
  {
    if values != [] {
      hide Step, Cost, Pending, LevelAfter;
      var front, last := values[..|values| - 1], values[|values| - 1];
      TransitionsAlternate(c, front, backendName);
      StepPays(c, Folded(c, front), last, backendName, |Emitted(c, front, backendName)|);
      StepPays(c, Folded(c, front), last, "", |Emitted(c, front, backendName)|);
      SameState(c, Folded(c, front), last, backendName);
    }
  }

  lemma SameState(c: Settings, state: AlertState, value: real, backendName: string)
    ensures Step(state, value, c, backendName).0 == Step(state, value, c, "").0
  {
  }

  lemma {:induction false} CostClosed(c: Settings, transitions: nat)
    ensures Cost(c, transitions)
         == ((transitions + 1) / 2) * Max(1, c.breachStreak) + (transitions / 2) * Max(1, c.recoveryStreak)
  {
    if transitions > 0 {
      CostClosed(c, transitions - 1);
      var h := transitions / 2;
      var b, r := Max(1, c.breachStreak), Max(1, c.recoveryStreak);
      if transitions % 2 == 1 {
        assert (transitions + 1) / 2 == h + 1 && (transitions - 1) / 2 == h;
        assert (h + 1) * b == h * b + b;
      } else {
        assert (transitions + 1) / 2 == h && (transitions - 1) / 2 == h - 1;
        assert (h - 1) * r == h * r - r;
      }
    }
  }

  /** T transitions need at least ceil(T/2) breach streaks and floor(T/2) recovery streaks of samples. */
  lemma TransitionsNeedSamples(c: Settings, values: seq<real>, backendName: string)
    ensures var t := |Emitted(c, values, backendName)|;
            |values| >= ((t + 1) / 2) * Max(1, c.breachStreak) + (t / 2) * Max(1, c.recoveryStreak)
  {
    TransitionsAlternate(c, values, backendName);
    CostClosed(c, |Emitted(c, values, backendName)|);
  }

  /** A transition is emitted exactly when the level changes, and announces the new level. */
  lemma StepChanges(state: AlertState, value: real, c: Settings, backendName: string)
    ensures var (after, transition) := Step(state, value, c, backendName);
            && (transition.Some? <==> after.level != state.level)
            && (transition.Some? ==> transition.value == AlertTransition(backendName, after.level, value, c.threshold))
  {
  }

  /** A transition to ALERT is made by a sample above the threshold, one to OK by any other. */
  lemma LevelBySample(state: AlertState, value: real, c: Settings, backendName: string)
    ensures var transition := Step(state, value, c, backendName).1;
            transition.Some? ==> (transition.value.level == ALERT <==> value > c.threshold)
  {
  }

  /** The level by comparisons alone: samples at or below the threshold never raise an alert, enough samples above it
      in a row always do, and enough at or below it always end one. */
  lemma LevelByComparison(c: Settings, values: seq<real>)
    ensures (forall k :: 0 <= k < |values| ==> values[k] <= c.threshold) ==> Folded(c, values).level == OK
    ensures |values| >= Max(1, c.breachStreak)
            && (forall k :: |values| - Max(1, c.breachStreak) <= k < |values| ==> values[k] > c.threshold)
            ==> Folded(c, values).level == ALERT
    ensures |values| >= Max(1, c.recoveryStreak)
            && (forall k :: |values| - Max(1, c.recoveryStreak) <= k < |values| ==> values[k] <= c.threshold)
            ==> Folded(c, values).level == OK
  {
    LevelMeaning(c, values);
    var b, r, n := Max(1, c.breachStreak), Max(1, c.recoveryStreak), |values|;
    if forall k :: 0 <= k < n ==> values[k] <= c.threshold {
      forall i: nat ensures !Raised(c, values, i) {
        assert Raised(c, values, i) ==> Breach(c, values[i - 1]);
      }
    }
    if n >= b && forall k :: n - b <= k < n ==> values[k] > c.threshold {
      assert Raised(c, values, n) && !Recovered(c, values, n);
    }
    if n >= r && forall k :: n - r <= k < n ==> values[k] <= c.threshold {
      TrailingIsStreak(c, values, r, false);
      NotAlerting(c, values);
    }
  }

  // ----- many backends -----

  datatype Sample = Sample(backendName: string, value: real)

  /** The values of one backend, in order. */
  function ValuesOf(log: seq<Sample>, backendName: string): seq<real> {
    if log == [] then []
    else
      var last := log[|log| - 1];
      ValuesOf(log[..|log| - 1], backendName) + if last.backendName == backendName then [last.value] else []
  }

  lemma ValuesAppend(log: seq<Sample>, s: Sample, backendName: string)
    ensures ValuesOf(log + [s], backendName)
         == ValuesOf(log, backendName) + if s.backendName == backendName then [s.value] else []
  {
    assert (log + [s])[..|log|] == log;
  }

  class AlertTracker {
    const settings: Settings
    var states: map<string, AlertState>
    ghost var log: seq<Sample>

    /** Every backend's state is the fold of its own samples. */
    ghost predicate Valid()
      reads this
    {
      forall name :: Folded(settings, ValuesOf(log, name)) == if name in states then states[name] else FRESH
    }

    constructor (settings: Settings)
      ensures Valid() && log == [] && this.settings == settings
    {
      this.settings := settings;
      states, log := map[], [];
    }

    method Evaluate(backendName: string, value: real) returns (transition: Option<AlertTransition>)
      requires Valid()
      modifies this
      ensures Valid() && log == old(log) + [Sample(backendName, value)]
      ensures var before, after := ValuesOf(old(log), backendName), ValuesOf(log, backendName);
              && (transition.Some? <==> (Alarmed(settings, before) <==> !Alarmed(settings, after)))
              && (transition.Some? ==>
                    transition.value == AlertTransition(backendName, if Alarmed(settings, after) then ALERT else OK,
                                                        value, settings.threshold))
    {
      hide Alarmed, Folded, ValuesOf, Step;
      ghost var before := log;
      var state := if backendName in states then states[backendName] else AlertState(OK, 0, 0);
      var (newState, result) := Step(state, value, settings, backendName);
      states := states[backendName := newState];
      transition := result;
      log := log + [Sample(backendName, value)];
      FoldedAppend(settings, ValuesOf(before, backendName), value, backendName);
      StepChanges(state, value, settings, backendName);
      forall name ensures Folded(settings, ValuesOf(log, name)) == if name in states then states[name] else FRESH {
        ValuesAppend(before, Sample(backendName, value), name);
        assert ValuesOf(before, name) + [] == ValuesOf(before, name);
      }
      ValuesAppend(before, Sample(backendName, value), backendName);
      LevelMeaning(settings, ValuesOf(before, backendName));
      LevelMeaning(settings, ValuesOf(log, backendName));
    }

    method CurrentLevel(backendName: string) returns (level: AlertLevel)
      requires Valid()
      ensures level == ALERT <==> Alarmed(settings, ValuesOf(log, backendName))
    {
      LevelMeaning(settings, ValuesOf(log, backendName));
      level := if backendName in states then states[backendName].level else OK;
    }
  }
}

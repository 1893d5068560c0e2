/** How many crashes and executions the retries and waits of one copy can add up to. */
module Maxima {
  /** The most crashes that a fresh copy with `retries` retries and `waits` waits left can lead to: it is parked
      if it can be, the crash before the ack is the first, and both copies go on. */
  function Crashes(retries: nat, waits: nat): nat {
    1 + (if retries > 0 then Crashes(retries - 1, waits) else 0) + (if waits > 0 then Crashes(retries, waits - 1) else 0)
  }

  /** The most executions: the last parked copy executes, each copy after a retry starts over. */
  function Attempts(retries: nat, waits: nat): nat {
    (if retries > 0 then Attempts(retries - 1, waits) else 0) + (if waits > 0 then Attempts(retries, waits - 1) else 1)
  }

  lemma {:induction false} AttemptsPositive(retries: nat, waits: nat)
    ensures Attempts(retries, waits) >= 1
  {
    if waits > 0 {
      AttemptsPositive(retries, waits - 1);
    }
  }

  // ----- closed forms -----

  lemma CrashesClosed(b: nat)
    ensures Crashes(0, b) == b + 1
    ensures 2 * (Crashes(1, b) + 1) == (b + 2) * (b + 3)
    ensures 6 * (Crashes(2, b) + 1) == (b + 2) * (b + 3) * (b + 4)
    ensures 24 * (Crashes(3, b) + 1) == (b + 2) * (b + 3) * (b + 4) * (b + 5)
  {
    OneRetryCrashes(b);
    TwoRetriesCrashes(b);
    ThreeRetriesCrashes(b);
  }

  /** With three retries and the default of twelve waits. */
  lemma DefaultMaxima()
    ensures Crashes(3, 12) == 2379 && Attempts(3, 12) == 560
  {
    hide Crashes, Attempts;
    CrashesClosed(12);
    AttemptsClosed(12);
  }

  lemma {:induction false} OneRetryCrashes(b: nat)
    ensures Crashes(0, b) == b + 1
    ensures 2 * (Crashes(1, b) + 1) == (b + 2) * (b + 3)
  {
    if b > 0 {
      OneRetryCrashes(b - 1);
    }
  }

  lemma {:induction false} TwoRetriesCrashes(b: nat)
    ensures 6 * (Crashes(2, b) + 1) == (b + 2) * (b + 3) * (b + 4)
  {
    hide Crashes;
    CrashesUnfold(2, b);
    OneRetryCrashes(b);
    if b > 0 {
      TwoRetriesCrashes(b - 1);
      PullOut((b + 2) * (b + 3), b + 1, 3);
      assert (b + 1) * (b + 2) * (b + 3) == (b + 2) * (b + 3) * (b + 1);
    }
  }

  lemma {:induction false} ThreeRetriesCrashes(b: nat)
    ensures 24 * (Crashes(3, b) + 1) == (b + 2) * (b + 3) * (b + 4) * (b + 5)
  {
    hide Crashes;
    CrashesUnfold(3, b);
    TwoRetriesCrashes(b);
    if b > 0 {
      ThreeRetriesCrashes(b - 1);
      PullOut((b + 2) * (b + 3) * (b + 4), b + 1, 4);
      Rotate(b + 1, (b + 2) * (b + 3), b + 4);
    }
  }

  lemma CrashesUnfold(a: nat, b: nat)
    requires a > 0
    ensures Crashes(a, b) + 1 == (Crashes(a - 1, b) + 1) + if b > 0 then Crashes(a, b - 1) + 1 else 1
  {
  }

  lemma PullOut(x: int, b: int, k: int)
    ensures x * b + k * x == x * (b + k)
  {
  }

  lemma Rotate(b: int, x: int, y: int)
    ensures b * x * y == x * y * b
  {
  }

  lemma {:induction false} AttemptsClosed(b: nat)
    ensures Attempts(0, b) == 1 && Attempts(1, b) == b + 2
    ensures 2 * Attempts(2, b) == (b + 2) * (b + 3)
    ensures 6 * Attempts(3, b) == (b + 2) * (b + 3) * (b + 4)
  {
    hide Attempts;
    AttemptsUnfold(3, b);
    TwoRetriesAttempts(b);
    if b > 0 {
      AttemptsClosed(b - 1);
      PullOut((b + 2) * (b + 3), b + 1, 3);
      assert (b + 1) * (b + 2) * (b + 3) == (b + 2) * (b + 3) * (b + 1);
    }
  }

  lemma AttemptsUnfold(a: nat, b: nat)
    requires a > 0
    ensures Attempts(a, b) == Attempts(a - 1, b) + if b > 0 then Attempts(a, b - 1) else 1
  {
  }

  lemma {:induction false} TwoRetriesAttempts(b: nat)
    ensures Attempts(0, b) == 1 && Attempts(1, b) == b + 2
    ensures 2 * Attempts(2, b) == (b + 2) * (b + 3)
  {
    AttemptsUnfold(2, b);
    AttemptsUnfold(1, b);
    if b > 0 {
      hide Attempts;
      TwoRetriesAttempts(b - 1);
    }
  }
}

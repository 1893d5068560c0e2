/** The circuit breaker of the polling loop: a getter that changes state, and what it computes. */
module CircuitBreaking {
  import opened Basics

  datatype Report = Succeeded | FailedAt(at: real)

  /** The last `k` reports are all failures. */
  predicate LastFailed(reports: seq<Report>, k: nat) {
    k <= |reports| && forall i :: |reports| - k <= i < |reports| ==> reports[i].FailedAt?
  }

  /** Open at `now`: enough failures in a row, the latest of them younger than `resetAfter`. */
  predicate OpenAt(threshold: int, resetAfter: real, reports: seq<Report>, now: real) {
    && LastFailed(reports, Max(1, threshold))
    && now - reports[|reports| - 1].at < resetAfter
  }

  /** The number of failures since the last success. */
  ghost function Trailing(reports: seq<Report>): nat {
    if reports == [] || reports[|reports| - 1].Succeeded? then 0 else Trailing(reports[..|reports| - 1]) + 1
  }

  lemma {:induction false} TrailingIsLastFailed(reports: seq<Report>, k: nat)
    ensures Trailing(reports) >= k <==> LastFailed(reports, k)
  {
    if k > 0 && reports != [] && reports[|reports| - 1].FailedAt? {
      var front := reports[..|reports| - 1];
      TrailingIsLastFailed(front, k - 1);
      assert LastFailed(reports, k) ==> LastFailed(front, k - 1) by {
        assert forall i :: 0 <= i < |front| ==> front[i] == reports[i];
      }
    }
  }

  lemma TrailingAppend(reports: seq<Report>, r: Report)
    ensures Trailing(reports + [r]) == if r.Succeeded? then 0 else Trailing(reports) + 1
  {
    assert (reports + [r])[..|reports|] == reports;
  }

  class CircuitBreaker {
    const failureThreshold: int
    const resetAfter: real
    var consecutiveFailures: int
    var openedAt: Option<real>

    ghost var reports: seq<Report>   // everything recorded so far
    ghost var latest: real           // the last reading of the monotonic clock

    ghost predicate Valid()
      reads this
    {
      var run := Trailing(reports);
      && (run > 0 ==> reports != [] && reports[|reports| - 1].FailedAt? && reports[|reports| - 1].at <= latest)
      && (run < Max(1, failureThreshold) ==> openedAt.None? && consecutiveFailures == run)
      && (run >= Max(1, failureThreshold) ==>
            if openedAt.Some?
            then openedAt.value == reports[|reports| - 1].at && consecutiveFailures >= failureThreshold
            else latest - reports[|reports| - 1].at >= resetAfter && consecutiveFailures == failureThreshold - 1)
    }

    constructor (failureThreshold: int, resetAfter: real, ghost now: real)
      ensures Valid() && reports == [] && latest == now
      ensures this.failureThreshold == failureThreshold && this.resetAfter == resetAfter
    {
      this.failureThreshold := failureThreshold;
      this.resetAfter := resetAfter;
      consecutiveFailures, openedAt := 0, None;
      reports, latest := [], now;
    }

    method RecordSuccess(ghost now: real)
      requires Valid() && now >= latest
      modifies this
      ensures Valid() && reports == old(reports) + [Succeeded] && latest == now
    {
      TrailingAppend(reports, Succeeded);
      consecutiveFailures := 0;
      openedAt := None;
      reports, latest := reports + [Succeeded], now;
    }

    method RecordFailure(now: real)
      requires Valid() && now >= latest
      modifies this
      ensures Valid() && reports == old(reports) + [FailedAt(now)] && latest == now
    {
      TrailingAppend(reports, FailedAt(now));
      consecutiveFailures := consecutiveFailures + 1;
      if consecutiveFailures >= failureThreshold {
        openedAt := Some(now);
      }
      reports, latest := reports + [FailedAt(now)], now;
    }

    /** The property `is_open`: it may close the breaker, yet it only reports what was recorded. */
    method IsOpen(now: real) returns (open: bool)
      requires Valid() && now >= latest
      modifies this
      ensures Valid() && reports == old(reports) && latest == now
      ensures open == OpenAt(failureThreshold, resetAfter, reports, now)
    {
      TrailingIsLastFailed(reports, Max(1, failureThreshold));
      latest := now;
      if openedAt.None? {
        return false;
      }
      if now - openedAt.value >= resetAfter {
        openedAt := None;
        consecutiveFailures := failureThreshold - 1;
        return false;
      }
      return true;
    }
  }

  predicate AllFailed(reports: seq<Report>) {
    forall i :: 0 <= i < |reports| ==> reports[i].FailedAt?
  }

  /** Whether the last `k` reports failed, when reports are appended to a run of at least `k` failures. */
  lemma LastFailedAppended(reports: seq<Report>, more: seq<Report>, k: nat)
    requires LastFailed(reports, k)
    ensures LastFailed(reports + more, k) <==> AllFailed(more) || LastFailed(more, k)
  {
    var all := reports + more;
    assert forall i :: 0 <= i < |more| ==> all[|reports| + i] == more[i];
    if LastFailed(all, k) {
      forall i | Max(0, |more| - k) <= i < |more| ensures more[i].FailedAt? {
        assert all[|reports| + i].FailedAt?;
      }
    }
  }

  /** Half-open is not a single trial.  Once closed by age, at `earlier`, whatever is reported later and whenever
      somebody asks: a caller is refused exactly when the later reports end in failures that complete the run,
      which all of them do if none is a success, and the latest of them is young. */
  lemma ClosedUntilNextFailure(threshold: int, resetAfter: real, reports: seq<Report>, earlier: real,
                               more: seq<Report>, now: real)
    requires LastFailed(reports, Max(1, threshold)) && !OpenAt(threshold, resetAfter, reports, earlier) && now >= earlier
    ensures OpenAt(threshold, resetAfter, reports + more, now)
            <==> && more != []
                 && (AllFailed(more) || LastFailed(more, Max(1, threshold)))
                 && now - more[|more| - 1].at < resetAfter
  {
    LastFailedAppended(reports, more, Max(1, threshold));
    if more == [] {
      assert reports + more == reports;
    } else {
      assert (reports + more)[|reports + more| - 1] == more[|more| - 1];
    }
  }

  /** With the default settings, after five failures at time 0: refused until 15 s are over, then two callers in a
      row are let through before anything is known of the first, and one failure at 17 s shuts both out again. */
  lemma TwoTrialsPass(reports: seq<Report>)
    requires reports == seq(5, _ => FailedAt(0.0))
    ensures OpenAt(5, 15.0, reports, 14.9) && !OpenAt(5, 15.0, reports[..4], 1.0)
    ensures !OpenAt(5, 15.0, reports, 15.0) && !OpenAt(5, 15.0, reports, 16.0)
    ensures OpenAt(5, 15.0, reports + [FailedAt(17.0)], 17.0)
  {
    ClosedUntilNextFailure(5, 15.0, reports, 15.0, [FailedAt(17.0)], 17.0);
  }
}

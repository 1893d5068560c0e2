/**
 The calibration loop and its trigger event.  The workers' `trigger.set()` may come at any await of the
 loop, so the loop is a class whose methods run from one await to the next, and its trace is arbitrary.
 */
module ProbeLoop {
  import opened Basics

  datatype Event =
    | Requested            // a worker sets the trigger
    | ProbeStarts          // the top of the loop: the trigger is cleared, the probe begins
    | ProbeEnds(ok: bool)  // published, or the exception was logged
    | Woken                // wait_for returned because the trigger is set
    | TimedOut             // wait_for gave up after the interval

  datatype Phase = AtTop | Probing | Waiting

  datatype LoopState = LoopState(trigger: bool, phase: Phase)

  const INITIAL := LoopState(false, AtTop)

  function Next(s: LoopState, e: Event): Option<LoopState> {
    match e
    case Requested => Some(s.(trigger := true))
    case ProbeStarts => if s.phase == AtTop then Some(LoopState(false, Probing)) else None
    case ProbeEnds(_) => if s.phase == Probing then Some(s.(phase := Waiting)) else None
    case Woken => if s.phase == Waiting && s.trigger then Some(s.(phase := AtTop)) else None
    case TimedOut => if s.phase == Waiting then Some(s.(phase := AtTop)) else None
  }

  function After(trace: seq<Event>): Option<LoopState> {
    if trace == [] then Some(INITIAL)
    else
      match After(trace[..|trace| - 1])
      case None => None
      case Some(s) => Next(s, trace[|trace| - 1])
  }

  lemma AfterAppend(trace: seq<Event>, e: Event)
    ensures After(trace + [e]) == match After(trace) case None => None case Some(s) => Next(s, e)
  {
    assert (trace + [e])[..|trace|] == trace;
  }

  function Count(trace: seq<Event>, e: Event): nat {
    if trace == [] then 0 else Count(trace[..|trace| - 1], e) + if trace[|trace| - 1] == e then 1 else 0
  }

  /** A request that no later probe has answered. */
  ghost predicate Pending(trace: seq<Event>) {
    exists i :: 0 <= i < |trace| && trace[i] == Requested && forall j :: i < j < |trace| ==> trace[j] != ProbeStarts
  }

  lemma PendingAppend(trace: seq<Event>, e: Event)
    ensures Pending(trace + [e]) <==> e == Requested || (Pending(trace) && e != ProbeStarts)
  {
    var more := trace + [e];
    if e == Requested {
      assert more[|trace|] == Requested;
    } else if Pending(trace) && e != ProbeStarts {
      var i :| 0 <= i < |trace| && trace[i] == Requested && forall j :: i < j < |trace| ==> trace[j] != ProbeStarts;
      assert more[i] == Requested;
    }
    if Pending(more) && e != Requested {
      var i :| 0 <= i < |more| && more[i] == Requested && forall j :: i < j < |more| ==> more[j] != ProbeStarts;
      assert trace[i] == Requested;
      assert more[|trace|] != ProbeStarts;
      assert forall j :: i < j < |trace| ==> trace[j] == more[j];
    }
  }

  /** The trigger is set exactly while some request has not been followed by the start of a probe. */
  lemma {:induction false} TriggerIsPending(trace: seq<Event>)
    requires After(trace).Some?
    ensures After(trace).value.trigger <==> Pending(trace)
  {
    if trace != [] {
      hide Pending;
      var front, last := trace[..|trace| - 1], trace[|trace| - 1];
      TriggerIsPending(front);
      PendingAppend(front, last);
      assert trace == front + [last];
    }
  }

  /** The loop sleeps: it waits and only a new request or the timeout can wake it. */
  predicate Asleep(s: LoopState) {
    s.phase == Waiting && Next(s, Woken).None?
  }

  /** No trigger is lost: the loop never sleeps on an unanswered request, and from wherever it is, its next own
      steps lead to another probe. */
  lemma NoTriggerLost(trace: seq<Event>, ok: bool)
    requires After(trace).Some? && Pending(trace)
    ensures !Asleep(After(trace).value)
    ensures match After(trace).value.phase
            case AtTop => After(trace + [ProbeStarts]).Some?
            case Waiting => After(trace + [Woken] + [ProbeStarts]).Some?
            case Probing => After(trace + [ProbeEnds(ok)] + [Woken] + [ProbeStarts]).Some?
  {
    hide After;
    TriggerIsPending(trace);
    AfterAppend(trace, ProbeStarts);
    AfterAppend(trace, Woken);
    AfterAppend(trace + [Woken], ProbeStarts);
    AfterAppend(trace, ProbeEnds(ok));
    AfterAppend(trace + [ProbeEnds(ok)], Woken);
    AfterAppend(trace + [ProbeEnds(ok)] + [Woken], ProbeStarts);
  }

  function One(b: bool): nat {
    if b then 1 else 0
  }

  /** Probes started: at most one more than requests and timeouts together. */
  lemma {:induction false} ProbesBounded(trace: seq<Event>)
    requires After(trace).Some?
    ensures var s := After(trace).value;
            Count(trace, ProbeStarts) + One(s.phase == AtTop) <= 1 + Count(trace, Woken) + Count(trace, TimedOut)
    ensures Count(trace, Woken) + One(After(trace).value.trigger && After(trace).value.phase != AtTop)
         <= Count(trace, Requested)
    ensures Count(trace, ProbeStarts) <= 1 + Count(trace, Requested) + Count(trace, TimedOut)
  {
    if trace != [] {
      ProbesBounded(trace[..|trace| - 1]);
    }
  }

  class CalibrationLoop {
    var trigger: bool
    ghost var phase: Phase
    ghost var trace: seq<Event>

    ghost predicate Valid()
      reads this
    {
      After(trace) == Some(LoopState(trigger, phase))
    }

    constructor ()
      ensures Valid() && trace == []
    {
      trigger, phase, trace := false, AtTop, [];
    }

    /** A worker's `trigger.set()`. */
    method Request()
      requires Valid()
      modifies this
      ensures Valid() && trace == old(trace) + [Requested] && phase == old(phase) && trigger
    {
      hide After;
      AfterAppend(trace, Requested);
      trigger := true;
      trace := trace + [Requested];
    }

    method StartProbe()
      requires Valid() && phase == AtTop
      modifies this
      ensures Valid() && trace == old(trace) + [ProbeStarts] && phase == Probing && !trigger
    {
      hide After;
      AfterAppend(trace, ProbeStarts);
      trigger := false;
      phase, trace := Probing, trace + [ProbeStarts];
    }

    /** The probe returns or raises; either way the loop goes on to wait. */
    method EndProbe(ok: bool)
      requires Valid() && phase == Probing
      modifies this
      ensures Valid() && trace == old(trace) + [ProbeEnds(ok)] && phase == Waiting && trigger == old(trigger)
    {
      hide After;
      AfterAppend(trace, ProbeEnds(ok));
      phase, trace := Waiting, trace + [ProbeEnds(ok)];
    }

    /** `wait_for(trigger.wait(), interval)` at a moment of its wait: it returns at once if the trigger is set,
        and otherwise only at the timeout. */
    method Wait(intervalOver: bool) returns (goesOn: bool)
      requires Valid() && phase == Waiting
      modifies this
      ensures Valid() && trigger == old(trigger) && goesOn == (trigger || intervalOver)
      ensures goesOn ==> phase == AtTop && trace == old(trace) + [if trigger then Woken else TimedOut]
      ensures !goesOn ==> phase == Waiting && trace == old(trace) && Asleep(LoopState(trigger, phase))
      ensures Pending(old(trace)) ==> goesOn
    {
      hide After, Pending;
      TriggerIsPending(trace);
      if trigger {
        AfterAppend(trace, Woken);
        phase, trace := AtTop, trace + [Woken];
        return true;
      }
      if intervalOver {
        AfterAppend(trace, TimedOut);
        phase, trace := AtTop, trace + [TimedOut];
        return true;
      }
      return false;
    }
  }
}

/** The VQE stream agent: one mutable aggregate per experiment and window, and the event it publishes. */
module VqeStream {
  import opened Basics

  datatype Iteration = Iteration(
    experimentId: string,
    window: int,
    energy: real,
    quantumTime: real,
    classicalTime: real,
    retryCount: int,
    breakerTrips: int)

  datatype WindowMetrics = WindowMetrics(
    experimentId: string,
    iterationCount: int,
    avgEnergy: real,
    bestEnergy: real,
    avgQuantumTime: real,
    avgClassicalTime: real,
    ratio: real,
    retryCount: int,
    breakerTrips: int)

  type Key = (string, int)

  /** The iterations of one experiment in one window, in order. */
  function IterationsOf(log: seq<Iteration>, key: Key): seq<Iteration> {
    if log == [] then []
    else
      var last := log[|log| - 1];
      IterationsOf(log[..|log| - 1], key) + if (last.experimentId, last.window) == key then [last] else []
  }

  lemma IterationsAppend(log: seq<Iteration>, e: Iteration, key: Key)
    ensures IterationsOf(log + [e], key)
         == IterationsOf(log, key) + if (e.experimentId, e.window) == key then [e] else []
  {
    assert (log + [e])[..|log|] == log;
  }

  function Added(its: seq<Iteration>, f: Iteration -> real): real {
    if its == [] then 0.0 else Added(its[..|its| - 1], f) + f(its[|its| - 1])
  }

  function Counted(its: seq<Iteration>, f: Iteration -> int): int {
    if its == [] then 0 else Counted(its[..|its| - 1], f) + f(its[|its| - 1])
  }

  function Energy(): Iteration -> real { (e: Iteration) => e.energy }
  function Quantum(): Iteration -> real { (e: Iteration) => e.quantumTime }
  function Classical(): Iteration -> real { (e: Iteration) => e.classicalTime }
  function Retries(): Iteration -> int { (e: Iteration) => e.retryCount }
  function Trips(): Iteration -> int { (e: Iteration) => e.breakerTrips }

  lemma AddedAppend(its: seq<Iteration>, e: Iteration)
    ensures forall f: Iteration -> real :: Added(its + [e], f) == Added(its, f) + f(e)
    ensures forall f: Iteration -> int :: Counted(its + [e], f) == Counted(its, f) + f(e)
  {
    assert (its + [e])[..|its|] == its;
  }

  /** One more iteration adds its own figures to the totals. */
  lemma TotalsGrow(its: seq<Iteration>, e: Iteration)
    ensures Added(its + [e], Energy()) == Added(its, Energy()) + e.energy
    ensures Added(its + [e], Quantum()) == Added(its, Quantum()) + e.quantumTime
    ensures Added(its + [e], Classical()) == Added(its, Classical()) + e.classicalTime
    ensures Counted(its + [e], Retries()) == Counted(its, Retries()) + e.retryCount
    ensures Counted(its + [e], Trips()) == Counted(its, Trips()) + e.breakerTrips
  {
    AddedAppend(its, e);
  }

  lemma {:induction false} AddedOnes(its: seq<Iteration>)
    ensures Added(its, (e: Iteration) => 1.0) == |its| as real && Counted(its, (e: Iteration) => 1) == |its|
  {
    if its != [] {
      AddedOnes(its[..|its| - 1]);
    }
  }

  /** `best` is the least energy of the iterations. */
  predicate Least(its: seq<Iteration>, best: real) {
    && (exists i :: 0 <= i < |its| && its[i].energy == best)
    && (forall i :: 0 <= i < |its| ==> best <= its[i].energy)
  }

  lemma LeastAppend(its: seq<Iteration>, e: Iteration, before: real, after: real)
    requires its != [] ==> Least(its, before)
    requires after == if its == [] then e.energy else MinReal(before, e.energy)
    ensures Least(its + [e], after)
  {
    var more := its + [e];
    assert more[|its|] == e;
    if its != [] && after == before {
      var i :| 0 <= i < |its| && its[i].energy == before;
      assert more[i].energy == before;
    }
  }

  /** The published metrics are about exactly the iterations of this experiment and window so far. */
  ghost predicate Summarises(m: WindowMetrics, its: seq<Iteration>) {
    var n := |its| as real;
    && its != []
    && m.iterationCount == |its|
    && m.avgEnergy == Added(its, Energy()) / n
    && m.avgQuantumTime == Added(its, Quantum()) / n
    && m.avgClassicalTime == Added(its, Classical()) / n
    && m.retryCount == Counted(its, Retries())
    && m.breakerTrips == Counted(its, Trips())
    && Least(its, m.bestEnergy)
    && m.ratio == (if m.avgClassicalTime > 0.0 then m.avgQuantumTime / m.avgClassicalTime else 0.0)
  }

  class WindowState {
    var iterationCount: int
    var energySum: real
    var bestEnergy: real
    var quantumTimeSum: real
    var classicalTimeSum: real
    var retryCount: int
    var breakerTrips: int

    /** The fields are the aggregates of `its`. */
    ghost predicate Aggregates(its: seq<Iteration>)
      reads this
    {
      && iterationCount == |its|
      && energySum == Added(its, Energy())
      && quantumTimeSum == Added(its, Quantum())
      && classicalTimeSum == Added(its, Classical())
      && retryCount == Counted(its, Retries())
      && breakerTrips == Counted(its, Trips())
      && (its != [] ==> Least(its, bestEnergy))
    }

    constructor ()
      ensures Aggregates([])
    {
      iterationCount, energySum, bestEnergy := 0, 0.0, 0.0;
      quantumTimeSum, classicalTimeSum, retryCount, breakerTrips := 0.0, 0.0, 0, 0;
    }

    method Absorb(event: Iteration, ghost its: seq<Iteration>)
      requires Aggregates(its)
      modifies this
      ensures Aggregates(its + [event])
    {
      AddedAppend(its, event);
      iterationCount := iterationCount + 1;
      energySum := energySum + event.energy;
      quantumTimeSum := quantumTimeSum + event.quantumTime;
      classicalTimeSum := classicalTimeSum + event.classicalTime;
      retryCount := retryCount + event.retryCount;
      breakerTrips := breakerTrips + event.breakerTrips;
      if iterationCount == 1 {
        bestEnergy := event.energy;
      } else {
        bestEnergy := MinReal(bestEnergy, event.energy);
      }
      LeastAppend(its, event, old(bestEnergy), bestEnergy);
    }

    /** The metrics event published after an iteration. */
    method Summary(experimentId: string, ghost its: seq<Iteration>) returns (metrics: WindowMetrics)
      requires Aggregates(its) && its != []
      ensures Summarises(metrics, its) && metrics.experimentId == experimentId
    {
      var count := iterationCount;
      var avgQuantum, avgClassical := quantumTimeSum / count as real, classicalTimeSum / count as real;
      var ratio := if avgClassical > 0.0 then avgQuantum / avgClassical else 0.0;
      metrics := WindowMetrics(experimentId, count, energySum / count as real, bestEnergy, avgQuantum, avgClassical,
                               ratio, retryCount, breakerTrips);
    }
  }

  class VqeAgent {
    var table: map<Key, WindowState>
    ghost var log: seq<Iteration>

    /** Every window has a state of its own, and it aggregates that window's iterations. */
    ghost predicate Valid()
      reads this, table.Values
    {
      && (forall k, l :: k in table && l in table && k != l ==> table[k] != table[l])
      && (forall k :: k in table ==> table[k].Aggregates(IterationsOf(log, k)))
      && (forall k :: k !in table ==> IterationsOf(log, k) == [])
    }

    constructor ()
      ensures Valid() && log == [] && table == map[]
    {
      table, log := map[], [];
    }

    /** The state of a window, a new one for a new window. */
    method StateOf(key: Key) returns (state: WindowState)
      requires Valid()
      modifies this`table
      ensures Valid() && key in table && table[key] == state
      ensures fresh(table.Values - old(table.Values))
    {
      hide IterationsOf, WindowState.Aggregates;
      if key in table {
        return table[key];
      }
      state := new WindowState();
      table := table[key := state];
      assert table.Values <= old(table.Values) + {state};
    }

    method Process(event: Iteration) returns (metrics: WindowMetrics)
      requires Valid()
      modifies this, table.Values
      ensures Valid() && log == old(log) + [event]
      ensures fresh(table.Values - old(table.Values))
      ensures metrics.experimentId == event.experimentId
      ensures Summarises(metrics, IterationsOf(log, (event.experimentId, event.window)))
    {
      hide IterationsOf, Summarises, WindowState.Aggregates;
      var key := (event.experimentId, event.window);
      ghost var before, its := log, IterationsOf(log, key);
      var state := StateOf(key);
      state.Absorb(event, its);
      forall k | k in table && k != key ensures table[k] != state && table[k].Aggregates(IterationsOf(before, k)) {
      }
      log := log + [event];
      forall k: Key ensures IterationsOf(log, k) == if k == key then its + [event] else IterationsOf(before, k) {
        IterationsAppend(before, event, k);
      }
      metrics := state.Summary(event.experimentId, its + [event]);
    }
  }
}

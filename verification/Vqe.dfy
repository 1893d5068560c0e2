/** Pauli expectations from histograms, and the energy evaluation of one VQE iteration. */
module Vqe {
  import opened Basics
  import opened Backends
  import opened Histograms
  import Calibration
  import opened Polling

  // ----- services/quantum-core/quantum_core/algorithms/vqe.py -----

  /** A coefficient and the qubits its Pauli factors act on; no qubits is the identity. */
  datatype PauliTerm = PauliTerm(coefficient: real, qubits: seq<nat>)

  /** `s[i]`, where a negative index counts from the end. */
  function PyIndex(s: string, i: int): Option<char> {
    if 0 <= i < |s| then Some(s[i])
    else if -|s| <= i < 0 then Some(s[|s| + i])
    else None
  }

  /** The bit of `qubit`; the leftmost character is the highest qubit. */
  function BitOf(bitstring: string, qubit: nat): Option<char> {
    PyIndex(bitstring, |bitstring| - 1 - qubit)
  }

  predicate Readable(bitstring: string, qubits: seq<nat>) {
    forall i :: 0 <= i < |qubits| ==> BitOf(bitstring, qubits[i]).Some?
  }

  /** The eigenvalue is -1: an odd number of the qubits read 1. */
  predicate Minus(bitstring: string, qubits: seq<nat>) {
    if qubits == [] then false
    else Minus(bitstring, qubits[..|qubits| - 1]) != (BitOf(bitstring, qubits[|qubits| - 1]) == Some('1'))
  }

  /** How many of the qubits read 1, repetitions counted. */
  function OnesRead(bitstring: string, qubits: seq<nat>): nat {
    if qubits == [] then 0
    else
      var q := qubits[|qubits| - 1];
      OnesRead(bitstring, qubits[..|qubits| - 1])
      + if q < |bitstring| && bitstring[|bitstring| - 1 - q] == '1' then 1
        else if |bitstring| <= q < 2 * |bitstring| && bitstring[2 * |bitstring| - 1 - q] == '1' then 1
        else 0
  }

  /** The sign is the parity of the ones read, the rightmost character being qubit 0; beyond the string the index is
      negative and counts from the end, and beyond that reading fails. */
  lemma {:induction false} SignIsParity(bitstring: string, qubits: seq<nat>)
    ensures Minus(bitstring, qubits) <==> OnesRead(bitstring, qubits) % 2 == 1
    ensures Readable(bitstring, qubits) <==> forall i :: 0 <= i < |qubits| ==> qubits[i] < 2 * |bitstring|
  {
    if qubits != [] {
      SignIsParity(bitstring, qubits[..|qubits| - 1]);
    }
  }

  function Minuses(qubits: seq<nat>): string -> bool { (k: string) => Minus(k, qubits) }
  function Pluses(qubits: seq<nat>): string -> bool { (k: string) => !Minus(k, qubits) }

  datatype Expectation = Value(value: real) | CountsEmpty | IndexError

  /** The mean eigenvalue. */
  ghost function MeanSign(h: Histogram, qubits: seq<nat>): real
    requires TotalShots(h) != 0
  {
    (Shots(h, Pluses(qubits)) - Shots(h, Minuses(qubits))) as real / TotalShots(h) as real
  }

  method Sign(bitstring: string, qubits: seq<nat>) returns (sign: Option<int>)
    ensures sign.Some? <==> Readable(bitstring, qubits)
    ensures sign.Some? ==> sign.value == if Minus(bitstring, qubits) then -1 else 1
  {
    var s := 1;
    for i := 0 to |qubits|
      invariant forall j :: 0 <= j < i ==> BitOf(bitstring, qubits[j]).Some?
      invariant s == if Minus(bitstring, qubits[..i]) then -1 else 1
    {
      assert qubits[..i + 1][..i] == qubits[..i];
      var bit := PyIndex(bitstring, |bitstring| - 1 - qubits[i]);
      if bit.None? {
        return None;
      }
      if bit == Some('1') {
        s := s * -1;
      }
    }
    assert qubits[..|qubits|] == qubits;
    return Some(s);
  }

  /** The counts of the outcomes in `done`, with their signs. */
  ghost function Signed(h: Histogram, qubits: seq<nat>): int {
    Shots(h, Pluses(qubits)) - Shots(h, Minuses(qubits))
  }

  lemma SignedRemove(h: Histogram, k: string, qubits: seq<nat>)
    requires k in h
    ensures Signed(h, qubits) == Signed(h - {k}, qubits) + (if Minus(k, qubits) then -1 else 1) * h[k]
  {
    ShotsRemove(h, k, Pluses(qubits));
    ShotsRemove(h, k, Minuses(qubits));
  }

  method PauliExpectationFromCounts(counts: Histogram, term: PauliTerm) returns (e: Expectation)
    ensures e.CountsEmpty? <==> TotalShots(counts) == 0
    ensures e.IndexError? <==> TotalShots(counts) != 0 && exists k :: k in counts && !Readable(k, term.qubits)
    ensures e.Value? ==> e.value == MeanSign(counts, term.qubits)
  {
    hide Shots, Readable, Minus;
    var total := SumValues(counts);
    if total == 0 {
      return CountsEmpty;
    }
    var acc := 0;
    var rest := counts;
    NoShots(term.qubits);
    while rest != map[]
      invariant acc + Signed(rest, term.qubits) == Signed(counts, term.qubits)
      invariant forall k :: k in rest ==> k in counts && rest[k] == counts[k]
      invariant forall k :: k in counts && k !in rest ==> Readable(k, term.qubits)
      decreases |rest|
    {
      var bitstring :| bitstring in rest;
      SignedRemove(rest, bitstring, term.qubits);
      var sign := Sign(bitstring, term.qubits);
      if sign.None? {
        return IndexError;
      }
      acc := acc + sign.value * rest[bitstring];
      rest := rest - {bitstring};
    }
    return Value(acc as real / total as real);
  }

  lemma NoShots(qubits: seq<nat>)
    ensures Signed(map[], qubits) == 0
  {
  }

  /** An expectation value lies between -1 and 1. */
  lemma ExpectationBounded(h: Histogram, qubits: seq<nat>)
    requires NonNegative(h) && TotalShots(h) != 0
    ensures -1.0 <= MeanSign(h, qubits) <= 1.0
  {
    hide Shots;
    ShotsNonNegative(h, Pluses(qubits));
    ShotsNonNegative(h, Minuses(qubits));
    ShotsSplit(h, Minuses(qubits), Pluses(qubits));
    RatioBounded(Signed(h, qubits) as real, TotalShots(h) as real);
  }

  lemma RatioBounded(x: real, t: real)
    requires t > 0.0 && -t <= x <= t
    ensures -1.0 <= x / t <= 1.0
  {
    Quotient(x, t);
    FactorSign(x / t - 1.0, t);
    FactorSign(-1.0 - x / t, t);
    assert (x / t - 1.0) * t == x - t && (-1.0 - x / t) * t == -t - x;
  }

  /** The expectation times the shots is the shots read with sign +1 less those read with sign -1. */
  lemma ExpectationCounts(h: Histogram, qubits: seq<nat>)
    requires TotalShots(h) != 0
    ensures MeanSign(h, qubits) * TotalShots(h) as real
         == (Shots(h, (k: string) => OnesRead(k, qubits) % 2 == 0) - Shots(h, (k: string) => OnesRead(k, qubits) % 2 == 1)) as real
  {
    Quotient(Signed(h, qubits) as real, TotalShots(h) as real);
    forall k: string ensures Minus(k, qubits) <==> OnesRead(k, qubits) % 2 == 1 {
      SignIsParity(k, qubits);
    }
    SamePick(h, Pluses(qubits), (k: string) => OnesRead(k, qubits) % 2 == 0);
    SamePick(h, Minuses(qubits), (k: string) => OnesRead(k, qubits) % 2 == 1);
  }

  lemma {:induction false} SamePick(h: Histogram, p: string -> bool, q: string -> bool)
    requires forall k :: p(k) == q(k)
    ensures Shots(h, p) == Shots(h, q)
  {
    if h != map[] {
      var k :| k in h;
      ShotsRemove(h, k, p);
      ShotsRemove(h, k, q);
      SamePick(h - {k}, p, q);
    }
  }

  const Z0Z1: seq<nat> := [0, 1]

  lemma ParitySigns()
    ensures !Minus("00", Z0Z1) && Minus("01", Z0Z1) && Minus("10", Z0Z1) && !Minus("11", Z0Z1)
  {
    assert Z0Z1[..1] == [0] && Z0Z1[..1][..0] == [];
    forall k: string | |k| == 2 ensures Minus(k, Z0Z1) <==> ((k[1] == '1') != (k[0] == '1')) {
      assert Minus(k, Z0Z1) == (Minus(k, Z0Z1[..1]) != (BitOf(k, 1) == Some('1')));
      assert Minus(k, [0]) == (Minus(k, [0][..0]) != (BitOf(k, 0) == Some('1')));
    }
  }

  /** The expectation of Z0 Z1 and the calibration error rate are two views of the same histogram. */
  lemma ParityExpectation(h: Histogram)
    requires TwoBit(h) && TotalShots(h) != 0
    ensures MeanSign(h, Z0Z1) == 1.0 - 2.0 * Calibration.ErrorRate(h, TotalShots(h))
  {
    hide Shots, Minus;
    ParitySigns();
    TwoBitShots(h, Pluses(Z0Z1));
    TwoBitShots(h, Minuses(Z0Z1));
    TwoBitShots(h, Everything());
    var odd, t := Calibration.OddParity(h) as real, TotalShots(h) as real;
    assert Signed(h, Z0Z1) as real == t - 2.0 * odd;
    SplitRatio(odd, t);
  }

  lemma SplitRatio(odd: real, t: real)
    requires t != 0.0
    ensures (t - 2.0 * odd) / t == 1.0 - 2.0 * (odd / t)
  {
    var a, b := (t - 2.0 * odd) / t, odd / t;
    Quotient(odd, t);
    Quotient(t - 2.0 * odd, t);
    assert (a - (1.0 - 2.0 * b)) * t == a * t - t + 2.0 * (b * t);
    ZeroFactor(a - (1.0 - 2.0 * b), t);
  }

  // ----- services/quantum-core/quantum_core/loops/vqe_loop.py -----

  class VQEIterationMetrics {
    var quantumTime: real
    var retryCount: int
    var breakerTrips: int

    constructor ()
      ensures quantumTime == 0.0 && retryCount == 0 && breakerTrips == 0
    {
      quantumTime, retryCount, breakerTrips := 0.0, 0, 0;
    }
  }

  datatype EnergyResult = Energy(energy: real) | Raised(outcome: Outcome) | NoCounts | BadCounts(e: Expectation)

  /** What a term contributes before its coefficient: 1 for the identity, else the expectation measured by the run. */
  ghost predicate Measured(config: PollingConfig, term: PauliTerm, script: Script, n: nat, e: real) {
    if term.qubits == [] then e == 1.0
    else
      && EndsAt(config, script, n)
      && Verdict(config, script, n).value.Returned?
      && var counts := Verdict(config, script, n).value.result.counts;
         counts.Some? && TotalShots(counts.value) != 0 && e == MeanSign(counts.value, term.qubits)
  }

  function Contribution(term: PauliTerm, e: real): real {
    term.coefficient * e
  }

  function Weighted(terms: seq<PauliTerm>, es: seq<real>): real
    requires |terms| == |es|
  {
    if terms == [] then 0.0
    else Weighted(terms[..|terms| - 1], es[..|es| - 1]) + Contribution(terms[|terms| - 1], es[|es| - 1])
  }

  /** The time the run of a script takes when it ends at `n`. */
  function RunTime(config: PollingConfig, script: Script, n: nat): real
    requires Verdict(config, script, n).Some?
  {
    Elapsed(config, script, n) + LastSpent(script(n), Verdict(config, script, n).value)
  }

  function RunRetries(config: PollingConfig, script: Script, n: nat): nat
    requires Verdict(config, script, n).Some?
  {
    Seen(script, n, Verdict(config, script, n).value)
  }

  /** Runs of the first `k` terms that were submitted: their times and their transient errors. */
  function TimeOf(config: PollingConfig, terms: seq<PauliTerm>, scripts: seq<Script>, lasts: seq<nat>, k: nat): real
    requires k <= |terms| && k <= |scripts| && k <= |lasts|
    requires forall i :: 0 <= i < k && terms[i].qubits != [] ==> Verdict(config, scripts[i], lasts[i]).Some?
  {
    if k == 0 then 0.0
    else TimeOf(config, terms, scripts, lasts, k - 1)
         + if terms[k - 1].qubits == [] then 0.0 else RunTime(config, scripts[k - 1], lasts[k - 1])
  }

  function RetriesOf(config: PollingConfig, terms: seq<PauliTerm>, scripts: seq<Script>, lasts: seq<nat>, k: nat): nat
    requires k <= |terms| && k <= |scripts| && k <= |lasts|
    requires forall i :: 0 <= i < k && terms[i].qubits != [] ==> Verdict(config, scripts[i], lasts[i]).Some?
  {
    if k == 0 then 0
    else RetriesOf(config, terms, scripts, lasts, k - 1)
         + if terms[k - 1].qubits == [] then 0 else RunRetries(config, scripts[k - 1], lasts[k - 1])
  }

  /** One term: submit, wait, fold the polling metrics in, and read the expectation off the counts. */
  method MeasureTerm(term: PauliTerm, script: Script, config: PollingConfig, start: real, metrics: VQEIterationMetrics?)
    returns (result: EnergyResult, ghost last: nat, ghost returned: bool)
    requires term.qubits != [] && ValidScript(script) && Ends(config, script)
    modifies metrics
    ensures EndsAt(config, script, last) && returned == Verdict(config, script, last).value.Returned?
    ensures result.Energy? ==> Measured(config, term, script, last, result.energy)
    ensures result.Raised? <==> !returned
    ensures returned ==>
              var counts := Verdict(config, script, last).value.result.counts;
              && (result.NoCounts? <==> counts.None?)
              && (result == BadCounts(CountsEmpty) <==> counts.Some? && TotalShots(counts.value) == 0)
              && (result == BadCounts(IndexError) <==>
                    counts.Some? && TotalShots(counts.value) != 0
                    && exists k :: k in counts.value && !Readable(k, term.qubits))
              && (result.Energy? <==>
                    counts.Some? && TotalShots(counts.value) != 0
                    && forall k :: k in counts.value ==> Readable(k, term.qubits))
    ensures result.Raised? ==> Verdict(config, script, last) == Some(result.outcome)
    ensures metrics != null ==>
              && metrics.breakerTrips == old(metrics.breakerTrips)
              && metrics.quantumTime == old(metrics.quantumTime) + (if returned then RunTime(config, script, last) else 0.0)
              && metrics.retryCount == old(metrics.retryCount) + (if returned then RunRetries(config, script, last) else 0)
  {
    hide Shots, Elapsed, Transients, LastSpent, Judged;
    var termMetrics: PollingMetrics? := null;
    if metrics != null {
      termMetrics := new PollingMetrics();
    }
    var outcome, finish;
    outcome, finish, last := WaitForResult(script, config, null, termMetrics, start);
    returned := outcome.Returned?;
    if !outcome.Returned? {
      return Raised(outcome), last, returned;
    }
    if metrics != null {
      metrics.quantumTime := metrics.quantumTime + termMetrics.waitTime;
      metrics.retryCount := metrics.retryCount + termMetrics.transientRetries;
      metrics.breakerTrips := metrics.breakerTrips + if termMetrics.breakerWasOpen then 1 else 0;
    }
    if outcome.result.counts.None? {
      return NoCounts, last, returned;
    }
    var expectation := PauliExpectationFromCounts(outcome.result.counts.value, term);
    if !expectation.Value? {
      return BadCounts(expectation), last, returned;
    }
    return Energy(expectation.value), last, returned;
  }

  lemma WeightedStep(terms: seq<PauliTerm>, es: seq<real>, k: nat)
    requires k < |terms| && k < |es|
    ensures Weighted(terms[..k + 1], es[..k + 1]) == Weighted(terms[..k], es[..k]) + Contribution(terms[k], es[k])
  {
    assert terms[..k + 1][..k] == terms[..k] && es[..k + 1][..k] == es[..k];
  }

  /**
   `evaluate_energy`: the weighted sum of the terms' expectations, each read off the counts of its own run.
   The metrics grow by the times and the transient errors of exactly the runs that returned; the breaker
   trips never change, because every run gets a breaker of its own.
   */
  method EvaluateEnergy(terms: seq<PauliTerm>, scripts: seq<Script>, config: PollingConfig, starts: seq<real>,
                        metrics: VQEIterationMetrics?)
    returns (result: EnergyResult, ghost lasts: seq<nat>, ghost es: seq<real>, ghost folded: nat)
    requires |scripts| == |terms| == |starts|
    requires forall i :: 0 <= i < |scripts| ==> ValidScript(scripts[i]) && Ends(config, scripts[i])
    modifies metrics
    ensures |lasts| == |es| == |terms| && folded <= |terms|
    ensures forall i :: 0 <= i < folded && terms[i].qubits != [] ==> Verdict(config, scripts[i], lasts[i]).Some?
    ensures result.Energy? ==>
              && folded == |terms|
              && result.energy == Weighted(terms, es)
              && forall i :: 0 <= i < |terms| ==> Measured(config, terms[i], scripts[i], lasts[i], es[i])
    ensures result.NoCounts? || result.BadCounts? ==>
              && folded > 0 && terms[folded - 1].qubits != []
              && EndsAt(config, scripts[folded - 1], lasts[folded - 1])
              && Verdict(config, scripts[folded - 1], lasts[folded - 1]).value.Returned?
              && var counts := Verdict(config, scripts[folded - 1], lasts[folded - 1]).value.result.counts;
                 result.NoCounts? <==> counts.None?
    ensures result.Raised? ==>
              && folded < |terms| && terms[folded].qubits != []
              && EndsAt(config, scripts[folded], lasts[folded])
              && Verdict(config, scripts[folded], lasts[folded]) == Some(result.outcome)
    ensures metrics != null ==>
              && metrics.breakerTrips == old(metrics.breakerTrips)
              && metrics.quantumTime == old(metrics.quantumTime) + TimeOf(config, terms, scripts, lasts, folded)
              && metrics.retryCount == old(metrics.retryCount) + RetriesOf(config, terms, scripts, lasts, folded)
  {
    hide Measured, Verdict, Ends, EndsAt, ValidScript, RunTime, RunRetries, TimeOf, RetriesOf, Weighted;
    lasts, es, folded := seq(|terms|, _ => 0), seq(|terms|, _ => 0.0), 0;
    NoRuns(config, terms, scripts, lasts);
    var total := 0.0;
    for i := 0 to |terms|
      invariant |lasts| == |es| == |terms| && folded == i
      invariant forall j :: 0 <= j < i && terms[j].qubits != [] ==> Verdict(config, scripts[j], lasts[j]).Some?
      invariant forall j :: 0 <= j < i ==> Measured(config, terms[j], scripts[j], lasts[j], es[j])
      invariant total == Weighted(terms[..i], es[..i])
      invariant metrics != null ==>
                  && metrics.breakerTrips == old(metrics.breakerTrips)
                  && metrics.quantumTime == old(metrics.quantumTime) + TimeOf(config, terms, scripts, lasts, i)
                  && metrics.retryCount == old(metrics.retryCount) + RetriesOf(config, terms, scripts, lasts, i)
    {
      var term := terms[i];
      if term.qubits == [] {
        es := es[i := 1.0];
        MeasuredIdentity(config, term, scripts[i], lasts[i]);
        WeightedStep(terms, es, i);
        total := total + term.coefficient;
        IdentityContribution(term);
        RunSumsStep(config, terms, scripts, lasts, i);
        folded := i + 1;
        continue;
      }
      var measured;
      ghost var last, returned, before := 0, false, lasts;
      measured, last, returned := MeasureTerm(term, scripts[i], config, starts[i], metrics);
      EndsWithVerdict(config, scripts[i], last);
      lasts := lasts[i := last];
      SameRuns(config, terms, scripts, before, lasts, i);
      RunSumsStep(config, terms, scripts, lasts, i);
      if returned {
        folded := i + 1;
      }
      if !measured.Energy? {
        return measured, lasts, es, folded;
      }
      es := es[i := measured.energy];
      WeightedStep(terms, es, i);
      total := total + term.coefficient * measured.energy;
    }
    assert terms[..|terms|] == terms && es[..|es|] == es;
    return Energy(total), lasts, es, folded;
  }

  lemma MeasuredIdentity(config: PollingConfig, term: PauliTerm, script: Script, n: nat)
    requires term.qubits == []
    ensures Measured(config, term, script, n, 1.0)
  {
  }

  lemma EndsWithVerdict(config: PollingConfig, script: Script, n: nat)
    requires EndsAt(config, script, n)
    ensures Verdict(config, script, n).Some?
  {
  }

  lemma NoRuns(config: PollingConfig, terms: seq<PauliTerm>, scripts: seq<Script>, lasts: seq<nat>)
    ensures TimeOf(config, terms, scripts, lasts, 0) == 0.0 && RetriesOf(config, terms, scripts, lasts, 0) == 0
    ensures Weighted([], []) == 0.0
  {
  }

  lemma RunSumsStep(config: PollingConfig, terms: seq<PauliTerm>, scripts: seq<Script>, lasts: seq<nat>, k: nat)
    requires k < |terms| && k < |scripts| && k < |lasts|
    requires forall i :: 0 <= i <= k && terms[i].qubits != [] ==> Verdict(config, scripts[i], lasts[i]).Some?
    ensures TimeOf(config, terms, scripts, lasts, k + 1)
         == TimeOf(config, terms, scripts, lasts, k)
            + if terms[k].qubits == [] then 0.0 else RunTime(config, scripts[k], lasts[k])
    ensures RetriesOf(config, terms, scripts, lasts, k + 1)
         == RetriesOf(config, terms, scripts, lasts, k)
            + if terms[k].qubits == [] then 0 else RunRetries(config, scripts[k], lasts[k])
  {
    hide Verdict, RunTime, RunRetries;
  }

  /** The sums over the first `k` runs depend on these runs only. */
  lemma {:induction false} SameRuns(config: PollingConfig, terms: seq<PauliTerm>, scripts: seq<Script>, a: seq<nat>,
                                    b: seq<nat>, k: nat)
    requires k <= |terms| && k <= |scripts| && k <= |a| && k <= |b|
    requires forall i :: 0 <= i < k ==> a[i] == b[i]
    requires forall i :: 0 <= i < k && terms[i].qubits != [] ==> Verdict(config, scripts[i], a[i]).Some?
    ensures forall i :: 0 <= i < k && terms[i].qubits != [] ==> Verdict(config, scripts[i], b[i]).Some?
    ensures TimeOf(config, terms, scripts, a, k) == TimeOf(config, terms, scripts, b, k)
    ensures RetriesOf(config, terms, scripts, a, k) == RetriesOf(config, terms, scripts, b, k)
  {
    hide Verdict, RunTime, RunRetries;
    if k > 0 {
      SameRuns(config, terms, scripts, a, b, k - 1);
    }
  }

  // ----- the energy as a function of what was measured -----

  /** The energy is linear in every measured expectation, with the term's coefficient: replacing one expectation moves
      the energy by exactly the coefficient times the difference, sign included. */
  lemma {:induction false} EnergyLinear(terms: seq<PauliTerm>, es: seq<real>, k: nat, y: real)
    requires |terms| == |es| && k < |es|
    ensures Weighted(terms, es[k := y]) - Weighted(terms, es) == terms[k].coefficient * (y - es[k])
  {
    var n := |terms| - 1;
    if k == n {
      assert es[k := y][..n] == es[..n];
      Distributes(terms[k].coefficient, y, es[k]);
    } else {
      assert es[k := y][..n] == es[..n][k := y];
      EnergyLinear(terms[..n], es[..n], k, y);
    }
  }

  lemma Distributes(c: real, y: real, e: real)
    ensures c * y - c * e == c * (y - e)
  {
  }

  /** With nothing measured but zeros the energy is the sum of the identity coefficients. */
  lemma {:induction false} EnergyAtZero(terms: seq<PauliTerm>, es: seq<real>)
    requires |terms| == |es|
    requires forall i :: 0 <= i < |terms| ==> es[i] == if terms[i].qubits == [] then 1.0 else 0.0
    ensures Weighted(terms, es) == IdentitySum(terms)
  {
    if terms != [] {
      EnergyAtZero(terms[..|terms| - 1], es[..|es| - 1]);
    }
  }

  /** The term 0.5716 Z0 Z1 with expectation -1 lowers the energy. */
  lemma NegativeExpectation()
    ensures Weighted([PauliTerm(0.5716, [0, 1])], [-1.0]) == -0.5716
  {
    var terms, es := [PauliTerm(0.5716, [0, 1])], [-1.0];
    EnergyAtZero(terms, [0.0]);
    EnergyLinear(terms, [0.0], 0, -1.0);
    assert [0.0][0 := -1.0] == es && terms[..0] == [];
    assert IdentitySum(terms) == 0.0;
  }

  // ----- bounds on the energy -----

  /** The sum of the coefficients of the identity terms. */
  function IdentitySum(terms: seq<PauliTerm>): real {
    if terms == [] then 0.0
    else IdentitySum(terms[..|terms| - 1])
         + if terms[|terms| - 1].qubits == [] then terms[|terms| - 1].coefficient else 0.0
  }

  function Magnitude(x: real): real {
    if x < 0.0 then -x else x
  }

  /** The sum of the magnitudes of the other coefficients. */
  function Spread(terms: seq<PauliTerm>): real {
    if terms == [] then 0.0
    else Spread(terms[..|terms| - 1])
         + if terms[|terms| - 1].qubits == [] then 0.0 else Magnitude(terms[|terms| - 1].coefficient)
  }

  lemma IdentityContribution(term: PauliTerm)
    ensures Contribution(term, 1.0) == term.coefficient
  {
  }

  lemma ContributionBound(term: PauliTerm, e: real)
    requires -1.0 <= e <= 1.0
    ensures -Magnitude(term.coefficient) <= Contribution(term, e) <= Magnitude(term.coefficient)
  {
    ScaledBound(term.coefficient, e);
  }

  lemma ScaledBound(c: real, e: real)
    requires -1.0 <= e <= 1.0
    ensures -Magnitude(c) <= c * e <= Magnitude(c)
  {
    var m := Magnitude(c);
    NonNegativeProduct(m - m * e, m, 1.0 - e);
    NonNegativeProduct(m + m * e, m, 1.0 + e);
  }

  lemma {:induction false} WeightedWithin(terms: seq<PauliTerm>, es: seq<real>)
    requires |terms| == |es|
    requires forall i :: 0 <= i < |terms| ==> if terms[i].qubits == [] then es[i] == 1.0 else -1.0 <= es[i] <= 1.0
    ensures IdentitySum(terms) - Spread(terms) <= Weighted(terms, es) <= IdentitySum(terms) + Spread(terms)
  {
    if terms != [] {
      hide Magnitude, Contribution;
      var k := |terms| - 1;
      WeightedWithin(terms[..k], es[..k]);
      if terms[k].qubits == [] {
        IdentityContribution(terms[k]);
      } else {
        ContributionBound(terms[k], es[k]);
      }
    }
  }

  /** Whatever the runs measured, the energy lies within the identity coefficients plus or minus the others. */
  lemma EnergyWithin(config: PollingConfig, terms: seq<PauliTerm>, scripts: seq<Script>, lasts: seq<nat>, es: seq<real>)
    requires |terms| == |scripts| == |lasts| == |es|
    requires forall i :: 0 <= i < |terms| ==> Measured(config, terms[i], scripts[i], lasts[i], es[i])
    requires forall i, n: nat :: 0 <= i < |scripts| ==> HonestCounts(Verdict(config, scripts[i], n))
    ensures IdentitySum(terms) - Spread(terms) <= Weighted(terms, es) <= IdentitySum(terms) + Spread(terms)
  {
    forall i | 0 <= i < |terms| ensures if terms[i].qubits == [] then es[i] == 1.0 else -1.0 <= es[i] <= 1.0 {
      assert Measured(config, terms[i], scripts[i], lasts[i], es[i]);
      if terms[i].qubits != [] {
        assert HonestCounts(Verdict(config, scripts[i], lasts[i]));
        ExpectationBounded(Verdict(config, scripts[i], lasts[i]).value.result.counts.value, terms[i].qubits);
      }
    }
    WeightedWithin(terms, es);
  }

  /** A returned histogram counts shots. */
  predicate HonestCounts(verdict: Option<Outcome>) {
    verdict.Some? && verdict.value.Returned? && verdict.value.result.counts.Some?
    ==> NonNegative(verdict.value.result.counts.value)
  }
}

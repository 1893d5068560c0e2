/** Grover's search circuit: the problem, the oracle, the diffuser and the builder. */
module Grover {
  import opened Circuits

  datatype Problem = Problem(numQubits: nat, markedStates: seq<string>)

  datatype ProblemResult = Valid(problem: Problem) | ValueError(message: string)

  predicate Binary(s: string) {
    forall c :: c in s ==> c == '0' || c == '1'
  }

  /** Every marked state is a bitstring over all qubits, and there is at least one. */
  predicate WellFormed(p: Problem) {
    && p.markedStates != []
    && forall s :: s in p.markedStates ==> |s| == p.numQubits && Binary(s)
  }

  /** The checks of GroverProblem.__post_init__, in their order. */
  method MakeProblem(numQubits: nat, markedStates: seq<string>) returns (result: ProblemResult)
    ensures result.Valid? <==> WellFormed(Problem(numQubits, markedStates))
    ensures result.Valid? <==>
            markedStates != [] && forall s :: s in markedStates ==> |s| == numQubits && forall c :: c in s ==> c in {'0', '1'}
    ensures result.Valid? ==> result.problem == Problem(numQubits, markedStates)
  {
    if markedStates == [] {
      return ValueError("marked_states must contain at least one target bitstring");
    }
    for i := 0 to |markedStates|
      invariant forall k :: 0 <= k < i ==> |markedStates[k]| == numQubits && Binary(markedStates[k])
    {
      var s := markedStates[i];
      if |s| != numQubits {
        assert s in markedStates;
        return ValueError("marked state has a wrong number of bits");
      }
      if exists c :: c in s && c != '0' && c != '1' {
        assert s in markedStates && !Binary(s);
        return ValueError("marked state must contain only '0'/'1'");
      }
    }
    return Valid(Problem(numQubits, markedStates));
  }

  // ----- the gate lists -----

  /** X on the qubits below `k` that should read 0 in `state`; the leftmost character is the highest qubit. */
  function ZeroFlips(state: string, k: nat): seq<Gate>
    requires k <= |state|
  {
    if k == 0 then []
    else ZeroFlips(state, k - 1) + if state[|state| - k] == '0' then [X(k - 1)] else []
  }

  function Range(n: nat): seq<nat> {
    if n == 0 then [] else Range(n - 1) + [n - 1]
  }

  function Mcz(n: nat): seq<Gate>
    requires n >= 1
  {
    if n == 1 then [Z(0)] else [H(n - 1), Mcx(Range(n - 1), n - 1), H(n - 1)]
  }

  function MarkOne(state: string): seq<Gate>
    requires |state| >= 1
  {
    ZeroFlips(state, |state|) + Mcz(|state|) + ZeroFlips(state, |state|)
  }

  function Oracle(marked: seq<string>): seq<Gate>
    requires forall s :: s in marked ==> |s| >= 1
  {
    if marked == [] then [] else Oracle(marked[..|marked| - 1]) + MarkOne(marked[|marked| - 1])
  }

  function Flips(n: nat): seq<Gate> {
    if n == 0 then [] else Flips(n - 1) + [X(n - 1)]
  }

  function Diffuser(n: nat): seq<Gate>
    requires n >= 1
  {
    Hadamards(n) + Flips(n) + Mcz(n) + Flips(n) + Hadamards(n)
  }

  function Iterations(n: nat, marked: seq<string>, k: nat): seq<Gate>
    requires n >= 1 && forall s :: s in marked ==> |s| == n
  {
    if k == 0 then [] else Iterations(n, marked, k - 1) + (Oracle(marked) + Diffuser(n))
  }

  // ----- the gate lists, position by position -----

  lemma {:induction false} FlipsAre(n: nat)
    ensures |Flips(n)| == n && forall i :: 0 <= i < n ==> Flips(n)[i] == X(i)
  {
    if n > 0 {
      FlipsAre(n - 1);
    }
  }

  predicate Ascending(flips: seq<Gate>) {
    forall i, j :: 0 <= i < j < |flips| ==> flips[i].X? && flips[j].X? && flips[i].q < flips[j].q
  }

  /** Exactly the qubits that should read 0 are flipped, in ascending order. */
  lemma {:induction false} ZeroFlipsAre(state: string, k: nat)
    requires k <= |state|
    ensures forall g :: g in ZeroFlips(state, k) <==> g.X? && g.q < k && state[|state| - 1 - g.q] == '0'
    ensures Ascending(ZeroFlips(state, k))
  {
    if k > 0 {
      ZeroFlipsAre(state, k - 1);
      var flips := ZeroFlips(state, k - 1);
      assert forall i :: 0 <= i < |flips| ==> flips[i] in flips;
      forall g: Gate ensures g in ZeroFlips(state, k) <==> g.X? && g.q < k && state[|state| - 1 - g.q] == '0' {
        assert g in ZeroFlips(state, k) <==> g in flips || (state[|state| - k] == '0' && g == X(k - 1));
      }
    }
  }

  /** The oracle marks its states one after the other, in list order. */
  lemma {:induction false} OracleConcat(a: seq<string>, b: seq<string>)
    requires forall s :: s in a || s in b ==> |s| >= 1
    ensures Oracle(a + b) == Oracle(a) + Oracle(b)
    ensures forall s :: |s| >= 1 ==> Oracle([s]) == MarkOne(s)
  {
    hide MarkOne;
    forall s: string | |s| >= 1 ensures Oracle([s]) == MarkOne(s) {
      assert [s][..0] == [];
    }
    if b == [] {
      assert a + b == a && Oracle(a) + [] == Oracle(a);
    } else {
      var k := |b| - 1;
      assert (a + b)[..|a + b| - 1] == a + b[..k] && (a + b)[|a + b| - 1] == b[k];
      OracleConcat(a, b[..k]);
      Regroup(Oracle(a), Oracle(b[..k]), MarkOne(b[k]));
    }
  }

  // ----- the builders -----

  method ApplyMcz(qc: QuantumCircuit, n: nat)
    requires n >= 1
    modifies qc
    ensures qc.gates == old(qc.gates) + Mcz(n)
  {
    if n == 1 {
      qc.Append(Z(0));
      return;
    }
    var target := n - 1;
    var controls := [];
    for i := 0 to n - 1
      invariant controls == Range(i)
    {
      controls := controls + [i];
    }
    qc.Append(H(target));
    qc.Append(Mcx(controls, target));
    qc.Append(H(target));
  }

  method AppendZeroFlips(qc: QuantumCircuit, state: string)
    modifies qc
    ensures qc.gates == old(qc.gates) + ZeroFlips(state, |state|)
  {
    for i := 0 to |state|
      invariant qc.gates == old(qc.gates) + ZeroFlips(state, i)
    {
      if state[|state| - 1 - i] == '0' {
        qc.Append(X(i));
      }
    }
  }

  /** One pass of the oracle's loop. */
  method MarkState(qc: QuantumCircuit, state: string)
    requires |state| >= 1
    modifies qc
    ensures qc.gates == old(qc.gates) + MarkOne(state)
  {
    AppendZeroFlips(qc, state);
    ApplyMcz(qc, |state|);
    AppendZeroFlips(qc, state);
  }

  lemma OracleStep(start: seq<Gate>, marked: seq<string>, i: nat)
    requires i < |marked| && forall s :: s in marked ==> |s| >= 1
    ensures start + Oracle(marked[..i]) + MarkOne(marked[i]) == start + Oracle(marked[..i + 1])
  {
    hide MarkOne, Mcz;
    assert marked[..i + 1][..i] == marked[..i];
    Regroup(start, Oracle(marked[..i]), MarkOne(marked[i]));
  }

  method ApplyOracle(qc: QuantumCircuit, marked: seq<string>, n: nat)
    requires n >= 1 && forall s :: s in marked ==> |s| == n
    modifies qc
    ensures qc.gates == old(qc.gates) + Oracle(marked)
  {
    hide MarkOne;
    ghost var start := qc.gates;
    for i := 0 to |marked|
      invariant qc.gates == start + Oracle(marked[..i])
    {
      MarkState(qc, marked[i]);
      OracleStep(start, marked, i);
    }
    assert marked[..|marked|] == marked;
  }

  method AppendFlips(qc: QuantumCircuit, n: nat)
    modifies qc
    ensures qc.gates == old(qc.gates) + Flips(n)
  {
    for i := 0 to n
      invariant qc.gates == old(qc.gates) + Flips(i)
    {
      qc.Append(X(i));
    }
  }

  method ApplyDiffuser(qc: QuantumCircuit, n: nat)
    requires n >= 1
    modifies qc
    ensures qc.gates == old(qc.gates) + Diffuser(n)
  {
    qc.AppendHadamards(n);
    AppendFlips(qc, n);
    ApplyMcz(qc, n);
    AppendFlips(qc, n);
    qc.AppendHadamards(n);
  }

  /** One round of oracle and diffuser. */
  method AppendIteration(qc: QuantumCircuit, marked: seq<string>, n: nat)
    requires n >= 1 && forall s :: s in marked ==> |s| == n
    modifies qc
    ensures qc.gates == old(qc.gates) + (Oracle(marked) + Diffuser(n))
  {
    ApplyOracle(qc, marked, n);
    ApplyDiffuser(qc, n);
    Regroup(old(qc.gates), Oracle(marked), Diffuser(n));
  }

  datatype BuildResult = Built(qc: QuantumCircuit) | CircuitError(message: string)

  /** A round on no qubits asks for the last qubit of an empty circuit, which the circuit refuses. */
  method BuildGroverCircuit(problem: Problem, iterations: nat) returns (result: BuildResult)
    requires WellFormed(problem)
    ensures result.CircuitError? <==> problem.numQubits == 0 && iterations > 0
    ensures result.Built? ==> fresh(result.qc) && result.qc.numQubits == problem.numQubits
    ensures result.Built? && problem.numQubits == 0 ==> result.qc.gates == []
    ensures result.Built? && problem.numQubits >= 1 ==>
              result.qc.gates == Hadamards(problem.numQubits)
                                 + Iterations(problem.numQubits, problem.markedStates, iterations)
  {
    var n := problem.numQubits;
    var qc := new QuantumCircuit(n);
    qc.AppendHadamards(n);
    if n == 0 {
      if iterations > 0 {
        return CircuitError("qubit index out of range");
      }
      return Built(qc);
    }
    for i := 0 to iterations
      invariant qc.gates == Hadamards(n) + Iterations(n, problem.markedStates, i)
    {
      AppendIteration(qc, problem.markedStates, n);
      Regroup(Hadamards(n), Iterations(n, problem.markedStates, i), Oracle(problem.markedStates) + Diffuser(n));
    }
    return Built(qc);
  }
}

/** The QFT circuit builder, both directions, and the gate lists it is specified by. */
module Qft {
  import opened Circuits

  function Swaps(t: nat, n: nat): seq<Gate>
    requires 2 * n <= t
  {
    if n == 0 then [] else Swaps(t, n - 1) + [Swap(n - 1, t - n)]
  }

  /** cp(+pi/2^(k-j)) from the qubits above `j` and below `k`. */
  function PhasesUp(j: nat, k: nat): seq<Gate> {
    if k <= j + 1 then [] else PhasesUp(j, k - 1) + [CPhase(false, k - 1 - j, k - 1, j)]
  }

  function ForwardBlock(j: nat, t: nat): seq<Gate> {
    [H(j)] + PhasesUp(j, t)
  }

  function ForwardBlocks(n: nat, t: nat): seq<Gate> {
    if n == 0 then [] else ForwardBlocks(n - 1, t) + ForwardBlock(n - 1, t)
  }

  function Forward(t: nat): seq<Gate> {
    Swaps(t, t / 2) + ForwardBlocks(t, t)
  }

  /** cp(-pi/2^(j-k)) from the qubits j-1 down to `k`. */
  function PhasesDown(j: nat, k: nat): seq<Gate>
    decreases j - k
  {
    if k >= j then [] else PhasesDown(j, k + 1) + [CPhase(true, j - k, k, j)]
  }

  function InverseBlock(j: nat): seq<Gate> {
    [H(j)] + PhasesDown(j, 0)
  }

  /** The blocks of qubits t-1 down to `n`. */
  function InverseBlocks(t: nat, n: nat): seq<Gate>
    decreases t - n
  {
    if n >= t then [] else InverseBlocks(t, n + 1) + InverseBlock(n)
  }

  function Inverse(t: nat): seq<Gate> {
    InverseBlocks(t, 0) + Swaps(t, t / 2)
  }

  // ----- the lists, position by position -----

  lemma {:induction false} SwapsAre(t: nat, n: nat)
    requires 2 * n <= t
    ensures |Swaps(t, n)| == n && forall i :: 0 <= i < n ==> Swaps(t, n)[i] == Swap(i, t - i - 1)
  {
    if n > 0 {
      SwapsAre(t, n - 1);
    }
  }

  /** The controls of block `j` go up, at growing distance. */
  lemma {:induction false} PhasesUpAre(j: nat, k: nat)
    requires j < k
    ensures |PhasesUp(j, k)| == k - j - 1
    ensures forall i :: 0 <= i < k - j - 1 ==> PhasesUp(j, k)[i] == CPhase(false, i + 1, j + 1 + i, j)
  {
    if k > j + 1 {
      PhasesUpAre(j, k - 1);
    }
  }

  /** In the inverse circuit they go down, at growing distance and with the opposite sign. */
  lemma {:induction false} PhasesDownAre(j: nat, k: nat)
    requires k <= j
    ensures |PhasesDown(j, k)| == j - k
    ensures forall i :: 0 <= i < j - k ==> PhasesDown(j, k)[i] == CPhase(true, i + 1, j - 1 - i, j)
    decreases j - k
  {
    if k < j {
      PhasesDownAre(j, k + 1);
    }
  }

  method AppendSwaps(qc: QuantumCircuit, t: nat)
    modifies qc
    ensures qc.gates == old(qc.gates) + Swaps(t, t / 2)
  {
    for i := 0 to t / 2
      invariant qc.gates == old(qc.gates) + Swaps(t, i)
    {
      qc.Append(Swap(i, t - i - 1));
    }
  }

  /** The inner loop of the forward direction: one qubit's Hadamard and controlled phases. */
  method AppendForwardBlock(qc: QuantumCircuit, j: nat, t: nat)
    requires j < t
    modifies qc
    ensures qc.gates == old(qc.gates) + ForwardBlock(j, t)
  {
    qc.Append(H(j));
    for k := j + 1 to t
      invariant qc.gates == old(qc.gates) + ([H(j)] + PhasesUp(j, k))
    {
      var d := k - j;
      qc.Append(CPhase(false, d, k, j));
    }
  }

  method AppendForwardBlocks(qc: QuantumCircuit, t: nat)
    modifies qc
    ensures qc.gates == old(qc.gates) + ForwardBlocks(t, t)
  {
    hide ForwardBlock;
    for j := 0 to t
      invariant qc.gates == old(qc.gates) + ForwardBlocks(j, t)
    {
      AppendForwardBlock(qc, j, t);
    }
  }

  /** The inner loop of the inverse direction; `idxs` is t-1, ..., 0. */
  method AppendInverseBlock(qc: QuantumCircuit, idxs: seq<nat>, pos: nat)
    requires pos < |idxs| && forall i :: 0 <= i < |idxs| ==> idxs[i] == |idxs| - 1 - i
    modifies qc
    ensures qc.gates == old(qc.gates) + InverseBlock(idxs[pos])
  {
    var t, j := |idxs|, idxs[pos];
    qc.Append(H(j));
    for p := pos + 1 to t
      invariant qc.gates == old(qc.gates) + ([H(j)] + PhasesDown(j, t - p))
    {
      var k := idxs[p];
      var d := p - pos;
      qc.Append(CPhase(true, d, k, j));
    }
  }

  method AppendInverseBlocks(qc: QuantumCircuit, t: nat)
    modifies qc
    ensures qc.gates == old(qc.gates) + InverseBlocks(t, 0)
  {
    hide InverseBlock;
    var idxs := seq(t, i requires 0 <= i < t => t - 1 - i);
    for pos := 0 to t
      invariant qc.gates == old(qc.gates) + InverseBlocks(t, t - pos)
    {
      AppendInverseBlock(qc, idxs, pos);
    }
  }

  method BuildQftCircuit(numQubits: nat, inverse: bool) returns (qc: QuantumCircuit)
    ensures fresh(qc) && qc.numQubits == numQubits
    ensures qc.gates == if inverse then Inverse(numQubits) else Forward(numQubits)
  {
    qc := new QuantumCircuit(numQubits);
    var t := numQubits;
    if !inverse {
      AppendSwaps(qc, t);
      AppendForwardBlocks(qc, t);
    } else {
      AppendInverseBlocks(qc, t);
      AppendSwaps(qc, t);
    }
  }
}

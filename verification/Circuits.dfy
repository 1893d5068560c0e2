/** Gate lists, and the mutable circuit object the builders append to. */
module Circuits {
  datatype Gate =
    | H(q: nat)
    | X(q: nat)
    | Z(q: nat)
    | Swap(a: nat, b: nat)
    | CPhase(negative: bool, d: nat, control: nat, target: nat)   // cp with angle +-pi / 2^d
    | ControlledU(theta: int, power: nat, control: nat, target: nat)
    | Mcx(controls: seq<nat>, target: nat)

  /** H on every qubit below `n`. */
  function Hadamards(n: nat): seq<Gate> {
    if n == 0 then [] else Hadamards(n - 1) + [H(n - 1)]
  }

  lemma Regroup(a: seq<Gate>, b: seq<Gate>, c: seq<Gate>)
    ensures (a + b) + c == a + (b + c)
  {
  }

  // ----- how many Hadamards a list has -----

  function HadamardCount(gates: seq<Gate>): nat {
    if gates == [] then 0
    else HadamardCount(gates[..|gates| - 1]) + if gates[|gates| - 1].H? then 1 else 0
  }

  lemma {:induction false} CountConcat(u: seq<Gate>, v: seq<Gate>)
    ensures HadamardCount(u + v) == HadamardCount(u) + HadamardCount(v)
  {
    if v == [] {
      assert u + v == u;
    } else {
      var k := |v| - 1;
      assert (u + v)[..|u| + k] == u + v[..k];
      CountConcat(u, v[..k]);
    }
  }

  lemma CountAppend(u: seq<Gate>, g: Gate)
    ensures HadamardCount(u + [g]) == HadamardCount(u) + if g.H? then 1 else 0
  {
    assert (u + [g])[..|u|] == u;
  }

  lemma CountNothing()
    ensures HadamardCount([]) == 0
  {
  }

  class QuantumCircuit {
    const numQubits: nat
    var gates: seq<Gate>

    constructor (numQubits: nat)
      ensures this.numQubits == numQubits && gates == []
    {
      this.numQubits := numQubits;
      gates := [];
    }

    method Append(g: Gate)
      modifies this
      ensures gates == old(gates) + [g]
    {
      gates := gates + [g];
    }

    method Compose(other: seq<Gate>)
      modifies this
      ensures gates == old(gates) + other
    {
      gates := gates + other;
    }

    /** `qc.h(range(n))` */
    method AppendHadamards(n: nat)
      modifies this
      ensures gates == old(gates) + Hadamards(n)
    {
      for j := 0 to n
        invariant gates == old(gates) + Hadamards(j)
      {
        Append(H(j));
      }
    }
  }
}

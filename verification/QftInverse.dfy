/** The forward circuit followed by the inverse circuit rewrites to the empty circuit. */
module QftInverse {
  import opened Circuits
  import opened Qft
  import opened Rewriting

  /** The controlled phases of the inverse circuit that act on qubit `j` and the qubits below `n`. */
  function Tail(j: nat, n: nat): seq<Gate>
    requires n <= j
  {
    if n == 0 then [] else [CPhase(true, j - (n - 1), n - 1, j)] + Tail(j, n - 1)
  }

  lemma {:induction false} TailIsPhasesDown(j: nat, k: nat)
    requires k <= j
    ensures PhasesDown(j, k) + Tail(j, k) == Tail(j, j)
    decreases j - k
  {
    if k < j {
      TailIsPhasesDown(j, k + 1);
      TailStep(j, k);
    } else {
      assert PhasesDown(j, j) == [];
    }
  }

  lemma TailStep(j: nat, k: nat)
    requires k < j
    ensures PhasesDown(j, k) + Tail(j, k) == PhasesDown(j, k + 1) + Tail(j, k + 1)
  {
    var g := [CPhase(true, j - k, k, j)];
    assert PhasesDown(j, k) == PhasesDown(j, k + 1) + g;
    Regroup(PhasesDown(j, k + 1), g, Tail(j, k));
  }

  lemma TailGates(j: nat, n: nat)
    requires n <= j
    ensures forall g :: g in Tail(j, n) ==> g.CPhase? && g.target == j && g.control < n
  {
  }

  lemma PhasesUpGates(j: nat, k: nat)
    ensures forall g :: g in PhasesUp(j, k) ==> g.CPhase?
  {
  }

  /** A pair cancels, a list moves left over a block, and meets what it cancels with further left. */
  lemma Peel(front: seq<Gate>, front': seq<Gate>, block: seq<Gate>, g: Gate, inv: Gate, rest: seq<Gate>)
    requires Rewrites([g, inv], [], 0)
    requires Rewrites(block + rest, rest + block, 0)
    requires Rewrites(front + rest, front', 0)
    ensures Rewrites((front + (block + [g])) + ([inv] + rest), front' + block, 0)
  {
    hide Rewrites;
    PeelPair(front, block, g, inv, rest);
    Within(front, block + rest, rest + block, [], 0);
    assert front + (block + rest) == front + (block + rest) + [];
    Within([], front + rest, front', block, 0);
    assert front + (rest + block) + [] == [] + (front + rest) + block;
    assert [] + front' + block == front' + block;
    Then(front + (block + rest) + [], front + (rest + block) + [], front' + block, 0, 0);
    Then((front + (block + [g])) + ([inv] + rest), front + (block + rest), front' + block, 0, 0);
  }

  lemma PeelPair(front: seq<Gate>, block: seq<Gate>, g: Gate, inv: Gate, rest: seq<Gate>)
    requires Rewrites([g, inv], [], 0)
    ensures Rewrites((front + (block + [g])) + ([inv] + rest), front + (block + rest), 0)
  {
    hide Rewrites;
    Within(front + block, [g, inv], [], rest, 0);
    assert (front + block) + [g, inv] + rest == (front + (block + [g])) + ([inv] + rest);
    assert (front + block) + [] + rest == front + (block + rest);
  }

  /** The phases controlled by qubit t-1 in the forward blocks meet their inverses in the tail. */
  lemma {:induction false} PeelTail(t: nat, n: nat)
    requires n < t
    ensures Rewrites(ForwardBlocks(n, t) + Tail(t - 1, n), ForwardBlocks(n, t - 1), 0)
  {
    if n == 0 {
      assert ForwardBlocks(0, t) + Tail(t - 1, 0) == [];
      Done([]);
    } else {
      var g, inv := CPhase(false, t - n, t - 1, n - 1), CPhase(true, t - n, n - 1, t - 1);
      CancelPair(g, inv);
      MoveTail(t, n);
      PeelTail(t, n - 1);
      ForwardBlockGrows(n - 1, t);
      Peel(ForwardBlocks(n - 1, t), ForwardBlocks(n - 1, t - 1), ForwardBlock(n - 1, t - 1), g, inv, Tail(t - 1, n - 1));
    }
  }

  lemma ForwardBlockGrows(j: nat, t: nat)
    requires j + 1 < t
    ensures ForwardBlock(j, t) == ForwardBlock(j, t - 1) + [CPhase(false, t - 1 - j, t - 1, j)]
  {
  }

  lemma CancelPair(g: Gate, inv: Gate)
    requires g.CPhase? && inv == CPhase(!g.negative, g.d, g.target, g.control)
    ensures Rewrites([g, inv], [], 0)
  {
    var flipped := CPhase(!g.negative, g.d, g.control, g.target);
    Once([inv], [flipped], 0);
    Within([g], [inv], [flipped], [], 0);
    assert [g] + [inv] + [] == [g, inv] && [g] + [flipped] + [] == [g, flipped];
    Once([g, flipped], [], 0);
    Then([g, inv], [g, flipped], [], 0, 0);
  }

  lemma MoveTail(t: nat, n: nat)
    requires 0 < n < t
    ensures Rewrites(ForwardBlock(n - 1, t - 1) + Tail(t - 1, n - 1), Tail(t - 1, n - 1) + ForwardBlock(n - 1, t - 1), 0)
  {
    var block, rest := ForwardBlock(n - 1, t - 1), Tail(t - 1, n - 1);
    TailGates(t - 1, n - 1);
    PhasesUpGates(n - 1, t - 1);
    forall g | g in rest ensures AllCommute(block, g) {
      assert forall x :: x in block ==> x == H(n - 1) || x in PhasesUp(n - 1, t - 1);
    }
    MoveAllLeft(block, rest);
  }

  /** The two innermost Hadamards cancel, and the tail after them is absorbed to the left. */
  lemma Unwrap(front: seq<Gate>, front': seq<Gate>, q: nat, tail: seq<Gate>, lower: seq<Gate>, h: nat)
    requires Rewrites(front + tail, front', 0)
    requires Rewrites(front' + lower, [], h)
    ensures Rewrites((front + [H(q)]) + (([H(q)] + tail) + lower), [], h + 1)
  {
    hide Rewrites;
    Once([H(q), H(q)], [], 1);
    Within(front, [H(q), H(q)], [], tail + lower, 1);
    assert front + [H(q), H(q)] + (tail + lower) == (front + [H(q)]) + (([H(q)] + tail) + lower);
    Within([], front + tail, front', lower, 0);
    assert front + [] + (tail + lower) == [] + (front + tail) + lower;
    assert [] + front' + lower == front' + lower;
    Then(front + [] + (tail + lower), front' + lower, [], 0, h);
    Then((front + [H(q)]) + (([H(q)] + tail) + lower), front + [] + (tail + lower), [], 1, h);
  }

  /** Without the swaps: blocks 0..t-1 followed by the inverse blocks t-1..0. */
  lemma {:induction false} BlocksCancel(t: nat)
    ensures Rewrites(ForwardBlocks(t, t) + InverseBlocks(t, 0), [], t)
  {
    hide Rewrites;
    if t == 0 {
      assert ForwardBlocks(0, 0) + InverseBlocks(0, 0) == [];
      Done([]);
    } else {
      var j := t - 1;
      InverseBlocksSplit(t, 0);
      TailIsPhasesDown(j, 0);
      assert PhasesDown(j, 0) + [] == PhasesDown(j, 0);
      LastBlock(t);
      PeelTail(t, j);
      BlocksCancel(j);
      Unwrap(ForwardBlocks(j, t), ForwardBlocks(j, j), j, Tail(j, j), InverseBlocks(j, 0), j);
    }
  }

  lemma LastBlock(t: nat)
    requires t > 0
    ensures ForwardBlocks(t, t) == ForwardBlocks(t - 1, t) + [H(t - 1)]
  {
    assert ForwardBlock(t - 1, t) == [H(t - 1)] + [];
  }

  /** The block of the highest qubit comes first; the rest is the inverse circuit one qubit smaller. */
  lemma {:induction false} InverseBlocksSplit(t: nat, n: nat)
    requires n < t
    ensures InverseBlocks(t, n) == InverseBlock(t - 1) + InverseBlocks(t - 1, n)
    decreases t - n
  {
    if n + 1 < t {
      InverseBlocksSplit(t, n + 1);
      Regroup(InverseBlock(t - 1), InverseBlocks(t - 1, n + 1), InverseBlock(n));
    } else {
      assert InverseBlocks(t, n) == [] + InverseBlock(n);
    }
  }

  lemma {:induction false} SwapsGates(t: nat, n: nat)
    requires 2 * n <= t
    ensures forall g :: g in Swaps(t, n) ==> g.Swap? && g.a < n && g.b == t - 1 - g.a
  {
    if n > 0 {
      SwapsGates(t, n - 1);
    }
  }

  lemma {:induction false} SwapsCancel(t: nat, n: nat)
    requires 2 * n <= t
    ensures Rewrites(Swaps(t, n) + Swaps(t, n), [], 0)
  {
    hide Rewrites;
    if n == 0 {
      assert Swaps(t, 0) + Swaps(t, 0) == [];
      Done([]);
    } else {
      var s, g := Swaps(t, n - 1), Swap(n - 1, t - n);
      SwapsGates(t, n - 1);
      forall x | x in s ensures AllCommute([g], x) {
      }
      MoveAllLeft([g], s);
      Once([g, g], [], 0);
      PairCancels(s, g);
      SwapsCancel(t, n - 1);
      Then((s + [g]) + (s + [g]), s + s, [], 0, 0);
    }
  }

  /** s g s g  ->  s s g g  ->  s s */
  lemma PairCancels(s: seq<Gate>, g: Gate)
    requires Rewrites([g] + s, s + [g], 0) && Rewrites([g, g], [], 0)
    ensures Rewrites((s + [g]) + (s + [g]), s + s, 0)
  {
    hide Rewrites;
    Within(s, [g] + s, s + [g], [g], 0);
    assert s + ([g] + s) + [g] == (s + [g]) + (s + [g]);
    Within(s + s, [g, g], [], [], 0);
    assert s + (s + [g]) + [g] == (s + s) + [g, g] + [];
    assert (s + s) + [] + [] == s + s;
    Then((s + [g]) + (s + [g]), s + (s + [g]) + [g], s + s, 0, 0);
  }

  /** Forward then inverse is the empty circuit, up to t cancelled pairs of Hadamards. */
  lemma InverseUndoesForward(t: nat)
    ensures Rewrites(Forward(t) + Inverse(t), [], t)
  {
    hide Rewrites;
    var s := Swaps(t, t / 2);
    BlocksCancel(t);
    Within(s, ForwardBlocks(t, t) + InverseBlocks(t, 0), [], s, t);
    assert Forward(t) + Inverse(t) == s + (ForwardBlocks(t, t) + InverseBlocks(t, 0)) + s;
    SwapsCancel(t, t / 2);
    assert s + [] + s == s + s;
    Then(Forward(t) + Inverse(t), s + [] + s, [], t, 0);
  }

  // ----- not the literal adjoint -----

  function Adjoint(g: Gate): Gate {
    if g.CPhase? then g.(negative := !g.negative) else g
  }

  /** The adjoint of a circuit of self-adjoint gates and controlled phases, gate by gate. */
  function AdjointList(gates: seq<Gate>): seq<Gate> {
    if gates == [] then [] else [Adjoint(gates[|gates| - 1])] + AdjointList(gates[..|gates| - 1])
  }

  lemma AdjointAppend(u: seq<Gate>, g: Gate)
    ensures AdjointList(u + [g]) == [Adjoint(g)] + AdjointList(u)
  {
    assert (u + [g])[..|u|] == u;
  }

  /** The inverse circuit is literally the reversed adjoint only on fewer than two qubits. */
  lemma LiteralAdjointIff(t: nat)
    ensures Inverse(t) == AdjointList(Forward(t)) <==> t < 2
  {
    if t >= 2 {
      SecondInverse(t);
      SecondAdjoint(t);
    } else if t == 1 {
      assert ForwardBlock(0, 1) == [H(0)] && InverseBlock(0) == [H(0)];
      assert Forward(1) == [] + [H(0)] && Inverse(1) == [H(0)] by {
        assert ForwardBlocks(1, 1) == [] + [H(0)] && InverseBlocks(1, 0) == [] + [H(0)];
      }
      AdjointAppend([], H(0));
    }
  }

  /** A controlled phase with its qubits in ascending order: which of them is the control does not matter. */
  function Undirected(g: Gate): Gate {
    if g.CPhase? && g.control > g.target then CPhase(g.negative, g.d, g.target, g.control) else g
  }

  function UndirectedList(gates: seq<Gate>): (u: seq<Gate>)
    ensures |u| == |gates| && forall i :: 0 <= i < |gates| ==> u[i] == Undirected(gates[i])
  {
    seq(|gates|, i requires 0 <= i < |gates| => Undirected(gates[i]))
  }

  /** Up to the order of the two qubits of a controlled phase the lists agree below three qubits; from three on they
      list their gates in different orders. */
  lemma AdjointOrderIff(t: nat)
    ensures UndirectedList(Inverse(t)) == UndirectedList(AdjointList(Forward(t))) <==> t < 3
  {
    LiteralAdjointIff(t);
    if t >= 3 {
      ThirdInverse(t);
      ThirdAdjoint(t);
    } else if t == 2 {
      TwoQubitInverse();
      TwoQubitAdjoint();
      var u, v := Inverse(2), AdjointList(Forward(2));
      assert |u| == |v| && forall i :: 0 <= i < |u| ==> Undirected(u[i]) == Undirected(v[i]);
    }
  }

  lemma ThirdInverse(t: nat)
    requires t >= 3
    ensures |Inverse(t)| > 2 && Inverse(t)[2] == CPhase(true, 2, t - 3, t - 1)
  {
    InverseBlocksSplit(t, 0);
    TailIsPhasesDown(t - 1, 0);
    assert PhasesDown(t - 1, 0) + [] == PhasesDown(t - 1, 0);
    assert InverseBlock(t - 1)[2] == Tail(t - 1, t - 1)[1];
    assert Tail(t - 1, t - 1)[1] == Tail(t - 1, t - 2)[0];
  }

  lemma ThirdAdjoint(t: nat)
    requires t >= 3
    ensures |AdjointList(Forward(t))| > 2 && AdjointList(Forward(t))[2] == H(t - 2)
  {
    var g := CPhase(false, 1, t - 1, t - 2);
    LastBlock(t);
    ForwardBlockGrows(t - 2, t);
    LastBlock(t - 1);
    var front := Swaps(t, t / 2) + ForwardBlocks(t - 2, t);
    assert ForwardBlock(t - 2, t - 1) == [H(t - 2)] + [];
    assert Forward(t) == ((front + [H(t - 2)]) + [g]) + [H(t - 1)];
    AdjointAppend((front + [H(t - 2)]) + [g], H(t - 1));
    AdjointAppend(front + [H(t - 2)], g);
    AdjointAppend(front, H(t - 2));
  }

  lemma TwoQubitInverse()
    ensures Inverse(2) == [H(1), CPhase(true, 1, 0, 1), H(0), Swap(0, 1)]
  {
    assert PhasesDown(1, 1) == [] && PhasesDown(0, 0) == [];
    assert PhasesDown(1, 0) == [CPhase(true, 1, 0, 1)];
    assert InverseBlocks(2, 2) == [] && InverseBlocks(2, 1) == InverseBlock(1);
    assert InverseBlocks(2, 0) == InverseBlock(1) + InverseBlock(0);
    assert Swaps(2, 0) == [] && Swaps(2, 1) == [Swap(0, 1)];
  }

  lemma TwoQubitForward()
    ensures Forward(2) == (([Swap(0, 1)] + [H(0)]) + [CPhase(false, 1, 1, 0)]) + [H(1)]
  {
    LastBlock(2);
    ForwardBlockGrows(0, 2);
    assert Swaps(2, 0) == [] && Swaps(2, 1) == [Swap(0, 1)];
    assert ForwardBlock(0, 1) == [H(0)] + [];
    assert ForwardBlocks(0, 2) == [] && ForwardBlocks(1, 2) == ForwardBlock(0, 2);
  }

  lemma TwoQubitAdjoint()
    ensures AdjointList(Forward(2)) == [H(1), CPhase(true, 1, 1, 0), H(0), Swap(0, 1)]
  {
    hide Forward, AdjointList;
    TwoQubitForward();
    var a, b, c, d := Swap(0, 1), H(0), CPhase(false, 1, 1, 0), H(1);
    NoAdjoint();
    AdjointAppend(([a] + [b]) + [c], d);
    AdjointAppend([a] + [b], c);
    AdjointAppend([a], b);
    AdjointAppend([], a);
    assert [] + [a] == [a];
  }

  lemma NoAdjoint()
    ensures AdjointList([]) == []
  {
  }

  lemma SecondInverse(t: nat)
    requires t >= 2
    ensures |Inverse(t)| > 1 && Inverse(t)[1] == CPhase(true, 1, t - 2, t - 1)
  {
    InverseBlocksSplit(t, 0);
    TailIsPhasesDown(t - 1, 0);
    assert PhasesDown(t - 1, 0) + [] == PhasesDown(t - 1, 0);
    assert InverseBlock(t - 1)[1] == Tail(t - 1, t - 1)[0];
  }

  lemma SecondAdjoint(t: nat)
    requires t >= 2
    ensures |AdjointList(Forward(t))| > 1 && AdjointList(Forward(t))[1] == CPhase(true, 1, t - 1, t - 2)
  {
    var g := CPhase(false, 1, t - 1, t - 2);
    LastBlock(t);
    ForwardBlockGrows(t - 2, t);
    var front := Swaps(t, t / 2) + (ForwardBlocks(t - 2, t) + ForwardBlock(t - 2, t - 1));
    assert Forward(t) == (front + [g]) + [H(t - 1)];
    AdjointAppend(front + [g], H(t - 1));
    AdjointAppend(front, g);
  }
}

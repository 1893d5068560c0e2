/** The forward circuit is the discrete Fourier transform, and the inverse circuit reads a phase back. */
module QftMeaning {
  import opened Basics
  import opened Binary
  import opened Circuits
  import opened Qft
  import opened PhaseStates

  // ----- the bit-reversing swaps -----

  /** `qs` with its first `k` and last `k` qubits exchanged end for end. */
  function Mirrored(qs: seq<Qubit>, k: nat): (m: seq<Qubit>)
    requires 2 * k <= |qs|
    ensures |m| == |qs|
  {
    seq(|qs|, i requires 0 <= i < |qs| => if i < k || i >= |qs| - k then qs[|qs| - 1 - i] else qs[i])
  }

  lemma MirrorStep(qs: seq<Qubit>, k: nat)
    requires 0 < k && 2 * k <= |qs|
    ensures Mirrored(qs, k) == Exchanged(Mirrored(qs, k - 1), k - 1, |qs| - k)
  {
    var t := |qs|;
    var m, e := Mirrored(qs, k - 1), Exchanged(Mirrored(qs, k - 1), k - 1, t - k);
    forall i | 0 <= i < t ensures Mirrored(qs, k)[i] == e[i] {
      if i == k - 1 || i == t - k {
        assert e[i] == m[t - 1 - i];
      } else {
        assert e[i] == m[i];
      }
    }
  }

  lemma SwapStep(n: nat, qs: seq<Qubit>, k: nat)
    requires n > 0 && 0 < k && 2 * k <= |qs|
    ensures Apply(n, Swap(k - 1, |qs| - k), Register(0, Mirrored(qs, k - 1))) == Some(Register(0, Mirrored(qs, k)))
  {
    MirrorStep(qs, k);
  }

  lemma {:induction false} SwapsMirror(n: nat, qs: seq<Qubit>, k: nat)
    requires n > 0 && 2 * k <= |qs|
    ensures Run(n, Swaps(|qs|, k), Register(0, qs)) == Some(Register(0, Mirrored(qs, k)))
  {
    hide Run;
    if k == 0 {
      RunNothing(n, Register(0, qs));
      assert Mirrored(qs, 0) == qs;
    } else {
      SwapsMirror(n, qs, k - 1);
      SwapStep(n, qs, k);
      RunExtend(n, Swaps(|qs|, k - 1), Swap(k - 1, |qs| - k), Register(0, qs),
                Register(0, Mirrored(qs, k - 1)), Register(0, Mirrored(qs, k)));
    }
  }

  function Reversed(qs: seq<Qubit>): seq<Qubit> {
    seq(|qs|, i requires 0 <= i < |qs| => qs[|qs| - 1 - i])
  }

  lemma SwapsReverse(n: nat, qs: seq<Qubit>)
    requires n > 0
    ensures Run(n, Swaps(|qs|, |qs| / 2), Register(0, qs)) == Some(Register(0, Reversed(qs)))
  {
    hide Run;
    SwapsMirror(n, qs, |qs| / 2);
    assert Mirrored(qs, |qs| / 2) == Reversed(qs);
  }

  // ----- the phases -----

  /** The phase numerator qubit `j` has from the bits of index |x|-1-j down to |x|-k. */
  function PartialPhase(x: seq<bool>, j: nat, k: nat): nat
    requires j <= k <= |x|
  {
    if k == j then 0
    else PartialPhase(x, j, k - 1) + if x[|x| - k] then Pow2(|x| - k + j) else 0
  }

  lemma {:induction false} PartialPhaseRange(x: seq<bool>, j: nat, k: nat)
    requires j <= k <= |x|
    ensures PartialPhase(x, j, k) + Pow2(|x| - k + j) <= Pow2(|x|)
  {
    if k > j {
      PartialPhaseRange(x, j, k - 1);
    }
  }

  /** With all bits in, the phase is x * 2^j mod 2^t. */
  lemma {:induction false} PartialPhaseClosed(x: nat, t: nat, j: nat, k: nat)
    requires j <= k <= t
    ensures PartialPhase(Bits(x, t), j, k) == Pow2(j) * (x % Pow2(t - j) - x % Pow2(t - k))
  {
    if k > j {
      PartialPhaseClosed(x, t, j, k - 1);
      ModStep(x, t - k);
      Pow2Add(j, t - k);
      var a, b, p := x % Pow2(t - j), x % Pow2(t - k), if Bit(x, t - k) then Pow2(t - k) else 0;
      MulMinus(Pow2(j), a, b, p);
      assert t - k + 1 == t - (k - 1);
    }
  }

  lemma MulMinus(m: int, a: int, b: int, p: int)
    ensures m * (a - b) == m * (a - (b + p)) + m * p
  {
  }

  lemma ModOne(x: nat)
    ensures x % Pow2(0) == 0
  {
  }

  lemma FullPhase(x: nat, t: nat, j: nat)
    requires j <= t
    ensures PartialPhase(Bits(x, t), j, t) == Mod(x * Pow2(j), Pow2(t))
  {
    PartialPhaseClosed(x, t, j, t);
    ModScale(x, j, t);
    ModOne(x);
  }

  // ----- the gates over w = 2^t-th roots of unity -----

  lemma HalfIs(t: nat)
    requires t > 0
    ensures Pow2(t) % 2 == 0 && Pow2(t) / 2 == Pow2(t - 1)
  {
  }

  lemma {:induction false} HalvedPow2(t: nat, k: nat)
    requires k <= t
    ensures Halved(Pow2(t), k) == Some(Pow2(t - k))
  {
    if k > 0 {
      HalfIs(t);
      HalvedPow2(t - 1, k - 1);
    }
  }

  function CPhaseAngle(t: nat, negative: bool, d: nat): int
    requires d < t
  {
    if negative then 0 - Pow2(t - 1 - d) else Pow2(t - 1 - d)
  }

  /** cp(+-pi/2^d) between a basis qubit and a superposed one. */
  lemma CPhaseShift(t: nat, qs: seq<Qubit>, negative: bool, d: nat, c: nat, g: nat, bit: bool, before: int, after: int)
    requires d < t && c < |qs| && g < |qs| && c != g
    requires (qs[c] == Basis(bit) && qs[g] == Phase(before)) || (qs[g] == Basis(bit) && qs[c] == Phase(before))
    requires after == before + (if bit then CPhaseAngle(t, negative, d) else 0) && 0 <= after < Pow2(t)
    ensures Apply(Pow2(t), CPhase(negative, d, c, g), Register(0, qs))
         == Some(Register(0, qs[if qs[c].Basis? then g else c := Phase(after)]))
  {
    HalvedPow2(t, d + 1);
    if qs[c].Basis? {
      ControlledShift(Pow2(t), qs, c, g, bit, CPhaseAngle(t, negative, d), before, after);
    } else {
      ControlledShift(Pow2(t), qs, g, c, bit, CPhaseAngle(t, negative, d), before, after);
    }
  }

  /** The phase a Hadamard gives a basis qubit. */
  function SignPhase(t: nat, bit: bool): int
    requires t > 0
  {
    if bit then Pow2(t - 1) else 0
  }

  lemma HadamardIs(t: nat, qs: seq<Qubit>, q: nat, bit: bool)
    requires t > 0 && q < |qs|
    ensures qs[q] == Basis(bit) ==>
              Run(Pow2(t), [H(q)], Register(0, qs)) == Some(Register(0, qs[q := Phase(SignPhase(t, bit))]))
    ensures qs[q] == Phase(SignPhase(t, bit)) ==>
              Run(Pow2(t), [H(q)], Register(0, qs)) == Some(Register(0, qs[q := Basis(bit)]))
  {
    HalfIs(t);
    RunAppend(Pow2(t), [], H(q), Register(0, qs));
    assert [] + [H(q)] == [H(q)];
  }

  lemma FirstPhase(x: seq<bool>, j: nat)
    requires j < |x|
    ensures PartialPhase(x, j, j + 1) == SignPhase(|x|, x[|x| - 1 - j])
  {
    assert |x| - (j + 1) + j == |x| - 1;
  }

  lemma RunJoin(n: nat, first: seq<Gate>, second: seq<Gate>, r: Register, mid: Register, after: Register)
    requires n > 0 && Run(n, first, r) == Some(mid) && Run(n, second, mid) == Some(after)
    ensures Run(n, first + second, r) == Some(after)
  {
    hide Apply;
    RunConcat(n, first, second, r);
  }

  lemma RunNothing(n: nat, r: Register)
    requires n > 0
    ensures Run(n, [], r) == Some(r)
  {
  }

  lemma RunExtend(n: nat, gates: seq<Gate>, g: Gate, r: Register, mid: Register, after: Register)
    requires n > 0 && Run(n, gates, r) == Some(mid) && Apply(n, g, mid) == Some(after)
    ensures Run(n, gates + [g], r) == Some(after)
  {
    RunAppend(n, gates, g, r);
  }

  // ----- forward -----

  /** Qubits below `n` carry their full phase, the others are still the reversed bits of x. */
  function ForwardQubit(x: seq<bool>, n: nat, j: nat): Qubit
    requires j < |x|
  {
    if j < n then Phase(PartialPhase(x, j, |x|)) else Basis(x[|x| - 1 - j])
  }

  function ForwardState(x: seq<bool>, n: nat): (qs: seq<Qubit>)
    ensures |qs| == |x| && forall j :: 0 <= j < |x| ==> qs[j] == ForwardQubit(x, n, j)
  {
    seq(|x|, j requires 0 <= j < |x| => ForwardQubit(x, n, j))
  }

  /** In the block of qubit `j`, after the controlled phases from the qubits below `k`. */
  function ForwardMid(x: seq<bool>, j: nat, k: nat): (qs: seq<Qubit>)
    requires j < k <= |x|
    ensures |qs| == |x|
  {
    ForwardState(x, j)[j := Phase(PartialPhase(x, j, k))]
  }

  /** What the controlled phase between qubits `i` and `k` contributes. */
  lemma PartialPhaseStep(x: seq<bool>, i: nat, k: nat)
    requires i < k < |x|
    ensures PartialPhase(x, i, k + 1) == PartialPhase(x, i, k) + if x[|x| - 1 - k] then Pow2(|x| - 1 - (k - i)) else 0
    ensures PartialPhase(x, i, k + 1) < Pow2(|x|)
  {
    PartialPhaseRange(x, i, k + 1);
    assert |x| - 1 - (k - i) == |x| - (k + 1) + i;
  }

  lemma ForwardMidStep(x: seq<bool>, j: nat, k: nat)
    requires j < k < |x|
    ensures ForwardMid(x, j, k)[k] == Basis(x[|x| - 1 - k])
    ensures ForwardMid(x, j, k)[j] == Phase(PartialPhase(x, j, k))
    ensures ForwardMid(x, j, k + 1) == ForwardMid(x, j, k)[j := Phase(PartialPhase(x, j, k + 1))]
  {
    hide PartialPhase;
  }

  lemma PhaseUpShift(x: seq<bool>, j: nat, k: nat)
    requires j < k < |x|
    ensures Apply(Pow2(|x|), CPhase(false, k - j, k, j), Register(0, ForwardMid(x, j, k)))
         == Some(Register(0, ForwardMid(x, j, k + 1)))
  {
    hide Apply, PartialPhase, Pow2, ForwardMid, ForwardState;
    var t, mid := |x|, ForwardMid(x, j, k);
    PartialPhaseStep(x, j, k);
    ForwardMidStep(x, j, k);
    CPhaseShift(t, mid, false, k - j, k, j, x[t - 1 - k], PartialPhase(x, j, k), PartialPhase(x, j, k + 1));
  }

  lemma ForwardHadamard(x: seq<bool>, j: nat)
    requires j < |x|
    ensures Run(Pow2(|x|), [H(j)], Register(0, ForwardState(x, j))) == Some(Register(0, ForwardMid(x, j, j + 1)))
  {
    hide Run;
    HadamardIs(|x|, ForwardState(x, j), j, x[|x| - 1 - j]);
    FirstPhase(x, j);
  }

  lemma {:induction false} PhasesUpRun(x: seq<bool>, j: nat, k: nat)
    requires j < k <= |x|
    ensures Run(Pow2(|x|), [H(j)] + PhasesUp(j, k), Register(0, ForwardState(x, j)))
         == Some(Register(0, ForwardMid(x, j, k)))
  {
    hide Run;
    if k == j + 1 {
      ForwardHadamard(x, j);
      assert [H(j)] + PhasesUp(j, k) == [H(j)];
    } else {
      PhasesUpRun(x, j, k - 1);
      var front := [H(j)] + PhasesUp(j, k - 1);
      var g := CPhase(false, k - 1 - j, k - 1, j);
      assert [H(j)] + PhasesUp(j, k) == front + [g];
      PhaseUpShift(x, j, k - 1);
      RunExtend(Pow2(|x|), front, g, Register(0, ForwardState(x, j)), Register(0, ForwardMid(x, j, k - 1)),
                Register(0, ForwardMid(x, j, k)));
    }
  }

  lemma ForwardMidFull(x: seq<bool>, n: nat)
    requires 0 < n <= |x|
    ensures ForwardMid(x, n - 1, |x|) == ForwardState(x, n)
  {
    var mid, after := ForwardMid(x, n - 1, |x|), ForwardState(x, n);
    forall j | 0 <= j < |x| ensures mid[j] == after[j] {
      assert ForwardState(x, n - 1)[j] == ForwardQubit(x, n - 1, j);
      assert j != n - 1 ==> ForwardQubit(x, n - 1, j) == ForwardQubit(x, n, j);
    }
  }

  lemma ForwardBlockRun(x: seq<bool>, n: nat)
    requires 0 < n <= |x|
    ensures Run(Pow2(|x|), ForwardBlock(n - 1, |x|), Register(0, ForwardState(x, n - 1))) == Some(Register(0, ForwardState(x, n)))
  {
    hide Run;
    PhasesUpRun(x, n - 1, |x|);
    ForwardMidFull(x, n);
  }

  lemma {:induction false} ForwardBlocksRun(x: seq<bool>, n: nat)
    requires n <= |x|
    ensures Run(Pow2(|x|), ForwardBlocks(n, |x|), Register(0, ForwardState(x, 0))) == Some(Register(0, ForwardState(x, n)))
  {
    hide Run, PhasesUp, ForwardBlock;
    if n == 0 {
      RunNothing(Pow2(|x|), Register(0, ForwardState(x, 0)));
    } else {
      ForwardBlocksRun(x, n - 1);
      ForwardBlockRun(x, n);
      RunJoin(Pow2(|x|), ForwardBlocks(n - 1, |x|), ForwardBlock(n - 1, |x|), Register(0, ForwardState(x, 0)),
              Register(0, ForwardState(x, n - 1)), Register(0, ForwardState(x, n)));
    }
  }

  /** The register the Fourier transform of |x> is: qubit `j` has phase x * 2^j / 2^t. */
  function FourierRegister(x: nat, t: nat): (r: Register)
    ensures |r.qubits| == t
  {
    Register(0, seq(t, j requires 0 <= j < t => Phase(Mod(x * Pow2(j), Pow2(t)))))
  }

  lemma FourierIsForwardState(x: nat, t: nat)
    ensures FourierRegister(x, t) == Register(0, ForwardState(Bits(x, t), t))
  {
    forall j | 0 <= j < t ensures FourierRegister(x, t).qubits[j] == ForwardState(Bits(x, t), t)[j] {
      FullPhase(x, t, j);
    }
  }

  /** Swaps, Hadamards and controlled phases take |x> to its Fourier register; since `Run` is defined,
      no controlled phase meets two superposed qubits. */
  lemma ForwardIsFourier(t: nat, x: nat)
    ensures Run(Pow2(t), Forward(t), BasisRegister(Bits(x, t))) == Some(FourierRegister(x, t))
  {
    hide Run;
    var r := BasisRegister(Bits(x, t));
    SwapsReverse(Pow2(t), r.qubits);
    ReversedBits(Bits(x, t));
    ForwardBlocksRun(Bits(x, t), t);
    FourierIsForwardState(x, t);
    RunJoin(Pow2(t), Swaps(t, t / 2), ForwardBlocks(t, t), r, Register(0, Reversed(r.qubits)), FourierRegister(x, t));
  }

  // ----- the amplitudes of the Fourier register -----

  /** Adding p on both sides of a congruence, reduced on one. */
  lemma CongruentAdd(n: nat, s: int, u: int, p: int)
    requires n > 0 && Mod(s, n) == Mod(u, n)
    ensures Mod(s + Mod(p, n), n) == Mod(u + p, n)
  {
    ReducedShare(n, s, p);
    ModPlus(s, p, n);
    ModPlus(u, p, n);
  }

  /** The sum of the phases that `y` selects. */
  function Selected(phases: seq<int>, y: seq<bool>): int
    requires |phases| == |y|
  {
    if y == [] then 0
    else Selected(phases[..|y| - 1], y[..|y| - 1]) + if y[|y| - 1] then phases[|y| - 1] else 0
  }

  lemma {:induction false} SharesSelected(n: nat, qs: seq<Qubit>, phases: seq<int>, y: seq<bool>)
    requires n > 0 && |qs| == |y| == |phases|
    requires forall j :: 0 <= j < |qs| ==> qs[j] == Phase(Mod(phases[j], n))
    ensures Mod(Shares(qs, y), n) == Mod(Selected(phases, y), n)
  {
    if qs != [] {
      var k := |qs| - 1;
      SharesSelected(n, qs[..k], phases[..k], y[..k]);
      CongruentAdd(n, Shares(qs[..k], y[..k]), Selected(phases[..k], y[..k]), phases[k]);
    }
  }

  lemma MulAdd(x: int, a: int, b: int)
    ensures x * (a + b) == x * a + x * b
  {
  }

  lemma {:induction false} SelectedProduct(x: nat, phases: seq<int>, y: seq<bool>)
    requires |phases| == |y|
    requires forall j :: 0 <= j < |y| ==> phases[j] == x * Pow2(j)
    ensures Selected(phases, y) == x * Value(y)
  {
    if y != [] {
      var k := |y| - 1;
      SelectedProduct(x, phases[..k], y[..k]);
      MulAdd(x, Value(y[..k]), Pow2(k));
    }
  }

  /** The DFT itself: after the forward circuit every |y> has amplitude w^(x*y). */
  lemma ForwardIsDft(t: nat, x: nat, y: seq<bool>)
    requires |y| == t
    ensures Run(Pow2(t), Forward(t), BasisRegister(Bits(x, t))) == Some(FourierRegister(x, t))
    ensures Amplitude(Pow2(t), FourierRegister(x, t), y) == Some(Mod(x * Value(y), Pow2(t)))
  {
    ForwardIsFourier(t, x);
    var phases := seq(t, j requires 0 <= j < t => x * Pow2(j));
    SharesSelected(Pow2(t), FourierRegister(x, t).qubits, phases, y);
    SelectedProduct(x, phases, y);
  }

  // ----- inverse -----

  /** Qubits from `n` up are the reversed bits of x; those below have lost the contributions of these bits. */
  function InverseQubit(x: seq<bool>, n: nat, j: nat): Qubit
    requires j < |x| && n <= |x|
  {
    if j < n then Phase(PartialPhase(x, j, n)) else Basis(x[|x| - 1 - j])
  }

  function InverseState(x: seq<bool>, n: nat): (qs: seq<Qubit>)
    requires n <= |x|
    ensures |qs| == |x| && forall j :: 0 <= j < |x| ==> qs[j] == InverseQubit(x, n, j)
  {
    seq(|x|, j requires 0 <= j < |x| => InverseQubit(x, n, j))
  }

  /** Inside the block of qubit `j`: the qubits from `k` to j-1 have been corrected for its bit. */
  function InverseMid(x: seq<bool>, j: nat, k: nat): (qs: seq<Qubit>)
    requires k <= j < |x|
    ensures |qs| == |x|
    ensures forall i :: 0 <= i < |x| ==> qs[i] == InverseQubit(x, if i < k then j + 1 else j, i)
  {
    seq(|x|, i requires 0 <= i < |x| => InverseQubit(x, if i < k then j + 1 else j, i))
  }

  lemma InverseMidStep(x: seq<bool>, j: nat, k: nat)
    requires k < j < |x|
    ensures InverseMid(x, j, k) == InverseMid(x, j, k + 1)[k := Phase(PartialPhase(x, k, j))]
    ensures InverseMid(x, j, k + 1)[j] == Basis(x[|x| - 1 - j])
    ensures InverseMid(x, j, k + 1)[k] == Phase(PartialPhase(x, k, j + 1))
  {
    hide PartialPhase;
  }

  lemma PhaseDownShift(x: seq<bool>, j: nat, k: nat)
    requires k < j < |x|
    ensures Apply(Pow2(|x|), CPhase(true, j - k, k, j), Register(0, InverseMid(x, j, k + 1)))
         == Some(Register(0, InverseMid(x, j, k)))
  {
    hide Apply, PartialPhase, Pow2, InverseMid;
    PartialPhaseStep(x, k, j);
    InverseMidStep(x, j, k);
    CPhaseShift(|x|, InverseMid(x, j, k + 1), true, j - k, k, j, x[|x| - 1 - j], PartialPhase(x, k, j + 1),
                PartialPhase(x, k, j));
  }

  lemma InverseMidStart(x: seq<bool>, j: nat)
    requires j < |x|
    ensures InverseMid(x, j, j) == InverseState(x, j + 1)[j := Basis(x[|x| - 1 - j])]
    ensures InverseState(x, j + 1)[j] == Phase(PartialPhase(x, j, j + 1))
  {
    assert InverseState(x, j + 1)[j] == InverseQubit(x, j + 1, j);
  }

  lemma InverseHadamard(x: seq<bool>, j: nat)
    requires j < |x|
    ensures Run(Pow2(|x|), [H(j)], Register(0, InverseState(x, j + 1))) == Some(Register(0, InverseMid(x, j, j)))
  {
    hide Run;
    HadamardIs(|x|, InverseState(x, j + 1), j, x[|x| - 1 - j]);
    FirstPhase(x, j);
    InverseMidStart(x, j);
  }

  lemma {:induction false} PhasesDownRun(x: seq<bool>, j: nat, k: nat)
    requires k <= j < |x|
    ensures Run(Pow2(|x|), [H(j)] + PhasesDown(j, k), Register(0, InverseState(x, j + 1)))
         == Some(Register(0, InverseMid(x, j, k)))
    decreases j - k
  {
    hide Run;
    if k == j {
      InverseHadamard(x, j);
      assert [H(j)] + PhasesDown(j, k) == [H(j)];
    } else {
      PhasesDownRun(x, j, k + 1);
      var front := [H(j)] + PhasesDown(j, k + 1);
      var g := CPhase(true, j - k, k, j);
      assert [H(j)] + PhasesDown(j, k) == front + [g];
      PhaseDownShift(x, j, k);
      RunExtend(Pow2(|x|), front, g, Register(0, InverseState(x, j + 1)), Register(0, InverseMid(x, j, k + 1)),
                Register(0, InverseMid(x, j, k)));
    }
  }

  lemma {:induction false} InverseBlocksRun(x: seq<bool>, n: nat)
    requires n <= |x|
    ensures Run(Pow2(|x|), InverseBlocks(|x|, n), Register(0, InverseState(x, |x|))) == Some(Register(0, InverseState(x, n)))
    decreases |x| - n
  {
    hide Run, PhasesDown;
    if n == |x| {
      RunNothing(Pow2(|x|), Register(0, InverseState(x, n)));
    } else {
      InverseBlocksRun(x, n + 1);
      PhasesDownRun(x, n, 0);
      assert InverseMid(x, n, 0) == InverseState(x, n);
      RunJoin(Pow2(|x|), InverseBlocks(|x|, n + 1), InverseBlock(n), Register(0, InverseState(x, |x|)),
              Register(0, InverseState(x, n + 1)), Register(0, InverseState(x, n)));
    }
  }

  lemma ReversedBits(x: seq<bool>)
    ensures Reversed(InverseState(x, 0)) == BasisRegister(x).qubits
    ensures Reversed(BasisRegister(x).qubits) == ForwardState(x, 0)
    ensures InverseState(x, |x|) == ForwardState(x, |x|)
  {
  }

  /** The inverse circuit takes the Fourier register of x back to the low t bits of x. */
  lemma InverseReadsPhase(t: nat, x: nat)
    ensures Run(Pow2(t), Inverse(t), FourierRegister(x, t)) == Some(BasisRegister(Bits(x, t)))
  {
    hide Run;
    var b := Bits(x, t);
    FourierIsForwardState(x, t);
    InverseBlocksRun(b, 0);
    SwapsReverse(Pow2(t), InverseState(b, 0));
    ReversedBits(b);
    RunJoin(Pow2(t), InverseBlocks(t, 0), Swaps(t, t / 2), FourierRegister(x, t),
            Register(0, InverseState(b, 0)), BasisRegister(b));
  }
}

/**
 The two meanings of the Fourier gates agree: a register of `PhaseStates` denotes a vector of complex
 amplitudes, and running gates on registers is running them on the vectors.  So the forward circuit is
 the discrete Fourier transform on vectors too.
 */
module QftVectors {
  import opened Basics
  import opened Binary
  import opened Circuits
  import opened LinearStates
  import opened Qft
  import P = PhaseStates
  import M = QftMeaning

  const ZERO := Complex(0.0, 0.0)
  const ONE := Complex(1.0, 0.0)

  /** `unit(d)` is e^(i pi / 2^d), for one choice of the square roots. */
  ghost predicate Dyadic(unit: nat -> Complex) {
    && unit(0) == Complex(-1.0, 0.0)
    && (forall d: nat :: Times(unit(d + 1), unit(d + 1)) == unit(d))
    && (forall d: nat :: unit(d).re * unit(d).re + unit(d).im * unit(d).im == 1.0)
  }

  // ----- powers of a root of unity -----

  function Power(w: Complex, e: nat): Complex {
    if e == 0 then ONE else Times(Power(w, e - 1), w)
  }

  lemma TimesOne(u: Complex)
    ensures Times(u, ONE) == u && Times(ONE, u) == u && Times(ZERO, u) == ZERO
    ensures Times(u, Complex(-1.0, 0.0)) == Complex(-u.re, -u.im)
  {
  }

  lemma {:induction false} PowerAdd(w: Complex, a: nat, b: nat)
    ensures Power(w, a + b) == Times(Power(w, a), Power(w, b))
  {
    hide Times;
    if b == 0 {
      TimesOne(Power(w, a));
    } else {
      PowerAdd(w, a, b - 1);
      TimesAssociative(Power(w, a), Power(w, b - 1), w);
    }
  }

  /** A primitive 2^t-th root of unity. */
  function Generator(unit: nat -> Complex, t: nat): Complex {
    if t == 0 then ONE else unit(t - 1)
  }

  lemma {:induction false} GeneratorPower(unit: nat -> Complex, t: nat, k: nat)
    requires Dyadic(unit) && k < t
    ensures Power(Generator(unit, t), Pow2(k)) == unit(t - 1 - k)
  {
    hide Times;
    var w := Generator(unit, t);
    if k == 0 {
      assert Pow2(0) == 1 && Power(w, 1) == Times(Power(w, 0), w);
      TimesOne(w);
    } else {
      GeneratorPower(unit, t, k - 1);
      PowerAdd(w, Pow2(k - 1), Pow2(k - 1));
      assert Times(unit(t - 1 - k + 1), unit(t - 1 - k + 1)) == unit(t - 1 - k);
    }
  }

  lemma FullTurn(unit: nat -> Complex, t: nat)
    requires Dyadic(unit)
    ensures Power(Generator(unit, t), Pow2(t)) == ONE
  {
    hide Times;
    var w := Generator(unit, t);
    TimesOne(ONE);
    TimesOne(Complex(-1.0, 0.0));
    if t == 0 {
      assert Pow2(0) == 1 && Power(w, 1) == Times(Power(w, 0), w);
    } else {
      GeneratorPower(unit, t, t - 1);
      PowerAdd(w, Pow2(t - 1), Pow2(t - 1));
    }
  }

  /** w^e, with the exponent reduced. */
  function Root(unit: nat -> Complex, t: nat, e: int): Complex {
    Power(Generator(unit, t), Mod(e, Pow2(t)))
  }

  /** Reducing an exponent below twice the order. */
  lemma RootReduced(unit: nat -> Complex, t: nat, e: nat)
    requires Dyadic(unit) && e < 2 * Pow2(t)
    ensures Power(Generator(unit, t), e) == Root(unit, t, e)
  {
    hide Times;
    var n, w := Pow2(t), Generator(unit, t);
    if e >= n {
      FullTurn(unit, t);
      PowerAdd(w, e - n, n);
      TimesOne(Power(w, e - n));
      assert Mod(e, n) == Mod(e - n, n) == e - n;
    }
  }

  lemma RootAdd(unit: nat -> Complex, t: nat, a: int, b: int)
    requires Dyadic(unit)
    ensures Root(unit, t, a + b) == Times(Root(unit, t, a), Root(unit, t, b))
    ensures Root(unit, t, Mod(a, Pow2(t))) == Root(unit, t, a)
  {
    hide Times, Dyadic, Generator, Power;
    var n := Pow2(t);
    PowerAdd(Generator(unit, t), Mod(a, n), Mod(b, n));
    RootReduced(unit, t, Mod(a, n) + Mod(b, n));
    ModPlus(b, Mod(a, n), n);
    ModPlus(a, b, n);
    ModPlus(a, 0, n);
  }

  lemma RootZero(unit: nat -> Complex, t: nat)
    ensures Root(unit, t, 0) == ONE
  {
  }

  /** The dyadic angles as powers of the root. */
  lemma RootAngle(unit: nat -> Complex, t: nat, d: nat)
    requires Dyadic(unit) && d < t
    ensures Root(unit, t, Pow2(t - 1 - d)) == unit(d)
    ensures Root(unit, t, 0 - Pow2(t - 1 - d)) == Conjugate(unit(d))
  {
    hide Times, Root;
    var a: int := Pow2(t - 1 - d);
    GeneratorPower(unit, t, t - 1 - d);
    SmallAngle(t, d);
    RootReduced(unit, t, a);
    RootAdd(unit, t, a, 0 - a);
    RootZero(unit, t);
    InverseIsConjugate(unit(d), Root(unit, t, 0 - a));
  }

  lemma SmallAngle(t: nat, d: nat)
    requires d < t
    ensures Pow2(t - 1 - d) < 2 * Pow2(t)
  {
    if d > 0 {
      SmallAngle(t - 1, d - 1);
    }
  }

  lemma InverseIsConjugate(u: Complex, v: Complex)
    requires u.re * u.re + u.im * u.im == 1.0 && Times(u, v) == ONE
    ensures v == Conjugate(u)
  {
    TimesAssociative(Conjugate(u), u, v);
    assert Times(Conjugate(u), u) == ONE;
    TimesOne(v);
    TimesOne(Conjugate(u));
  }

  // ----- the vector a register denotes -----

  function Worth(unit: nat -> Complex, t: nat, a: Option<int>): Complex {
    match a case None => ZERO case Some(e) => Root(unit, t, e)
  }

  function Denoted(unit: nat -> Complex, t: nat, r: P.Register): Vector<Complex> {
    (y: seq<bool>) => if |y| == |r.qubits| then Worth(unit, t, P.Amplitude(Pow2(t), r, y)) else ZERO
  }

  /** Turning an amplitude is multiplying it. */
  lemma TurnedWorth(unit: nat -> Complex, t: nat, a: Option<int>, angle: int)
    requires Dyadic(unit)
    ensures Worth(unit, t, P.Turned(Pow2(t), a, angle)) == Times(Worth(unit, t, a), Root(unit, t, angle))
  {
    hide Times, Root, Dyadic;
    match a
    case None => TimesOne(Root(unit, t, angle));
    case Some(v) =>
      RootAdd(unit, t, v, angle);
      RootAdd(unit, t, v + angle, 0);
  }

  predicate Fourier(g: Gate) {
    g.H? || g.Swap? || g.CPhase?
  }

  /** The gate meets a superposed qubit with a Hadamard, which doubles the unnormalised amplitudes. */
  predicate Doubles(g: Gate, r: P.Register) {
    g.H? && g.q < |r.qubits| && r.qubits[g.q].Phase?
  }

  lemma {:induction false} HalvedExact(t: nat, k: nat)
    requires P.Halved(Pow2(t), k).Some?
    ensures k <= t
  {
    if k > 0 {
      if t == 0 {
        assert Pow2(0) == 1;
      } else {
        M.HalfIs(t);
        HalvedExact(t - 1, k - 1);
      }
    }
  }

  lemma PhaseAgrees(unit: nat -> Complex, t: nat, g: Gate, r: P.Register, y: seq<bool>)
    requires Dyadic(unit) && g.CPhase? && P.Apply(Pow2(t), g, r).Some? && |y| == |r.qubits|
    ensures |P.Apply(Pow2(t), g, r).value.qubits| == |y|
    ensures Apply(ComplexScalars(unit), g, Denoted(unit, t, r))(y) == Denoted(unit, t, P.Apply(Pow2(t), g, r).value)(y)
  {
    hide Times, Root, P.Amplitude, P.Turned, Dyadic, P.Halved, Pow2;
    var n := Pow2(t);
    HalvedExact(t, g.d + 1);
    M.HalvedPow2(t, g.d + 1);
    var angle := if g.negative then 0 - Pow2(t - 1 - g.d) else Pow2(t - 1 - g.d);
    P.ControlledSound(n, r, g.control, g.target, angle, y);
    TurnedWorth(unit, t, P.Amplitude(n, r, y), angle);
    RootAngle(unit, t, g.d);
  }

  lemma SwapAgrees(unit: nat -> Complex, t: nat, g: Gate, r: P.Register, y: seq<bool>)
    requires g.Swap? && P.Apply(Pow2(t), g, r).Some? && |y| == |r.qubits|
    ensures |P.Apply(Pow2(t), g, r).value.qubits| == |y|
    ensures Apply(ComplexScalars(unit), g, Denoted(unit, t, r))(y) == Denoted(unit, t, P.Apply(Pow2(t), g, r).value)(y)
  {
    hide Root, P.Amplitude;
    P.SwapSound(Pow2(t), r, g.a, g.b, y);
    assert Exchange(y, g.a, g.b) == P.Exchanged(y, g.a, g.b);
  }

  /** Half a turn is a sign, no turn is none. */
  lemma HalfTurn(unit: nat -> Complex, t: nat, a: Option<int>)
    requires Dyadic(unit) && Pow2(t) % 2 == 0
    ensures t > 0
    ensures var v := Worth(unit, t, a);
            && Worth(unit, t, P.Turned(Pow2(t), a, Pow2(t) / 2)) == Complex(-v.re, -v.im)
            && Worth(unit, t, P.Turned(Pow2(t), a, 0)) == v
  {
    hide Root, Times;
    if t > 0 {
      M.HalfIs(t);
      TurnedWorth(unit, t, a, Pow2(t) / 2);
      RootAngle(unit, t, 0);
      TurnedWorth(unit, t, a, 0);
      RootZero(unit, t);
      TimesOne(Worth(unit, t, a));
    }
  }

  lemma HadamardAgreesBasis(unit: nat -> Complex, t: nat, q: nat, r: P.Register, y: seq<bool>)
    requires Dyadic(unit) && P.ApplyH(Pow2(t), r, q).Some? && |y| == |r.qubits| && r.qubits[q].Basis?
    ensures |P.ApplyH(Pow2(t), r, q).value.qubits| == |y|
    ensures Hadamard(ComplexScalars(unit), q, Denoted(unit, t, r))(y)
         == Denoted(unit, t, P.ApplyH(Pow2(t), r, q).value)(y)
  {
    hide Root, P.Amplitude, P.Turned, Times;
    P.HOnBasis(Pow2(t), r, q, y);
    HalfTurn(unit, t, P.Amplitude(Pow2(t), r, y[q := r.qubits[q].bit]));
  }

  lemma HadamardAgreesPhase(unit: nat -> Complex, t: nat, q: nat, r: P.Register, y: seq<bool>)
    requires Dyadic(unit) && P.ApplyH(Pow2(t), r, q).Some? && |y| == |r.qubits| && r.qubits[q].Phase?
    ensures |P.ApplyH(Pow2(t), r, q).value.qubits| == |y|
    ensures Hadamard(ComplexScalars(unit), q, Denoted(unit, t, r))(y)
         == Twice(ComplexScalars(unit), Denoted(unit, t, P.ApplyH(Pow2(t), r, q).value))(y)
  {
    hide Root, P.Amplitude, P.Turned, Times;
    P.HOnPhase(Pow2(t), r, q, y);
    HalfTurn(unit, t, P.Amplitude(Pow2(t), r, y[q := false]));
  }

  /** One gate: the vector of the new register is the old vector under the gate, up to the doubling. */
  lemma GateAgrees(unit: nat -> Complex, t: nat, g: Gate, r: P.Register)
    requires Dyadic(unit) && Fourier(g) && P.Apply(Pow2(t), g, r).Some?
    ensures var r' := P.Apply(Pow2(t), g, r).value;
            && |r'.qubits| == |r.qubits|
            && Same(Apply(ComplexScalars(unit), g, Denoted(unit, t, r)),
                    Scaled(ComplexScalars(unit), Denoted(unit, t, r'), if Doubles(g, r) then 1 else 0), |r.qubits|)
  {
    hide Denoted, Dyadic, P.ApplyControlled, P.Halved, Hadamard;
    var k, r' := ComplexScalars(unit), P.Apply(Pow2(t), g, r).value;
    assert Scaled(k, Denoted(unit, t, r'), 1) == Twice(k, Scaled(k, Denoted(unit, t, r'), 0));
    SameLength(t, g, r);
    forall y: seq<bool> | |y| == |r.qubits|
      ensures Apply(k, g, Denoted(unit, t, r))(y)
           == Scaled(k, Denoted(unit, t, r'), if Doubles(g, r) then 1 else 0)(y)
    {
      match g
      case CPhase(_, _, _, _) => PhaseAgrees(unit, t, g, r, y);
      case Swap(_, _) => SwapAgrees(unit, t, g, r, y);
      case H(q) =>
        if r.qubits[q].Basis? {
          HadamardAgreesBasis(unit, t, q, r, y);
        } else {
          HadamardAgreesPhase(unit, t, q, r, y);
        }
    }
  }

  lemma SameLength(t: nat, g: Gate, r: P.Register)
    requires P.Apply(Pow2(t), g, r).Some?
    ensures |P.Apply(Pow2(t), g, r).value.qubits| == |r.qubits|
  {
    hide P.Halved, Pow2;
  }

  // ----- whole circuits -----

  predicate AllFourier(gates: seq<Gate>) {
    forall g :: g in gates ==> Fourier(g)
  }

  /** The Hadamards of a run that meet superposed qubits. */
  ghost function Doublings(n: nat, gates: seq<Gate>, r: P.Register): nat
    requires n > 0
  {
    if gates == [] then 0
    else
      var front := gates[..|gates| - 1];
      Doublings(n, front, r)
      + match P.Run(n, front, r) case None => 0 case Some(mid) => if Doubles(gates[|gates| - 1], mid) then 1 else 0
  }

  lemma GateScales(unit: nat -> Complex, g: Gate, a: Vector<Complex>, b: Vector<Complex>, c: Vector<Complex>, h: nat, m: nat, n: nat)
    requires Dyadic(unit) && Fourier(g)
    requires Same(a, Scaled(ComplexScalars(unit), b, h), n)
    requires Same(Apply(ComplexScalars(unit), g, b), Scaled(ComplexScalars(unit), c, m), n)
    ensures Same(Apply(ComplexScalars(unit), g, a), Scaled(ComplexScalars(unit), c, h + m), n)
  {
    hide Scaled, Laws, Same, Apply;
    var k := ComplexScalars(unit);
    ComplexLaws(unit);
    ApplySame(k, g, a, Scaled(k, b, h), n);
    ApplyScaled(k, g, b, h, n);
    ScaledSame(k, Apply(k, g, b), Scaled(k, c, m), h, n);
    ScaledPlus(k, c, m, h, n);
    SameChain(Apply(k, g, a), Apply(k, g, Scaled(k, b, h)), Scaled(k, Apply(k, g, b), h), n);
    SameChain(Apply(k, g, a), Scaled(k, Apply(k, g, b), h), Scaled(k, Scaled(k, c, m), h), n);
    SameChain(Apply(k, g, a), Scaled(k, Scaled(k, c, m), h), Scaled(k, c, h + m), n);
  }

  lemma SameChain(a: Vector<Complex>, b: Vector<Complex>, c: Vector<Complex>, n: nat)
    requires Same(a, b, n) && Same(b, c, n)
    ensures Same(a, c, n)
  {
  }

  lemma ApplyScaled(k: Scalars<Complex>, g: Gate, a: Vector<Complex>, h: nat, n: nat)
    requires Laws(k) && Fourier(g)
    ensures Same(Apply(k, g, Scaled(k, a, h)), Scaled(k, Apply(k, g, a), h), n)
  {
    hide Laws, Scaled;
    RunAppend(k, [], g, a);
    RunAppend(k, [], g, Scaled(k, a, h));
    assert [] + [g] == [g];
    RunScaled(k, [g], a, h, n);
  }

  /** Running gates on a register is running them on the vector it denotes. */
  lemma {:induction false} RunAgrees(unit: nat -> Complex, t: nat, gates: seq<Gate>, r: P.Register)
    requires Dyadic(unit) && AllFourier(gates) && P.Run(Pow2(t), gates, r).Some?
    ensures var r' := P.Run(Pow2(t), gates, r).value;
            && Plain(gates) && |r'.qubits| == |r.qubits|
            && Same(Run(ComplexScalars(unit), gates, Denoted(unit, t, r)),
                    Scaled(ComplexScalars(unit), Denoted(unit, t, r'), Doublings(Pow2(t), gates, r)), |r.qubits|)
  {
    hide P.Apply, Apply, Dyadic, Denoted, Pow2, Same;
    if gates == [] {
      NoGates(unit, Denoted(unit, t, r), |r.qubits|);
    } else {
      hide Scaled;
      var front, g := gates[..|gates| - 1], gates[|gates| - 1];
      var mid := P.Run(Pow2(t), front, r).value;
      RunAgrees(unit, t, front, r);
      GateAgrees(unit, t, g, mid);
      GateScales(unit, g, Run(ComplexScalars(unit), front, Denoted(unit, t, r)), Denoted(unit, t, mid),
                 Denoted(unit, t, P.Apply(Pow2(t), g, mid).value), Doublings(Pow2(t), front, r),
                 if Doubles(g, mid) then 1 else 0, |r.qubits|);
    }
  }

  lemma NoGates(unit: nat -> Complex, a: Vector<Complex>, n: nat)
    ensures Same(Run(ComplexScalars(unit), [], a), Scaled(ComplexScalars(unit), a, 0), n)
  {
  }

  // ----- counting the doublings -----

  /** The number of superposed qubits. */
  function Superposed(qs: seq<P.Qubit>): nat {
    if qs == [] then 0 else Superposed(qs[..|qs| - 1]) + if qs[|qs| - 1].Phase? then 1 else 0
  }

  function One(b: bool): nat {
    if b then 1 else 0
  }

  lemma {:induction false} SuperposedUpdate(qs: seq<P.Qubit>, i: nat, q: P.Qubit)
    requires i < |qs|
    ensures Superposed(qs[i := q]) + One(qs[i].Phase?) == Superposed(qs) + One(q.Phase?)
  {
    var k := |qs| - 1;
    if i == k {
      assert qs[i := q][..k] == qs[..k];
    } else {
      assert qs[i := q][..k] == qs[..k][i := q];
      SuperposedUpdate(qs[..k], i, q);
    }
  }

  lemma GateCounts(t: nat, g: Gate, r: P.Register)
    requires Fourier(g) && P.Apply(Pow2(t), g, r).Some?
    ensures Superposed(P.Apply(Pow2(t), g, r).value.qubits) + 2 * One(Doubles(g, r)) == Superposed(r.qubits) + One(g.H?)
  {
    hide P.Halved, Superposed, Pow2;
    var after := P.Apply(Pow2(t), g, r).value.qubits;
    match g
    case H(q) => SuperposedUpdate(r.qubits, q, after[q]);
    case Swap(a, b) =>
      SuperposedUpdate(r.qubits, a, r.qubits[b]);
      SuperposedUpdate(r.qubits[a := r.qubits[b]], b, r.qubits[a]);
    case CPhase(_, _, c, x) =>
      SuperposedUpdate(r.qubits, c, after[c]);
      SuperposedUpdate(r.qubits, x, after[x]);
  }

  /** Each Hadamard superposes a basis qubit or, doubling, resolves a superposed one. */
  lemma {:induction false} RunCounts(t: nat, gates: seq<Gate>, r: P.Register)
    requires AllFourier(gates) && P.Run(Pow2(t), gates, r).Some?
    ensures Superposed(P.Run(Pow2(t), gates, r).value.qubits) + 2 * Doublings(Pow2(t), gates, r)
         == Superposed(r.qubits) + HadamardCount(gates)
  {
    hide P.Apply, Superposed, Pow2, Fourier;
    if gates != [] {
      var front := gates[..|gates| - 1];
      RunCounts(t, front, r);
      GateCounts(t, gates[|gates| - 1], P.Run(Pow2(t), front, r).value);
    }
  }

  lemma {:induction false} AllSuperposed(qs: seq<P.Qubit>)
    ensures (forall i :: 0 <= i < |qs| ==> qs[i].Phase?) ==> Superposed(qs) == |qs|
    ensures (forall i :: 0 <= i < |qs| ==> qs[i].Basis?) ==> Superposed(qs) == 0
  {
    if qs != [] {
      AllSuperposed(qs[..|qs| - 1]);
    }
  }

  lemma {:induction false} SwapsAreFourier(t: nat, n: nat)
    requires 2 * n <= t
    ensures AllFourier(Swaps(t, n)) && HadamardCount(Swaps(t, n)) == 0
  {
    if n == 0 {
      CountNothing();
    } else {
      SwapsAreFourier(t, n - 1);
      CountAppend(Swaps(t, n - 1), Swap(n - 1, t - n));
    }
  }

  lemma {:induction false} PhasesAreFourier(j: nat, k: nat)
    ensures AllFourier(PhasesUp(j, k)) && HadamardCount(PhasesUp(j, k)) == 0
  {
    if k <= j + 1 {
      CountNothing();
    } else {
      PhasesAreFourier(j, k - 1);
      CountAppend(PhasesUp(j, k - 1), CPhase(false, k - 1 - j, k - 1, j));
    }
  }

  lemma {:induction false} BlocksAreFourier(n: nat, t: nat)
    ensures AllFourier(ForwardBlocks(n, t)) && HadamardCount(ForwardBlocks(n, t)) == n
  {
    hide HadamardCount, PhasesUp;
    CountNothing();
    if n > 0 {
      BlocksAreFourier(n - 1, t);
      PhasesAreFourier(n - 1, t);
      CountAppend([], H(n - 1));
      assert [] + [H(n - 1)] == [H(n - 1)];
      CountConcat([H(n - 1)], PhasesUp(n - 1, t));
      CountConcat(ForwardBlocks(n - 1, t), ForwardBlock(n - 1, t));
    }
  }

  lemma ForwardDoublesNothing(t: nat, x: nat)
    ensures AllFourier(Forward(t)) && Doublings(Pow2(t), Forward(t), P.BasisRegister(Bits(x, t))) == 0
  {
    hide Doublings, P.Run, Swaps, ForwardBlocks, HadamardCount;
    var r := P.BasisRegister(Bits(x, t));
    SwapsAreFourier(t, t / 2);
    BlocksAreFourier(t, t);
    CountConcat(Swaps(t, t / 2), ForwardBlocks(t, t));
    M.ForwardIsFourier(t, x);
    RunCounts(t, Forward(t), r);
    AllSuperposed(r.qubits);
    AllSuperposed(M.FourierRegister(x, t).qubits);
  }

  // ----- the transform -----

  /** |b> */
  function BasisVector(b: seq<bool>): Vector<Complex> {
    (y: seq<bool>) => if y == b then ONE else ZERO
  }

  lemma {:induction false} BasisShares(qs: seq<P.Qubit>, y: seq<bool>)
    requires |qs| == |y| && forall i :: 0 <= i < |qs| ==> qs[i].Basis?
    ensures P.Shares(qs, y) == 0
  {
    if qs != [] {
      BasisShares(qs[..|qs| - 1], y[..|y| - 1]);
    }
  }

  lemma BasisDenotes(unit: nat -> Complex, t: nat, b: seq<bool>)
    requires |b| == t
    ensures Same(BasisVector(b), Denoted(unit, t, P.BasisRegister(b)), t)
  {
    hide Root;
    var r := P.BasisRegister(b);
    RootZero(unit, t);
    forall y: seq<bool> | |y| == t ensures BasisVector(b)(y) == Denoted(unit, t, r)(y) {
      BasisShares(r.qubits, y);
      assert P.Supports(r.qubits, y) <==> y == b by {
        assert forall i :: 0 <= i < t ==> r.qubits[i] == P.Basis(b[i]);
      }
    }
  }

  /** On vectors of complex amplitudes, the forward circuit takes |x> to the vector with w^(x*y) at every y: each of
      its t Hadamards meets a basis qubit, so the unitary amplitude is this one over sqrt(2)^t. */
  lemma ForwardIsDftOnVectors(unit: nat -> Complex, t: nat, x: nat, y: seq<bool>)
    requires Dyadic(unit) && |y| == t
    ensures Plain(Forward(t)) && HadamardCount(Forward(t)) == t
    ensures Run(ComplexScalars(unit), Forward(t), BasisVector(Bits(x, t)))(y) == Root(unit, t, x * Value(y))
  {
    hide P.Run, Run, Forward, Doublings, Dyadic, HadamardCount, P.Amplitude;
    var k, b := ComplexScalars(unit), Bits(x, t);
    var r := P.BasisRegister(b);
    ForwardHadamards(t);
    ForwardDoublesNothing(t, x);
    M.ForwardIsDft(t, x, y);
    RunAgrees(unit, t, Forward(t), r);
    BasisDenotes(unit, t, b);
    RunSame(k, Forward(t), BasisVector(b), Denoted(unit, t, r), t);
    RootAdd(unit, t, x * Value(y), 0);
  }

  lemma ForwardHadamards(t: nat)
    ensures HadamardCount(Forward(t)) == t
  {
    hide Swaps, ForwardBlocks, HadamardCount;
    SwapsAreFourier(t, t / 2);
    BlocksAreFourier(t, t);
    CountConcat(Swaps(t, t / 2), ForwardBlocks(t, t));
  }
}

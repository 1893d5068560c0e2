/** Quantum phase estimation of a phase gate: the circuit, and its exactness on representable phases. */
module Qpe {
  import opened Basics
  import opened Binary
  import opened Circuits
  import opened Qft
  import opened PhaseStates
  import opened QftMeaning

  datatype BuildResult = Built(qc: QuantumCircuit) | ValueError(message: string)

  /** Controlled U^(2^j) from every counting qubit below `n` onto the target qubit `t`. */
  function Powers(theta: int, n: nat, t: nat): seq<Gate> {
    if n == 0 then [] else Powers(theta, n - 1, t) + [ControlledU(theta, Pow2(n - 1), n - 1, t)]
  }

  function QpeGates(theta: int, t: nat, prep: seq<Gate>): seq<Gate> {
    prep + Hadamards(t) + Powers(theta, t, t) + Inverse(t)
  }

  /** `prep` is the eigenstate preparation, already placed on the target qubit `t`; the unitary is the
      phase gate of angle 2 pi theta / 2^t. */
  method BuildQpeCircuit(theta: int, t: nat, prepQubits: nat, prep: seq<Gate>) returns (result: BuildResult)
    ensures result.ValueError? <==> prepQubits != 1
    ensures result.Built? ==>
              && fresh(result.qc)
              && result.qc.numQubits == t + 1
              && result.qc.gates == QpeGates(theta, t, prep)
              && result.qc.gates == prep + Hadamards(t) + Powers(theta, t, t) + Inverse(t)
  {
    if prepQubits != 1 {
      return ValueError("eigenstate_prep does not match the unitary");
    }
    var qc := new QuantumCircuit(t + 1);
    qc.Compose(prep);
    qc.AppendHadamards(t);
    var power := 1;
    for j := 0 to t
      invariant power == Pow2(j)
      invariant qc.gates == prep + Hadamards(t) + Powers(theta, j, t)
    {
      qc.Append(ControlledU(theta, power, j, t));
      power := 2 * power;
    }
    var qftDagger := BuildQftCircuit(t, true);
    qc.Compose(qftDagger.gates);
    return Built(qc);
  }

  // ----- gates below a qubit do not touch it -----

  function Extended(r: Register, q: Qubit): Register {
    r.(qubits := r.qubits + [q])
  }

  lemma UpdateExtended(qs: seq<Qubit>, q: Qubit, i: nat, x: Qubit)
    requires i < |qs|
    ensures (qs + [q])[i := x] == qs[i := x] + [q]
  {
  }

  lemma ControlledExtended(n: nat, r: Register, c: nat, t: nat, angle: int, q: Qubit)
    requires n > 0 && ApplyControlled(n, r, c, t, angle).Some?
    ensures ApplyControlled(n, Extended(r, q), c, t, angle) == Some(Extended(ApplyControlled(n, r, c, t, angle).value, q))
  {
    var after := ApplyControlled(n, r, c, t, angle).value;
    var i := if r.qubits[c].Phase? then c else t;
    UpdateExtended(r.qubits, q, i, after.qubits[i]);
  }

  lemma ApplyExtended(n: nat, g: Gate, r: Register, q: Qubit)
    requires n > 0 && Apply(n, g, r).Some?
    ensures Apply(n, g, Extended(r, q)) == Some(Extended(Apply(n, g, r).value, q))
  {
    var after := Apply(n, g, r).value.qubits;
    match g
    case H(i) => UpdateExtended(r.qubits, q, i, after[i]);
    case X(i) => UpdateExtended(r.qubits, q, i, after[i]);
    case Swap(a, b) => assert Exchanged(r.qubits + [q], a, b) == after + [q];
    case CPhase(s, d, c, t) => ControlledExtended(n, r, c, t, DyadicAngle(n, s, d).value, q);
    case ControlledU(theta, power, c, t) => ControlledExtended(n, r, c, t, theta * power, q);
  }

  lemma {:induction false} RunExtended(n: nat, gates: seq<Gate>, r: Register, q: Qubit)
    requires n > 0 && Run(n, gates, r).Some?
    ensures Run(n, gates, Extended(r, q)) == Some(Extended(Run(n, gates, r).value, q))
  {
    if gates != [] {
      var k := |gates| - 1;
      RunExtended(n, gates[..k], r, q);
      ApplyExtended(n, gates[k], Run(n, gates[..k], r).value, q);
    }
  }

  // ----- the run -----

  /** Counting qubits below `k` carry their angle, the others are still untouched superpositions. */
  function Kicked(n: nat, angles: seq<int>, k: nat): (qs: seq<Qubit>)
    requires n > 0
    ensures |qs| == |angles|
    ensures forall j :: 0 <= j < |angles| ==> qs[j] == Phase(if j < k then Mod(angles[j], n) else 0)
  {
    seq(|angles|, j requires 0 <= j < |angles| => Phase(if j < k then Mod(angles[j], n) else 0))
  }

  /** The angles of U^(2^j). */
  function Angles(m: int, t: nat): (angles: seq<int>)
    ensures |angles| == t && forall j :: 0 <= j < t ==> angles[j] == m * Pow2(j)
  {
    seq(t, j requires 0 <= j < t => m * Pow2(j))
  }

  function HadamardState(t: nat, n: nat): (qs: seq<Qubit>)
    ensures |qs| == t
    ensures forall j :: 0 <= j < t ==> qs[j] == if j < n then Phase(0) else Basis(false)
  {
    seq(t, j requires 0 <= j < t => if j < n then Phase(0) else Basis(false))
  }

  const EIGENSTATE := Basis(true)

  lemma HadamardStateStep(t: nat, j: nat)
    requires j < t
    ensures Run(Pow2(t), [H(j)], Extended(Register(0, HadamardState(t, j)), EIGENSTATE))
         == Some(Extended(Register(0, HadamardState(t, j + 1)), EIGENSTATE))
  {
    var mid := Extended(Register(0, HadamardState(t, j)), EIGENSTATE);
    assert mid.qubits[j] == Basis(false);
    HadamardIs(t, mid.qubits, j, false);
    UpdateExtended(HadamardState(t, j), EIGENSTATE, j, Phase(0));
    assert HadamardState(t, j)[j := Phase(0)] == HadamardState(t, j + 1);
  }

  lemma {:induction false} HadamardsRun(t: nat, n: nat)
    requires n <= t
    ensures Run(Pow2(t), Hadamards(n), Extended(Register(0, HadamardState(t, 0)), EIGENSTATE))
         == Some(Extended(Register(0, HadamardState(t, n)), EIGENSTATE))
  {
    if n > 0 {
      HadamardsRun(t, n - 1);
      HadamardStateStep(t, n - 1);
      RunJoin(Pow2(t), Hadamards(n - 1), [H(n - 1)], Extended(Register(0, HadamardState(t, 0)), EIGENSTATE),
              Extended(Register(0, HadamardState(t, n - 1)), EIGENSTATE),
              Extended(Register(0, HadamardState(t, n)), EIGENSTATE));
    }
  }

  /** The phase kickback of one controlled power onto its counting qubit. */
  lemma Kickback(n: nat, qs: seq<Qubit>, j: nat, angle: int)
    requires n > 0 && j < |qs| && qs[j] == Phase(0)
    ensures ApplyControlled(n, Extended(Register(0, qs), EIGENSTATE), j, |qs|, angle)
         == Some(Extended(Register(0, qs[j := Phase(Mod(angle, n))]), EIGENSTATE))
  {
    assert (qs + [EIGENSTATE])[j := Phase(Mod(0 + angle, n))] == qs[j := Phase(Mod(angle, n))] + [EIGENSTATE];
  }

  lemma {:induction false} PowersRun(m: nat, t: nat, n: nat)
    requires n <= t
    ensures Run(Pow2(t), Powers(m, n, t), Extended(Register(0, Kicked(Pow2(t), Angles(m, t), 0)), EIGENSTATE))
         == Some(Extended(Register(0, Kicked(Pow2(t), Angles(m, t), n)), EIGENSTATE))
  {
    if n > 0 {
      var j, angles := n - 1, Angles(m, t);
      PowersRun(m, t, j);
      Kickback(Pow2(t), Kicked(Pow2(t), angles, j), j, angles[j]);
      assert Kicked(Pow2(t), angles, j)[j := Phase(Mod(angles[j], Pow2(t)))] == Kicked(Pow2(t), angles, n);
      RunExtend(Pow2(t), Powers(m, j, t), ControlledU(m, Pow2(j), j, t),
                Extended(Register(0, Kicked(Pow2(t), angles, 0)), EIGENSTATE),
                Extended(Register(0, Kicked(Pow2(t), angles, j)), EIGENSTATE),
                Extended(Register(0, Kicked(Pow2(t), angles, n)), EIGENSTATE));
    }
  }

  lemma PrepareRun(t: nat)
    ensures Run(Pow2(t), [X(t)], Register(0, HadamardState(t, 0) + [Basis(false)]))
         == Some(Extended(Register(0, HadamardState(t, 0)), EIGENSTATE))
  {
    var r := Register(0, HadamardState(t, 0) + [Basis(false)]);
    RunAppend(Pow2(t), [], X(t), r);
    assert [] + [X(t)] == [X(t)];
    assert r.qubits[t := Basis(true)] == HadamardState(t, 0) + [EIGENSTATE];
  }

  /** For the phase m / 2^t the circuit leaves the counting register in basis state m. */
  lemma QpeExact(t: nat, m: nat)
    requires m < Pow2(t)
    ensures Run(Pow2(t), QpeGates(m, t, [X(t)]), Register(0, HadamardState(t, 0) + [Basis(false)]))
         == Some(Extended(BasisRegister(Bits(m, t)), EIGENSTATE))
  {
    var n := Pow2(t);
    var r0 := Register(0, HadamardState(t, 0) + [Basis(false)]);
    var r1 := Extended(Register(0, HadamardState(t, 0)), EIGENSTATE);
    var r2 := Extended(Register(0, HadamardState(t, t)), EIGENSTATE);
    var r3 := Extended(FourierRegister(m, t), EIGENSTATE);
    PrepareRun(t);
    HadamardsRun(t, t);
    RunJoin(n, [X(t)], Hadamards(t), r0, r1, r2);
    PowersRun(m, t, t);
    assert HadamardState(t, t) == Kicked(n, Angles(m, t), 0);
    assert Kicked(n, Angles(m, t), t) == FourierRegister(m, t).qubits;
    RunJoin(n, [X(t)] + Hadamards(t), Powers(m, t, t), r0, r2, r3);
    InverseReadsPhase(t, m);
    RunExtended(n, Inverse(t), FourierRegister(m, t), EIGENSTATE);
    RunJoin(n, [X(t)] + Hadamards(t) + Powers(m, t, t), Inverse(t), r0, r3, Extended(BasisRegister(Bits(m, t)), EIGENSTATE));
  }

  // ----- services/quantum-core/quantum_core/execution.py: run_qpe -----

  datatype Estimate = Estimate(count: nat, phi: real)

  /** The dictionary run_qpe builds from the measured counts; nothing when there are none. */
  function Estimates(counts: map<string, nat>, t: nat): Option<map<string, Estimate>> {
    if counts == map[] then None
    else Some(map s | s in counts :: Estimate(counts[s], ParseBinary(s) as real / Pow2(t) as real))
  }

  /** Every measured string keeps its count, and its estimate times 2^t is the number it spells. */
  lemma EstimatesAre(counts: map<string, nat>, t: nat)
    requires counts != map[]
    ensures Estimates(counts, t).Some? && Estimates(counts, t).value.Keys == counts.Keys
    ensures forall s :: s in counts ==>
              && Estimates(counts, t).value[s].count == counts[s]
              && Spells(Estimates(counts, t).value[s].phi, Pow2(t), ParseBinary(s))
  {
    hide ParseBinary, Pow2, Spells;
    forall s | s in counts ensures Spells(Estimates(counts, t).value[s].phi, Pow2(t), ParseBinary(s)) {
      RatioSpells(ParseBinary(s), Pow2(t));
    }
  }

  predicate Spells(phi: real, n: nat, m: nat) {
    phi * n as real == m as real
  }

  lemma RatioSpells(m: nat, n: nat)
    requires n > 0
    ensures Spells(m as real / n as real, n, m)
  {
    Quotient(m as real, n as real);
  }

  /** A counting string can be measured in `r` iff some basis state that reads it has a non-zero amplitude. */
  ghost predicate Measurable(t: nat, r: Register, s: string)
    requires |r.qubits| == t + 1
  {
    exists y :: |y| == t + 1 && Amplitude(Pow2(t), r, y).Some? && s == BitString(y[..t])
  }

  lemma OnlyOutcome(bits: seq<bool>, y: seq<bool>)
    requires |y| == |bits| + 1 && Supports(Extended(BasisRegister(bits), EIGENSTATE).qubits, y)
    ensures y[..|bits|] == bits
  {
    var qs := Extended(BasisRegister(bits), EIGENSTATE).qubits;
    assert forall i :: 0 <= i < |bits| ==> qs[i] == Basis(bits[i]);
  }

  /** On a representable phase every measured string decodes to exactly that phase. */
  lemma EstimatesAreExact(t: nat, m: nat, counts: map<string, nat>)
    requires m < Pow2(t)
    requires forall s :: s in counts ==> Measurable(t, Extended(BasisRegister(Bits(m, t)), EIGENSTATE), s)
    ensures counts.Keys <= {BitString(Bits(m, t))}
    ensures Estimates(counts, t).Some? ==>
              Estimates(counts, t).value == map[BitString(Bits(m, t)) :=
                Estimate(counts[BitString(Bits(m, t))], m as real / Pow2(t) as real)]
  {
    var r := Extended(BasisRegister(Bits(m, t)), EIGENSTATE);
    ParseBitString(Bits(m, t));
    BitsValue(m, t);
    forall s | s in counts ensures s == BitString(Bits(m, t)) {
      var y :| |y| == t + 1 && Amplitude(Pow2(t), r, y).Some? && s == BitString(y[..t]);
      OnlyOutcome(Bits(m, t), y);
    }
    if counts != map[] {
      var s :| s in counts;
      assert counts.Keys == {s};
    }
  }
}

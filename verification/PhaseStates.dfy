/**
 Product states in which every qubit is a basis bit or an equal superposition with a phase:
 `Phase(p)` is |0> + w^p |1>, with w a primitive root of unity of order `n`.
 `Apply` is undefined exactly where a gate would leave these states.  `Amplitude` is what a
 state denotes, and the `...Sound` lemmas check every rule of `Apply` against the gate's
 action on amplitudes.
 */
module PhaseStates {
  import opened Basics
  import opened Binary
  import opened Circuits

  datatype Qubit = Basis(bit: bool) | Phase(num: int)

  datatype Register = Register(global: int, qubits: seq<Qubit>)

  /** `n` divided by 2^k, when that is exact. */
  function Halved(n: nat, k: nat): Option<nat>
    decreases k
  {
    if k == 0 then Some(n) else if n % 2 != 0 then None else Halved(n / 2, k - 1)
  }

  /** The numerator over `n` of the angle +-pi / 2^d, when it is a multiple of 2 pi / n. */
  function DyadicAngle(n: nat, negative: bool, d: nat): Option<int> {
    match Halved(n, d + 1)
    case None => None
    case Some(a) => Some(if negative then 0 - a else a)
  }

  function ApplyControlled(n: nat, r: Register, c: nat, t: nat, angle: int): Option<Register>
    requires n > 0
  {
    if c >= |r.qubits| || t >= |r.qubits| || c == t then None
    else
      match (r.qubits[c], r.qubits[t])
      case (Basis(b), Basis(b')) => Some(if b && b' then r.(global := Mod(r.global + angle, n)) else r)
      case (Basis(b), Phase(p)) => Some(if b then r.(qubits := r.qubits[t := Phase(Mod(p + angle, n))]) else r)
      case (Phase(p), Basis(b)) => Some(if b then r.(qubits := r.qubits[c := Phase(Mod(p + angle, n))]) else r)
      case (Phase(_), Phase(_)) => None
  }

  function ApplyH(n: nat, r: Register, q: nat): Option<Register> {
    if q >= |r.qubits| || n % 2 != 0 then None
    else
      match r.qubits[q]
      case Basis(b) => Some(r.(qubits := r.qubits[q := Phase(if b then n / 2 else 0)]))
      case Phase(p) =>
        if p == 0 then Some(r.(qubits := r.qubits[q := Basis(false)]))
        else if p == n / 2 then Some(r.(qubits := r.qubits[q := Basis(true)]))
        else None
  }

  function Exchanged<T>(s: seq<T>, a: nat, b: nat): (e: seq<T>)
    requires a < |s| && b < |s|
    ensures |e| == |s| && e[a] == s[b] && e[b] == s[a]
    ensures forall i :: 0 <= i < |s| && i != a && i != b ==> e[i] == s[i]
  {
    s[a := s[b]][b := s[a]]
  }

  function ApplySwap(r: Register, a: nat, b: nat): Option<Register> {
    if a >= |r.qubits| || b >= |r.qubits| then None
    else Some(r.(qubits := Exchanged(r.qubits, a, b)))
  }

  function ApplyX(r: Register, q: nat): Option<Register> {
    if q >= |r.qubits| || r.qubits[q].Phase? then None
    else Some(r.(qubits := r.qubits[q := Basis(!r.qubits[q].bit)]))
  }

  function Apply(n: nat, g: Gate, r: Register): Option<Register>
    requires n > 0
  {
    match g
    case H(q) => ApplyH(n, r, q)
    case X(q) => ApplyX(r, q)
    case Swap(a, b) => ApplySwap(r, a, b)
    case CPhase(negative, d, c, t) =>
      (match DyadicAngle(n, negative, d)
       case None => None
       case Some(angle) => ApplyControlled(n, r, c, t, angle))
    case ControlledU(theta, power, c, t) => ApplyControlled(n, r, c, t, theta * power)
    case _ => None
  }

  ghost function Run(n: nat, gates: seq<Gate>, r: Register): Option<Register>
    requires n > 0
  {
    if gates == [] then Some(r)
    else
      match Run(n, gates[..|gates| - 1], r)
      case None => None
      case Some(r') => Apply(n, gates[|gates| - 1], r')
  }

  lemma RunAppend(n: nat, gates: seq<Gate>, g: Gate, r: Register)
    requires n > 0
    ensures Run(n, gates + [g], r) == match Run(n, gates, r) case None => None case Some(r') => Apply(n, g, r')
  {
    assert (gates + [g])[..|gates|] == gates;
  }

  lemma {:induction false} RunConcat(n: nat, first: seq<Gate>, second: seq<Gate>, r: Register)
    requires n > 0
    ensures Run(n, first + second, r) == match Run(n, first, r) case None => None case Some(r') => Run(n, second, r')
  {
    if second == [] {
      assert first + second == first;
    } else {
      var k := |second| - 1;
      RunConcat(n, first, second[..k], r);
      assert first + second == (first + second[..k]) + [second[k]];
      RunAppend(n, first + second[..k], second[k], r);
    }
  }

  function BasisRegister(bits: seq<bool>): Register {
    Register(0, seq(|bits|, i requires 0 <= i < |bits| => Basis(bits[i])))
  }

  // ----- what a state denotes -----

  /** The phase a qubit contributes to the amplitude of a basis state that has `bit` there. */
  function Share(q: Qubit, bit: bool): int {
    if q.Phase? && bit then q.num else 0
  }

  function Shares(qs: seq<Qubit>, y: seq<bool>): int
    requires |qs| == |y|
  {
    if qs == [] then 0
    else Shares(qs[..|qs| - 1], y[..|y| - 1]) + Share(qs[|qs| - 1], y[|y| - 1])
  }

  predicate Supports(qs: seq<Qubit>, y: seq<bool>)
    requires |qs| == |y|
  {
    forall i :: 0 <= i < |qs| && qs[i].Basis? ==> qs[i].bit == y[i]
  }

  /** The amplitude of |y> up to the common magnitude: `None` is zero, `Some(e)` is w^e. */
  function Amplitude(n: nat, r: Register, y: seq<bool>): Option<int>
    requires n > 0 && |r.qubits| == |y|
  {
    if Supports(r.qubits, y) then Some(Mod(r.global + Shares(r.qubits, y), n)) else None
  }

  /** Turning an amplitude by w^e. */
  function Turned(n: nat, a: Option<int>, e: int): Option<int>
    requires n > 0
  {
    match a case None => None case Some(v) => Some(Mod(v + e, n))
  }

  /** `sum` is the direction of `a + b` for amplitudes of equal magnitude: either one is zero,
      or they agree, or they cancel. */
  predicate IsSum(n: nat, a: Option<int>, b: Option<int>, sum: Option<int>)
    requires n > 0
  {
    || (a.None? && sum == b)
    || (b.None? && sum == a)
    || (a.Some? && a == b && sum == a)
    || (a.Some? && n % 2 == 0 && b == Turned(n, a, n / 2) && sum == None)
  }

  lemma {:induction false} SharesUpdate(qs: seq<Qubit>, y: seq<bool>, i: nat, q: Qubit, bit: bool)
    requires |qs| == |y| && i < |qs|
    ensures Shares(qs[i := q], y[i := bit]) == Shares(qs, y) - Share(qs[i], y[i]) + Share(q, bit)
  {
    var k := |qs| - 1;
    var qs', y' := qs[i := q], y[i := bit];
    if i == k {
      assert qs'[..k] == qs[..k] && y'[..k] == y[..k];
    } else {
      assert qs'[..k] == qs[..k][i := q] && y'[..k] == y[..k][i := bit];
      SharesUpdate(qs[..k], y[..k], i, q, bit);
    }
  }

  /** Phases only matter modulo `n`. */
  lemma ReducedShare(n: nat, rest: int, p: int)
    requires n > 0
    ensures Mod(rest + Mod(p, n), n) == Mod(rest + p, n)
  {
    ModPlus(p, rest, n);
  }

  lemma SamePhaseSupport(qs: seq<Qubit>, y: seq<bool>, i: nat, after: Qubit)
    requires |qs| == |y| && i < |qs| && qs[i].Phase? && after.Phase?
    ensures Supports(qs[i := after], y) == Supports(qs, y)
  {
    assert forall k :: 0 <= k < |y| && k != i ==> qs[i := after][k] == qs[k];
  }

  lemma TurnedShare(n: nat, v: int, p: int, angle: int)
    requires n > 0
    ensures Mod(v - p + Mod(p + angle, n), n) == Mod(Mod(v, n) + angle, n)
  {
    ReducedShare(n, v - p, p + angle);
    ModPlus(v, angle, n);
  }

  /** Turning the phase of one superposed qubit turns the amplitudes that have its bit. */
  lemma PhaseTurned(n: nat, r: Register, i: nat, angle: int, y: seq<bool>)
    requires n > 0 && |y| == |r.qubits| && i < |y| && r.qubits[i].Phase?
    ensures Amplitude(n, r.(qubits := r.qubits[i := Phase(Mod(r.qubits[i].num + angle, n))]), y)
         == if y[i] then Turned(n, Amplitude(n, r, y), angle) else Amplitude(n, r, y)
  {
    hide Shares, Mod, Supports;
    var p := r.qubits[i].num;
    var after := Phase(Mod(p + angle, n));
    SamePhaseSupport(r.qubits, y, i, after);
    SharesUpdate(r.qubits, y, i, after, y[i]);
    assert y[i := y[i]] == y;
    TurnedShare(n, r.global + Shares(r.qubits, y), p, angle);
    var v := r.global + Shares(r.qubits, y);
    assert r.global + Shares(r.qubits[i := after], y) == if y[i] then v - p + after.num else v;
  }

  lemma GlobalTurned(n: nat, r: Register, angle: int, y: seq<bool>)
    requires n > 0 && |y| == |r.qubits|
    ensures Amplitude(n, r.(global := Mod(r.global + angle, n)), y) == Turned(n, Amplitude(n, r, y), angle)
  {
    var v := r.global + Shares(r.qubits, y);
    ModPlus(r.global + angle, Shares(r.qubits, y), n);
    ModPlus(v, angle, n);
  }

  /** A controlled phase turns exactly the amplitudes of basis states with both bits set. */
  lemma ControlledSound(n: nat, r: Register, c: nat, t: nat, angle: int, y: seq<bool>)
    requires n > 0 && |y| == |r.qubits| && ApplyControlled(n, r, c, t, angle).Some?
    ensures var r' := ApplyControlled(n, r, c, t, angle).value;
            && |r'.qubits| == |y|
            && Amplitude(n, r', y) == if y[c] && y[t] then Turned(n, Amplitude(n, r, y), angle) else Amplitude(n, r, y)
  {
    match (r.qubits[c], r.qubits[t])
    case (Basis(b), Basis(b')) =>
      if b && b' {
        GlobalTurned(n, r, angle, y);
      }
    case (Basis(b), Phase(p)) =>
      PhaseTurned(n, r, t, angle, y);
    case (Phase(p), Basis(b)) =>
      PhaseTurned(n, r, c, angle, y);
  }

  lemma SharesExchanged(qs: seq<Qubit>, y: seq<bool>, a: nat, b: nat)
    requires |qs| == |y| && a < |y| && b < |y|
    ensures Shares(Exchanged(qs, a, b), Exchanged(y, a, b)) == Shares(qs, y)
  {
    SharesUpdate(qs, y, a, qs[b], y[b]);
    SharesUpdate(qs[a := qs[b]], y[a := y[b]], b, qs[a], y[a]);
  }

  lemma SupportsExchanged(qs: seq<Qubit>, y: seq<bool>, a: nat, b: nat)
    requires |qs| == |y| && a < |y| && b < |y| && Supports(qs, y)
    ensures Supports(Exchanged(qs, a, b), Exchanged(y, a, b))
  {
    var qs', y' := Exchanged(qs, a, b), Exchanged(y, a, b);
    forall i | 0 <= i < |qs| && qs'[i].Basis? ensures qs'[i].bit == y'[i] {
      var j := if i == a then b else if i == b then a else i;
      assert qs'[i] == qs[j] && y'[i] == y[j];
    }
  }

  lemma ExchangedTwice<T>(s: seq<T>, a: nat, b: nat)
    requires a < |s| && b < |s|
    ensures Exchanged(Exchanged(s, a, b), a, b) == s
  {
  }

  lemma SwapSound(n: nat, r: Register, a: nat, b: nat, y: seq<bool>)
    requires n > 0 && |y| == |r.qubits| && a < |y| && b < |y|
    ensures ApplySwap(r, a, b).Some? && |ApplySwap(r, a, b).value.qubits| == |y|
    ensures Amplitude(n, ApplySwap(r, a, b).value, y) == Amplitude(n, r, Exchanged(y, a, b))
  {
    var qs', y' := Exchanged(r.qubits, a, b), Exchanged(y, a, b);
    ExchangedTwice(y, a, b);
    ExchangedTwice(r.qubits, a, b);
    SharesExchanged(r.qubits, y', a, b);
    if Supports(r.qubits, y') {
      SupportsExchanged(r.qubits, y', a, b);
    }
    if Supports(qs', y) {
      SupportsExchanged(qs', y, a, b);
    }
  }

  /** A controlled phase from a basis qubit, when the new phase is already reduced. */
  lemma ControlledShift(n: nat, qs: seq<Qubit>, c: nat, t: nat, b: bool, angle: int, before: int, after: int)
    requires c < |qs| && t < |qs| && c != t && qs[c] == Basis(b) && qs[t] == Phase(before)
    requires after == before + (if b then angle else 0) && 0 <= after < n
    ensures ApplyControlled(n, Register(0, qs), c, t, angle) == Some(Register(0, qs[t := Phase(after)]))
    ensures ApplyControlled(n, Register(0, qs), t, c, angle) == Some(Register(0, qs[t := Phase(after)]))
  {
    if b {
      assert Mod(before + angle, n) == after;
    } else {
      assert qs[t := Phase(before)] == qs;
    }
  }

  /** H on a basis qubit: of the two old amplitudes only the one with the qubit's bit is non-zero. */
  lemma HOnBasis(n: nat, r: Register, q: nat, y: seq<bool>)
    requires n > 0 && n % 2 == 0 && |y| == |r.qubits| && q < |y| && r.qubits[q].Basis?
    ensures var b := r.qubits[q].bit;
            var r' := r.(qubits := r.qubits[q := Phase(if b then n / 2 else 0)]);
            && Amplitude(n, r, y[q := !b]) == None
            && Amplitude(n, r', y) == Turned(n, Amplitude(n, r, y[q := b]), if y[q] && b then n / 2 else 0)
  {
    hide Shares, Mod, Supports;
    var qs, b := r.qubits, r.qubits[q].bit;
    var after := Phase(if b then n / 2 else 0);
    SupportsBasis(qs, y, q, after);
    SharesUpdate(qs, y, q, qs[q], b);
    SharesUpdate(qs, y, q, after, y[q]);
    assert qs[q := qs[q]] == qs && y[q := y[q]] == y;
    var turn := if y[q] && b then n / 2 else 0;
    assert Share(after, y[q]) == turn;
    var v := r.global + Shares(qs, y[q := b]);
    assert r.global + Shares(qs[q := after], y) == v + turn;
    ModPlus(v, turn, n);
    if Supports(qs, y[q := b]) {
      assert Amplitude(n, r, y[q := b]) == Some(Mod(v, n));
    } else {
      assert Amplitude(n, r, y[q := b]) == None;
    }
  }

  /** H on |0> + w^p |1> with w^p = +-1: the two old amplitudes differ by exactly that sign. */
  lemma HOnPhase(n: nat, r: Register, q: nat, y: seq<bool>)
    requires n > 0 && n % 2 == 0 && |y| == |r.qubits| && q < |y|
    requires r.qubits[q] == Phase(0) || r.qubits[q] == Phase(n / 2)
    ensures var p := r.qubits[q].num;
            var r' := r.(qubits := r.qubits[q := Basis(p != 0)]);
            && Amplitude(n, r, y[q := true]) == Turned(n, Amplitude(n, r, y[q := false]), p)
            && Amplitude(n, r', y) == if y[q] == (p != 0) then Amplitude(n, r, y[q := false]) else None
  {
    hide Shares, Mod, Supports;
    var qs, p := r.qubits, r.qubits[q].num;
    var after := Basis(p != 0);
    SupportsPhase(qs, y, q, after);
    SharesUpdate(qs, y, q, qs[q], false);
    SharesUpdate(qs, y, q, qs[q], true);
    SharesUpdate(qs, y, q, after, y[q]);
    assert qs[q := qs[q]] == qs && y[q := y[q]] == y;
    var clear := Shares(qs, y[q := false]);
    assert Shares(qs, y[q := true]) == clear + p && Shares(qs[q := after], y) == clear;
    ModPlus(r.global + clear, p, n);
    assert r.global + Shares(qs, y[q := true]) == r.global + clear + p;
  }

  lemma TurnedTwice(n: nat, v: int)
    requires n > 0 && n % 2 == 0
    ensures Turned(n, Turned(n, Some(Mod(v, n)), n / 2), n / 2) == Some(Mod(v, n))
    ensures Turned(n, Some(Mod(v, n)), 0) == Some(Mod(v, n))
  {
    ModPlus(v, n / 2, n);
    ModPlus(v + n / 2, n / 2, n);
    ModPlus(v, 0, n);
    ModStepUp(v, n);
    assert v + n / 2 + n / 2 == v + n;
  }

  /** A Hadamard: the new amplitude of |y> is the sum of the old ones with bit `q` clear and set,
      the latter negated when `y[q]`. */
  lemma HSound(n: nat, r: Register, q: nat, y: seq<bool>)
    requires n > 0 && |y| == |r.qubits| && ApplyH(n, r, q).Some?
    ensures var r' := ApplyH(n, r, q).value;
            && |r'.qubits| == |y|
            && IsSum(n, Amplitude(n, r, y[q := false]),
                     Turned(n, Amplitude(n, r, y[q := true]), if y[q] then n / 2 else 0),
                     Amplitude(n, r', y))
  {
    TurnedTwice(n, r.global + Shares(r.qubits, y[q := false]));
    TurnedTwice(n, r.global + Shares(r.qubits, y[q := true]));
    if r.qubits[q].Basis? {
      HOnBasis(n, r, q, y);
    } else {
      HOnPhase(n, r, q, y);
    }
  }

  lemma SupportsBasis(qs: seq<Qubit>, y: seq<bool>, q: nat, after: Qubit)
    requires |qs| == |y| && q < |qs| && after.Phase? && qs[q].Basis?
    ensures !Supports(qs, y[q := !qs[q].bit])
    ensures Supports(qs[q := after], y) == Supports(qs, y[q := qs[q].bit])
  {
    var y', qs' := y[q := qs[q].bit], qs[q := after];
    assert y[q := !qs[q].bit][q] != qs[q].bit;
    assert forall i :: 0 <= i < |qs| && i != q ==> y'[i] == y[i] && qs'[i] == qs[i];
  }

  lemma SupportsPhase(qs: seq<Qubit>, y: seq<bool>, q: nat, after: Qubit)
    requires |qs| == |y| && q < |qs| && after.Basis? && qs[q].Phase?
    ensures Supports(qs, y[q := false]) == Supports(qs, y[q := true])
    ensures Supports(qs[q := after], y) == (Supports(qs, y[q := false]) && y[q] == after.bit)
  {
    var y0, y1, qs' := y[q := false], y[q := true], qs[q := after];
    assert qs'[q] == after;
    assert forall i :: 0 <= i < |qs| && i != q ==> y0[i] == y[i] && y1[i] == y[i] && qs'[i] == qs[i];
  }
}

/**
 Amplitude vectors over any scalars on which addition, negation and the rotations by
 +-pi / 2^d behave as for complex numbers.  Hadamards are unnormalised: each one is sqrt 2
 times the unitary gate, so a cancelled pair doubles every amplitude.
 */
module LinearStates {
  import opened Circuits

  datatype Scalars<!V> = Scalars(add: (V, V) -> V, neg: V -> V, turn: (V, bool, nat) -> V)

  // Each law is a predicate of its instances, so that proofs name the instances they use.

  predicate Commutative<V(==)>(k: Scalars<V>, a: V, b: V) { k.add(a, b) == k.add(b, a) }

  predicate Associative<V(==)>(k: Scalars<V>, a: V, b: V, c: V) { k.add(k.add(a, b), c) == k.add(a, k.add(b, c)) }

  predicate Cancellative<V(==)>(k: Scalars<V>, a: V, b: V) { k.add(k.add(a, b), k.neg(b)) == a }

  predicate Negates<V(==)>(k: Scalars<V>, a: V, b: V) {
    k.neg(k.add(a, b)) == k.add(k.neg(a), k.neg(b)) && k.neg(k.neg(a)) == a
  }

  predicate TurnsSums<V(==)>(k: Scalars<V>, a: V, b: V, s: bool, d: nat) {
    && k.turn(k.add(a, b), s, d) == k.add(k.turn(a, s, d), k.turn(b, s, d))
    && k.turn(k.neg(b), s, d) == k.neg(k.turn(b, s, d))
  }

  predicate TurnsBack<V(==)>(k: Scalars<V>, a: V, s: bool, d: nat) { k.turn(k.turn(a, s, d), !s, d) == a }

  predicate TurnsCommute<V(==)>(k: Scalars<V>, a: V, s: bool, d: nat, s': bool, d': nat) {
    k.turn(k.turn(a, s, d), s', d') == k.turn(k.turn(a, s', d'), s, d)
  }

  ghost predicate Laws<V(!new)>(k: Scalars<V>) {
    && (forall a, b :: Commutative(k, a, b))
    && (forall a, b, c :: Associative(k, a, b, c))
    && (forall a, b :: Cancellative(k, a, b))
    && (forall a, b :: Negates(k, a, b))
    && (forall a, b, s, d :: TurnsSums(k, a, b, s, d))
    && (forall a, s, d :: TurnsBack(k, a, s, d))
    && (forall a, s, d, s', d' :: TurnsCommute(k, a, s, d, s', d'))
  }

  type Vector<!V> = seq<bool> -> V

  function Flip(y: seq<bool>, q: nat): seq<bool>
    requires q < |y|
  {
    y[q := !y[q]]
  }

  function Exchange(y: seq<bool>, i: nat, j: nat): (e: seq<bool>)
    requires i < |y| && j < |y|
    ensures |e| == |y|
  {
    y[i := y[j]][j := y[i]]
  }

  predicate AllSet(y: seq<bool>, controls: seq<nat>) {
    forall c :: c in controls ==> c < |y| && y[c]
  }

  function Hadamard<V>(k: Scalars<V>, q: nat, a: Vector<V>): Vector<V> {
    (y: seq<bool>) =>
      if q >= |y| then a(y)
      else if y[q] then k.add(a(y[q := false]), k.neg(a(y[q := true])))
      else k.add(a(y[q := false]), a(y[q := true]))
  }

  function Apply<V>(k: Scalars<V>, g: Gate, a: Vector<V>): Vector<V>
    requires !g.ControlledU?
  {
    match g
    case H(q) => Hadamard(k, q, a)
    case X(q) => (y: seq<bool>) => if q < |y| then a(Flip(y, q)) else a(y)
    case Z(q) => (y: seq<bool>) => if q < |y| && y[q] then k.neg(a(y)) else a(y)
    case Swap(i, j) => (y: seq<bool>) => if i < |y| && j < |y| then a(Exchange(y, i, j)) else a(y)
    case CPhase(s, d, c, t) =>
      (y: seq<bool>) => if c < |y| && t < |y| && y[c] && y[t] then k.turn(a(y), s, d) else a(y)
    case Mcx(cs, t) => (y: seq<bool>) => if t < |y| && AllSet(y, cs) then a(Flip(y, t)) else a(y)
  }

  predicate Plain(gates: seq<Gate>) {
    forall g :: g in gates ==> !g.ControlledU?
  }

  ghost function Run<V>(k: Scalars<V>, gates: seq<Gate>, a: Vector<V>): Vector<V>
    requires Plain(gates)
  {
    if gates == [] then a else Apply(k, gates[|gates| - 1], Run(k, gates[..|gates| - 1], a))
  }

  lemma RunAppend<V>(k: Scalars<V>, gates: seq<Gate>, g: Gate, a: Vector<V>)
    requires Plain(gates) && !g.ControlledU?
    ensures Plain(gates + [g]) && Run(k, gates + [g], a) == Apply(k, g, Run(k, gates, a))
  {
    assert (gates + [g])[..|gates|] == gates;
  }

  lemma {:induction false} RunConcat<V>(k: Scalars<V>, u: seq<Gate>, v: seq<Gate>, a: Vector<V>)
    requires Plain(u) && Plain(v)
    ensures Plain(u + v) && Run(k, u + v, a) == Run(k, v, Run(k, u, a))
  {
    if v == [] {
      assert u + v == u;
    } else {
      var n := |v| - 1;
      RunConcat(k, u, v[..n], a);
      assert u + v == (u + v[..n]) + [v[n]];
      RunAppend(k, u + v[..n], v[n], a);
    }
  }

  // ----- equality on the basis states of n qubits -----

  ghost predicate Same<V(!new)>(a: Vector<V>, b: Vector<V>, n: nat) {
    forall y :: |y| == n ==> a(y) == b(y)
  }

  lemma ApplySame<V(!new)>(k: Scalars<V>, g: Gate, a: Vector<V>, b: Vector<V>, n: nat)
    requires !g.ControlledU? && Same(a, b, n)
    ensures Same(Apply(k, g, a), Apply(k, g, b), n)
  {
    forall y | |y| == n ensures Apply(k, g, a)(y) == Apply(k, g, b)(y) {
      match g
      case H(q) => if q < n { assert a(y[q := false]) == b(y[q := false]) && a(y[q := true]) == b(y[q := true]); }
      case X(q) => if q < n { assert a(Flip(y, q)) == b(Flip(y, q)); }
      case Swap(i, j) => if i < n && j < n { assert a(Exchange(y, i, j)) == b(Exchange(y, i, j)); }
      case Mcx(_, q) => if q < n { assert a(Flip(y, q)) == b(Flip(y, q)); }
      case _ =>
    }
  }

  lemma {:induction false} RunSame<V(!new)>(k: Scalars<V>, gates: seq<Gate>, a: Vector<V>, b: Vector<V>, n: nat)
    requires Plain(gates) && Same(a, b, n)
    ensures Same(Run(k, gates, a), Run(k, gates, b), n)
  {
    if gates != [] {
      var m := |gates| - 1;
      RunSame(k, gates[..m], a, b, n);
      ApplySame(k, gates[m], Run(k, gates[..m], a), Run(k, gates[..m], b), n);
    }
  }

  // ----- doubling -----

  function Twice<V>(k: Scalars<V>, a: Vector<V>): Vector<V> {
    (y: seq<bool>) => k.add(a(y), a(y))
  }

  /** `a` multiplied by 2^h. */
  function Scaled<V>(k: Scalars<V>, a: Vector<V>, h: nat): Vector<V> {
    if h == 0 then a else Twice(k, Scaled(k, a, h - 1))
  }

  lemma Shuffle<V(!new)>(k: Scalars<V>, a: V, b: V, c: V, d: V)
    requires Laws(k)
    ensures k.add(k.add(a, b), k.add(c, d)) == k.add(k.add(a, c), k.add(b, d))
  {
    assert Associative(k, a, b, k.add(c, d)) && Associative(k, a, c, k.add(b, d));
    assert Associative(k, b, c, d) && Associative(k, c, b, d) && Commutative(k, b, c);
  }

  /** A sum and a difference add up to twice the first, and differ by twice the second. */
  lemma SumDifference<V(!new)>(k: Scalars<V>, a: V, b: V)
    requires Laws(k)
    ensures k.add(k.add(a, b), k.add(a, k.neg(b))) == k.add(a, a)
    ensures k.add(k.add(a, b), k.neg(k.add(a, k.neg(b)))) == k.add(b, b)
  {
    Shuffle(k, a, b, a, k.neg(b));
    assert Associative(k, k.add(a, a), b, k.neg(b)) && Cancellative(k, k.add(a, a), b);
    assert Negates(k, a, k.neg(b)) && Negates(k, b, b);
    Shuffle(k, a, b, k.neg(a), b);
    assert Commutative(k, k.add(a, k.neg(a)), k.add(b, b));
    assert Associative(k, k.add(b, b), a, k.neg(a)) && Cancellative(k, k.add(b, b), a);
  }

  lemma ApplyTwice<V(!new)>(k: Scalars<V>, g: Gate, a: Vector<V>, n: nat)
    requires Laws(k) && !g.ControlledU?
    ensures Same(Apply(k, g, Twice(k, a)), Twice(k, Apply(k, g, a)), n)
  {
    forall y | |y| == n ensures Apply(k, g, Twice(k, a))(y) == Twice(k, Apply(k, g, a))(y) {
      if g.H? && g.q < n {
        var u, v := a(y[g.q := false]), a(y[g.q := true]);
        Shuffle(k, u, u, v, v);
        Shuffle(k, u, u, k.neg(v), k.neg(v));
        assert Negates(k, v, v);
      } else if g.Z? {
        assert Negates(k, a(y), a(y));
      } else if g.CPhase? {
        assert TurnsSums(k, a(y), a(y), g.negative, g.d);
      }
    }
  }

  lemma {:induction false} RunTwice<V(!new)>(k: Scalars<V>, gates: seq<Gate>, a: Vector<V>, n: nat)
    requires Laws(k) && Plain(gates)
    ensures Same(Run(k, gates, Twice(k, a)), Twice(k, Run(k, gates, a)), n)
  {
    hide Laws;
    if gates != [] {
      var m := |gates| - 1;
      RunTwice(k, gates[..m], a, n);
      ApplySame(k, gates[m], Run(k, gates[..m], Twice(k, a)), Twice(k, Run(k, gates[..m], a)), n);
      ApplyTwice(k, gates[m], Run(k, gates[..m], a), n);
    }
  }

  /** Circuits are linear in powers of two. */
  lemma {:induction false} RunScaled<V(!new)>(k: Scalars<V>, gates: seq<Gate>, a: Vector<V>, h: nat, n: nat)
    requires Laws(k) && Plain(gates)
    ensures Same(Run(k, gates, Scaled(k, a, h)), Scaled(k, Run(k, gates, a), h), n)
  {
    hide Laws, Run;
    if h > 0 {
      RunTwice(k, gates, Scaled(k, a, h - 1), n);
      RunScaled(k, gates, a, h - 1, n);
    }
  }

  lemma {:induction false} ScaledSame<V(!new)>(k: Scalars<V>, a: Vector<V>, b: Vector<V>, h: nat, n: nat)
    requires Same(a, b, n)
    ensures Same(Scaled(k, a, h), Scaled(k, b, h), n)
  {
    if h > 0 {
      ScaledSame(k, a, b, h - 1, n);
    }
  }

  lemma {:induction false} ScaledPlus<V(!new)>(k: Scalars<V>, a: Vector<V>, h: nat, m: nat, n: nat)
    ensures Same(Scaled(k, Scaled(k, a, h), m), Scaled(k, a, h + m), n)
  {
    if m > 0 {
      ScaledPlus(k, a, h, m - 1, n);
    }
  }

  // ----- complex and real scalars -----

  datatype Complex = Complex(re: real, im: real)

  function Times(v: Complex, u: Complex): Complex {
    Complex(v.re * u.re - v.im * u.im, v.re * u.im + v.im * u.re)
  }

  function Conjugate(u: Complex): Complex {
    Complex(u.re, -u.im)
  }

  function Rotated(v: Complex, unit: Complex, negative: bool): Complex {
    Times(v, if negative then Conjugate(unit) else unit)
  }

  /** Complex numbers, with `unit(d)` in the place of e^(i pi / 2^d). */
  function ComplexScalars(unit: nat -> Complex): Scalars<Complex> {
    Scalars((a: Complex, b: Complex) => Complex(a.re + b.re, a.im + b.im),
            (a: Complex) => Complex(-a.re, -a.im),
            (a: Complex, s: bool, d: nat) => Rotated(a, unit(d), s))
  }

  lemma TimesAssociative(v: Complex, u: Complex, w: Complex)
    ensures Times(Times(v, u), w) == Times(v, Times(u, w))
  {
  }

  lemma TimesCommutative(u: Complex, w: Complex)
    ensures Times(u, w) == Times(w, u)
  {
  }

  lemma RotatedBack(v: Complex, u: Complex, s: bool)
    requires u.re * u.re + u.im * u.im == 1.0
    ensures Rotated(Rotated(v, u, s), u, !s) == v
  {
    TimesAssociative(v, u, Conjugate(u));
    TimesAssociative(v, Conjugate(u), u);
    assert Times(u, Conjugate(u)) == Complex(1.0, 0.0) && Times(Conjugate(u), u) == Complex(1.0, 0.0);
  }

  lemma RotationsCommute(v: Complex, u: Complex, s: bool, u': Complex, s': bool)
    ensures Rotated(Rotated(v, u, s), u', s') == Rotated(Rotated(v, u', s'), u, s)
  {
    var x, y := if s then Conjugate(u) else u, if s' then Conjugate(u') else u';
    TimesAssociative(v, x, y);
    TimesAssociative(v, y, x);
    TimesCommutative(x, y);
  }

  lemma RotatedSum(a: Complex, b: Complex, u: Complex, s: bool)
    ensures Rotated(Complex(a.re + b.re, a.im + b.im), u, s)
         == Complex(Rotated(a, u, s).re + Rotated(b, u, s).re, Rotated(a, u, s).im + Rotated(b, u, s).im)
    ensures Rotated(Complex(-b.re, -b.im), u, s) == Complex(-Rotated(b, u, s).re, -Rotated(b, u, s).im)
  {
  }

  /** Complex amplitudes satisfy the laws, whatever unit numbers the angles stand for. */
  lemma ComplexLaws(unit: nat -> Complex)
    requires forall d :: unit(d).re * unit(d).re + unit(d).im * unit(d).im == 1.0
    ensures Laws(ComplexScalars(unit))
  {
    var k := ComplexScalars(unit);
    forall a, b, s, d ensures TurnsSums(k, a, b, s, d) {
      RotatedSum(a, b, unit(d), s);
    }
    forall a, s, d ensures TurnsBack(k, a, s, d) {
      RotatedBack(a, unit(d), s);
    }
    forall a, s, d, s', d' ensures TurnsCommute(k, a, s, d, s', d') {
      RotationsCommute(a, unit(d), s, unit(d'), s');
    }
  }

  /** Real amplitudes, for circuits without controlled phases. */
  function Reals(): Scalars<real> {
    Scalars((a: real, b: real) => a + b, (a: real) => -a, (a: real, s: bool, d: nat) => a)
  }

  lemma RealLaws()
    ensures Laws(Reals())
  {
  }
}

/**
 What Grover's gate lists do to real amplitudes, for every number of qubits and every list of
 marked states.  Hadamards are unnormalised, so each statement carries the power of two that
 the number of Hadamards accounts for.
 */
module GroverMeaning {
  import opened Circuits
  import opened Grover
  import opened LinearStates
  import opened Rewriting
  import opened RewritingSound

  type Amplitudes = Vector<real>

  ghost function On(gates: seq<Gate>, a: Amplitudes): Amplitudes
    requires Plain(gates)
  {
    Run(Reals(), gates, a)
  }

  /** v * 2^h */
  function Doubled(v: real, h: nat): real {
    if h == 0 then v else Doubled(v, h - 1) + Doubled(v, h - 1)
  }

  lemma {:induction false} DoubledPlus(v: real, h: nat, k: nat)
    ensures Doubled(Doubled(v, h), k) == Doubled(v, h + k)
  {
    if k > 0 {
      DoubledPlus(v, h, k - 1);
    }
  }

  lemma {:induction false} DoubledSum(u: real, v: real, h: nat)
    ensures Doubled(u + v, h) == Doubled(u, h) + Doubled(v, h) && Doubled(-v, h) == -Doubled(v, h)
  {
    if h > 0 {
      DoubledSum(u, v, h - 1);
    }
  }

  lemma SignedTwice(p: bool, q: bool, v: real, h: nat, k: nat)
    ensures Doubled(Signed(p, Doubled(Signed(q, v), h)), k) == Doubled(Signed(q != p, v), h + k)
  {
    DoubledSum(0.0, Signed(q, v), h);
    DoubledPlus(Signed(q != p, v), h, k);
  }

  // ----- flips -----

  lemma {:induction false} FlipsPlain(n: nat)
    ensures Plain(Flips(n))
  {
    if n > 0 {
      FlipsPlain(n - 1);
    }
  }

  /** `y` with its first `k` bits negated. */
  function Negated(y: seq<bool>, k: nat): (z: seq<bool>)
    requires k <= |y|
    ensures |z| == |y| && forall i :: 0 <= i < |y| ==> z[i] == if i < k then !y[i] else y[i]
  {
    seq(|y|, i requires 0 <= i < |y| => if i < k then !y[i] else y[i])
  }

  lemma {:induction false} FlipsRun(a: Amplitudes, k: nat, y: seq<bool>)
    requires k <= |y|
    ensures Plain(Flips(k)) && On(Flips(k), a)(y) == a(Negated(y, k))
  {
    FlipsPlain(k);
    if k == 0 {
      assert Negated(y, 0) == y;
    } else {
      FlipsPlain(k - 1);
      RunAppend(Reals(), Flips(k - 1), X(k - 1), a);
      FlipsRun(a, k - 1, Flip(y, k - 1));
      assert Negated(Flip(y, k - 1), k - 1) == Negated(y, k);
    }
  }

  /** The basis state a marked string denotes. */
  function Target(state: string): (b: seq<bool>)
    ensures |b| == |state| && forall i :: 0 <= i < |b| ==> b[i] == (state[|state| - 1 - i] != '0')
  {
    seq(|state|, i requires 0 <= i < |state| => state[|state| - 1 - i] != '0')
  }

  /** `y` with the bits below `k` that `state` wants to be 0 negated. */
  function Masked(y: seq<bool>, state: string, k: nat): (z: seq<bool>)
    requires k <= |y| == |state|
    ensures |z| == |y| && forall i :: 0 <= i < |y| ==> z[i] == if i < k then y[i] == Target(state)[i] else y[i]
  {
    seq(|y|, i requires 0 <= i < |y| => if i < k then y[i] == Target(state)[i] else y[i])
  }

  lemma {:induction false} ZeroFlipsPlain(state: string, k: nat)
    requires k <= |state|
    ensures Plain(ZeroFlips(state, k))
  {
    if k > 0 {
      ZeroFlipsPlain(state, k - 1);
    }
  }

  lemma {:induction false} ZeroFlipsRun(a: Amplitudes, state: string, k: nat, y: seq<bool>)
    requires k <= |y| == |state|
    ensures Plain(ZeroFlips(state, k)) && On(ZeroFlips(state, k), a)(y) == a(Masked(y, state, k))
  {
    hide Run, Plain, Masked, Target;
    ZeroFlipsPlain(state, k);
    MaskedStep(y, state, k);
    if k == 0 {
      RunNothing(a);
    } else if state[|state| - k] == '0' {
      ZeroFlipsPlain(state, k - 1);
      RunX(ZeroFlips(state, k - 1), k - 1, a, y);
      ZeroFlipsRun(a, state, k - 1, Flip(y, k - 1));
    } else {
      assert ZeroFlips(state, k) == ZeroFlips(state, k - 1);
      ZeroFlipsRun(a, state, k - 1, y);
    }
  }

  lemma RunNothing(a: Amplitudes)
    ensures Plain([]) && On([], a) == a
  {
  }

  lemma RunX(gates: seq<Gate>, q: nat, a: Amplitudes, y: seq<bool>)
    requires Plain(gates) && q < |y|
    ensures Plain(gates + [X(q)]) && On(gates + [X(q)], a)(y) == On(gates, a)(Flip(y, q))
  {
    RunAppend(Reals(), gates, X(q), a);
  }

  lemma MaskedStep(y: seq<bool>, state: string, k: nat)
    requires k <= |y| == |state|
    ensures Masked(y, state, k)
         == if k == 0 then y
            else Masked(if state[|state| - k] == '0' then Flip(y, k - 1) else y, state, k - 1)
  {
    if k > 0 {
      var z := if state[|state| - k] == '0' then Flip(y, k - 1) else y;
      assert Target(state)[k - 1] == (state[|state| - k] != '0');
      assert Masked(z, state, k - 1) == Masked(y, state, k);
    } else {
      assert Masked(y, state, 0) == y;
    }
  }

  // ----- the multi-controlled Z -----

  /** Half the number of Hadamards inside the multi-controlled Z. */
  function MczPairs(n: nat): nat {
    if n == 1 then 0 else 1
  }

  predicate AllOnes(y: seq<bool>) {
    forall i :: 0 <= i < |y| ==> y[i]
  }

  function Signed(negative: bool, v: real): real {
    if negative then -v else v
  }

  lemma {:induction false} RangeMembers(n: nat)
    ensures forall c: nat :: c in Range(n) <==> c < n
  {
    if n > 0 {
      RangeMembers(n - 1);
      forall c: nat ensures c in Range(n) <==> c < n {
        assert c in Range(n) <==> c in Range(n - 1) || c == n - 1;
      }
    }
  }

  /** Z on the last qubit, controlled by all others: the sign of |1...1> alone is flipped. */
  lemma MczRun(n: nat, a: Amplitudes, y: seq<bool>)
    requires n >= 1 && |y| == n
    ensures Plain(Mcz(n)) && On(Mcz(n), a)(y) == Doubled(Signed(AllOnes(y), a(y)), MczPairs(n))
  {
    hide Run, Plain, AllOnes, Signed, Mcz, Apply, Hadamard, Doubled;
    DoubledOnce(Signed(AllOnes(y), a(y)));
    if n == 1 {
      MczOne(a, y);
    } else {
      MczGates(n, a);
      MczSandwich(n, a, y);
    }
  }

  lemma DoubledOnce(v: real)
    ensures Doubled(v, 0) == v && Doubled(v, 1) == v + v
  {
    assert Doubled(v, 1) == Doubled(v, 0) + Doubled(v, 0);
  }

  lemma MczOne(a: Amplitudes, y: seq<bool>)
    requires |y| == 1
    ensures Plain(Mcz(1)) && On(Mcz(1), a)(y) == Signed(AllOnes(y), a(y))
  {
    RunNothing(a);
    RunAppend(Reals(), [], Z(0), a);
    assert [] + [Z(0)] == Mcz(1);
  }

  lemma MczGates(n: nat, a: Amplitudes)
    requires n >= 2
    ensures Plain(Mcz(n))
    ensures On(Mcz(n), a)
         == Hadamard(Reals(), n - 1, Apply(Reals(), Mcx(Range(n - 1), n - 1), Hadamard(Reals(), n - 1, a)))
  {
    hide Run;
    var t, mcx := n - 1, Mcx(Range(n - 1), n - 1);
    Pair(Reals(), H(t), mcx, a);
    RunAppend(Reals(), [H(t), mcx], H(t), a);
    assert [H(t), mcx] + [H(t)] == Mcz(n);
  }

  lemma AllControls(n: nat, y: seq<bool>, bit: bool)
    requires n >= 1 && |y| == n
    ensures AllSet(y[n - 1 := bit], Range(n - 1)) == forall c :: 0 <= c < n - 1 ==> y[c]
  {
    RangeMembers(n - 1);
    var z := y[n - 1 := bit];
    assert forall c :: 0 <= c < n - 1 ==> z[c] == y[c];
  }

  /** H, multi-controlled X, H on the last qubit. */
  lemma MczSandwich(n: nat, a: Amplitudes, y: seq<bool>)
    requires n >= 2 && |y| == n
    ensures var h := Hadamard(Reals(), n - 1, a);
            Hadamard(Reals(), n - 1, Apply(Reals(), Mcx(Range(n - 1), n - 1), h))(y)
            == Signed(AllOnes(y), a(y)) + Signed(AllOnes(y), a(y))
  {
    hide Range;
    var t, h := n - 1, Hadamard(Reals(), n - 1, a);
    var y0, y1 := y[t := false], y[t := true];
    AllControls(n, y, false);
    AllControls(n, y, true);
    assert Flip(y0, t) == y1 && Flip(y1, t) == y0;
    assert y0[t := true] == y1 && y1[t := false] == y0 && y0[t := false] == y0 && y1[t := true] == y1;
    assert h(y0) == a(y0) + a(y1) && h(y1) == a(y0) - a(y1);
    assert AllOnes(y) == ((forall c :: 0 <= c < t ==> y[c]) && y[t]);
    assert y == if y[t] then y1 else y0;
  }

  // ----- the oracle -----

  lemma MarkOneRun(state: string, a: Amplitudes, y: seq<bool>)
    requires |state| == |y| >= 1
    ensures Plain(MarkOne(state))
    ensures On(MarkOne(state), a)(y) == Doubled(Signed(y == Target(state), a(y)), MczPairs(|y|))
  {
    var n, k := |state|, Reals();
    var f, m := ZeroFlips(state, n), Mcz(n);
    var z := Masked(y, state, n);
    ZeroFlipsPlain(state, n);
    MczRun(n, On(f, a), z);
    RunConcat(k, f, m, a);
    RunConcat(k, f + m, f, a);
    ZeroFlipsRun(On(f + m, a), state, n, y);
    ZeroFlipsRun(a, state, n, z);
    assert Masked(z, state, n) == y;
    assert AllOnes(z) == (y == Target(state));
  }

  /** How often `y` occurs among the marked states. */
  function Occurrences(marked: seq<string>, y: seq<bool>): nat {
    if marked == [] then 0
    else Occurrences(marked[..|marked| - 1], y) + if Target(marked[|marked| - 1]) == y then 1 else 0
  }

  predicate Odd(n: nat) {
    n % 2 == 1
  }

  function OraclePairs(n: nat, count: nat): nat {
    if n == 1 then 0 else count
  }

  lemma {:induction false} OraclePlain(marked: seq<string>)
    requires forall s :: s in marked ==> |s| >= 1
    ensures Plain(Oracle(marked))
  {
    if marked != [] {
      var m := |marked| - 1;
      var state := marked[m];
      OraclePlain(marked[..m]);
      ZeroFlipsPlain(state, |state|);
    }
  }

  lemma OddStep(marked: seq<string>, y: seq<bool>)
    requires marked != []
    ensures var m := |marked| - 1;
            Odd(Occurrences(marked, y)) == (Odd(Occurrences(marked[..m], y)) != (y == Target(marked[m])))
  {
  }

  /** The last marked state on top of the others. */
  lemma OracleLast(marked: seq<string>, a: Amplitudes, y: seq<bool>)
    requires |y| >= 1 && marked != [] && forall s :: s in marked ==> |s| == |y|
    ensures Plain(Oracle(marked)) && Plain(Oracle(marked[..|marked| - 1]))
    ensures var before := On(Oracle(marked[..|marked| - 1]), a)(y);
            On(Oracle(marked), a)(y) == Doubled(Signed(y == Target(marked[|marked| - 1]), before), MczPairs(|y|))
  {
    var m := |marked| - 1;
    OraclePlain(marked);
    OraclePlain(marked[..m]);
    MarkOneRun(marked[m], On(Oracle(marked[..m]), a), y);
    RunConcat(Reals(), Oracle(marked[..m]), MarkOne(marked[m]), a);
  }

  lemma NoMarks(a: Amplitudes, y: seq<bool>)
    ensures On(Oracle([]), a)(y) == Doubled(Signed(Odd(Occurrences([], y)), a(y)), OraclePairs(|y|, 0))
  {
    assert !Odd(Occurrences([], y));
  }

  /** The oracle multiplies |y> by (-1)^(occurrences of y in the list). */
  lemma {:induction false} OracleRun(marked: seq<string>, a: Amplitudes, y: seq<bool>)
    requires |y| >= 1 && forall s :: s in marked ==> |s| == |y|
    ensures Plain(Oracle(marked))
    ensures On(Oracle(marked), a)(y) == Doubled(Signed(Odd(Occurrences(marked, y)), a(y)), OraclePairs(|y|, |marked|))
  {
    hide On, Oracle, Plain, Target, Doubled, Odd, Occurrences, Signed;
    OraclePlain(marked);
    if marked == [] {
      NoMarks(a, y);
    } else {
      var m := |marked| - 1;
      OracleRun(marked[..m], a, y);
      OracleLast(marked, a, y);
      OddStep(marked, y);
      SignedTwice(y == Target(marked[m]), Odd(Occurrences(marked[..m], y)), a(y), OraclePairs(|y|, m), MczPairs(|y|));
    }
  }

  // ----- Hadamards on all qubits -----

  lemma {:induction false} HadamardsPlain(n: nat)
    ensures Plain(Hadamards(n))
    ensures forall g :: g in Hadamards(n) ==> g.H? && g.q < n
  {
    if n > 0 {
      HadamardsPlain(n - 1);
    }
  }

  lemma {:induction false} HadamardsCancel(n: nat)
    ensures Rewrites(Hadamards(n) + Hadamards(n), [], n)
  {
    if n == 0 {
      assert Hadamards(0) + Hadamards(0) == [];
      Done([]);
    } else {
      var s, g := Hadamards(n - 1), H(n - 1);
      HadamardsPlain(n - 1);
      forall x | x in s ensures AllCommute([g], x) {
      }
      MoveAllLeft([g], s);
      HadamardsCancel(n - 1);
      SquareCancels(s, g, n - 1);
    }
  }

  /** s g s g  ->  s s g g  ->  s s  ->  nothing. */
  lemma SquareCancels(s: seq<Gate>, g: Gate, h: nat)
    requires g.H? && Rewrites([g] + s, s + [g], 0) && Rewrites(s + s, [], h)
    ensures Rewrites((s + [g]) + (s + [g]), [], h + 1)
  {
    Within(s, [g] + s, s + [g], [g], 0);
    assert (s + [g]) + (s + [g]) == s + ([g] + s) + [g];
    Once([g, g], [], 1);
    Within(s + s, [g, g], [], [], 1);
    assert s + (s + [g]) + [g] == (s + s) + [g, g] + [];
    assert (s + s) + [] + [] == s + s;
    Then(s + (s + [g]) + [g], s + s, [], 1, h);
    Then((s + [g]) + (s + [g]), s + (s + [g]) + [g], [], 0, h + 1);
  }

  lemma {:induction false} ScaledIs(a: Amplitudes, h: nat, y: seq<bool>)
    ensures Scaled(Reals(), a, h)(y) == Doubled(a(y), h)
  {
    if h > 0 {
      ScaledIs(a, h - 1, y);
    }
  }

  /** Hadamards on all qubits, twice: every amplitude is multiplied by 2^n. */
  lemma HadamardsTwice(n: nat, a: Amplitudes, y: seq<bool>)
    requires |y| == n
    ensures Plain(Hadamards(n)) && On(Hadamards(n), On(Hadamards(n), a))(y) == Doubled(a(y), n)
  {
    HadamardsPlain(n);
    HadamardsCancel(n);
    RealLaws();
    RunConcat(Reals(), Hadamards(n), Hadamards(n), a);
    RewritesSound(Reals(), Hadamards(n) + Hadamards(n), [], n, a, n);
    ScaledIs(a, n, y);
  }

  lemma NoHadamards(a: Amplitudes)
    ensures Plain(Hadamards(0)) && On(Hadamards(0), a) == a
  {
  }

  /** The sum of `a` over all values of the first `m` bits of `y`. */
  function Total(a: Amplitudes, m: nat, y: seq<bool>): real
    requires m <= |y|
  {
    if m == 0 then a(y) else Total(a, m - 1, y[m - 1 := false]) + Total(a, m - 1, y[m - 1 := true])
  }

  predicate LowZeros(y: seq<bool>, m: nat)
    requires m <= |y|
  {
    forall i :: 0 <= i < m ==> !y[i]
  }

  lemma HadamardsStep(m: nat, a: Amplitudes, y: seq<bool>)
    requires m < |y|
    ensures Plain(Hadamards(m)) && Plain(Hadamards(m + 1))
    ensures var b := On(Hadamards(m), a);
            On(Hadamards(m + 1), a)(y) == b(y[m := false]) + Signed(y[m], b(y[m := true]))
  {
    HadamardsPlain(m);
    RunAppend(Reals(), Hadamards(m), H(m), a);
  }

  /** The amplitude of |0...0> after the Hadamards is the sum of all amplitudes. */
  lemma {:induction false} ZeroAmplitude(m: nat, a: Amplitudes, y: seq<bool>)
    requires m <= |y| && LowZeros(y, m)
    ensures Plain(Hadamards(m)) && On(Hadamards(m), a)(y) == Total(a, m, y)
  {
    HadamardsPlain(m);
    if m > 0 {
      HadamardsStep(m - 1, a, y);
      ZeroAmplitude(m - 1, a, y[m - 1 := false]);
      ZeroAmplitude(m - 1, a, y[m - 1 := true]);
    }
  }

  /** v |0...0> */
  function AtZero(v: real): Amplitudes {
    (y: seq<bool>) => if LowZeros(y, |y|) then v else 0.0
  }

  predicate HighZeros(y: seq<bool>, m: nat) {
    forall i :: m <= i < |y| ==> !y[i]
  }

  lemma HighZerosStep(y: seq<bool>, m: nat)
    requires m < |y|
    ensures HighZeros(y[m := false], m) == HighZeros(y, m + 1) && !HighZeros(y[m := true], m)
  {
    var y0 := y[m := false];
    assert y[m := true][m] && !y0[m];
    assert forall i :: m + 1 <= i < |y| ==> y0[i] == y[i];
  }

  /** Hadamards on v |0...0> give every basis state of the first `m` qubits the amplitude v. */
  lemma {:induction false} UniformAmplitude(m: nat, v: real, y: seq<bool>)
    requires m <= |y|
    ensures Plain(Hadamards(m)) && On(Hadamards(m), AtZero(v))(y) == if HighZeros(y, m) then v else 0.0
  {
    hide On, Hadamards;
    HadamardsPlain(m);
    if m == 0 {
      NoHadamards(AtZero(v));
    } else {
      HadamardsStep(m - 1, AtZero(v), y);
      UniformAmplitude(m - 1, v, y[m - 1 := false]);
      UniformAmplitude(m - 1, v, y[m - 1 := true]);
      HighZerosStep(y, m - 1);
    }
  }

  function Plus(a: Amplitudes, b: Amplitudes): Amplitudes {
    (y: seq<bool>) => a(y) + b(y)
  }

  lemma {:induction false} HadamardsAdditive(m: nat, a: Amplitudes, b: Amplitudes, y: seq<bool>)
    requires m <= |y|
    ensures Plain(Hadamards(m))
    ensures On(Hadamards(m), Plus(a, b))(y) == On(Hadamards(m), a)(y) + On(Hadamards(m), b)(y)
  {
    hide On, Hadamards;
    HadamardsPlain(m);
    if m == 0 {
      NoHadamards(a);
      NoHadamards(b);
      NoHadamards(Plus(a, b));
    } else {
      HadamardsStep(m - 1, Plus(a, b), y);
      HadamardsStep(m - 1, a, y);
      HadamardsStep(m - 1, b, y);
      HadamardsAdditive(m - 1, a, b, y[m - 1 := false]);
      HadamardsAdditive(m - 1, a, b, y[m - 1 := true]);
    }
  }

  // ----- the diffuser -----

  function Zeros(n: nat): (y: seq<bool>)
    ensures |y| == n && LowZeros(y, n)
  {
    seq(n, i => false)
  }

  /** X on all qubits around the multi-controlled Z: the sign of |0...0> alone is flipped. */
  lemma FlipAtZero(n: nat, a: Amplitudes, y: seq<bool>)
    requires n >= 1 && |y| == n
    ensures Plain(Flips(n) + Mcz(n) + Flips(n))
    ensures On(Flips(n) + Mcz(n) + Flips(n), a)(y) == Doubled(Signed(LowZeros(y, n), a(y)), MczPairs(n))
  {
    var z := Negated(y, n);
    FlipsPlain(n);
    MczRun(n, On(Flips(n), a), z);
    RunConcat(Reals(), Flips(n), Mcz(n), a);
    RunConcat(Reals(), Flips(n) + Mcz(n), Flips(n), a);
    FlipsRun(On(Flips(n) + Mcz(n), a), n, y);
    FlipsRun(a, n, z);
    assert Negated(z, n) == y;
    assert AllOnes(z) == LowZeros(y, n);
  }

  /** b with the sign of |0...0> flipped is b - 2 b(0) |0...0>. */
  function Reflected(b: Amplitudes, n: nat): Amplitudes {
    Plus(b, AtZero(-(b(Zeros(n)) + b(Zeros(n)))))
  }

  lemma ReflectedIs(b: Amplitudes, n: nat, y: seq<bool>)
    requires |y| == n
    ensures Reflected(b, n)(y) == Signed(LowZeros(y, n), b(y))
  {
    if LowZeros(y, n) {
      assert y == Zeros(n);
    }
  }

  /** The Hadamards around the reflection turn it into the reflection about the mean. */
  lemma ReflectionAboutMean(n: nat, a: Amplitudes, y: seq<bool>)
    requires |y| == n
    ensures Plain(Hadamards(n))
    ensures var sum := Total(a, n, Zeros(n));
            On(Hadamards(n), Reflected(On(Hadamards(n), a), n))(y) == Doubled(a(y), n) - (sum + sum)
  {
    HadamardsPlain(n);
    var b := On(Hadamards(n), a);
    var v := -(b(Zeros(n)) + b(Zeros(n)));
    HadamardsAdditive(n, b, AtZero(v), y);
    HadamardsTwice(n, a, y);
    UniformAmplitude(n, v, y);
    ZeroAmplitude(n, a, Zeros(n));
  }
}

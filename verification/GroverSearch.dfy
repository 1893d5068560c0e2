/** Any number of Grover iterations, on any list of marked states, from |0...0>. */
module GroverSearch {
  import opened Circuits
  import opened Grover
  import opened GroverMeaning
  import opened LinearStates
  import N = Binary

  /** 2^n as a real. */
  function Size(n: nat): real {
    Doubled(1.0, n)
  }

  lemma {:induction false} SizePositive(n: nat)
    ensures Size(n) > 0.0
  {
    if n > 0 {
      SizePositive(n - 1);
    }
  }

  lemma {:induction false} DoubledTimes(v: real, n: nat)
    ensures Doubled(v, n) == v * Size(n)
  {
    if n > 0 {
      DoubledTimes(v, n - 1);
      assert v * (Size(n - 1) + Size(n - 1)) == v * Size(n - 1) + v * Size(n - 1);
    }
  }

  /** The mean of the amplitudes of all 2^n basis states. */
  function Mean(a: Amplitudes, n: nat): real {
    SizePositive(n);
    Total(a, n, Zeros(n)) / Size(n)
  }

  lemma MeanIs(a: Amplitudes, n: nat)
    ensures Doubled(Mean(a, n), n) == Total(a, n, Zeros(n))
  {
    SizePositive(n);
    DoubledTimes(Mean(a, n), n);
  }

  // ----- the diffuser -----

  lemma ScaledOf(a: Amplitudes, b: Amplitudes, h: nat, n: nat)
    requires forall y: seq<bool> :: |y| == n ==> a(y) == Doubled(b(y), h)
    ensures Same(a, Scaled(Reals(), b, h), n)
  {
    forall y: seq<bool> | |y| == n ensures a(y) == Scaled(Reals(), b, h)(y) {
      ScaledIs(b, h, y);
    }
  }

  /** A circuit on a scaled state is the scaled circuit on the state. */
  lemma OnScaled(gates: seq<Gate>, a: Amplitudes, b: Amplitudes, h: nat, n: nat, y: seq<bool>)
    requires Plain(gates) && Same(a, Scaled(Reals(), b, h), n) && |y| == n
    ensures On(gates, a)(y) == Doubled(On(gates, b)(y), h)
  {
    RealLaws();
    RunSame(Reals(), gates, a, Scaled(Reals(), b, h), n);
    RunScaled(Reals(), gates, b, h, n);
    ScaledIs(On(gates, b), h, y);
  }

  lemma DiffuserPlain(n: nat)
    requires n >= 1
    ensures Plain(Hadamards(n)) && Plain(Flips(n) + Mcz(n) + Flips(n)) && Plain(Diffuser(n))
  {
    HadamardsPlain(n);
    FlipsPlain(n);
  }

  lemma DiffuserParts(n: nat, a: Amplitudes)
    requires n >= 1
    ensures Plain(Hadamards(n)) && Plain(Flips(n) + Mcz(n) + Flips(n)) && Plain(Diffuser(n))
    ensures On(Diffuser(n), a) == On(Hadamards(n), On(Flips(n) + Mcz(n) + Flips(n), On(Hadamards(n), a)))
  {
    var h, f := Hadamards(n), Flips(n) + Mcz(n) + Flips(n);
    DiffuserPlain(n);
    RunConcat(Reals(), h, f, a);
    RunConcat(Reals(), h + f, h, a);
    assert Diffuser(n) == (h + f) + h;
  }

  /** The diffuser is a -> a - 2 mean(a), scaled by 2^(n + pairs inside the MCZ). */
  lemma DiffuserReflects(n: nat, a: Amplitudes, y: seq<bool>)
    requires n >= 1 && |y| == n
    ensures Plain(Diffuser(n))
    ensures On(Diffuser(n), a)(y) == Doubled(a(y) - (Mean(a, n) + Mean(a, n)), n + MczPairs(n))
  {
    hide Run, Diffuser, Mcz, Total, Mean;
    DiffuserParts(n, a);
    var b := On(Hadamards(n), a);
    var c := On(Flips(n) + Mcz(n) + Flips(n), b);
    forall z: seq<bool> | |z| == n ensures c(z) == Doubled(Reflected(b, n)(z), MczPairs(n)) {
      FlipAtZero(n, b, z);
      ReflectedIs(b, n, z);
    }
    ScaledOf(c, Reflected(b, n), MczPairs(n), n);
    OnScaled(Hadamards(n), c, Reflected(b, n), MczPairs(n), n, y);
    ReflectionAboutMean(n, a, y);
    MeanIs(a, n);
    var m := Mean(a, n);
    DoubledSum(a(y), -(m + m), n);
    DoubledSum(m, m, n);
    DoubledSum(m + m, 0.0, n);
    DoubledPlus(a(y) - (m + m), n, MczPairs(n));
  }

  // ----- two amplitudes -----

  /** `u` on the states the oracle flips, `v` on the others. */
  function TwoValued(marked: seq<string>, u: real, v: real): Amplitudes {
    (y: seq<bool>) => if Odd(Occurrences(marked, y)) then u else v
  }

  /** How many of the 2^n basis states the oracle flips. */
  function Flipped(marked: seq<string>, n: nat): real {
    Total(TwoValued(marked, 1.0, 0.0), n, Zeros(n))
  }

  lemma {:induction false} TwoValuedTotal(marked: seq<string>, u: real, v: real, m: nat, y: seq<bool>)
    requires m <= |y|
    ensures var f := Total(TwoValued(marked, 1.0, 0.0), m, y);
            Total(TwoValued(marked, u, v), m, y) == Mixed(u, v, f, Size(m))
  {
    hide Odd, Occurrences, Mixed;
    if m == 0 {
      MixedOne(u, v);
    } else {
      var y0, y1 := y[m - 1 := false], y[m - 1 := true];
      TwoValuedTotal(marked, u, v, m - 1, y0);
      TwoValuedTotal(marked, u, v, m - 1, y1);
      var f0, f1 := Total(TwoValued(marked, 1.0, 0.0), m - 1, y0), Total(TwoValued(marked, 1.0, 0.0), m - 1, y1);
      MixedSum(u, v, f0, f1, Size(m - 1));
    }
  }

  /** `u` on `flipped` of `size` states, `v` on the others. */
  function Mixed(u: real, v: real, flipped: real, size: real): real {
    u * flipped + v * (size - flipped)
  }

  lemma MixedOne(u: real, v: real)
    ensures Mixed(u, v, 1.0, 1.0) == u && Mixed(u, v, 0.0, 1.0) == v
  {
  }

  lemma MixedSum(u: real, v: real, a: real, b: real, half: real)
    ensures Mixed(u, v, a, half) + Mixed(u, v, b, half) == Mixed(u, v, a + b, half + half)
  {
    assert (half - a) + (half - b) == half + half - (a + b);
  }

  /** The mean after the oracle, when `flipped` of `size` states have amplitude `u` and the others `v`. */
  function OracleMean(flipped: real, size: real, u: real, v: real): real
    requires size > 0.0
  {
    (v * (size - flipped) - u * flipped) / size
  }

  datatype Pair = Pair(onMarked: real, onOthers: real)

  /** The two amplitudes after `k` iterations, before scaling. */
  function AfterIterations(flipped: real, size: real, k: nat): Pair
    requires size > 0.0
  {
    if k == 0 then Pair(1.0, 1.0)
    else
      var p := AfterIterations(flipped, size, k - 1);
      var mean := OracleMean(flipped, size, p.onMarked, p.onOthers);
      Pair(-p.onMarked - (mean + mean), p.onOthers - (mean + mean))
  }

  /** The sum of the squares of the amplitudes, `f` of `s` states having the first. */
  function Norm(f: real, s: real, p: Pair): real {
    f * p.onMarked * p.onMarked + (s - f) * p.onOthers * p.onOthers
  }

  lemma ReflectionKeepsNorm(f: real, s: real, u: real, v: real, mean: real)
    requires mean * s == v * (s - f) - u * f
    ensures Norm(f, s, Pair(-u - (mean + mean), v - (mean + mean))) == Norm(f, s, Pair(u, v))
  {
    var g, d := s - f, mean + mean;
    calc {
      f * (-u - d) * (-u - d) + g * (v - d) * (v - d);
      (f * u * u + g * v * v) + d * ((u * f - v * g) + (u * f - v * g)) + d * d * s;
      { assert u * f - v * g == -(mean * s); }
      (f * u * u + g * v * v) - d * (mean * s + mean * s) + d * d * s;
      { assert d * (mean * s + mean * s) == d * d * s; }
      f * u * u + g * v * v;
    }
  }

  /** The norm is conserved by any number of iterations. */
  lemma {:induction false} NormConserved(flipped: real, size: real, k: nat)
    requires size > 0.0
    ensures Norm(flipped, size, AfterIterations(flipped, size, k)) == size
  {
    hide Norm, OracleMean;
    if k == 0 {
      UniformNorm(flipped, size);
    } else {
      var p := AfterIterations(flipped, size, k - 1);
      NormConserved(flipped, size, k - 1);
      OracleMeanIs(flipped, size, p.onMarked, p.onOthers);
      ReflectionKeepsNorm(flipped, size, p.onMarked, p.onOthers,
                          OracleMean(flipped, size, p.onMarked, p.onOthers));
    }
  }

  lemma UniformNorm(flipped: real, size: real)
    ensures Norm(flipped, size, Pair(1.0, 1.0)) == size
  {
  }

  lemma OracleMeanIs(flipped: real, size: real, u: real, v: real)
    requires size > 0.0
    ensures OracleMean(flipped, size, u, v) * size == v * (size - flipped) - u * flipped
  {
  }

  lemma IterationPlain(n: nat, marked: seq<string>)
    requires n >= 1 && forall s :: s in marked ==> |s| == n
    ensures Plain(Oracle(marked)) && Plain(Diffuser(n)) && Plain(Oracle(marked) + Diffuser(n))
  {
    OraclePlain(marked);
    DiffuserPlain(n);
  }

  /** Cancelled pairs of Hadamards in one iteration. */
  function IterationPairs(n: nat, count: nat): nat {
    OraclePairs(n, count) + n + MczPairs(n)
  }

  lemma TwoValuedMean(marked: seq<string>, n: nat, u: real, v: real)
    ensures Size(n) > 0.0 && Mean(TwoValued(marked, -u, v), n) == OracleMean(Flipped(marked, n), Size(n), u, v)
  {
    hide Total;
    SizePositive(n);
    TwoValuedTotal(marked, -u, v, n, Zeros(n));
    assert -u * Flipped(marked, n) == -(u * Flipped(marked, n));
  }

  lemma OracleScales(n: nat, marked: seq<string>, u: real, v: real)
    requires n >= 1 && forall s :: s in marked ==> |s| == n
    ensures Plain(Oracle(marked))
    ensures Same(On(Oracle(marked), TwoValued(marked, u, v)),
                 Scaled(Reals(), TwoValued(marked, -u, v), OraclePairs(n, |marked|)), n)
  {
    hide Run, Oracle, Odd, Occurrences;
    OraclePlain(marked);
    forall z: seq<bool> | |z| == n
      ensures On(Oracle(marked), TwoValued(marked, u, v))(z)
           == Doubled(TwoValued(marked, -u, v)(z), OraclePairs(n, |marked|))
    {
      OracleRun(marked, TwoValued(marked, u, v), z);
    }
    ScaledOf(On(Oracle(marked), TwoValued(marked, u, v)), TwoValued(marked, -u, v), OraclePairs(n, |marked|), n);
  }

  /** The two-valued state one iteration makes of `u` and `v`. */
  function Iterated(marked: seq<string>, n: nat, u: real, v: real): Amplitudes {
    SizePositive(n);
    var mean := OracleMean(Flipped(marked, n), Size(n), u, v);
    TwoValued(marked, -u - (mean + mean), v - (mean + mean))
  }

  lemma IteratedIs(marked: seq<string>, n: nat, u: real, v: real, y: seq<bool>)
    ensures Size(n) > 0.0
    ensures var mean := OracleMean(Flipped(marked, n), Size(n), u, v);
            Iterated(marked, n, u, v)(y) == TwoValued(marked, -u, v)(y) - (mean + mean)
  {
    hide OracleMean, Flipped;
    SizePositive(n);
  }

  /** One iteration takes a two-valued state to a two-valued state. */
  lemma IterationRun(n: nat, marked: seq<string>, u: real, v: real, y: seq<bool>)
    requires n >= 1 && |y| == n && forall s :: s in marked ==> |s| == n
    ensures Plain(Oracle(marked) + Diffuser(n)) && Size(n) > 0.0
    ensures On(Oracle(marked) + Diffuser(n), TwoValued(marked, u, v))(y)
         == Doubled(Iterated(marked, n, u, v)(y), IterationPairs(n, |marked|))
  {
    hide Run, Diffuser, Oracle, Mean, OracleMean, Flipped, Size, TwoValued, Occurrences, Scaled, Same;
    var before, after := TwoValued(marked, u, v), TwoValued(marked, -u, v);
    var h := OraclePairs(n, |marked|);
    IterationPlain(n, marked);
    RunConcat(Reals(), Oracle(marked), Diffuser(n), before);
    OracleScales(n, marked, u, v);
    OnScaled(Diffuser(n), On(Oracle(marked), before), after, h, n, y);
    DiffuserReflects(n, after, y);
    TwoValuedMean(marked, n, u, v);
    IteratedIs(marked, n, u, v, y);
    DoubledPlus(Iterated(marked, n, u, v)(y), n + MczPairs(n), h);
  }

  function SearchPairs(n: nat, count: nat, k: nat): nat {
    if k == 0 then 0 else SearchPairs(n, count, k - 1) + IterationPairs(n, count)
  }

  lemma PlainConcat(u: seq<Gate>, v: seq<Gate>)
    requires Plain(u) && Plain(v)
    ensures Plain(u + v)
  {
  }

  lemma {:induction false} IterationsPlain(n: nat, marked: seq<string>, k: nat)
    requires n >= 1 && forall s :: s in marked ==> |s| == n
    ensures Plain(Iterations(n, marked, k)) && Plain(Hadamards(n) + Iterations(n, marked, k))
  {
    hide Hadamards, Oracle, Diffuser;
    HadamardsPlain(n);
    if k > 0 {
      IterationPlain(n, marked);
      IterationsPlain(n, marked, k - 1);
      PlainConcat(Iterations(n, marked, k - 1), Oracle(marked) + Diffuser(n));
    }
    PlainConcat(Hadamards(n), Iterations(n, marked, k));
  }

  /** The state after `k` iterations, before scaling. */
  function SearchState(marked: seq<string>, n: nat, k: nat): Amplitudes {
    SizePositive(n);
    var p := AfterIterations(Flipped(marked, n), Size(n), k);
    TwoValued(marked, p.onMarked, p.onOthers)
  }

  /** Starting from a uniform state, all marked states share one amplitude and all others another. */
  lemma {:induction false} SearchRun(n: nat, marked: seq<string>, k: nat, y: seq<bool>)
    requires n >= 1 && |y| == n && forall s :: s in marked ==> |s| == n
    ensures Plain(Hadamards(n) + Iterations(n, marked, k)) && Size(n) > 0.0
    ensures On(Hadamards(n) + Iterations(n, marked, k), AtZero(1.0))(y)
         == Doubled(SearchState(marked, n, k)(y), SearchPairs(n, |marked|, k))
  {
    hide Run, Diffuser, Oracle, Flipped, Odd, OracleMean, Scaled;
    SizePositive(n);
    IterationsPlain(n, marked, k);
    if k == 0 {
      assert Hadamards(n) + Iterations(n, marked, 0) == Hadamards(n);
      UniformAmplitude(n, 1.0, y);
    } else {
      IterationsPlain(n, marked, k - 1);
      IterationPlain(n, marked);
      var p := AfterIterations(Flipped(marked, n), Size(n), k - 1);
      var front := Hadamards(n) + Iterations(n, marked, k - 1);
      var round := Oracle(marked) + Diffuser(n);
      var state, h := SearchState(marked, n, k - 1), SearchPairs(n, |marked|, k - 1);
      forall z: seq<bool> | |z| == n ensures On(front, AtZero(1.0))(z) == Doubled(state(z), h) {
        SearchRun(n, marked, k - 1, z);
      }
      Regroup(Hadamards(n), Iterations(n, marked, k - 1), round);
      RunConcat(Reals(), front, round, AtZero(1.0));
      ScaledOf(On(front, AtZero(1.0)), state, h, n);
      OnScaled(round, On(front, AtZero(1.0)), state, h, n, y);
      IterationRun(n, marked, p.onMarked, p.onOthers, y);
      DoubledPlus(SearchState(marked, n, k)(y), IterationPairs(n, |marked|), h);
    }
  }

  // ----- the norm of the state -----

  function Squared(a: Amplitudes): Amplitudes {
    (y: seq<bool>) => a(y) * a(y)
  }

  lemma {:induction false} TotalSame(a: Amplitudes, b: Amplitudes, m: nat, y: seq<bool>)
    requires m <= |y| && Same(a, b, |y|)
    ensures Total(a, m, y) == Total(b, m, y)
  {
    if m > 0 {
      TotalSame(a, b, m - 1, y[m - 1 := false]);
      TotalSame(a, b, m - 1, y[m - 1 := true]);
    }
  }

  /** Before scaling, the squared amplitudes always add up to 2^n, as they do for the uniform state. */
  lemma SearchNorm(marked: seq<string>, n: nat, k: nat)
    ensures Total(Squared(SearchState(marked, n, k)), n, Zeros(n)) == Size(n)
  {
    hide Norm, Flipped, Total, Size, AfterIterations;
    SizePositive(n);
    var f, size := Flipped(marked, n), Size(n);
    NormConserved(f, size, k);
    SquaresTotal(marked, n, AfterIterations(f, size, k));
  }

  lemma SquaresTotal(marked: seq<string>, n: nat, p: Pair)
    ensures Total(Squared(TwoValued(marked, p.onMarked, p.onOthers)), n, Zeros(n)) == Norm(Flipped(marked, n), Size(n), p)
  {
    hide Norm, Total, Odd, Size;
    var u, v := p.onMarked * p.onMarked, p.onOthers * p.onOthers;
    forall y: seq<bool> ensures Squared(TwoValued(marked, p.onMarked, p.onOthers))(y) == TwoValued(marked, u, v)(y) {
    }
    TotalSame(Squared(TwoValued(marked, p.onMarked, p.onOthers)), TwoValued(marked, u, v), n, Zeros(n));
    TwoValuedTotal(marked, u, v, n, Zeros(n));
    NormIs(Flipped(marked, n), Size(n), p);
  }

  lemma NormIs(f: real, s: real, p: Pair)
    ensures Norm(f, s, p) == (p.onMarked * p.onMarked) * f + (p.onOthers * p.onOthers) * (s - f)
  {
  }

  // ----- distinct marked states -----

  predicate Distinct(marked: seq<string>) {
    forall i, j :: 0 <= i < j < |marked| ==> marked[i] != marked[j]
  }

  lemma TargetInjective(s: string, t: string)
    requires |s| == |t| && Binary(s) && Binary(t) && Target(s) == Target(t)
    ensures s == t
  {
    forall i | 0 <= i < |s| ensures s[i] == t[i] {
      assert Target(s)[|s| - 1 - i] == Target(t)[|s| - 1 - i];
      assert s[i] in s && t[i] in t;
    }
  }

  /** The basis state a marked string denotes is the number the string spells in base 2. */
  lemma {:induction false} TargetValue(s: string)
    requires Binary(s)
    ensures N.ParseBinary(s) == N.Value(Target(s))
  {
    if s != "" {
      N.ParseLeading(s);
      assert forall c :: c in s[1..] ==> c in s;
      TargetValue(s[1..]);
      assert Target(s)[..|s| - 1] == Target(s[1..]);
      assert s[0] in s;
    }
  }

  predicate Hit(marked: seq<string>, y: seq<bool>) {
    exists i :: 0 <= i < |marked| && Target(marked[i]) == y
  }

  /** Without duplicates a basis state occurs at most once among the marked states. */
  lemma {:induction false} OccursOnce(marked: seq<string>, n: nat, y: seq<bool>)
    requires Distinct(marked) && forall s :: s in marked ==> |s| == n && Binary(s)
    ensures Occurrences(marked, y) == if Hit(marked, y) then 1 else 0
  {
    hide Target, Binary;
    if marked != [] {
      var m := |marked| - 1;
      OccursOnce(marked[..m], n, y);
      if Hit(marked[..m], y) {
        var i :| 0 <= i < m && Target(marked[..m][i]) == y;
        assert marked[i] == marked[..m][i];
        if Target(marked[m]) == y {
          TargetInjective(marked[i], marked[m]);
          assert false;
        }
      }
    }
  }

  /** The list as an amplitude vector. */
  function Counted(marked: seq<string>): Amplitudes {
    (y: seq<bool>) => Occurrences(marked, y) as real
  }

  function Point(t: seq<bool>): Amplitudes {
    (y: seq<bool>) => if y == t then 1.0 else 0.0
  }

  predicate AgreeFrom(y: seq<bool>, t: seq<bool>, m: nat)
    requires |y| == |t|
  {
    forall i :: m <= i < |y| ==> y[i] == t[i]
  }

  lemma AgreeStep(y: seq<bool>, t: seq<bool>, m: nat)
    requires |y| == |t| && m < |y|
    ensures AgreeFrom(y[m := t[m]], t, m) == AgreeFrom(y, t, m + 1)
    ensures !AgreeFrom(y[m := !t[m]], t, m)
  {
    var y0 := y[m := t[m]];
    assert forall i :: m + 1 <= i < |y| ==> y0[i] == y[i];
    assert y[m := !t[m]][m] != t[m];
  }

  lemma {:induction false} PointTotal(t: seq<bool>, m: nat, y: seq<bool>)
    requires m <= |y| == |t|
    ensures Total(Point(t), m, y) == if AgreeFrom(y, t, m) then 1.0 else 0.0
  {
    if m == 0 {
      assert AgreeFrom(y, t, 0) <==> y == t;
    } else {
      PointTotal(t, m - 1, y[m - 1 := false]);
      PointTotal(t, m - 1, y[m - 1 := true]);
      AgreeStep(y, t, m - 1);
    }
  }

  lemma {:induction false} TotalPlus(a: Amplitudes, b: Amplitudes, m: nat, y: seq<bool>)
    requires m <= |y|
    ensures Total(Plus(a, b), m, y) == Total(a, m, y) + Total(b, m, y)
  {
    if m > 0 {
      TotalPlus(a, b, m - 1, y[m - 1 := false]);
      TotalPlus(a, b, m - 1, y[m - 1 := true]);
    }
  }

  lemma {:induction false} ZeroTotal(a: Amplitudes, m: nat, y: seq<bool>)
    requires m <= |y| && forall z: seq<bool> :: a(z) == 0.0
    ensures Total(a, m, y) == 0.0
  {
    if m > 0 {
      ZeroTotal(a, m - 1, y[m - 1 := false]);
      ZeroTotal(a, m - 1, y[m - 1 := true]);
    }
  }

  /** Counted over all basis states, every entry of the list occurs exactly once. */
  lemma {:induction false} CountedTotal(marked: seq<string>, n: nat)
    requires forall s :: s in marked ==> |s| == n
    ensures Total(Counted(marked), n, Zeros(n)) == |marked| as real
  {
    if marked == [] {
      ZeroTotal(Counted(marked), n, Zeros(n));
    } else {
      var m := |marked| - 1;
      var rest, point := Counted(marked[..m]), Point(Target(marked[m]));
      CountedTotal(marked[..m], n);
      assert marked[m] in marked;
      PointTotal(Target(marked[m]), n, Zeros(n));
      TotalPlus(rest, point, n, Zeros(n));
      TotalSame(Counted(marked), Plus(rest, point), n, Zeros(n));
    }
  }

  lemma FlippedIsCount(marked: seq<string>, n: nat)
    requires Distinct(marked) && forall s :: s in marked ==> |s| == n && Binary(s)
    ensures Flipped(marked, n) == |marked| as real
  {
    CountedTotal(marked, n);
    forall y: seq<bool> | |y| == n ensures TwoValued(marked, 1.0, 0.0)(y) == Counted(marked)(y) {
      OccursOnce(marked, n, y);
    }
    TotalSame(TwoValued(marked, 1.0, 0.0), Counted(marked), n, Zeros(n));
  }

  // ----- the scale is what the Hadamards account for -----

  lemma {:induction false} CountHadamards(n: nat)
    ensures HadamardCount(Hadamards(n)) == n
  {
    if n > 0 {
      CountHadamards(n - 1);
      CountAppend(Hadamards(n - 1), H(n - 1));
    }
  }

  lemma {:induction false} CountFlips(n: nat)
    ensures HadamardCount(Flips(n)) == 0
  {
    if n > 0 {
      CountFlips(n - 1);
      CountAppend(Flips(n - 1), X(n - 1));
    }
  }

  lemma {:induction false} CountZeroFlips(state: string, k: nat)
    requires k <= |state|
    ensures HadamardCount(ZeroFlips(state, k)) == 0
  {
    if k > 0 {
      CountZeroFlips(state, k - 1);
      CountAppend(ZeroFlips(state, k - 1), X(k - 1));
      assert ZeroFlips(state, k - 1) + [] == ZeroFlips(state, k - 1);
    }
  }

  lemma CountMcz(n: nat)
    requires n >= 1
    ensures HadamardCount(Mcz(n)) == MczPairs(n) + MczPairs(n)
  {
    if n == 1 {
      CountAppend([], Z(0));
      assert [] + [Z(0)] == Mcz(1);
    } else {
      var x := Mcx(Range(n - 1), n - 1);
      CountAppend([], H(n - 1));
      CountAppend([H(n - 1)], x);
      CountAppend([H(n - 1), x], H(n - 1));
      assert [] + [H(n - 1)] == [H(n - 1)] && [H(n - 1)] + [x] == [H(n - 1), x];
      assert [H(n - 1), x] + [H(n - 1)] == Mcz(n);
    }
  }

  lemma {:induction false} CountOracle(marked: seq<string>, n: nat)
    requires n >= 1 && forall s :: s in marked ==> |s| == n
    ensures HadamardCount(Oracle(marked)) == OraclePairs(n, |marked|) + OraclePairs(n, |marked|)
  {
    hide ZeroFlips, Mcz, HadamardCount;
    if marked == [] {
      CountHadamards(0);
    } else {
      var m := |marked| - 1;
      var state := marked[m];
      CountOracle(marked[..m], n);
      CountMcz(n);
      CountZeroFlips(state, n);
      CountConcat(ZeroFlips(state, n), Mcz(n));
      CountConcat(ZeroFlips(state, n) + Mcz(n), ZeroFlips(state, n));
      CountConcat(Oracle(marked[..m]), MarkOne(state));
    }
  }

  lemma CountDiffuser(n: nat)
    requires n >= 1
    ensures HadamardCount(Diffuser(n)) == (n + MczPairs(n)) + (n + MczPairs(n))
  {
    hide Hadamards, Flips, Mcz, HadamardCount;
    var h, f := Hadamards(n), Flips(n);
    CountHadamards(n);
    CountFlips(n);
    CountMcz(n);
    CountConcat(h, f);
    CountConcat(h + f, Mcz(n));
    CountConcat(h + f + Mcz(n), f);
    CountConcat(h + f + Mcz(n) + f, h);
  }

  lemma {:induction false} CountSearch(n: nat, marked: seq<string>, k: nat)
    requires n >= 1 && forall s :: s in marked ==> |s| == n
    ensures HadamardCount(Iterations(n, marked, k)) == SearchPairs(n, |marked|, k) + SearchPairs(n, |marked|, k)
    ensures HadamardCount(Hadamards(n) + Iterations(n, marked, k)) == n + SearchPairs(n, |marked|, k) + SearchPairs(n, |marked|, k)
  {
    hide Hadamards, Oracle, Diffuser, HadamardCount;
    if k == 0 {
      CountNothing();
    } else {
      CountSearch(n, marked, k - 1);
      CountOracle(marked, n);
      CountDiffuser(n);
      CountConcat(Oracle(marked), Diffuser(n));
      CountConcat(Iterations(n, marked, k - 1), Oracle(marked) + Diffuser(n));
    }
    CountHadamards(n);
    CountConcat(Hadamards(n), Iterations(n, marked, k));
  }

  /**
   The builder's circuit on a well-formed problem with distinct marked states: every marked state
   has one amplitude and every other state another, with the recurrence for |marked| out of 2^n states
   and the norm of the uniform state.  With `h` Hadamards the unitary amplitude is this one over
   sqrt(2)^h, and h = n + 2 * SearchPairs.
   */
  lemma SearchTheorem(problem: Problem, iterations: nat, y: seq<bool>)
    requires WellFormed(problem) && Distinct(problem.markedStates) && problem.numQubits >= 1 && |y| == problem.numQubits
    ensures Size(problem.numQubits) > 0.0
    ensures var gates := Hadamards(problem.numQubits) + Iterations(problem.numQubits, problem.markedStates, iterations);
            var pairs := SearchPairs(problem.numQubits, |problem.markedStates|, iterations);
            var p := AfterIterations(|problem.markedStates| as real, Size(problem.numQubits), iterations);
            && Plain(gates)
            && On(gates, AtZero(1.0))(y) == Doubled(if Hit(problem.markedStates, y) then p.onMarked else p.onOthers, pairs)
            && HadamardCount(gates) == problem.numQubits + pairs + pairs
            && Norm(|problem.markedStates| as real, Size(problem.numQubits), p) == Size(problem.numQubits)
  {
    hide Run, Flipped, HadamardCount, AfterIterations, Iterations, Norm, Size, Doubled, SearchPairs;
    var n, marked := problem.numQubits, problem.markedStates;
    SizePositive(n);
    FlippedIsCount(marked, n);
    SearchRun(n, marked, iterations, y);
    OccursOnce(marked, n, y);
    CountSearch(n, marked, iterations);
    NormConserved(|marked| as real, Size(n), iterations);
  }
}

/** Welford's online statistics against the batch definitions, over the reals. */
module Drift {
  import opened Basics

  datatype WelfordStats = WelfordStats(count: nat, mean: real, m2: real) {
    function Variance(): real {
      if count < MIN_SAMPLES_FOR_ZSCORE then 0.0 else m2 / (count - 1) as real
    }
  }

  const MIN_SAMPLES_FOR_ZSCORE := 2
  const EMPTY := WelfordStats(0, 0.0, 0.0)

  function Update(stats: WelfordStats, value: real): WelfordStats {
    var count := stats.count + 1;
    var delta := value - stats.mean;
    var mean := stats.mean + delta / count as real;
    var delta2 := value - mean;
    WelfordStats(count, mean, stats.m2 + delta * delta2)
  }

  /** The baseline after a whole history. */
  function Baseline(values: seq<real>): WelfordStats {
    if values == [] then EMPTY else Update(Baseline(values[..|values| - 1]), values[|values| - 1])
  }

  lemma BaselineAppend(values: seq<real>, value: real)
    ensures Baseline(values + [value]) == Update(Baseline(values), value)
  {
    assert (values + [value])[..|values|] == values;
  }

  // ----- batch statistics -----

  function Square(x: real): real {
    x * x
  }

  /** The sum of `f` over the values. */
  function Total(values: seq<real>, f: real -> real): real {
    if values == [] then 0.0 else Total(values[..|values| - 1], f) + f(values[|values| - 1])
  }

  function Identity(): real -> real { (x: real) => x }
  function Squares(): real -> real { (x: real) => Square(x) }

  /** Squared deviation from `m`. */
  function Deviation(m: real): real -> real { (x: real) => Square(x - m) }

  function BatchMean(values: seq<real>): real
    requires values != []
  {
    Total(values, Identity()) / |values| as real
  }

  lemma WelfordAlgebra(n: real, mean: real, e: real, q: real, m2: real)
    requires m2 == q - n * Square(mean)
    ensures var d := e * (n + 1.0);
            m2 + d * (d - e) == (q + Square(mean + d)) - (n + 1.0) * Square(mean + e)
  {
  }

  /** The statistics stand for `sum` and for the sum `squares` of the squared samples. */
  predicate StandsFor(stats: WelfordStats, sum: real, squares: real) {
    stats.mean * stats.count as real == sum && stats.m2 == squares - stats.count as real * Square(stats.mean)
  }

  lemma UpdateSums(stats: WelfordStats, x: real, sum: real, squares: real)
    requires StandsFor(stats, sum, squares)
    ensures StandsFor(Update(stats, x), sum + x, squares + Square(x))
  {
    hide Square;
    var n, d := stats.count as real, x - stats.mean;
    var e := d / (stats.count + 1) as real;
    Quotient(d, n + 1.0);
    WelfordAlgebra(n, stats.mean, e, squares, stats.m2);
    MeanAlgebra(n, stats.mean, e);
    DeltaAlgebra(d, e, n);
    assert x - (stats.mean + e) == d - e && stats.mean + d == x;
  }

  lemma MeanAlgebra(n: real, mean: real, e: real)
    ensures (mean + e) * (n + 1.0) == mean * n + (mean + e * (n + 1.0))
  {
  }

  lemma DeltaAlgebra(d: real, e: real, n: real)
    requires e * (n + 1.0) == d
    ensures d * (d - e) == (e * (n + 1.0)) * (e * (n + 1.0) - e)
  {
  }

  /** Count, sum and sum of squares determine the online statistics. */
  lemma {:induction false} WelfordSums(values: seq<real>)
    ensures Baseline(values).count == |values|
    ensures StandsFor(Baseline(values), Total(values, Identity()), Total(values, Squares()))
  {
    if values != [] {
      hide StandsFor, Square;
      var front, x := values[..|values| - 1], values[|values| - 1];
      WelfordSums(front);
      UpdateSums(Baseline(front), x, Total(front, Identity()), Total(front, Squares()));
    }
  }

  /** The squared deviations from m of `n` values, by their sum and the sum of their squares. */
  function Expanded(squares: real, sum: real, n: real, m: real): real {
    squares - 2.0 * m * sum + n * Square(m)
  }

  lemma {:induction false} DeviationSums(values: seq<real>, m: real)
    ensures Total(values, Deviation(m))
         == Expanded(Total(values, Squares()), Total(values, Identity()), |values| as real, m)
  {
    if values != [] {
      hide Square, Expanded;
      var front, x := values[..|values| - 1], values[|values| - 1];
      DeviationSums(front, m);
      DeviationStep(Total(front, Squares()), Total(front, Identity()), |front| as real, x, m);
    }
  }

  lemma DeviationStep(q: real, s: real, n: real, x: real, m: real)
    ensures Expanded(q, s, n, m) + Square(x - m) == Expanded(q + Square(x), s + x, n + 1.0, m)
  {
  }

  lemma CentredSums(n: real, s: real, q: real, mean: real)
    requires mean * n == s
    ensures Expanded(q, s, n, mean) == q - n * Square(mean)
  {
    assert mean * s == mean * (mean * n) == n * Square(mean);
  }

  /** Welford equals batch: count, mean, and the squared deviations from the final mean. */
  lemma WelfordIsBatch(values: seq<real>)
    requires values != []
    ensures var s := Baseline(values);
            && s.count == |values|
            && s.mean == BatchMean(values)
            && s.m2 == Total(values, Deviation(BatchMean(values)))
  {
    hide Square, Total, Expanded;
    var s := Baseline(values);
    WelfordSums(values);
    MeanUnique(s.mean, |values| as real, Total(values, Identity()));
    DeviationSums(values, s.mean);
    CentredSums(|values| as real, Total(values, Identity()), Total(values, Squares()), s.mean);
  }

  lemma MeanUnique(mean: real, n: real, s: real)
    requires n > 0.0 && mean * n == s
    ensures mean == s / n
  {
  }

  // ----- order does not matter -----

  lemma {:induction false} TotalRemove(values: seq<real>, f: real -> real, i: nat)
    requires i < |values|
    ensures Total(values, f) == Total(values[..i] + values[i + 1..], f) + f(values[i])
  {
    var n := |values| - 1;
    var rest := values[..i] + values[i + 1..];
    if i == n {
      assert rest == values[..n];
    } else {
      TotalRemove(values[..n], f, i);
      assert rest[..n - 1] == values[..n][..i] + values[..n][i + 1..];
      assert rest[n - 1] == values[n];
    }
  }

  lemma {:induction false} TotalPermuted(a: seq<real>, b: seq<real>, f: real -> real)
    requires multiset(a) == multiset(b)
    ensures Total(a, f) == Total(b, f)
  {
    if a == [] {
      assert |b| == |multiset(b)| == |multiset(a)| == 0;
    } else {
      var n := |a| - 1;
      assert a == a[..n] + [a[n]];
      assert a[n] in multiset(b);
      var i :| 0 <= i < |b| && b[i] == a[n];
      var rest := b[..i] + b[i + 1..];
      assert multiset(a) == multiset(a[..n]) + multiset{a[n]};
      assert b == b[..i] + [b[i]] + b[i + 1..];
      assert multiset(b) == multiset(rest) + multiset{b[i]};
      assert multiset(a[..n]) == multiset(a) - multiset{a[n]};
      TotalPermuted(a[..n], rest, f);
      TotalRemove(b, f, i);
    }
  }

  /** The baseline depends on the samples, not on their order. */
  lemma BaselinePermuted(a: seq<real>, b: seq<real>)
    requires multiset(a) == multiset(b)
    ensures Baseline(a) == Baseline(b)
  {
    assert |a| == |multiset(a)| == |multiset(b)| == |b|;
    if a != [] {
      WelfordIsBatch(a);
      WelfordIsBatch(b);
      TotalPermuted(a, b, Identity());
      TotalPermuted(a, b, Deviation(BatchMean(a)));
    }
  }

  // ----- when the spread is zero -----

  predicate AllEqual(values: seq<real>) {
    forall i, j :: 0 <= i < j < |values| ==> values[i] == values[j]
  }

  lemma {:induction false} DeviationsVanish(values: seq<real>, m: real)
    ensures Total(values, Deviation(m)) >= 0.0
    ensures Total(values, Deviation(m)) == 0.0 <==> forall i :: 0 <= i < |values| ==> values[i] == m
  {
    if values != [] {
      hide Square;
      var front, x := values[..|values| - 1], values[|values| - 1];
      DeviationsVanish(front, m);
      SquareVanishes(x - m);
      assert forall i :: 0 <= i < |front| ==> front[i] == values[i];
      assert x == m && Total(front, Deviation(m)) == 0.0 ==> forall i :: 0 <= i < |values| ==> values[i] == m;
    }
  }

  lemma SquareVanishes(x: real)
    ensures Square(x) >= 0.0
    ensures Square(x) == 0.0 <==> x == 0.0
  {
    if x > 0.0 {
      PositiveProduct(Square(x), x, x);
    } else if x < 0.0 {
      PositiveProduct(Square(x), -x, -x);
    }
  }

  lemma {:induction false} ConstantSum(values: seq<real>, m: real)
    requires forall i :: 0 <= i < |values| ==> values[i] == m
    ensures Total(values, Identity()) == m * |values| as real
  {
    if values != [] {
      ConstantSum(values[..|values| - 1], m);
      assert m * |values| as real == m * (|values| - 1) as real + m;
    }
  }

  /** M2 is never negative, and zero exactly when all samples are equal. */
  lemma SpreadVanishes(values: seq<real>)
    ensures Baseline(values).m2 >= 0.0
    ensures Baseline(values).m2 == 0.0 <==> AllEqual(values)
  {
    if values != [] {
      WelfordIsBatch(values);
      var m := BatchMean(values);
      DeviationsVanish(values, m);
      if AllEqual(values) {
        assert forall i :: 0 <= i < |values| ==> values[i] == values[0];
        ConstantSum(values, values[0]);
        MeanUnique(values[0], |values| as real, Total(values, Identity()));
      }
    }
  }

  // ----- z-scores -----

  /** `root` is the square root on the non-negative reals. */
  ghost predicate IsRoot(root: real -> real) {
    forall v: real :: v >= 0.0 ==> root(v) >= 0.0 && Square(root(v)) == v
  }

  function ZScore(root: real -> real, stats: WelfordStats, value: real): Option<real> {
    var stddev := root(stats.Variance());
    if stats.count < MIN_SAMPLES_FOR_ZSCORE || stddev == 0.0 then None else Some((value - stats.mean) / stddev)
  }

  lemma VarianceSign(values: seq<real>)
    ensures Baseline(values).Variance() >= 0.0
    ensures |values| >= 2 ==> (Baseline(values).Variance() == 0.0 <==> AllEqual(values))
    ensures Baseline(values).count == |values|
  {
    SpreadVanishes(values);
    WelfordSums(values);
    if |values| >= 2 {
      QuotientSign(Baseline(values).m2, (|values| - 1) as real);
    }
  }

  lemma QuotientSign(x: real, d: real)
    requires x >= 0.0 && d > 0.0
    ensures x / d >= 0.0 && (x / d == 0.0 <==> x == 0.0)
  {
    Quotient(x, d);
    FactorSign(x / d, d);
  }

  /** A score exists exactly from two samples on that are not all the same. */
  lemma ZScoreDefined(root: real -> real, values: seq<real>, value: real)
    requires IsRoot(root)
    ensures ZScore(root, Baseline(values), value).Some? <==> |values| >= 2 && !AllEqual(values)
  {
    VarianceSign(values);
    var v := Baseline(values).Variance();
    SquareVanishes(root(v));
    assert Square(root(v)) == v;
  }

  function Abs(x: real): real {
    if x < 0.0 then -x else x
  }

  lemma TimesPositive(x: real, y: real, k: real)
    requires k > 0.0
    ensures x > y <==> x * k > y * k
  {
    FactorSign(x - y, k);
    assert (x - y) * k == x * k - y * k;
  }

  lemma SquareProduct(d: real, q: real, s: real)
    requires d == q * s
    ensures Square(d) == Square(q) * Square(s)
  {
  }

  lemma SquareOrder(a: real, t: real)
    requires a >= 0.0 && t >= 0.0
    ensures a > t <==> Square(a) > Square(t)
  {
    assert Square(a) - Square(t) == (a - t) * (a + t);
    if a + t > 0.0 {
      FactorSign(a - t, a + t);
    }
  }

  lemma AbsSquare(q: real, t: real)
    requires t >= 0.0
    ensures Abs(q) > t <==> Square(q) > Square(t)
  {
    assert Square(q) == Square(Abs(q));
    SquareOrder(Abs(q), t);
  }

  // ----- scores against the batch -----

  /** The variance is the sample variance of the batch: the squared deviations over one less than their number. */
  lemma VarianceIsBatch(values: seq<real>)
    ensures |values| < 2 ==> Baseline(values).Variance() == 0.0
    ensures |values| >= 2 ==> Baseline(values).Variance() * (|values| - 1) as real == Total(values, Deviation(BatchMean(values)))
  {
    WelfordSums(values);
    if |values| >= 2 {
      hide WelfordStats.Variance, Baseline, Total, StandsFor;
      WelfordIsBatch(values);
      VarianceTimes(Baseline(values), (|values| - 1) as real);
    }
  }

  lemma VarianceTimes(stats: WelfordStats, k: real)
    requires stats.count >= 2 && k == (stats.count - 1) as real
    ensures stats.Variance() * k == stats.m2
  {
    Quotient(stats.m2, k);
  }

  /** A score is determined by the batch: its square is the squared distance from the mean in units of the sample
      variance, and its sign is the side of the mean. */
  lemma ZScoreIsBatch(root: real -> real, values: seq<real>, value: real)
    requires IsRoot(root) && |values| >= 2 && !AllEqual(values)
    ensures ZScore(root, Baseline(values), value).Some?
    ensures var z, d := ZScore(root, Baseline(values), value).value, value - BatchMean(values);
            && Square(z) * Total(values, Deviation(BatchMean(values))) == Square(d) * (|values| - 1) as real
            && (z > 0.0 <==> d > 0.0) && (z == 0.0 <==> d == 0.0)
    ensures Total(values, Deviation(BatchMean(values))) > 0.0
  {
    hide Square, Total, ZScore, Baseline, WelfordStats.Variance;
    VarianceSign(values);
    WelfordIsBatch(values);
    VarianceIsBatch(values);
    ScoreOf(root, Baseline(values), value, (|values| - 1) as real, Total(values, Deviation(BatchMean(values))));
  }

  lemma ScoreOf(root: real -> real, stats: WelfordStats, value: real, k: real, total: real)
    requires IsRoot(root) && stats.count >= 2 && stats.Variance() > 0.0 && k > 0.0 && stats.Variance() * k == total
    ensures total > 0.0 && ZScore(root, stats, value).Some?
    ensures var z, d := ZScore(root, stats, value).value, value - stats.mean;
            && Square(z) * total == Square(d) * k && (z > 0.0 <==> d > 0.0) && (z == 0.0 <==> d == 0.0)
  {
    hide Square, WelfordStats.Variance;
    var v := stats.Variance();
    assert Square(root(v)) == v;
    SquareVanishes(root(v));
    ScoreSquared(value - stats.mean, root(v), v, k, total);
  }

  lemma ScoreSquared(d: real, s: real, v: real, k: real, total: real)
    requires s > 0.0 && k > 0.0 && Square(s) == v && v > 0.0 && v * k == total
    ensures Square(d / s) * total == Square(d) * k && total > 0.0
    ensures (d / s > 0.0 <==> d > 0.0) && (d / s == 0.0 <==> d == 0.0)
  {
    hide Square;
    var q := d / s;
    Quotient(d, s);
    SquareProduct(d, q, s);
    FactorSign(q, s);
    FactorSign(v, k);
    Regrouped(Square(q), v, k);
  }

  lemma Regrouped(q: real, v: real, k: real)
    ensures (q * v) * k == q * (v * k)
  {
  }

  /** The comparison |z| > t without the score, a square root or a quotient. */
  lemma ZScoreExceeds(root: real -> real, values: seq<real>, value: real, t: real)
    requires IsRoot(root) && t >= 0.0 && |values| >= 2 && !AllEqual(values)
    ensures ZScore(root, Baseline(values), value).Some?
    ensures Abs(ZScore(root, Baseline(values), value).value) > t
            <==> Square(value - BatchMean(values)) * (|values| - 1) as real > Square(t) * Total(values, Deviation(BatchMean(values)))
  {
    hide Square, Abs, Total;
    ZScoreIsBatch(root, values, value);
    var z := ZScore(root, Baseline(values), value).value;
    AbsSquare(z, t);
    TimesPositive(Square(z), Square(t), Total(values, Deviation(BatchMean(values))));
  }

  /** 0.45 after 0.0 and 0.2 is no breach; it would be one if the variance were taken over two samples, not one. */
  lemma NoBreachYet(root: real -> real)
    requires IsRoot(root)
    ensures ZScore(root, Baseline([0.0, 0.2]), 0.45).Some? && Abs(ZScore(root, Baseline([0.0, 0.2]), 0.45).value) <= 3.0
  {
    var values := [0.0, 0.2];
    assert values[..1] == [0.0] && values[..1][..0] == [];
    assert Total(values[..1], Identity()) == 0.0;
    assert Total(values, Identity()) == 0.2 && BatchMean(values) == 0.1;
    assert Total(values[..1], Deviation(0.1)) == Square(-0.1) && Total(values, Deviation(0.1)) == Square(-0.1) + Square(0.1);
    assert values[0] != values[1];
    ZScoreExceeds(root, values, 0.45, 3.0);
  }
}

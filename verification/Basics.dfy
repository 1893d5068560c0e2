/** Small shared vocabulary: options, bounds, and sums over sequences. */
module Basics {
  datatype Option<+T> = None | Some(value: T)

  function Max(a: int, b: int): int {
    if a < b then b else a
  }

  function MinReal(a: real, b: real): real {
    if b < a then b else a
  }

  /** The sum of `weight` over the elements of `s`. */
  ghost function Sum<T>(s: seq<T>, weight: T -> int): int {
    if s == [] then 0 else Sum(s[..|s| - 1], weight) + weight(s[|s| - 1])
  }

  lemma SumAppend<T>(s: seq<T>, x: T, weight: T -> int)
    ensures Sum(s + [x], weight) == Sum(s, weight) + weight(x)
  {
    assert (s + [x])[..|s|] == s;
  }

  lemma {:induction false} SumConcat<T>(s: seq<T>, t: seq<T>, weight: T -> int)
    ensures Sum(s + t, weight) == Sum(s, weight) + Sum(t, weight)
  {
    if t == [] {
      assert s + t == s;
    } else {
      var front, last := t[..|t| - 1], t[|t| - 1];
      assert s + t == (s + front) + [last];
      SumConcat(s, front, weight);
      SumAppend(s + front, last, weight);
    }
  }

  lemma SumSplit<T>(s: seq<T>, k: nat, weight: T -> int)
    requires k < |s|
    ensures Sum(s, weight) == Sum(s[..k], weight) + weight(s[k]) + Sum(s[k + 1..], weight)
  {
    assert s == (s[..k] + [s[k]]) + s[k + 1..];
    SumConcat(s[..k] + [s[k]], s[k + 1..], weight);
    SumAppend(s[..k], s[k], weight);
  }

  lemma SumRemove<T>(s: seq<T>, k: nat, weight: T -> int)
    requires k < |s|
    ensures Sum(s[..k] + s[k + 1..], weight) == Sum(s, weight) - weight(s[k])
  {
    SumSplit(s, k, weight);
    SumConcat(s[..k], s[k + 1..], weight);
  }

  lemma SumUpdate<T>(s: seq<T>, k: nat, x: T, weight: T -> int)
    requires k < |s|
    ensures Sum(s[k := x], weight) == Sum(s, weight) - weight(s[k]) + weight(x)
  {
    var t := s[k := x];
    assert t[..k] == s[..k] && t[k + 1..] == s[k + 1..];
    SumSplit(s, k, weight);
    SumSplit(t, k, weight);
  }

  /** A sum of non-negative weights is at least each of them. */
  lemma SumAtLeast<T>(s: seq<T>, k: nat, weight: T -> int)
    requires k < |s|
    requires forall x :: x in s ==> weight(x) >= 0
    ensures Sum(s, weight) >= weight(s[k])
  {
    SumSplit(s, k, weight);
    SumNonNegative(s[..k], weight);
    SumNonNegative(s[k + 1..], weight);
  }

  lemma {:induction false} SumZero<T>(s: seq<T>, weight: T -> int)
    requires forall x :: x in s ==> weight(x) == 0
    ensures Sum(s, weight) == 0
  {
    if s != [] {
      assert s[|s| - 1] in s;
      SumZero(s[..|s| - 1], weight);
    }
  }

  lemma SumNonNegative<T>(s: seq<T>, weight: T -> int)
    requires forall x :: x in s ==> weight(x) >= 0
    ensures Sum(s, weight) >= 0
  {
    if s != [] {
      SumNonNegative(s[..|s| - 1], weight);
    }
  }

  // ----- products and quotients of reals -----

  lemma Quotient(d: real, n: real)
    requires n != 0.0
    ensures (d / n) * n == d
  {
  }

  lemma ZeroQuotient(d: real, n: real)
    requires n != 0.0
    ensures d / n == 0.0 <==> d == 0.0
  {
    Quotient(d, n);
  }

  lemma ZeroFactor(q: real, d: real)
    requires d != 0.0 && q * d == 0.0
    ensures q == 0.0
  {
  }

  lemma PositiveProduct(p: real, x: real, y: real)
    requires x > 0.0 && y > 0.0 && p == x * y
    ensures p > 0.0
  {
  }

  lemma NonNegativeProduct(p: real, x: real, y: real)
    requires x >= 0.0 && y >= 0.0 && p == x * y
    ensures p >= 0.0
  {
  }

  lemma FactorSign(q: real, d: real)
    requires d > 0.0
    ensures q * d > 0.0 <==> q > 0.0
    ensures q * d == 0.0 <==> q == 0.0
  {
    if q > 0.0 {
      PositiveProduct(q * d, q, d);
    } else if q < 0.0 {
      PositiveProduct(-(q * d), -q, d);
    }
  }
}

/** Powers of two, the bits of a number, and reading a bitstring as a number. */
module Binary {
  function Pow2(n: nat): (p: nat)
    ensures p > 0
  {
    if n == 0 then 1 else 2 * Pow2(n - 1)
  }

  /** `v` modulo `n`, by repeated addition or subtraction of `n`. */
  function Mod(v: int, n: int): (m: int)
    requires n > 0
    ensures 0 <= m < n
    decreases if v < 0 then n - v else v
  {
    if v < 0 then Mod(v + n, n) else if v >= n then Mod(v - n, n) else v
  }

  lemma {:induction false} ModStepUp(v: int, n: int)
    requires n > 0
    ensures Mod(v + n, n) == Mod(v, n)
    decreases if v < 0 then -v else 0
  {
  }

  /** Reducing a summand first makes no difference. */
  lemma {:induction false} ModPlus(v: int, e: int, n: int)
    requires n > 0
    ensures Mod(Mod(v, n) + e, n) == Mod(v + e, n)
    decreases if v < 0 then n - v else v
  {
    if v < 0 {
      ModPlus(v + n, e, n);
      ModStepUp(v + e, n);
    } else if v >= n {
      ModPlus(v - n, e, n);
      ModStepUp(v - n + e, n);
    }
  }

  lemma {:induction false} ModIsRemainder(v: nat, n: nat)
    requires n > 0
    ensures Mod(v, n) == v % n
    decreases v
  {
    if v >= n {
      ModIsRemainder(v - n, n);
      RemainderMinus(v, n);
    }
  }

  lemma RemainderMinus(v: int, n: int)
    requires n > 0
    ensures (v - n) % n == v % n
  {
    var q := v / n;
    assert v - n == n * (q - 1) + v % n by {
      assert n * (q - 1) == n * q - n;
    }
    ModUnique(v - n, n, q - 1, v % n);
  }

  function Bit(x: nat, i: nat): bool {
    x / Pow2(i) % 2 == 1
  }

  function Bits(x: nat, n: nat): (b: seq<bool>)
    ensures |b| == n
  {
    seq(n, i requires 0 <= i => Bit(x, i))
  }

  /** The number whose bit `i` is `b[i]`. */
  function Value(b: seq<bool>): nat {
    if b == [] then 0 else Value(b[..|b| - 1]) + if b[|b| - 1] then Pow2(|b| - 1) else 0
  }

  lemma {:induction false} Pow2Add(a: nat, b: nat)
    ensures Pow2(a + b) == Pow2(a) * Pow2(b)
  {
    if a > 0 {
      Pow2Add(a - 1, b);
      assert Pow2(a) * Pow2(b) == 2 * (Pow2(a - 1) * Pow2(b));
    }
  }

  /** Adding the next bit to a remainder. */
  lemma ModStep(x: nat, m: nat)
    ensures x % Pow2(m + 1) == x % Pow2(m) + if Bit(x, m) then Pow2(m) else 0
  {
    var p := Pow2(m);
    var q, r := x / p, x % p;
    assert x == p * q + r;
    var h, b := q / 2, q % 2;
    assert q == 2 * h + b;
    assert p * q == (2 * p) * h + p * b by { MulParts(p, h, b); }
    assert x == (2 * p) * h + (p * b + r);
    assert 0 <= p * b + r < 2 * p;
    ModUnique(x, 2 * p, h, p * b + r);
  }

  lemma MulParts(p: int, h: int, b: int)
    ensures p * (2 * h + b) == (2 * p) * h + p * b
  {
  }

  lemma MulScaled(x: int, p: int, d: int, q: int, r: int)
    requires x == d * q + r
    ensures x * p == (p * d) * q + p * r
  {
    calc {
      x * p;
      (d * q + r) * p;
      (d * q) * p + r * p;
      (p * d) * q + p * r;
    }
  }

  lemma MulRange(d: int, k: int)
    requires d > 0
    ensures k > 0 ==> d * k >= d
    ensures k < 0 ==> d * k <= -d
  {
    if k > 0 {
      assert d * (k - 1) >= 0;
    } else if k < 0 {
      assert d * (-k - 1) >= 0;
    }
  }

  lemma ModUnique(x: int, d: int, q: int, r: int)
    requires d > 0 && x == d * q + r && 0 <= r < d
    ensures x % d == r && x / d == q
  {
    var k := x / d - q;
    assert d * k == r - x % d by {
      assert d * k == d * (x / d) - d * q;
    }
    MulRange(d, k);
  }

  lemma {:induction false} ModMultiple(n: nat, k: nat, r: nat)
    requires r < n
    ensures Mod(n * k + r, n) == r
  {
    if k > 0 {
      assert n * k == n * (k - 1) + n;
      ModMultiple(n, k - 1, r);
      ModStepUp(n * (k - 1) + r, n);
    }
  }

  lemma ScaledModulo(x: nat, p: nat, d: nat, q: nat, r: nat)
    requires p > 0 && x == d * q + r && r < d
    ensures p * d > 0 && Mod(x * p, p * d) == p * r
  {
    MulScaled(x, p, d, q, r);
    ScaledRange(p, d, r);
    ModMultiple(p * d, q, p * r);
  }

  lemma ScaledRemainder(x: nat, p: nat, d: nat)
    requires p > 0 && d > 0
    ensures p * d > 0 && Mod(x * p, p * d) == p * (x % d)
  {
    ScaledModulo(x, p, d, x / d, x % d);
  }

  lemma ModScale(x: nat, j: nat, t: nat)
    requires j <= t
    ensures Pow2(j) * (x % Pow2(t - j)) == Mod(x * Pow2(j), Pow2(t))
  {
    Pow2Add(j, t - j);
    ScaledRemainder(x, Pow2(j), Pow2(t - j));
  }

  lemma ScaledRange(p: int, d: int, r: int)
    requires p > 0 && 0 <= r < d
    ensures 0 <= p * r < p * d
  {
    MulRange(p, d - r);
    assert p * (d - r) == p * d - p * r;
  }

  lemma BitsValue(x: nat, n: nat)
    requires x < Pow2(n)
    ensures Value(Bits(x, n)) == x
  {
    BitsModulo(x, n);
    ModUnique(x, Pow2(n), 0, x);
  }

  lemma {:induction false} BitsModulo(x: nat, n: nat)
    ensures Value(Bits(x, n)) == x % Pow2(n)
  {
    if n > 0 {
      BitsModulo(x, n - 1);
      ModStep(x, n - 1);
      assert Bits(x, n)[..n - 1] == Bits(x, n - 1);
    }
  }

  /** The measured string: leftmost character is the highest-index bit. */
  function BitString(b: seq<bool>): (s: string)
    ensures |s| == |b|
  {
    if b == [] then "" else [if b[|b| - 1] then '1' else '0'] + BitString(b[..|b| - 1])
  }

  /** `int(s, 2)`, digit by digit from the left. */
  function ParseBinary(s: string): nat {
    if s == "" then 0 else 2 * ParseBinary(s[..|s| - 1]) + if s[|s| - 1] == '1' then 1 else 0
  }

  lemma {:induction false} ParseLeading(s: string)
    requires s != ""
    ensures ParseBinary(s) == (if s[0] == '1' then Pow2(|s| - 1) else 0) + ParseBinary(s[1..])
  {
    var n := |s| - 1;
    if n > 0 {
      ParseLeading(s[..n]);
      assert s[..n][1..] == s[1..][..n - 1];
    } else {
      assert s[..0] == "" && s[1..] == "";
      assert Pow2(0) == 1;
    }
  }

  /** Reading back a measured bitstring gives the number it stands for. */
  lemma {:induction false} ParseBitString(b: seq<bool>)
    ensures ParseBinary(BitString(b)) == Value(b)
  {
    if b != [] {
      var s := BitString(b);
      ParseBitString(b[..|b| - 1]);
      ParseLeading(s);
      assert s[1..] == BitString(b[..|b| - 1]);
    }
  }
}

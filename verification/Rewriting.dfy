/**
 Rewriting of gate lists with four local rules: a gate next to its inverse cancels, controlled
 phases commute, gates on disjoint qubits commute, and a controlled phase is symmetric.
 The index `h` counts cancelled pairs of Hadamards.
 */
module Rewriting {
  import opened Circuits

  predicate Cancels(g: Gate, g': Gate) {
    match (g, g')
    case (H(q), H(q')) => q == q'
    case (Swap(a, b), Swap(a', b')) => a == a' && b == b'
    case (CPhase(s, d, c, t), CPhase(s', d', c', t')) => s != s' && d == d' && c == c' && t == t'
    case _ => false
  }

  predicate Commutes(g: Gate, g': Gate) {
    match (g, g')
    case (CPhase(_, _, _, _), CPhase(_, _, _, _)) => true
    case (H(q), H(q')) => q != q'
    case (H(q), CPhase(_, _, c, t)) => q != c && q != t
    case (CPhase(_, _, c, t), H(q)) => q != c && q != t
    case (Swap(a, b), Swap(a', b')) => a != a' && a != b' && b != a' && b != b'
    case _ => false
  }

  /** `l` may be replaced by `r`, cancelling `h` pairs of Hadamards. */
  predicate Rule(l: seq<Gate>, r: seq<Gate>, h: nat) {
    || (|l| == 2 && r == [] && Cancels(l[0], l[1]) && h == if l[0].H? then 1 else 0)
    || (|l| == 2 && r == [l[1], l[0]] && Commutes(l[0], l[1]) && h == 0)
    || (|l| == 1 && l[0].CPhase? && r == [CPhase(l[0].negative, l[0].d, l[0].target, l[0].control)] && h == 0)
  }

  /** One rule applied between `p` and `q`. */
  ghost predicate Step(u: seq<Gate>, v: seq<Gate>, h: nat) {
    exists p, l, r, q :: StepAt(u, v, h, p, l, r, q)
  }

  predicate StepAt(u: seq<Gate>, v: seq<Gate>, h: nat, p: seq<Gate>, l: seq<Gate>, r: seq<Gate>, q: seq<Gate>) {
    u == p + l + q && v == p + r + q && Rule(l, r, h)
  }

  ghost predicate RewritesIn(u: seq<Gate>, v: seq<Gate>, h: nat, steps: nat)
    decreases steps
  {
    if steps == 0 then u == v && h == 0
    else exists w, h1: nat :: h1 <= h && Step(u, w, h1) && RewritesIn(w, v, h - h1, steps - 1)
  }

  ghost predicate Rewrites(u: seq<Gate>, v: seq<Gate>, h: nat) {
    exists steps: nat :: RewritesIn(u, v, h, steps)
  }

  lemma Done(u: seq<Gate>)
    ensures Rewrites(u, u, 0)
  {
    assert RewritesIn(u, u, 0, 0);
  }

  lemma Once(l: seq<Gate>, r: seq<Gate>, h: nat)
    requires Rule(l, r, h)
    ensures Rewrites(l, r, h)
  {
    assert l == [] + l + [] && r == [] + r + [];
    assert StepAt(l, r, h, [], l, r, []);
    assert Step(l, r, h) && RewritesIn(r, r, h - h, 0);
    assert RewritesIn(l, r, h, 1);
  }

  lemma {:induction false} ThenIn(u: seq<Gate>, v: seq<Gate>, w: seq<Gate>, h: nat, k: nat, m: nat, n: nat)
    requires RewritesIn(u, v, h, m) && RewritesIn(v, w, k, n)
    ensures RewritesIn(u, w, h + k, m + n)
    decreases m
  {
    if m > 0 {
      var x, h1: nat :| h1 <= h && Step(u, x, h1) && RewritesIn(x, v, h - h1, m - 1);
      hide Step;
      ThenIn(x, v, w, h - h1, k, m - 1, n);
      assert RewritesIn(x, w, h + k - h1, m + n - 1);
    }
  }

  lemma Then(u: seq<Gate>, v: seq<Gate>, w: seq<Gate>, h: nat, k: nat)
    requires Rewrites(u, v, h) && Rewrites(v, w, k)
    ensures Rewrites(u, w, h + k)
  {
    var m: nat :| RewritesIn(u, v, h, m);
    var n: nat :| RewritesIn(v, w, k, n);
    ThenIn(u, v, w, h, k, m, n);
  }

  lemma StepWithin(a: seq<Gate>, u: seq<Gate>, v: seq<Gate>, z: seq<Gate>, h: nat)
    requires Step(u, v, h)
    ensures Step(a + u + z, a + v + z, h)
  {
    var p, l, r, q :| StepAt(u, v, h, p, l, r, q);
    assert a + u + z == (a + p) + l + (q + z);
    assert a + v + z == (a + p) + r + (q + z);
    assert StepAt(a + u + z, a + v + z, h, a + p, l, r, q + z);
  }

  lemma {:induction false} WithinIn(a: seq<Gate>, u: seq<Gate>, v: seq<Gate>, z: seq<Gate>, h: nat, n: nat)
    requires RewritesIn(u, v, h, n)
    ensures RewritesIn(a + u + z, a + v + z, h, n)
    decreases n
  {
    if n > 0 {
      var x, h1: nat :| h1 <= h && Step(u, x, h1) && RewritesIn(x, v, h - h1, n - 1);
      StepWithin(a, u, x, z, h1);
      WithinIn(a, x, v, z, h - h1, n - 1);
    }
  }

  /** Rewriting inside a longer list. */
  lemma Within(a: seq<Gate>, u: seq<Gate>, v: seq<Gate>, z: seq<Gate>, h: nat)
    requires Rewrites(u, v, h)
    ensures Rewrites(a + u + z, a + v + z, h)
  {
    var n: nat :| RewritesIn(u, v, h, n);
    WithinIn(a, u, v, z, h, n);
  }

  ghost predicate AllCommute(u: seq<Gate>, g: Gate) {
    forall x :: x in u ==> Commutes(x, g)
  }

  /** A gate moves left over a list it commutes with. */
  lemma {:induction false} MoveLeft(u: seq<Gate>, g: Gate)
    requires AllCommute(u, g)
    ensures Rewrites(u + [g], [g] + u, 0)
  {
    if u == [] {
      assert u + [g] == [g] + u;
      Done([g] + u);
    } else {
      var k := |u| - 1;
      var front, last := u[..k], u[k];
      assert last in u;
      Once([last, g], [g, last], 0);
      Within(front, [last, g], [g, last], [], 0);
      assert front + [last, g] + [] == u + [g];
      MoveLeft(front, g);
      Within([], front + [g], [g] + front, [last], 0);
      assert front + [g, last] + [] == [] + (front + [g]) + [last];
      assert [] + ([g] + front) + [last] == [g] + u;
      Then(u + [g], front + [g, last] + [], [g] + u, 0, 0);
    }
  }

  /** A list moves left over a list it commutes with. */
  lemma {:induction false} MoveAllLeft(u: seq<Gate>, gs: seq<Gate>)
    requires forall g :: g in gs ==> AllCommute(u, g)
    ensures Rewrites(u + gs, gs + u, 0)
  {
    if gs == [] {
      assert u + gs == gs + u;
      Done(gs + u);
    } else {
      var g, rest := gs[0], gs[1..];
      MoveLeft(u, g);
      Within([], u + [g], [g] + u, rest, 0);
      assert [] + (u + [g]) + rest == u + gs;
      MoveAllLeft(u, rest);
      Within([g], u + rest, rest + u, [], 0);
      assert [] + ([g] + u) + rest == [g] + (u + rest) + [];
      assert [g] + (rest + u) + [] == gs + u;
      Then(u + gs, [g] + (u + rest) + [], gs + u, 0, 0);
    }
  }
}

/** Rewriting preserves the meaning of a circuit on every amplitude vector. */
module RewritingSound {
  import opened Circuits
  import opened Rewriting
  import opened LinearStates
  import opened Qft
  import opened QftInverse

  /** The gate acts on distinct qubits below `n`, and is one the rules speak of. */
  predicate Fits(g: Gate, n: nat) {
    match g
    case H(q) => q < n
    case Swap(i, j) => i < n && j < n
    case CPhase(_, _, c, t) => c < n && t < n && c != t
    case _ => false
  }

  predicate AllFit(gates: seq<Gate>, n: nat) {
    forall g :: g in gates ==> Fits(g, n)
  }

  lemma Pair<V>(k: Scalars<V>, g: Gate, g': Gate, a: Vector<V>)
    requires !g.ControlledU? && !g'.ControlledU?
    ensures Run(k, [g, g'], a) == Apply(k, g', Apply(k, g, a))
    ensures Run(k, [g], a) == Apply(k, g, a)
  {
    RunAppend(k, [], g, a);
    RunAppend(k, [g], g', a);
    assert [] + [g] == [g] && [g] + [g'] == [g, g'];
  }

  lemma HadamardTwice<V(!new)>(k: Scalars<V>, q: nat, a: Vector<V>, n: nat)
    requires Laws(k) && q < n
    ensures Same(Hadamard(k, q, Hadamard(k, q, a)), Twice(k, a), n)
  {
    forall y | |y| == n ensures Hadamard(k, q, Hadamard(k, q, a))(y) == Twice(k, a)(y) {
      var y0, y1 := y[q := false], y[q := true];
      SumDifference(k, a(y0), a(y1));
      assert y0[q := false] == y0 && y0[q := true] == y1 && y1[q := false] == y0 && y1[q := true] == y1;
      assert Hadamard(k, q, a)(y0) == k.add(a(y0), a(y1)) && Hadamard(k, q, a)(y1) == k.add(a(y0), k.neg(a(y1)));
      assert y == if y[q] then y1 else y0;
    }
  }

  lemma CancelSound<V(!new)>(k: Scalars<V>, g: Gate, g': Gate, a: Vector<V>, n: nat)
    requires Laws(k) && Cancels(g, g') && Fits(g, n)
    ensures Same(Apply(k, g', Apply(k, g, a)), if g.H? then Twice(k, a) else a, n)
  {
    if g.H? {
      HadamardTwice(k, g.q, a, n);
    } else if g.Swap? {
      forall y | |y| == n ensures Apply(k, g', Apply(k, g, a))(y) == a(y) {
        assert Exchange(Exchange(y, g.a, g.b), g.a, g.b) == y;
      }
    } else {
      forall y | |y| == n ensures Apply(k, g', Apply(k, g, a))(y) == a(y) {
        assert TurnsBack(k, a(y), g.negative, g.d);
      }
    }
  }

  lemma HadamardsCommute<V(!new)>(k: Scalars<V>, p: nat, q: nat, a: Vector<V>, n: nat)
    requires Laws(k) && p < n && q < n && p != q
    ensures Same(Hadamard(k, p, Hadamard(k, q, a)), Hadamard(k, q, Hadamard(k, p, a)), n)
  {
    forall y | |y| == n ensures Hadamard(k, p, Hadamard(k, q, a))(y) == Hadamard(k, q, Hadamard(k, p, a))(y) {
      var a00, a01 := a(y[p := false][q := false]), a(y[p := false][q := true]);
      var a10, a11 := a(y[p := true][q := false]), a(y[p := true][q := true]);
      assert y[p := false][q := false] == y[q := false][p := false] && y[p := false][q := true] == y[q := true][p := false];
      assert y[p := true][q := false] == y[q := false][p := true] && y[p := true][q := true] == y[q := true][p := true];
      var s01 := if y[q] then k.neg(a01) else a01;
      var s10 := if y[p] then k.neg(a10) else a10;
      var s11 := if y[p] == y[q] then a11 else k.neg(a11);
      assert Negates(k, a01, k.neg(a11)) && Negates(k, a10, k.neg(a11)) && Negates(k, a11, a11);
      assert Negates(k, a01, a11) && Negates(k, a10, a11);
      assert Hadamard(k, p, Hadamard(k, q, a))(y) == k.add(k.add(a00, s01), k.add(s10, s11));
      assert Hadamard(k, q, Hadamard(k, p, a))(y) == k.add(k.add(a00, s10), k.add(s01, s11));
      Shuffle(k, a00, s01, s10, s11);
    }
  }

  lemma HadamardPhaseCommute<V(!new)>(k: Scalars<V>, q: nat, g: Gate, a: Vector<V>, n: nat)
    requires Laws(k) && q < n && g.CPhase? && Fits(g, n) && q != g.control && q != g.target
    ensures Same(Apply(k, g, Hadamard(k, q, a)), Hadamard(k, q, Apply(k, g, a)), n)
  {
    forall y | |y| == n ensures Apply(k, g, Hadamard(k, q, a))(y) == Hadamard(k, q, Apply(k, g, a))(y) {
      var y0, y1 := y[q := false], y[q := true];
      assert y0[g.control] == y[g.control] && y0[g.target] == y[g.target];
      assert y1[g.control] == y[g.control] && y1[g.target] == y[g.target];
      assert TurnsSums(k, a(y0), a(y1), g.negative, g.d) && TurnsSums(k, a(y0), k.neg(a(y1)), g.negative, g.d);
    }
  }

  lemma SwapsCommute<V(!new)>(k: Scalars<V>, g: Gate, g': Gate, a: Vector<V>, n: nat)
    requires g.Swap? && g'.Swap? && Commutes(g, g') && Fits(g, n) && Fits(g', n)
    ensures Same(Apply(k, g', Apply(k, g, a)), Apply(k, g, Apply(k, g', a)), n)
  {
    forall y | |y| == n ensures Apply(k, g', Apply(k, g, a))(y) == Apply(k, g, Apply(k, g', a))(y) {
      assert Exchange(Exchange(y, g.a, g.b), g'.a, g'.b) == Exchange(Exchange(y, g'.a, g'.b), g.a, g.b);
    }
  }

  lemma CommuteSound<V(!new)>(k: Scalars<V>, g: Gate, g': Gate, a: Vector<V>, n: nat)
    requires Laws(k) && Commutes(g, g') && Fits(g, n) && Fits(g', n)
    ensures Same(Apply(k, g', Apply(k, g, a)), Apply(k, g, Apply(k, g', a)), n)
  {
    match (g, g')
    case (H(q), H(q')) => HadamardsCommute(k, q, q', a, n);
    case (H(q), CPhase(_, _, _, _)) => HadamardPhaseCommute(k, q, g', a, n);
    case (CPhase(_, _, _, _), H(q)) => HadamardPhaseCommute(k, q, g, a, n);
    case (Swap(_, _), Swap(_, _)) => SwapsCommute(k, g, g', a, n);
    case (CPhase(s, d, _, _), CPhase(s', d', _, _)) =>
      forall y | |y| == n ensures Apply(k, g', Apply(k, g, a))(y) == Apply(k, g, Apply(k, g', a))(y) {
        assert TurnsCommute(k, a(y), s, d, s', d');
      }
  }

  lemma RuleSound<V(!new)>(k: Scalars<V>, l: seq<Gate>, r: seq<Gate>, h: nat, a: Vector<V>, n: nat)
    requires Laws(k) && Rule(l, r, h) && AllFit(l, n)
    ensures AllFit(r, n)
    ensures Same(Run(k, l, a), Scaled(k, Run(k, r, a), h), n)
  {
    if |l| == 1 {
      assert l == [l[0]] && r == [r[0]] && Fits(r[0], n);
      Pair(k, l[0], l[0], a);
      Pair(k, r[0], r[0], a);
    } else {
      assert l == [l[0], l[1]] && l[0] in l && l[1] in l;
      Pair(k, l[0], l[1], a);
      if r == [] && Cancels(l[0], l[1]) {
        CancelSound(k, l[0], l[1], a, n);
        assert h == 1 ==> Scaled(k, a, h) == Twice(k, Scaled(k, a, 0));
      } else {
        Pair(k, l[1], l[0], a);
        CommuteSound(k, l[0], l[1], a, n);
      }
    }
  }

  lemma FitPlain(gates: seq<Gate>, n: nat)
    requires AllFit(gates, n)
    ensures Plain(gates)
  {
  }

  /** `u` does to `a` what `v` does, scaled by 2^h. */
  ghost predicate Scales<V(!new)>(k: Scalars<V>, u: seq<Gate>, v: seq<Gate>, h: nat, a: Vector<V>, n: nat) {
    AllFit(u, n) && AllFit(v, n) && Same(Run(k, u, a), Scaled(k, Run(k, v, a), h), n)
  }

  lemma StepSound<V(!new)>(k: Scalars<V>, u: seq<Gate>, v: seq<Gate>, h: nat, a: Vector<V>, n: nat)
    requires Laws(k) && Step(u, v, h) && AllFit(u, n)
    ensures Scales(k, u, v, h, a, n)
  {
    hide Laws;
    var p, l, r, q :| StepAt(u, v, h, p, l, r, q);
    assert (forall g :: g in p ==> g in u) && (forall g :: g in l ==> g in u) && (forall g :: g in q ==> g in u);
    FitPlain(p, n);
    FitPlain(l, n);
    FitPlain(q, n);
    var b := Run(k, p, a);
    RuleSound(k, l, r, h, b, n);
    FitPlain(r, n);
    RunConcat(k, p, l, a);
    RunConcat(k, p + l, q, a);
    RunConcat(k, p, r, a);
    RunConcat(k, p + r, q, a);
    RunSame(k, q, Run(k, l, b), Scaled(k, Run(k, r, b), h), n);
    RunScaled(k, q, Run(k, r, b), h, n);
  }

  lemma ScalesNothing<V(!new)>(k: Scalars<V>, u: seq<Gate>, a: Vector<V>, n: nat)
    requires AllFit(u, n)
    ensures Scales(k, u, u, 0, a, n)
  {
  }

  lemma ScalesJoin<V(!new)>(k: Scalars<V>, u: seq<Gate>, w: seq<Gate>, v: seq<Gate>, h: nat, m: nat, a: Vector<V>, n: nat)
    requires Scales(k, u, w, h, a, n) && Scales(k, w, v, m, a, n)
    ensures Scales(k, u, v, h + m, a, n)
  {
    hide Run;
    ScaledSame(k, Run(k, w, a), Scaled(k, Run(k, v, a), m), h, n);
    ScaledPlus(k, Run(k, v, a), m, h, n);
    forall y | |y| == n ensures Run(k, u, a)(y) == Scaled(k, Run(k, v, a), h + m)(y) {
      assert Scaled(k, Run(k, w, a), h)(y) == Scaled(k, Scaled(k, Run(k, v, a), m), h)(y);
    }
  }

  lemma {:induction false} RewritesInSound<V(!new)>(k: Scalars<V>, u: seq<Gate>, v: seq<Gate>, h: nat, steps: nat,
                                                    a: Vector<V>, n: nat)
    requires Laws(k) && RewritesIn(u, v, h, steps) && AllFit(u, n)
    ensures Scales(k, u, v, h, a, n)
    decreases steps
  {
    hide Laws, Run, Scaled, Step;
    if steps == 0 {
      ScalesNothing(k, u, a, n);
    } else {
      var w, h1: nat :| h1 <= h && Step(u, w, h1) && RewritesIn(w, v, h - h1, steps - 1);
      StepSound(k, u, w, h1, a, n);
      RewritesInSound(k, w, v, h - h1, steps - 1, a, n);
      ScalesJoin(k, u, w, v, h1, h - h1, a, n);
    }
  }

  /** Rewriting with `h` cancelled Hadamard pairs multiplies every amplitude of every state by 2^h. */
  lemma RewritesSound<V(!new)>(k: Scalars<V>, u: seq<Gate>, v: seq<Gate>, h: nat, a: Vector<V>, n: nat)
    requires Laws(k) && Rewrites(u, v, h) && AllFit(u, n)
    ensures AllFit(v, n)
    ensures Same(Run(k, u, a), Scaled(k, Run(k, v, a), h), n)
  {
    var steps: nat :| RewritesIn(u, v, h, steps);
    RewritesInSound(k, u, v, h, steps, a, n);
  }

  lemma FitConcat(u: seq<Gate>, v: seq<Gate>, n: nat)
    requires AllFit(u, n) && AllFit(v, n)
    ensures AllFit(u + v, n)
  {
  }

  lemma {:induction false} ForwardBlocksFit(m: nat, t: nat)
    requires m <= t
    ensures AllFit(ForwardBlocks(m, t), t)
  {
    if m > 0 {
      ForwardBlocksFit(m - 1, t);
      PhasesUpFit(m - 1, t, t);
      FitConcat([H(m - 1)], PhasesUp(m - 1, t), t);
      FitConcat(ForwardBlocks(m - 1, t), ForwardBlock(m - 1, t), t);
    }
  }

  lemma {:induction false} PhasesUpFit(j: nat, k: nat, t: nat)
    requires j < t && k <= t
    ensures AllFit(PhasesUp(j, k), t)
  {
    if k > j + 1 {
      PhasesUpFit(j, k - 1, t);
    }
  }

  lemma {:induction false} PhasesDownFit(j: nat, k: nat, t: nat)
    requires j < t
    ensures AllFit(PhasesDown(j, k), t)
    decreases j - k
  {
    if k < j {
      PhasesDownFit(j, k + 1, t);
    }
  }

  lemma {:induction false} InverseBlocksFit(t: nat, m: nat)
    ensures AllFit(InverseBlocks(t, m), t)
    decreases t - m
  {
    if m < t {
      InverseBlocksFit(t, m + 1);
      PhasesDownFit(m, 0, t);
      FitConcat([H(m)], PhasesDown(m, 0), t);
      FitConcat(InverseBlocks(t, m + 1), InverseBlock(m), t);
    }
  }

  /** Forward then inverse is the identity on every state of t qubits: with t unnormalised Hadamards on
      each side, every amplitude comes back multiplied by 2^t. */
  lemma InverseIsInverse<V(!new)>(k: Scalars<V>, t: nat, a: Vector<V>, y: seq<bool>)
    requires Laws(k) && |y| == t
    ensures Plain(Forward(t) + Inverse(t))
    ensures Run(k, Forward(t) + Inverse(t), a)(y) == Scaled(k, a, t)(y)
  {
    SwapsGates(t, t / 2);
    ForwardBlocksFit(t, t);
    InverseBlocksFit(t, 0);
    InverseUndoesForward(t);
    assert AllFit(Forward(t) + Inverse(t), t);
    RewritesSound(k, Forward(t) + Inverse(t), [], t, a, t);
  }
}

/** Measurement histograms: how many shots fell on the outcomes a predicate selects. */
module Histograms {
  type Histogram = map<string, int>

  /** The shots on the outcomes that `pick` selects. */
  ghost function Shots(h: Histogram, pick: string -> bool): int {
    if h == map[] then 0
    else
      var k :| k in h;
      (if pick(k) then h[k] else 0) + Shots(h - {k}, pick)
  }

  function Everything(): string -> bool { (k: string) => true }

  ghost function TotalShots(h: Histogram): int {
    Shots(h, Everything())
  }

  /** Any outcome can be counted first. */
  lemma {:induction false} ShotsRemove(h: Histogram, k: string, pick: string -> bool)
    requires k in h
    ensures Shots(h, pick) == (if pick(k) then h[k] else 0) + Shots(h - {k}, pick)
    decreases |h|
  {
    var j :| j in h && Shots(h, pick) == (if pick(j) then h[j] else 0) + Shots(h - {j}, pick);
    if j != k {
      ShotsRemove(h - {j}, k, pick);
      ShotsRemove(h - {k}, j, pick);
      assert (h - {j}) - {k} == (h - {k}) - {j};
    }
  }

  lemma ShotsSet(h: Histogram, k: string, v: int, pick: string -> bool)
    ensures Shots(h[k := v], pick) == Shots(h - {k}, pick) + if pick(k) then v else 0
  {
    ShotsRemove(h[k := v], k, pick);
    assert h[k := v] - {k} == h - {k};
  }

  lemma ShotsAdd(h: Histogram, k: string, v: int, pick: string -> bool)
    requires k !in h
    ensures Shots(h[k := v], pick) == Shots(h, pick) + if pick(k) then v else 0
  {
    ShotsSet(h, k, v, pick);
    assert h - {k} == h;
  }

  lemma ShotsUpdate(h: Histogram, k: string, v: int, pick: string -> bool)
    requires k in h
    ensures Shots(h[k := v], pick) == Shots(h, pick) + if pick(k) then v - h[k] else 0
  {
    ShotsSet(h, k, v, pick);
    ShotsRemove(h, k, pick);
  }

  predicate NonNegative(h: Histogram) {
    forall k :: k in h ==> h[k] >= 0
  }

  lemma {:induction false} ShotsNonNegative(h: Histogram, pick: string -> bool)
    requires NonNegative(h)
    ensures Shots(h, pick) >= 0
    decreases |h|
  {
    if h != map[] {
      var k :| k in h;
      ShotsRemove(h, k, pick);
      ShotsNonNegative(h - {k}, pick);
    }
  }

  /** The selected and the unselected shots make up the whole. */
  lemma {:induction false} ShotsSplit(h: Histogram, pick: string -> bool, rest: string -> bool)
    requires forall k :: rest(k) == !pick(k)
    ensures Shots(h, pick) + Shots(h, rest) == TotalShots(h)
    decreases |h|
  {
    if h != map[] {
      var k :| k in h;
      ShotsRemove(h, k, pick);
      ShotsRemove(h, k, rest);
      ShotsRemove(h, k, Everything());
      ShotsSplit(h - {k}, pick, rest);
    }
  }

  /** `counts.get(k, 0)` */
  function Get(h: Histogram, k: string): int {
    if k in h then h[k] else 0
  }

  /** Writing one entry, present before or not. */
  lemma ShotsPut(h: Histogram, k: string, v: int, pick: string -> bool)
    ensures Shots(h[k := v], pick) == Shots(h, pick) + if pick(k) then v - Get(h, k) else 0
  {
    if k in h {
      ShotsUpdate(h, k, v, pick);
    } else {
      ShotsAdd(h, k, v, pick);
    }
  }

  /** `sum(counts.values())` */
  method SumValues(h: Histogram) returns (total: int)
    ensures total == TotalShots(h)
  {
    var rest := h;
    total := 0;
    while rest != map[]
      invariant total + TotalShots(rest) == TotalShots(h)
      decreases |rest|
    {
      var k :| k in rest;
      ShotsRemove(rest, k, Everything());
      total := total + rest[k];
      rest := rest - {k};
    }
  }

  // ----- two-qubit histograms -----

  predicate IsOutcome(k: string) {
    k == "00" || k == "01" || k == "10" || k == "11"
  }

  predicate TwoBit(h: Histogram) {
    forall k :: k in h ==> IsOutcome(k)
  }

  /** The shots of a two-qubit histogram, outcome by outcome. */
  lemma TwoBitShots(h: Histogram, pick: string -> bool)
    requires TwoBit(h)
    ensures Shots(h, pick) == (if pick("00") then Get(h, "00") else 0) + (if pick("01") then Get(h, "01") else 0)
                            + (if pick("10") then Get(h, "10") else 0) + (if pick("11") then Get(h, "11") else 0)
  {
    hide Shots;
    var h1 := h - {"00"};
    var h2 := h1 - {"01"};
    var h3 := h2 - {"10"};
    var h4 := h3 - {"11"};
    TakeOut(h, "00", pick);
    TakeOut(h1, "01", pick);
    TakeOut(h2, "10", pick);
    TakeOut(h3, "11", pick);
    assert h4 == map[];
    ShotsNothing(pick);
  }

  lemma ShotsNothing(pick: string -> bool)
    ensures Shots(map[], pick) == 0
  {
  }

  lemma TakeOut(h: Histogram, k: string, pick: string -> bool)
    ensures Shots(h, pick) == (if pick(k) then Get(h, k) else 0) + Shots(h - {k}, pick)
  {
    if k in h {
      ShotsRemove(h, k, pick);
    } else {
      assert h - {k} == h;
    }
  }
}

/** The calibration probe: demo parity errors, the error rate, and the loop that triggers restart. */
module Calibration {
  import opened Basics
  import opened Histograms

  // ----- Python's round -----

  /** To the nearest integer, ties to the even one. */
  function Round(x: real): int {
    var below := x.Floor;
    var rest := x - below as real;
    if rest < 0.5 then below
    else if rest > 0.5 then below + 1
    else if below % 2 == 0 then below
    else below + 1
  }

  lemma RoundNearest(x: real)
    ensures -0.5 <= Round(x) as real - x <= 0.5
  {
  }

  /** Nearest, and the even one of two. */
  predicate IsRounded(n: int, x: real) {
    -0.5 <= n as real - x <= 0.5 && (n as real - x == 0.5 || n as real - x == -0.5 ==> n % 2 == 0)
  }

  lemma RoundIsEven(x: real, n: int)
    ensures n == Round(x) <==> IsRounded(n, x)
  {
    var below := x.Floor;
    assert IsRounded(Round(x), x);
    if IsRounded(n, x) {
      assert n == below || n == below + 1;
    }
  }

  /** `int(round(total * rate))` */
  function Target(total: int, rate: real): int {
    Round(total as real * rate)
  }

  /** Rounding a share of a whole stays within the whole. */
  lemma RoundShare(total: int, rate: real)
    requires total >= 0 && 0.0 <= rate <= 1.0
    ensures 0 <= Target(total, rate) <= total
  {
    var x := total as real * rate;
    assert 0.0 <= x <= total as real by {
      assert total as real * (1.0 - rate) >= 0.0;
    }
    RoundWithin(x, total);
  }

  lemma RoundWithin(x: real, total: int)
    requires 0.0 <= x <= total as real
    ensures 0 <= Round(x) <= total
  {
    RoundNearest(x);
  }

  // ----- demo parity errors -----

  datatype Injection = Adjusted(counts: Histogram) | ValueError(message: string)

  const MOVES := [("00", "01"), ("11", "10")]

  function OddParity(h: Histogram): int {
    Get(h, "01") + Get(h, "10")
  }

  function EvenParity(h: Histogram): int {
    Get(h, "00") + Get(h, "11")
  }

  function Min(a: int, b: int): int {
    if b < a then b else a
  }

  lemma OutcomesDiffer()
    ensures "00" != "01" && "00" != "10" && "00" != "11" && "01" != "10" && "01" != "11" && "10" != "11"
    ensures IsOutcome("00") && IsOutcome("01") && IsOutcome("10") && IsOutcome("11")
  {
    assert "00"[1] != "01"[1] && "00"[0] != "10"[0] && "01"[0] != "10"[0] && "01"[0] != "11"[0] && "10"[1] != "11"[1];
  }

  /** One pass of the loop: shots go from an even outcome to an odd one, at most `remaining` of them. */
  method Move(counts: Histogram, source: string, destination: string, remaining: int)
    returns (adjusted: Histogram, moved: int)
    requires source != destination
    ensures moved == Min(Get(counts, source), remaining)
    ensures TotalShots(adjusted) == TotalShots(counts)
    ensures adjusted.Keys == counts.Keys + {source, destination}
    ensures Get(adjusted, source) == Get(counts, source) - moved
    ensures Get(adjusted, destination) == Get(counts, destination) + moved
    ensures forall k :: k != source && k != destination ==> Get(adjusted, k) == Get(counts, k)
    ensures NonNegative(counts) && remaining >= 0 ==> NonNegative(adjusted)
  {
    hide Shots;
    adjusted, moved := counts, Min(Get(counts, source), remaining);
    ShotsPut(adjusted, source, Get(adjusted, source) - moved, Everything());
    adjusted := adjusted[source := Get(adjusted, source) - moved];
    ShotsPut(adjusted, destination, Get(adjusted, destination) + moved, Everything());
    adjusted := adjusted[destination := Get(adjusted, destination) + moved];
  }

  /** The loop over the two pairs of outcomes. */
  method MoveBoth(counts: Histogram, wanted: int) returns (adjusted: Histogram)
    requires wanted >= 0
    ensures TotalShots(adjusted) == TotalShots(counts)
    ensures forall k :: !IsOutcome(k) ==> Get(adjusted, k) == Get(counts, k)
    ensures forall k :: k in adjusted && k !in counts ==> IsOutcome(k)
    ensures var first := Min(Get(counts, "00"), wanted);
            var second := Min(Get(counts, "11"), wanted - first);
            && Get(adjusted, "00") == Get(counts, "00") - first && Get(adjusted, "01") == Get(counts, "01") + first
            && Get(adjusted, "11") == Get(counts, "11") - second && Get(adjusted, "10") == Get(counts, "10") + second
    ensures NonNegative(counts) ==>
              && NonNegative(adjusted)
              && OddParity(adjusted) == OddParity(counts) + Min(EvenParity(counts), wanted)
  {
    hide Shots, TotalShots, IsOutcome;
    OutcomesDiffer();
    adjusted := counts;
    var remaining := wanted;
    for i := 0 to |MOVES|
      invariant TotalShots(adjusted) == TotalShots(counts)
      invariant forall k :: !IsOutcome(k) ==> Get(adjusted, k) == Get(counts, k)
      invariant forall k :: k in adjusted && k !in counts ==> IsOutcome(k)
      invariant OddParity(adjusted) == OddParity(counts) + (wanted - remaining)
      invariant NonNegative(counts) ==> remaining >= 0 && NonNegative(adjusted)
      invariant i <= 1 ==> Get(adjusted, "11") == Get(counts, "11")
      invariant i == 0 ==> adjusted == counts && remaining == wanted
      invariant i == 0 ==> Get(adjusted, "00") == Get(counts, "00") && Get(adjusted, "01") == Get(counts, "01")
      invariant i <= 1 ==> Get(adjusted, "10") == Get(counts, "10")
      invariant i >= 1 ==> Get(adjusted, "00") == Get(counts, "00") - Min(Get(counts, "00"), wanted)
      invariant i >= 1 ==> Get(adjusted, "01") == Get(counts, "01") + Min(Get(counts, "00"), wanted)
      invariant i == 2 ==> Get(adjusted, "11")
                           == Get(counts, "11") - Min(Get(counts, "11"), wanted - Min(Get(counts, "00"), wanted))
      invariant i == 2 ==> Get(adjusted, "10")
                           == Get(counts, "10") + Min(Get(counts, "11"), wanted - Min(Get(counts, "00"), wanted))
      invariant i == 1 ==> remaining == wanted - Min(Get(counts, "00"), wanted)
      invariant i == 2 && NonNegative(counts) ==> remaining == wanted - Min(EvenParity(counts), wanted)
    {
      var (source, destination) := MOVES[i];
      var moved;
      adjusted, moved := Move(adjusted, source, destination, remaining);
      remaining := remaining - moved;
    }
  }

  /**
   Deterministic parity errors: every histogram keeps its total and its counts outside the four
   two-bit outcomes; the odd ones gain what is missing to the target, as far as the even ones can give it.
   */
  method InjectDemoParityErrors(counts: Histogram, requestedErrorRate: real)
    returns (result: Injection, ghost target: int)
    ensures result.ValueError? <==> !(0.0 <= requestedErrorRate <= 1.0)
    ensures result.Adjusted? ==>
              && TotalShots(result.counts) == TotalShots(counts)
              && (forall k :: !IsOutcome(k) ==> Get(result.counts, k) == Get(counts, k))
              && (TwoBit(counts) ==> TwoBit(result.counts))
    ensures result.Adjusted? && NonNegative(counts) ==>
              && NonNegative(result.counts)
              && OddParity(result.counts)
                 == OddParity(counts)
                    + Min(EvenParity(counts),
                          Max(0, Target(TotalShots(counts), requestedErrorRate) - OddParity(counts)))
    ensures result.Adjusted? ==>
              var wanted := Max(0, target - (Get(counts, "01") + Get(counts, "10")));
              var first := Min(Get(counts, "00"), wanted);
              var second := Min(Get(counts, "11"), wanted - first);
              && IsRounded(target, TotalShots(counts) as real * requestedErrorRate)
              && Get(result.counts, "00") == Get(counts, "00") - first
              && Get(result.counts, "01") == Get(counts, "01") + first
              && Get(result.counts, "11") == Get(counts, "11") - second
              && Get(result.counts, "10") == Get(counts, "10") + second
    ensures result.Adjusted? && NonNegative(counts) && TwoBit(counts) ==>
              OddParity(result.counts) == Max(OddParity(counts), Target(TotalShots(counts), requestedErrorRate))
  {
    hide Shots, TotalShots, IsOutcome, Target, Round, Get;
    if !(0.0 <= requestedErrorRate <= 1.0) {
      return ValueError("CALIBRATION_DEMO_ERROR_RATE must be between 0 and 1"), 0;
    }
    var adjusted := counts;
    var total := SumValues(adjusted);
    var rounded := Target(total, requestedErrorRate);
    target := Target(TotalShots(counts), requestedErrorRate);
    TargetRounded(TotalShots(counts), requestedErrorRate);
    var current := Get(adjusted, "01") + Get(adjusted, "10");
    adjusted := MoveBoth(adjusted, Max(0, rounded - current));
    if NonNegative(counts) && TwoBit(counts) {
      InjectionHitsTarget(counts, requestedErrorRate);
    }
    return Adjusted(adjusted), target;
  }

  lemma TargetRounded(total: int, rate: real)
    ensures IsRounded(Target(total, rate), total as real * rate)
  {
    RoundIsEven(total as real * rate, Target(total, rate));
  }

  lemma TwoBitTotal(counts: Histogram)
    requires TwoBit(counts)
    ensures TotalShots(counts) == EvenParity(counts) + OddParity(counts)
  {
    hide Shots;
    TwoBitShots(counts, Everything());
  }

  lemma EvenNonNegative(counts: Histogram)
    requires NonNegative(counts)
    ensures EvenParity(counts) >= 0 && OddParity(counts) >= 0
  {
  }

  /** On two-qubit histograms the odd count becomes exactly the larger of what it was and the rounded target. */
  lemma InjectionHitsTarget(counts: Histogram, rate: real)
    requires TwoBit(counts) && NonNegative(counts) && 0.0 <= rate <= 1.0
    ensures var target := Target(TotalShots(counts), rate);
            OddParity(counts) + Min(EvenParity(counts), Max(0, target - OddParity(counts))) == Max(OddParity(counts), target)
  {
    hide Shots, TotalShots, Target;
    TwoBitTotal(counts);
    RoundShare(TotalShots(counts), rate);
  }

  // ----- the error rate -----

  function ErrorRate(h: Histogram, total: int): real {
    OddParity(h) as real / (if total == 0 then 1 else total) as real
  }

  /** `inconsistent / total`, an empty histogram counting as total 1: a share between 0 and 1. */
  method MeasureErrorRate(counts: Histogram) returns (rate: real)
    ensures rate == ErrorRate(counts, TotalShots(counts))
    ensures TotalShots(counts) != 0 ==> rate * TotalShots(counts) as real == (Get(counts, "01") + Get(counts, "10")) as real
    ensures TotalShots(counts) == 0 ==> rate == (Get(counts, "01") + Get(counts, "10")) as real
    ensures TwoBit(counts) && NonNegative(counts) ==> 0.0 <= rate <= 1.0
    ensures rate == 0.0 <==> OddParity(counts) == 0
  {
    hide Shots, TotalShots;
    var sum := SumValues(counts);
    var total := if sum == 0 then 1 else sum;
    var inconsistent := Get(counts, "01") + Get(counts, "10");
    rate := inconsistent as real / total as real;
    ZeroQuotient(inconsistent as real, total as real);
    Quotient(inconsistent as real, total as real);
    if TwoBit(counts) && NonNegative(counts) {
      TwoBitTotal(counts);
      EvenNonNegative(counts);
      ShareRange(inconsistent as real, total as real);
    }
  }

  lemma ShareRange(part: real, whole: real)
    requires 0.0 <= part <= whole && whole > 0.0
    ensures 0.0 <= part / whole <= 1.0
  {
    var q := part / whole;
    Quotient(part, whole);
    FactorSign(q, whole);
    FactorSign(q - 1.0, whole);
    assert (q - 1.0) * whole == q * whole - whole;
  }
}

/**
 Weighted random key selection. Weights are real numbers, scaled by 100 and truncated; the
 random source is an arbitrary function that draws below its bound.
 */
module WeightedSelection {

  /** Truncation toward zero of a weight times 100. */
  function Scaled(weight: real): (r: int)
    ensures weight >= 0.0 ==> r >= 0 && r as real <= 100.0 * weight < r as real + 1.0
    ensures weight < 0.0 ==> r <= 0 && r as real - 1.0 < 100.0 * weight <= r as real
  {
    var x := weight * 100.0;
    if x >= 0.0 then x.Floor else -((-x).Floor)
  }

  /** A draw from an empty range panics. */
  datatype Selection = Chosen(index: nat) | Panic

  /** The scaled weight of the first `n` keys together. */
  function Prefix(weights: seq<real>, n: nat): int
    requires n <= |weights|
  {
    if n == 0 then 0 else Prefix(weights, n - 1) + Scaled(weights[n - 1])
  }

  function Sum(weights: seq<real>): int {
    Prefix(weights, |weights|)
  }

  /** `i` is the first key whose cumulative weight exceeds the draw. */
  ghost predicate Picks(weights: seq<real>, draw: int, i: nat) {
    && i < |weights| && draw < Prefix(weights, i + 1)
    && forall j :: 0 < j <= i ==> Prefix(weights, j) <= draw
  }

  ghost predicate DrawsBelow(intn: nat -> nat) {
    forall n :: n > 0 ==> intn(n) < n
  }

  /** The two loops: total weight, then the first key whose cumulative weight exceeds the draw. */
  method WeightedRandom(weights: seq<real>, intn: nat -> nat) returns (r: Selection)
    requires DrawsBelow(intn)
    ensures r.Panic? <==> Sum(weights) < 0 || weights == []
    ensures Sum(weights) > 0 ==> r.Chosen? && Picks(weights, intn(Sum(weights)), r.index)
    ensures Sum(weights) == 0 && weights != [] ==> r == Chosen(intn(|weights|))
  {
    var total := 0;
    for i := 0 to |weights|
      invariant total == Prefix(weights, i)
    {
      total := total + Scaled(weights[i]);
    }
    if total == 0 {
      if |weights| == 0 {
        return Panic;
      }
      return Chosen(intn(|weights|));
    }
    if total < 0 {
      return Panic;
    }
    var draw := intn(total);
    var current := 0;
    r := Chosen(0); // the last resort
    for i := 0 to |weights|
      invariant current == Prefix(weights, i)
      invariant forall j :: 0 < j <= i ==> Prefix(weights, j) <= draw
    {
      current := current + Scaled(weights[i]);
      if draw < current {
        return Chosen(i);
      }
    }
    assert false; // the draw is below the total, so the loop has returned
  }

  // ---- what the draws select ----

  ghost predicate NonNegative(weights: seq<real>) {
    forall i :: 0 <= i < |weights| ==> weights[i] >= 0.0
  }

  lemma {:induction false} PrefixMonotone(weights: seq<real>, i: nat, j: nat)
    requires NonNegative(weights) && i <= j <= |weights|
    ensures Prefix(weights, i) <= Prefix(weights, j)
  {
    if i < j {
      PrefixMonotone(weights, i, j - 1);
    }
  }

  /** Key i is picked exactly by the draws from its own interval. */
  lemma PicksIffInInterval(weights: seq<real>, draw: nat, i: nat)
    requires NonNegative(weights) && i < |weights|
    ensures Picks(weights, draw, i) <==> Prefix(weights, i) <= draw < Prefix(weights, i + 1)
  {
    if Prefix(weights, i) <= draw {
      forall j | 0 < j <= i ensures Prefix(weights, j) <= draw {
        PrefixMonotone(weights, j, i);
      }
    }
  }

  /** The draws below the total weight that pick key i. */
  ghost function DrawsFor(weights: seq<real>, i: nat): set<int>
    requires i < |weights|
  {
    set d | 0 <= d < Sum(weights) && Picks(weights, d, i)
  }

  function Interval(lo: int, hi: int): (r: set<int>)
    requires lo <= hi
    ensures |r| == hi - lo && forall d :: d in r <==> lo <= d < hi
    decreases hi - lo
  {
    if lo == hi then {} else Interval(lo, hi - 1) + {hi - 1}
  }

  /** Exactly as many of the possible draws select key i as its scaled weight says; a zero weight is never chosen. */
  lemma DrawCountIsWeight(weights: seq<real>, i: nat)
    requires NonNegative(weights) && i < |weights|
    ensures |DrawsFor(weights, i)| == Scaled(weights[i])
    ensures |DrawsFor(weights, i)| as real <= 100.0 * weights[i] < |DrawsFor(weights, i)| as real + 1.0
  {
    PrefixMonotone(weights, 0, i);
    PrefixMonotone(weights, i, i + 1);
    PrefixMonotone(weights, i + 1, |weights|);
    var lo, hi := Prefix(weights, i), Prefix(weights, i + 1);
    forall d | 0 <= d < Sum(weights) ensures d in DrawsFor(weights, i) <==> lo <= d < hi {
      PicksIffInInterval(weights, d, i);
    }
    assert DrawsFor(weights, i) == Interval(lo, hi);
  }

  /** Every draw below the total picks some key, and only one. */
  lemma {:induction false} EveryDrawPicks(weights: seq<real>, draw: nat, n: nat) returns (i: nat)
    requires NonNegative(weights) && n <= |weights| && draw < Prefix(weights, n)
    ensures Picks(weights, draw, i)
    ensures forall j: nat :: Picks(weights, draw, j) ==> j == i
  {
    if n > 0 && draw < Prefix(weights, n - 1) {
      i := EveryDrawPicks(weights, draw, n - 1);
    } else {
      i := n - 1;
      PicksIffInInterval(weights, draw, i);
    }
  }
}

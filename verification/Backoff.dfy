/**
 The retry backoff: initial * 2^attempt in 64-bit arithmetic, capped, jittered, capped again.

 The jitter is a real in [0.8, 1.2); floating-point rounding is not modelled. A product or
 shift that leaves the 64-bit range wraps, as it does in the source.
 */
module Backoff {

  const TWO_63 := 0x8000_0000_0000_0000
  const TWO_64 := 0x1_0000_0000_0000_0000

  predicate IsInt64(x: int) {
    -TWO_63 <= x < TWO_63
  }

  function Wrap64(x: int): (r: int)
    ensures IsInt64(r)
    ensures IsInt64(x) ==> r == x
  {
    (x + TWO_63) % TWO_64 - TWO_63
  }

  function Pow2(k: nat): (r: int)
    ensures r >= 1
  {
    if k == 0 then 1 else 2 * Pow2(k - 1)
  }

  /** 1 << k as a 64-bit integer. */
  function Shift(k: nat): int {
    if k < 63 then Pow2(k) else if k == 63 then -TWO_63 else 0
  }

  function Min(a: int, b: int): int {
    if a <= b then a else b
  }

  /** The capped exponential, before jitter. */
  function Base(initial: int, k: nat, max: int): int {
    Min(Wrap64(initial * Shift(k)), max)
  }

  /** What the exponential is meant to be. */
  function Ideal(initial: int, k: nat, max: int): int {
    Min(initial * Pow2(k), max)
  }

  function Truncate(x: real): int {
    if x >= 0.0 then x.Floor else -((-x).Floor)
  }

  /** Conversion of a float to a duration: truncation in range, an arbitrary `wild` value outside. */
  function ToDuration(x: real, wild: int): int {
    if -(TWO_63 as real) <= x < TWO_63 as real then Truncate(x) else wild
  }

  function Jittered(base: int, max: int, jitter: real, wild: int): int {
    Min(ToDuration(base as real * jitter, wild), max)
  }

  function CalculateBackoff(initial: int, k: nat, max: int, jitter: real, wild: int): int {
    Jittered(Base(initial, k, max), max, jitter, wild)
  }

  /** How long a sleep of that duration takes: a negative duration returns at once. */
  function SleepTime(d: int): nat {
    if d < 0 then 0 else d
  }

  function Cap(max: int): nat {
    if max < 0 then 0 else max
  }

  /** No sleep exceeds the configured maximum, whatever overflowed on the way. */
  lemma BackoffCapped(initial: int, k: nat, max: int, jitter: real, wild: int)
    ensures SleepTime(CalculateBackoff(initial, k, max, jitter, wild)) <= Cap(max)
  {
  }

  lemma {:induction false} Pow2Grows(j: nat, k: nat)
    requires j <= k
    ensures Pow2(j) <= Pow2(k)
  {
    if j < k { Pow2Grows(j, k - 1); }
  }

  lemma Pow2At63()
    ensures Pow2(63) == TWO_63
  {
    assert Pow2(8) == 256;
    Pow2Sum(8, 8);
    Pow2Sum(16, 16);
    Pow2Sum(32, 16);
    Pow2Sum(48, 8);
    assert Pow2(7) == 128;
    Pow2Sum(56, 7);
  }

  lemma {:induction false} Pow2Sum(a: nat, b: nat)
    ensures Pow2(a + b) == Pow2(a) * Pow2(b)
  {
    if b > 0 {
      Pow2Sum(a, b - 1);
      assert Pow2(a + b) == 2 * Pow2(a + b - 1) && Pow2(b) == 2 * Pow2(b - 1);
    }
  }

  lemma MulGrows(a: int, b: int, c: int)
    requires 0 <= a && b <= c
    ensures a * b <= a * c
  {
  }

  /** A product that fits in 64 bits did not overflow in the shift either. */
  lemma FitsMeansExact(initial: int, k: nat)
    requires 0 <= initial && initial * Pow2(k) < TWO_63
    ensures Wrap64(initial * Shift(k)) == initial * Pow2(k)
  {
    if k >= 63 {
      Pow2At63();
      Pow2Grows(63, k);
      MulGrows(initial, TWO_63, Pow2(k));
      assert initial == 0;
    }
  }

  /** The shift loses only multiples of 2^64. */
  lemma WrapsToSame(initial: int, k: nat)
    requires 0 <= initial
    ensures Wrap64(initial * Shift(k)) == Wrap64(initial * Pow2(k))
  {
    if k == 63 {
      Pow2At63();
      WrapsAt63(initial);
    } else if k > 63 {
      WrapsBeyond63(initial, k);
    }
  }

  lemma WrapsAt63(initial: int)
    ensures Wrap64(initial * -TWO_63) == Wrap64(initial * TWO_63)
  {
    AddMultiple(initial * TWO_63, -initial);
  }

  lemma WrapsBeyond63(initial: int, k: nat)
    requires k > 63
    ensures Wrap64(initial * Pow2(k)) == 0
  {
    Pow2At63();
    assert Pow2(64) == TWO_64;
    Pow2Sum(64, k - 64);
    Regroup(initial, TWO_64, Pow2(k - 64));
    AddMultiple(0, initial * Pow2(k - 64));
  }

  lemma Regroup(a: int, b: int, c: int)
    ensures a * (b * c) == (a * c) * b
  {
  }

  lemma AddMultiple(x: int, n: int)
    ensures Wrap64(x + n * TWO_64) == Wrap64(x)
  {
    var a := x + TWO_63;
    var q, r := a / TWO_64, a % TWO_64;
    assert a + n * TWO_64 == (q + n) * TWO_64 + r;
    DivisionUnique(a + n * TWO_64, q + n, r);
  }

  lemma DivisionUnique(a: int, q: int, r: int)
    requires a == q * TWO_64 + r && 0 <= r < TWO_64
    ensures a % TWO_64 == r
  {
    var d := a / TWO_64 - q;
    assert d * TWO_64 == r - a % TWO_64;
  }

  /**
   The capped exponential is the intended one exactly when the product fits in 64 bits or
   the wrapped product still reaches the cap.
   */
  lemma BaseIsIdealIff(initial: int, k: nat, max: int)
    requires 0 <= initial && IsInt64(max)
    ensures Base(initial, k, max) == Ideal(initial, k, max) <==>
            initial * Pow2(k) < TWO_63 || Wrap64(initial * Pow2(k)) >= max
  {
    WrapsToSame(initial, k);
    if initial * Pow2(k) < TWO_63 { FitsMeansExact(initial, k); }
  }

  lemma TruncateClose(b: real, jitter: real)
    requires b >= 0.0 && jitter >= 0.8
    ensures Truncate(b * jitter) as real > 0.8 * b - 1.0
  {
    assert b * (jitter - 0.8) >= 0.0;
  }

  lemma BaseWhenFits(initial: int, k: nat, max: int)
    requires 0 <= initial && 0 <= max && initial * Pow2(k) < TWO_63
    ensures Base(initial, k, max) == Ideal(initial, k, max) && 0 <= Ideal(initial, k, max) <= max
  {
    FitsMeansExact(initial, k);
    MulGrows(initial, 0, Pow2(k));
  }

  lemma JitterClose(b: int, max: int, jitter: real, wild: int)
    requires 0 <= b <= max && 0.8 <= jitter && b as real * jitter < TWO_63 as real
    ensures 10 * SleepTime(Jittered(b, max, jitter, wild)) + 10 > 8 * b
  {
    var x := b as real * jitter;
    assert x >= 0.0;
    TruncateClose(b as real, jitter);
    assert ToDuration(x, wild) == Truncate(x);
  }

  lemma FromBase(initial: int, k: nat, max: int, jitter: real, wild: int, b: int)
    requires b == Base(initial, k, max) && 0 <= b <= max && 0.8 <= jitter
    requires b as real * jitter < TWO_63 as real
    ensures 10 * SleepTime(CalculateBackoff(initial, k, max, jitter, wild)) + 10 > 8 * b
  {
    JitterClose(b, max, jitter, wild);
  }

  /** While the product fits, a sleep is at least 0.8 of the intended backoff, up to truncation. */
  lemma BackoffLowerBound(initial: int, k: nat, max: int, jitter: real, wild: int, ideal: int)
    requires 0 <= initial && 0 <= max && initial * Pow2(k) < TWO_63 && ideal == Ideal(initial, k, max)
    requires 0.8 <= jitter < 1.2 && ideal as real * jitter < TWO_63 as real
    ensures 10 * SleepTime(CalculateBackoff(initial, k, max, jitter, wild)) + 10 > 8 * ideal
  {
    BaseWhenFits(initial, k, max);
    FromBase(initial, k, max, jitter, wild, ideal);
  }

  /**
   While the product fits and the jittered value is in range, the sleep is the jittered delay,
   cut off to whole nanoseconds and at the maximum.
   */
  lemma BackoffExact(initial: int, k: nat, max: int, jitter: real, wild: int, ideal: int)
    requires 0 <= initial && 0 <= max && initial * Pow2(k) < TWO_63 && ideal == Ideal(initial, k, max)
    requires 0.8 <= jitter < 1.2 && ideal as real * jitter < TWO_63 as real
    ensures var jittered := (ideal as real * jitter).Floor;
            SleepTime(CalculateBackoff(initial, k, max, jitter, wild)) == if jittered <= max then jittered else max
  {
    BaseWhenFits(initial, k, max);
    ExactFromBase(initial, k, max, jitter, wild, ideal);
  }

  lemma ExactFromBase(initial: int, k: nat, max: int, jitter: real, wild: int, b: int)
    requires b == Base(initial, k, max) && 0 <= b <= max && 0.8 <= jitter && b as real * jitter < TWO_63 as real
    ensures var jittered := (b as real * jitter).Floor;
            SleepTime(CalculateBackoff(initial, k, max, jitter, wild)) == if jittered <= max then jittered else max
  {
    JitterExact(b, max, jitter, wild);
  }

  lemma JitterExact(b: int, max: int, jitter: real, wild: int)
    requires 0 <= b <= max && 0.8 <= jitter && b as real * jitter < TWO_63 as real
    ensures var jittered := (b as real * jitter).Floor;
            jittered >= 0 && SleepTime(Jittered(b, max, jitter, wild)) == if jittered <= max then jittered else max
  {
    var x := b as real * jitter;
    assert x >= 0.0;
    assert ToDuration(x, wild) == Truncate(x);
  }

  /** While the product fits, a sleep is at most 1.2 of the intended backoff. */
  lemma BackoffUpperBound(initial: int, k: nat, max: int, jitter: real, wild: int, ideal: int)
    requires 0 <= initial && 0 <= max < TWO_63 && initial * Pow2(k) < TWO_63 && ideal == Ideal(initial, k, max)
    requires 0.8 <= jitter < 1.2
    ensures 10 * SleepTime(CalculateBackoff(initial, k, max, jitter, wild)) <= 12 * ideal
  {
    BaseWhenFits(initial, k, max);
    UpperFromBase(initial, k, max, jitter, wild, ideal);
  }

  lemma UpperFromBase(initial: int, k: nat, max: int, jitter: real, wild: int, b: int)
    requires b == Base(initial, k, max) && 0 <= b <= max < TWO_63 && 0.8 <= jitter < 1.2
    ensures 10 * SleepTime(CalculateBackoff(initial, k, max, jitter, wild)) <= 12 * b
  {
    var x := JitterAtMost(b as real, jitter);
    UpperFromProduct(initial, k, max, jitter, wild, b, x);
  }

  lemma JitterAtMost(y: real, jitter: real) returns (x: real)
    requires y >= 0.0 && jitter < 1.2
    ensures x == y * jitter && x <= 1.2 * y
  {
    x := y * jitter;
    NegativeProduct(-y, 1.2 - jitter);
  }

  lemma UpperFromProduct(initial: int, k: nat, max: int, jitter: real, wild: int, b: int, x: real)
    requires b == Base(initial, k, max) && 0 <= b <= max < TWO_63 && 0.8 <= jitter
    requires x == b as real * jitter && x <= 1.2 * (b as real)
    ensures 10 * SleepTime(CalculateBackoff(initial, k, max, jitter, wild)) <= 12 * b
  {
    if x < TWO_63 as real {
      ExactFromBase(initial, k, max, jitter, wild, b);
      FloorAtMost(b, x);
    } else {
      MaxAtMost(b, max, x);
      BackoffCapped(initial, k, max, jitter, wild);
    }
  }

  lemma NegativeProduct(x: real, y: real)
    requires x <= 0.0 && y >= 0.0
    ensures x * y <= 0.0
  {
  }

  lemma FloorAtMost(b: int, x: real)
    requires x <= 1.2 * (b as real)
    ensures 10 * x.Floor <= 12 * b
  {
  }

  lemma MaxAtMost(b: int, max: int, x: real)
    requires TWO_63 as real <= x <= 1.2 * (b as real) && max < TWO_63
    ensures 10 * max <= 12 * b
  {
  }

  /** Both bounds, in terms of the product and the jittered delay. */
  lemma NearIdeal(initial: int, k: nat, max: int, jitter: real, wild: int, product: int, ideal: int, jittered: real)
    requires product == initial * Pow2(k) && 0 <= initial && product < TWO_63
    requires 0 <= max < TWO_63 && 0.8 <= jitter < 1.2 && ideal == if product <= max then product else max
    requires jittered == ideal as real * jitter
    ensures 10 * SleepTime(CalculateBackoff(initial, k, max, jitter, wild)) <= 12 * ideal
    ensures jittered < TWO_63 as real ==> 10 * SleepTime(CalculateBackoff(initial, k, max, jitter, wild)) + 10 > 8 * ideal
  {
    BackoffUpperBound(initial, k, max, jitter, wild, ideal);
    if jittered < TWO_63 as real {
      BackoffLowerBound(initial, k, max, jitter, wild, ideal);
    }
  }

  lemma Pow2At35()
    ensures Pow2(35) == 0x8_0000_0000
  {
    assert Pow2(8) == 256;
    Pow2Sum(8, 8);
    Pow2Sum(16, 16);
    assert Pow2(3) == 8;
    Pow2Sum(32, 3);
  }

  /** With the default delays, the 36th retry overflows and does not sleep at all, whatever the jitter. */
  lemma OverflowSkipsTheSleep(jitter: real, wild: int)
    requires 0.8 <= jitter < 1.2
    ensures Ideal(500_000_000, 35, 5_000_000_000) == 5_000_000_000
    ensures SleepTime(CalculateBackoff(500_000_000, 35, 5_000_000_000, jitter, wild)) == 0
  {
    Pow2At35();
    assert Base(500_000_000, 35, 5_000_000_000) == -1_266_874_889_709_551_616;
    NegativeSkips(-1_266_874_889_709_551_616, 5_000_000_000, jitter, wild);
  }

  /** A base that wrapped to a negative value in range gives no sleep. */
  lemma NegativeSkips(b: int, max: int, jitter: real, wild: int)
    requires b < 0 <= max && 0.8 <= jitter < 1.2 && b as real * 1.2 >= -(TWO_63 as real)
    ensures SleepTime(Jittered(b, max, jitter, wild)) == 0
  {
    var x := b as real;
    NegativeProduct(x, jitter);
    NegativeProduct(x, 1.2 - jitter);
    NoSleepBelowZero(x * jitter, x * (1.2 - jitter), x * 1.2, max, wild);
  }

  lemma NoSleepBelowZero(y: real, rest: real, low: real, max: int, wild: int)
    requires y <= 0.0 && rest <= 0.0 && y + rest == low >= -(TWO_63 as real)
    ensures SleepTime(Min(ToDuration(y, wild), max)) == 0
  {
  }
}

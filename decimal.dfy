/** PHP's `round($x, $places)` on exact decimals: to the nearest multiple of
    10^-places, halves away from zero. */
module Decimal {

  function Pow10(d: nat): (r: nat)
    ensures r >= 1
  {
    if d == 0 then 1 else 10 * Pow10(d - 1)
  }

  function Abs(x: real): real {
    if x < 0.0 then -x else x
  }

  /** The number of steps of 1/s nearest to x, halves away from zero. */
  function Steps(x: real, s: real): int
    requires s >= 1.0
  {
    if x >= 0.0 then (x * s + 0.5).Floor else -((-x) * s + 0.5).Floor
  }

  function Round(x: real, places: nat): real {
    Steps(x, Pow10(places) as real) as real / (Pow10(places) as real)
  }

  /** The nearest step is at most half a step away, on the same side of zero. */
  lemma StepsError(x: real, s: real)
    requires s >= 1.0
    ensures Abs(Steps(x, s) as real - x * s) <= 0.5
    ensures x >= 0.0 ==> Steps(x, s) >= 0
    ensures x <= 0.0 ==> Steps(x, s) <= 0
  {
    if x >= 0.0 {
      var n := (x * s + 0.5).Floor;
      assert n as real <= x * s + 0.5 < n as real + 1.0;
    } else {
      var y := -x;
      var n := (y * s + 0.5).Floor;
      assert n as real <= y * s + 0.5 < n as real + 1.0;
      assert y * s == -(x * s);
    }
  }

  /** Rounding to d places keeps the sign, and moves a value by at most half
      a step. */
  lemma RoundSign(x: real, places: nat)
    ensures x >= 0.0 ==> Round(x, places) >= 0.0
    ensures x <= 0.0 ==> Round(x, places) <= 0.0
  {
    StepsError(x, Pow10(places) as real);
  }

  lemma RoundError(x: real, places: nat)
    ensures Abs(Round(x, places) - x) * (Pow10(places) as real) <= 0.5
  {
    var s := Pow10(places) as real;
    var k := Steps(x, s);
    StepsError(x, s);
    var r := Round(x, places);
    assert r * s == k as real;
    assert (r - x) * s == k as real - x * s;
    AbsScale(r - x, s);
  }

  lemma AbsScale(a: real, s: real)
    requires s > 0.0
    ensures Abs(a) * s == Abs(a * s)
  {
    if a < 0.0 {
      assert a * s < 0.0;
    } else {
      assert a * s >= 0.0;
    }
  }

  /** A value that already has d places is left as it is. */
  lemma StepsExact(k: int, s: real)
    requires s >= 1.0
    ensures Steps(k as real / s, s) == k
  {
    var y := k as real / s;
    assert y * s == k as real;
    if k >= 0 {
      assert (k as real + 0.5).Floor == k;
    } else {
      assert (-y) * s == (-k) as real;
      assert ((-k) as real + 0.5).Floor == -k;
    }
  }

  lemma RoundExact(k: int, places: nat)
    ensures Round(k as real / (Pow10(places) as real), places) == k as real / (Pow10(places) as real)
  {
    StepsExact(k, Pow10(places) as real);
  }

  /** Rounding is symmetric about zero. */
  lemma RoundOdd(x: real, places: nat)
    ensures Round(-x, places) == -Round(x, places)
  {
    var s := Pow10(places) as real;
    if x == 0.0 {
      assert Steps(0.0, s) == 0;
    }
    assert Steps(-x, s) == -Steps(x, s);
  }

  /** Rounding twice is rounding once. */
  lemma RoundIdempotent(x: real, places: nat)
    ensures Round(Round(x, places), places) == Round(x, places)
  {
    RoundExact(Steps(x, Pow10(places) as real), places);
  }
}

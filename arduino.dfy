/**
 * The Arduino core library calls the firmware relies on, with the
 * semantics of a C++ `long`: `abs`, integer division (which truncates
 * toward zero, unlike Dafny's Euclidean `/`), `map` and `random(lo, hi)`.
 */
module Arduino {

  /** C's `abs`; the `abs(INT_MIN)` corner case is outside the model. */
  function Abs(x: int): nat
  {
    if x < 0 then -x else x
  }

  /** C++ integer division: the magnitude is the floor of the magnitudes, the sign is the product of the signs. */
  function TruncDiv(a: int, b: int): (q: int)
    requires b != 0
    ensures Abs(q) == Abs(a) / Abs(b)
    ensures q > 0 ==> (a > 0) == (b > 0)
    ensures q < 0 ==> (a > 0) != (b > 0)
  {
    if a == 0 then 0
    else
      var m := Abs(a) / Abs(b);
      assert m >= 0 by { DivOfNaturals(Abs(a), Abs(b)); }
      if (a < 0) == (b < 0) then m else -m
  }

  lemma DivOfNaturals(x: nat, y: nat)
    requires y > 0
    ensures x / y >= 0
  {
  }

  /** `map(x, inMin, inMax, outMin, outMax)`: linear rescaling with truncating division. */
  function Map(x: int, inMin: int, inMax: int, outMin: int, outMax: int): int
    requires inMin != inMax
  {
    TruncDiv((x - inMin) * (outMax - outMin), inMax - inMin) + outMin
  }

  /**
   * `random(lo, hi)`: a value in [lo, hi - 1], or `lo` when the range is
   * empty. The entropy source is outside the model: `draw` is its raw
   * output, so the model fixes which values can come out, not how likely
   * each one is.
   */
  function Random(lo: int, hi: int, draw: nat): (r: int)
    ensures lo < hi ==> lo <= r < hi
    ensures hi <= lo ==> r == lo
  {
    if hi <= lo then lo else lo + draw % (hi - lo)
  }

  /** Every value `random(lo, hi)` promises can actually come out. */
  lemma RandomReachesAll(lo: int, hi: int, r: int)
    requires lo <= r < hi
    ensures exists draw: nat :: Random(lo, hi, draw) == r
  {
    var draw: nat := r - lo;
    assert Random(lo, hi, draw) == r;
  }

  lemma MulLeftMono(a: int, b: int, k: int)
    requires a <= b && 0 <= k
    ensures a * k <= b * k
  {
  }

  /** For a non-negative numerator, truncating and floor division agree. */
  lemma TruncDivNonNegative(a: int, b: int)
    requires 0 <= a && 0 < b
    ensures TruncDiv(a, b) == a / b
  {
  }

  lemma DivAtMost(n: int, d: int, k: int)
    requires 0 <= n <= d * k && 0 < d
    ensures n / d <= k
  {
    var q := n / d;
    assert q * d <= n;
    if q > k {
      MulLeftMono(k + 1, q, d);
      assert false;
    }
  }

  /** `map` sends the input range onto the output range (for a rising output range). */
  lemma MapWithinRange(x: int, inMin: int, inMax: int, outMin: int, outMax: int)
    requires inMin < inMax && outMin <= outMax
    ensures inMin <= x <= inMax ==> outMin <= Map(x, inMin, inMax, outMin, outMax) <= outMax
  {
    if inMin <= x <= inMax {
      var n := (x - inMin) * (outMax - outMin);
      var d := inMax - inMin;
      MulLeftMono(0, x - inMin, outMax - outMin);
      MulLeftMono(x - inMin, d, outMax - outMin);
      TruncDivNonNegative(n, d);
      DivAtMost(n, d, outMax - outMin);
    }
  }

  /** With a rising output range, `map` never decreases as its input grows. */
  lemma MapMonotone(x: int, y: int, inMin: int, inMax: int, outMin: int, outMax: int)
    requires inMin < inMax && outMin <= outMax && inMin <= x <= y
    ensures Map(x, inMin, inMax, outMin, outMax) <= Map(y, inMin, inMax, outMin, outMax)
  {
    var k := outMax - outMin;
    var d := inMax - inMin;
    MulLeftMono(0, x - inMin, k);
    MulLeftMono(x - inMin, y - inMin, k);
    TruncDivNonNegative((x - inMin) * k, d);
    TruncDivNonNegative((y - inMin) * k, d);
    DivMono((x - inMin) * k, (y - inMin) * k, d);
  }

  lemma DivMono(a: int, b: int, d: int)
    requires 0 <= a <= b && 0 < d
    ensures a / d <= b / d
  {
    var p, q := a / d, b / d;
    assert p * d <= a && b < (q + 1) * d;
    if p > q {
      MulLeftMono(q + 1, p, d);
      assert false;
    }
  }
}

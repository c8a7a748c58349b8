/**
 * The coordinate helpers of the clustering engine: clamping, the linear
 * longitude <-> x projection, longitude wrapping, the Cantor pairing used as a
 * cluster key and the pixel -> unit-square distance conversion.
 *
 * Coordinates are modelled as exact reals.  The latitude projection (sine,
 * logarithm, arctangent, exponential) is not modelled here: callers receive
 * it as a function parameter.
 */
module Projection {

  /** `Math.min(Math.max(v, lo), hi)`. */
  function Clamp(lo: real, v: real, hi: real): (r: real)
    ensures lo <= hi ==> lo <= r <= hi
    ensures lo <= v <= hi ==> r == v
    ensures r == hi || r == v || r == lo
  {
    var m := if v >= lo then v else lo;
    if m <= hi then m else hi
  }

  /** Clamping is monotone in the clamped value. */
  lemma ClampMonotone(lo: real, a: real, b: real, hi: real)
    requires a <= b
    ensures Clamp(lo, a, hi) <= Clamp(lo, b, hi)
  {
  }

  /** Longitude (degrees) to the x axis of the unit square. */
  function LngToX(lng: real): (x: real)
    ensures -180.0 <= lng <= 180.0 ==> 0.0 <= x <= 1.0
    ensures lng < 180.0 ==> x < 1.0
  {
    lng / 360.0 + 0.5
  }

  /** The x axis back to longitude; the exact inverse of LngToX. */
  function XToLng(x: real): (lng: real)
    ensures LngToX(lng) == x
  {
    (x - 0.5) * 360.0
  }

  /** The other round trip: projecting and coming back gives the longitude. */
  lemma LngRoundTrip(lng: real)
    ensures XToLng(LngToX(lng)) == lng
  {
  }

  /** JavaScript's `%` on numbers: the remainder of a division truncated toward zero. */
  function Trunc(q: real): (t: int)
  {
    if q >= 0.0 then q.Floor else -((-q).Floor)
  }

  function FMod(a: real, m: real): (rem: real)
    requires m != 0.0
  {
    a - m * Trunc(a / m) as real
  }

  /** `((a % 360) + 360) % 360`: the representative of `a` modulo 360 in [0, 360). */
  function Wrap360(a: real): (w: real)
    ensures 0.0 <= w < 360.0
    ensures exists k: int :: w == a - Turns(k)
  {
    var t := FMod(a, 360.0);
    FModBounds(a, 360.0);
    FModBounds(t + 360.0, 360.0);
    var w := FMod(t + 360.0, 360.0);
    var k1 := Trunc(a / 360.0);
    var k2 := Trunc((t + 360.0) / 360.0);
    assert w == a - Turns(k1 + k2 - 1);
    w
  }

  /** `k` whole turns, in degrees. */
  function Turns(k: int): (deg: real)
  {
    360.0 * k as real
  }

  lemma FModBounds(a: real, m: real)
    requires m > 0.0
    ensures -m < FMod(a, m) < m
    ensures a >= 0.0 ==> 0.0 <= FMod(a, m)
  {
    FModScaled(a, m);
    QuotientSign(a, m);
    FracScaled(m, a / m);
    assert FMod(a, m) == m * Frac(a / m);
    assert -m < m * Frac(a / m) < m;
  }

  /** `m` times the fractional part of `q` lies strictly between `-m` and `m`, with the sign of `q`. */
  lemma FracScaled(m: real, q: real)
    requires m > 0.0
    ensures -m < m * Frac(q) < m
    ensures q >= 0.0 ==> m * Frac(q) >= 0.0
  {
    FractionScaled(m, Frac(q));
  }

  /** The quotient has the sign of the dividend when the divisor is positive. */
  lemma QuotientSign(a: real, m: real)
    requires m > 0.0
    ensures a >= 0.0 <==> a / m >= 0.0
  {
    assert (a / m) * m == a;
    if a / m < 0.0 {
      assert (a / m) * m < 0.0;
    }
  }

  /** The remainder is the divisor times the fractional part of the quotient. */
  lemma FModScaled(a: real, m: real)
    requires m > 0.0
    ensures FMod(a, m) == m * Frac(a / m)
  {
    assert m * (a / m) == a;
  }

  /** What truncation leaves of a quotient: in [0, 1) for a non-negative one, in (-1, 0] otherwise. */
  function Frac(q: real): (f: real)
    ensures q >= 0.0 ==> 0.0 <= f < 1.0
    ensures q < 0.0 ==> -1.0 < f <= 0.0
  {
    q - Trunc(q) as real
  }

  /** A proper fraction of a positive `m` lies strictly between `-m` and `m`, with the fraction's sign. */
  lemma FractionScaled(m: real, f: real)
    requires m > 0.0 && -1.0 < f < 1.0
    ensures -m < m * f < m
    ensures f >= 0.0 ==> m * f >= 0.0
  {
    if f >= 0.0 {
      ScaleFraction(m, f);
    } else {
      NegativeFraction(m, f);
    }
  }

  lemma NegativeFraction(m: real, f: real)
    requires m > 0.0 && -1.0 < f <= 0.0
    ensures -m < m * f <= 0.0
  {
    ScaleFraction(m, -f);
    assert m * f == -(m * (-f));
  }

  lemma ScaleFraction(m: real, f: real)
    requires m > 0.0 && 0.0 <= f < 1.0
    ensures 0.0 <= m * f < m
  {
    assert m - m * f == m * (1.0 - f);
  }

  /** `boundedLngToX`: wrap the longitude into [-180, 180) before projecting. */
  function BoundedLngToX(lng: real): (x: real)
    ensures 0.0 <= x < 1.0
  {
    LngToX(Wrap360(lng + 180.0) - 180.0)
  }

  /** Two representatives in [0, 360) of the same class modulo 360 coincide. */
  lemma {:induction false} SameClass(u: real, v: real, k: int)
    requires 0.0 <= u < 360.0 && 0.0 <= v < 360.0
    requires u - v == 360.0 * k as real
    ensures u == v
  {
  }

  /** `boundedLngToX` has period 360 in the longitude. */
  lemma BoundedLngToXPeriodic(lng: real)
    ensures BoundedLngToX(lng + 360.0) == BoundedLngToX(lng)
  {
    var u := Wrap360(lng + 360.0 + 180.0);
    var v := Wrap360(lng + 180.0);
    var ku: int :| u == lng + 360.0 + 180.0 - Turns(ku);
    var kv: int :| v == lng + 180.0 - Turns(kv);
    assert u - v == 360.0 * (kv - ku + 1) as real;
    SameClass(u, v, kv - ku + 1);
  }

  /** On longitudes already in [-180, 180) the wrapping changes nothing. */
  lemma BoundedLngToXInRange(lng: real)
    requires -180.0 <= lng < 180.0
    ensures BoundedLngToX(lng) == LngToX(lng)
  {
    var v := Wrap360(lng + 180.0);
    var kv: int :| v == lng + 180.0 - Turns(kv);
    assert v - (lng + 180.0) == 360.0 * (-kv) as real;
    SameClass(v, lng + 180.0, -kv);
  }

  /** `pair(a, b)`: the Cantor pairing function, used as a cluster key. */
  function Pair(a: real, b: real): (key: real)
  {
    var sum := a + b;
    sum * (sum + 1.0) / 2.0 + b
  }

  /** All pairs on the diagonal `a + b == s` have keys in [T(s), T(s+1)). */
  lemma PairDiagonal(a: nat, b: nat)
    ensures var s := (a + b) as real;
      s * (s + 1.0) / 2.0 <= Pair(a as real, b as real) < (s + 1.0) * (s + 2.0) / 2.0
  {
  }

  /** Triangular numbers are monotone on the naturals. */
  lemma TriangleMonotone(s: nat, t: nat)
    requires s <= t
    ensures (s as real) * (s as real + 1.0) <= (t as real) * (t as real + 1.0)
  {
    var d := (t - s) as real;
    assert (t as real) * (t as real + 1.0) - (s as real) * (s as real + 1.0)
        == d * (t as real + s as real + 1.0);
  }

  /** On naturals, distinct pairs get distinct keys. */
  lemma PairInjective(a: nat, b: nat, c: nat, d: nat)
    requires Pair(a as real, b as real) == Pair(c as real, d as real)
    ensures a == c && b == d
  {
    if a + b < c + d {
      PairBelowNextDiagonal(a, b, c, d);
    } else if c + d < a + b {
      PairBelowNextDiagonal(c, d, a, b);
    } else {
      assert (a + b) as real == (c + d) as real;
    }
  }

  /** A pair on a lower diagonal has a smaller key than any pair on a higher one. */
  lemma PairBelowNextDiagonal(a: nat, b: nat, c: nat, d: nat)
    requires a + b < c + d
    ensures Pair(a as real, b as real) < Pair(c as real, d as real)
  {
    var s := (a + b) as real;
    var t := (c + d) as real;
    PairDiagonal(a, b);
    PairDiagonal(c, d);
    TriangleMonotone(a + b + 1, c + d);
    assert (s + 1.0) * (s + 2.0) <= t * (t + 1.0);
    assert Pair(a as real, b as real) < (s + 1.0) * (s + 2.0) / 2.0 <= t * (t + 1.0) / 2.0 <= Pair(c as real, d as real);
  }

  /** `Math.pow(2, zoom)` for an integer zoom. */
  function Pow2(zoom: int): (p: real)
    ensures p > 0.0
    decreases if zoom >= 0 then zoom else -zoom
  {
    if zoom == 0 then 1.0
    else if zoom > 0 then 2.0 * Pow2(zoom - 1)
    else Pow2(zoom + 1) / 2.0
  }

  lemma {:induction false} Pow2Succ(zoom: int)
    ensures Pow2(zoom + 1) == 2.0 * Pow2(zoom)
    decreases if zoom >= 0 then zoom else -zoom
  {
    if zoom < -1 {
      Pow2Succ(zoom + 1);
    }
  }

  /** `pixelsToDistance`: a pixel length at `zoom` as a unit-square distance. */
  function PixelsToDistance(pixels: real, extent: real, zoom: int): (d: real)
    requires extent > 0.0
  {
    pixels / (extent * Pow2(zoom))
  }

  /** The distance times `extent * 2^zoom` gives back the pixels, and keeps their sign. */
  lemma PixelsToDistanceScale(pixels: real, extent: real, zoom: int)
    requires extent > 0.0
    ensures PixelsToDistance(pixels, extent, zoom) * (extent * Pow2(zoom)) == pixels
    ensures pixels > 0.0 ==> PixelsToDistance(pixels, extent, zoom) > 0.0
    ensures pixels != 0.0 ==> PixelsToDistance(pixels, extent, zoom) != 0.0
  {
  }

  /** One zoom level up, the same pixel length covers half the distance. */
  lemma PixelsToDistanceHalves(pixels: real, extent: real, zoom: int)
    requires extent > 0.0
    ensures PixelsToDistance(pixels, extent, zoom) == 2.0 * PixelsToDistance(pixels, extent, zoom + 1)
  {
    Pow2Succ(zoom);
    PixelsToDistanceScale(pixels, extent, zoom);
    PixelsToDistanceScale(pixels, extent, zoom + 1);
    var s := extent * Pow2(zoom);
    assert extent * Pow2(zoom + 1) == 2.0 * s;
    var d, h := PixelsToDistance(pixels, extent, zoom), PixelsToDistance(pixels, extent, zoom + 1);
    assert h * (2.0 * s) == pixels;
    assert (2.0 * h) * s == d * s;
    CancelPositive(2.0 * h, d, s);
  }

  /** A positive factor cancels. */
  lemma CancelPositive(a: real, b: real, s: real)
    requires s > 0.0 && a * s == b * s
    ensures a == b
  {
    assert (a - b) * s == a * s - b * s == 0.0;
  }
}

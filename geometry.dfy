/**
 * The two Phaser.Math helpers that the scene's step calls, restated on
 * integers: Clamp and Distance.Between.
 */
module Geometry {

  /** Phaser.Math.Clamp(v, lo, hi), which is Math.max(lo, Math.min(hi, v)). */
  function Clamp(v: int, lo: int, hi: int): (r: int)
    ensures lo <= hi ==> lo <= r <= hi
    ensures lo <= v <= hi ==> r == v
    ensures v < lo ==> r == lo
    ensures hi < v ==> r == (if lo <= hi then hi else lo)
    ensures r == v || r == lo || r == hi
  {
    var capped := if hi < v then hi else v;
    if capped < lo then lo else capped
  }

  /**
   * The square of the Euclidean distance between two points.
   * Distance.Between returns the square root of this value.
   */
  function DistanceSquared(x1: int, y1: int, x2: int, y2: int): (d: int)
    ensures d >= 0
    ensures d == 0 <==> x1 == x2 && y1 == y2
  {
    var dx, dy := x1 - x2, y1 - y2;
    SquareNonNegative(dx);
    SquareNonNegative(dy);
    dx * dx + dy * dy
  }

  lemma SquareNonNegative(n: int)
    ensures n * n >= 0
    ensures n * n == 0 <==> n == 0
  {
    if n < 0 {
      assert n * n == (-n) * (-n);
    }
  }

  /** "Distance.Between(x1, y1, x2, y2) < radius", without square roots. */
  predicate Within(x1: int, y1: int, x2: int, y2: int, radius: nat)
    // a point within the radius lies inside the square of side 2 * radius around the other
    ensures Within(x1, y1, x2, y2, radius) ==>
              -(radius as int) < x1 - x2 < radius && -(radius as int) < y1 - y2 < radius
    // the same point is within every positive radius, and never within radius 0
    ensures x1 == x2 && y1 == y2 ==> (Within(x1, y1, x2, y2, radius) <==> radius > 0)
  {
    BoxBound(x1 - x2, y1 - y2, radius);
    DistanceSquared(x1, y1, x2, y2) < radius * radius
  }

  /** Each coordinate of a vector shorter than k is smaller than k in magnitude. */
  lemma BoxBound(dx: int, dy: int, k: nat)
    ensures dx * dx + dy * dy < k * k ==> -(k as int) < dx < k && -(k as int) < dy < k
  {
    SquareNonNegative(dx);
    SquareNonNegative(dy);
    SquareAtLeast(dx, k);
    SquareAtLeast(dy, k);
  }

  lemma SquareAtLeast(n: int, k: int)
    requires k >= 0
    ensures n >= k || n <= -k ==> n * n >= k * k
  {
    if n >= k {
      assert n * n >= n * k >= k * k;
    } else if n <= -k {
      assert n * n == (-n) * (-n) >= (-n) * k >= k * k;
    }
  }

  /**
   * The squared test is exact: for the non-negative square root r of the
   * squared distance, r < radius holds exactly when Within does.
   */
  lemma WithinIsDistanceBelow(x1: int, y1: int, x2: int, y2: int, radius: nat, r: real)
    requires r >= 0.0 && r * r == DistanceSquared(x1, y1, x2, y2) as real
    ensures r < radius as real <==> Within(x1, y1, x2, y2, radius)
  {
    var R := radius as real;
    RootBelow(r, R);
    var d := DistanceSquared(x1, y1, x2, y2);
    var k := radius * radius;
    assert k as real == R * R;
    assert Within(x1, y1, x2, y2, radius) == (d < k);
    assert (d < k) == (d as real < k as real);
  }

  /** For non-negative reals, comparing the values is comparing their squares. */
  lemma RootBelow(r: real, R: real)
    requires r >= 0.0 && R >= 0.0
    ensures r < R <==> r * r < R * R
  {
    if r < R {
      SquareStrictlyMonotone(r, R);
    } else {
      SquareMonotone(R, r);
    }
  }

  lemma SquareStrictlyMonotone(a: real, b: real)
    requires 0.0 <= a < b
    ensures a * a < b * b
  {
    MulPositive(b - a, b + a);
    assert b * b - a * a == (b - a) * (b + a);
  }

  lemma SquareMonotone(a: real, b: real)
    requires 0.0 <= a <= b
    ensures a * a <= b * b
  {
    MulNonNegative(b - a, b + a);
    assert b * b - a * a == (b - a) * (b + a);
  }

  lemma MulPositive(a: real, b: real)
    requires a > 0.0 && b > 0.0
    ensures a * b > 0.0
  {
  }

  lemma MulNonNegative(a: real, b: real)
    requires a >= 0.0 && b >= 0.0
    ensures a * b >= 0.0
  {
  }
}

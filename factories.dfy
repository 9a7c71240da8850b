// The two point factories behind the circle and rounded-rectangle meshes:
// CircleFactory maps a vertex index to a point on a circle, and
// RoundedRectangleFactory maps a perimeter index to one of four corner arcs.
// Both normalise the index with C++'s truncating `%` followed by an explicit
// "add N if negative" step, which is written out literally here.

module Factories {
  import opened Common

  /** C++ integer division for a positive divisor: truncates toward zero. */
  function TruncDiv(a: int, n: int): int
    requires n > 0
  {
    if a >= 0 then a / n else -((-a) / n)
  }

  /** C++ `a % n` for a positive divisor: the remainder takes the sign of `a`. */
  function TruncMod(a: int, n: int): (r: int)
    requires n > 0
    ensures a == TruncDiv(a, n) * n + r
    ensures -n < r < n
    ensures a >= 0 ==> 0 <= r
    ensures a <= 0 ==> r <= 0
  {
    if a >= 0 then a % n else -((-a) % n)
  }

  /** `int i = index % n; if (i < 0) i += n;` */
  function NormalizeIndex(index: int, n: int): int
    requires n > 0
  {
    var i := TruncMod(index, n);
    if i < 0 then i + n else i
  }

  lemma {:induction false} MulAtLeast(d: int, n: int)
    requires d >= 1 && n > 0
    ensures d * n >= n
  {
    if d > 1 {
      MulAtLeast(d - 1, n);
      assert d * n == (d - 1) * n + n;
    }
  }

  /** Euclidean quotient and remainder are unique. */
  lemma EuclidUnique(a: int, n: int, q: int, r: int)
    requires n > 0 && 0 <= r < n && a == q * n + r
    ensures a / n == q && a % n == r
  {
    var q0, r0 := a / n, a % n;
    assert a == q0 * n + r0;
    assert (q0 - q) * n == q0 * n - q * n;
    assert (q - q0) * n == q * n - q0 * n;
    if q0 > q {
      MulAtLeast(q0 - q, n);
      assert false;
    } else if q0 < q {
      MulAtLeast(q - q0, n);
      assert false;
    }
  }

  /**
   * The truncate-then-fix normalisation agrees with the mathematical
   * (Euclidean) remainder, so it always lands in [0, n).
   */
  lemma NormalizeIndexIsEuclidean(index: int, n: int)
    requires n > 0
    ensures NormalizeIndex(index, n) == index % n
    ensures 0 <= NormalizeIndex(index, n) < n
  {
    if index < 0 {
      var m := -index;
      var q, s := m / n, m % n;
      assert m == q * n + s;
      if s == 0 {
        EuclidUnique(index, n, -q, 0);
      } else {
        assert index == (-q - 1) * n + (n - s);
        EuclidUnique(index, n, -q - 1, n - s);
      }
    }
  }

  /** Shifting an index by a whole period does not change its normalised value. */
  lemma NormalizeIndexPeriodic(index: int, n: int)
    requires n > 0
    ensures NormalizeIndex(index + n, n) == NormalizeIndex(index, n)
  {
    NormalizeIndexIsEuclidean(index, n);
    NormalizeIndexIsEuclidean(index + n, n);
    var q, r := index / n, index % n;
    assert index + n == (q + 1) * n + r;
    EuclidUnique(index + n, n, q + 1, r);
  }

  // ---------------------------------------------------------------- circle

  /** The float constant `pi` of CircleFactory (3.1415926f). */
  const Pi: real := 3.1415926

  /** The trigonometric functions, which the model leaves uninterpreted. */
  datatype Trig = Trig(cos: real -> real, sin: real -> real)

  /** CircleFactory: a radius and a number of perimeter points. */
  datatype CircleFactory = CircleFactory(radius: real, quality: int)

  /** `deltaAngle = 2π / quality`, the angle between neighbouring points. */
  function DeltaAngle(cf: CircleFactory): real
    requires cf.quality > 0
  {
    (2.0 * Pi) / (cf.quality as real)
  }

  /** The angle of point `index`: its normalised index times `deltaAngle`. */
  function PointAngle(cf: CircleFactory, index: int): real
    requires cf.quality > 0
  {
    NormalizeIndex(index, cf.quality) as real * DeltaAngle(cf)
  }

  /** CircleFactory::getPoint: `(cos a · r, sin a · r)`, or the origin when `quality <= 0`. */
  function CirclePoint(cf: CircleFactory, index: int, trig: Trig): Vec2
  {
    if cf.quality <= 0 then Origin
    else
      var a := PointAngle(cf, index);
      Vec2(trig.cos(a) * cf.radius, trig.sin(a) * cf.radius)
  }

  /** A non-positive quality yields the origin for every index. */
  lemma CirclePointGuard(cf: CircleFactory, index: int, trig: Trig)
    requires cf.quality <= 0
    ensures CirclePoint(cf, index, trig) == Origin
  {
  }

  /** getPoint is periodic with period `quality`. */
  lemma CirclePointPeriodic(cf: CircleFactory, index: int, trig: Trig)
    ensures CirclePoint(cf, index + cf.quality, trig) == CirclePoint(cf, index, trig)
  {
    if cf.quality > 0 {
      NormalizeIndexPeriodic(index, cf.quality);
      assert PointAngle(cf, index + cf.quality) == PointAngle(cf, index);
    }
  }

  /** Every angle lies in [0, 2π). */
  lemma {:induction false} PointAngleRange(cf: CircleFactory, index: int)
    requires cf.quality > 0
    ensures 0.0 <= PointAngle(cf, index) < 2.0 * Pi
  {
    NormalizeIndexIsEuclidean(index, cf.quality);
    var i := NormalizeIndex(index, cf.quality);
    var q := cf.quality as real;
    var d := DeltaAngle(cf);
    assert d * q == 2.0 * Pi;
    assert i as real <= q - 1.0;
    assert (i as real) * d <= (q - 1.0) * d;
  }

  /** Indices that differ in normalised value get different angles. */
  lemma {:induction false} PointAngleInjective(cf: CircleFactory, j: int, k: int)
    requires cf.quality > 0
    requires NormalizeIndex(j, cf.quality) != NormalizeIndex(k, cf.quality)
    ensures PointAngle(cf, j) != PointAngle(cf, k)
  {
    var d := DeltaAngle(cf);
    assert d > 0.0;
    var a, b := NormalizeIndex(j, cf.quality) as real, NormalizeIndex(k, cf.quality) as real;
    assert a * d - b * d == (a - b) * d;
  }

  // ------------------------------------------------------ rounded rectangle

  /**
   * RoundedRectangleFactory: the box size, the corner radius, the number of
   * points per corner and the circle used for the arcs.
   */
  datatype RoundedRectangleFactory =
    RoundedRectangleFactory(size: Vec2, radius: real, perCorner: int, factory: CircleFactory)

  /** The constructor: `perCorner = max(1, q)` and a circle of `4 · perCorner` points. */
  function MakeRoundedRectangleFactory(size: Vec2, radius: real, qualityPerCorner: int): RoundedRectangleFactory
  {
    var p := if qualityPerCorner < 1 then 1 else qualityPerCorner;
    RoundedRectangleFactory(size, radius, p, CircleFactory(radius, 4 * p))
  }

  /** The centre of corner `k`: (w−r, r), (w−r, h−r), (r, h−r), (r, r). */
  function CornerCenter(f: RoundedRectangleFactory, k: int): Vec2
    requires 0 <= k < 4
  {
    var w, h, r := f.size.x, f.size.y, f.radius;
    if k == 0 then Vec2(w - r, r)
    else if k == 1 then Vec2(w - r, h - r)
    else if k == 2 then Vec2(r, h - r)
    else Vec2(r, r)
  }

  function PointCount(f: RoundedRectangleFactory): int
  {
    4 * f.perCorner
  }

  /** A factory built by its constructor always has at least one point per corner. */
  lemma MadeFactoryShape(size: Vec2, radius: real, q: int)
    ensures var f := MakeRoundedRectangleFactory(size, radius, q);
      f.perCorner >= 1 && f.perCorner >= q && PointCount(f) > 0
      && f.factory.quality == PointCount(f) && f.factory.radius == radius
  {
  }

  /** `corner = i / perCorner` for a normalised index lies in [0, 4). */
  function Corner(f: RoundedRectangleFactory, i: int): (c: int)
    requires f.perCorner >= 1 && 0 <= i < PointCount(f)
    ensures 0 <= c < 4
    ensures c * f.perCorner <= i < (c + 1) * f.perCorner
  {
    DivBounds(i, f.perCorner, 4);
    i / f.perCorner
  }

  /** For 0 <= i < m·p, the quotient i / p lies in [0, m) and brackets i. */
  lemma DivBounds(i: int, p: int, m: int)
    requires p >= 1 && 0 <= i < m * p
    ensures 0 <= i / p < m
    ensures (i / p) * p <= i < (i / p + 1) * p
  {
    var c := i / p;
    assert i == c * p + i % p;
    assert c * p - m * p == (c - m) * p;
    if c > m {
      MulAtLeast(c - m, p);
      assert false;
    } else if c == m {
      assert false;
    }
    assert (c + 1) * p == c * p + p;
  }

  /** `inCorner = i % perCorner` lies in [0, perCorner). */
  function InCorner(f: RoundedRectangleFactory, i: int): (k: int)
    requires f.perCorner >= 1 && 0 <= i
    ensures 0 <= k < f.perCorner
  {
    TruncMod(i, f.perCorner)
  }

  /**
   * `circleIndex = ((corner + 3) % 4) · perCorner + inCorner`: corner k draws
   * from quadrant (k + 3) mod 4 of the circle, and the index stays in range.
   */
  function CircleIndex(f: RoundedRectangleFactory, i: int): (ci: int)
    requires f.perCorner >= 1 && 0 <= i < PointCount(f)
    ensures 0 <= ci < PointCount(f)
    ensures ci / f.perCorner == (Corner(f, i) + 3) % 4
    ensures ci % f.perCorner == i % f.perCorner
  {
    var p := f.perCorner;
    var quadrant := TruncMod(Corner(f, i) + 3, 4);
    var ci := quadrant * p + InCorner(f, i);
    EuclidUnique(ci, p, quadrant, InCorner(f, i));
    assert quadrant * p <= 3 * p by {
      assert 3 * p - quadrant * p == (3 - quadrant) * p;
      if quadrant < 3 { MulAtLeast(3 - quadrant, p); }
    }
    ci
  }

  /** RoundedRectangleFactory::getPoint: the corner's centre plus its arc point. */
  function RoundedPoint(f: RoundedRectangleFactory, index: int, trig: Trig): Vec2
  {
    var n := PointCount(f);
    if n <= 0 then Origin
    else
      NormalizeIndexIsEuclidean(index, n);
      var i := NormalizeIndex(index, n);
      Add(CornerCenter(f, Corner(f, i)), CirclePoint(f.factory, CircleIndex(f, i), trig))
  }

  /** getPoint is periodic with period `pointCount()`. */
  lemma RoundedPointPeriodic(f: RoundedRectangleFactory, index: int, trig: Trig)
    ensures RoundedPoint(f, index + PointCount(f), trig) == RoundedPoint(f, index, trig)
  {
    if PointCount(f) > 0 {
      NormalizeIndexPeriodic(index, PointCount(f));
    }
  }

  /**
   * The first corner (centre (w−r, r)) uses the fourth quadrant of the
   * circle, and the next corners use the first, second and third quadrants.
   */
  lemma CornerQuadrants(f: RoundedRectangleFactory, i: int)
    requires f.perCorner >= 1 && 0 <= i < PointCount(f)
    ensures Corner(f, i) == 0 ==> CircleIndex(f, i) / f.perCorner == 3
    ensures Corner(f, i) == 1 ==> CircleIndex(f, i) / f.perCorner == 0
    ensures Corner(f, i) == 2 ==> CircleIndex(f, i) / f.perCorner == 1
    ensures Corner(f, i) == 3 ==> CircleIndex(f, i) / f.perCorner == 2
  {
  }
}

/**
 * The nested helpers of the classifier: visibility default, the
 * normalised-to-screen mapping, planar vectors, the angle between two
 * vectors, and the slopes whose comparison decides a sign flip.
 */
module PoseGeometry {
  import opened PoseTypes

  /** Swift's `Double.pi`: the double nearest to pi, written out exactly. */
  const Pi: real := 3.141592653589793115997963468544185161590576171875

  /**
   * The two math-library functions the classifier calls: `sqrt` and
   * `acos` (in radians). They are parameters of the model, not definitions.
   */
  datatype Libm = Libm(sqrt: real -> real, acos: real -> real)

  /**
   * What the classifier may rely on from the math library, over the reals:
   * `sqrt` gives the non-negative root, `acos` maps [-1, 1] into [0, Pi]
   * and is exact at -1, 0 and 1.
   */
  ghost predicate Lawful(m: Libm) {
    (forall x :: 0.0 <= x ==> 0.0 <= m.sqrt(x) && m.sqrt(x) * m.sqrt(x) == x)
    && (forall c :: -1.0 <= c <= 1.0 ==> 0.0 <= m.acos(c) <= Pi)
    && m.acos(1.0) == 0.0 && m.acos(0.0) == Pi / 2.0 && m.acos(-1.0) == Pi
  }

  /** A point in screen space (`CGPoint`). */
  datatype Point = Point(x: real, y: real)

  /** The render viewport (`CGSize`). */
  datatype Size = Size(width: real, height: real)

  /** A planar vector, the source's `(Double, Double)` tuple. */
  datatype Vec = Vec(dx: real, dy: real)

  const Zero: Vec := Vec(0.0, 0.0)

  /** `vis`: a missing visibility counts as full confidence. */
  function Vis(p: PosePoint): real {
    match p.visibility
    case Some(v) => v
    case None => 1.0
  }

  /** `screen`: mirror x across the viewport, scale y. */
  function Screen(p: PosePoint, size: Size): Point {
    Point(size.width - p.x * size.width, p.y * size.height)
  }

  /** `vec(a, b)`: the vector from b to a, in normalised landmark space. */
  function Vector(a: PosePoint, b: PosePoint): Vec {
    Vec(a.x - b.x, a.y - b.y)
  }

  /** `dot`: the scalar product. */
  function Dot(u: Vec, v: Vec): real {
    u.dx * v.dx + u.dy * v.dy
  }

  /** `mag`: the Euclidean length, the root of `u.0*u.0 + u.1*u.1`, which is `dot(u, u)`. */
  function Mag(m: Libm, u: Vec): real {
    m.sqrt(Dot(u, u))
  }

  /** `max(-1, min(1, x))`: the cosine clamped into the domain of acos. */
  function Clamp(x: real): (c: real)
    ensures -1.0 <= c <= 1.0
    ensures -1.0 <= x <= 1.0 ==> c == x
    ensures x < -1.0 ==> c == -1.0
    ensures 1.0 < x ==> c == 1.0
  {
    var lo := if 1.0 < x then 1.0 else x;
    if -1.0 < lo then lo else -1.0
  }

  /** `denom` in `angleDeg`: the product of the two lengths. */
  function Denom(m: Libm, u: Vec, v: Vec): real {
    Mag(m, u) * Mag(m, v)
  }

  /** `dot(u, v) / denom`: the cosine before clamping. */
  function Cosine(m: Libm, u: Vec, v: Vec): real
    requires Denom(m, u, v) != 0.0
  {
    Dot(u, v) / Denom(m, u, v)
  }

  /** `angleDeg`: the unsigned angle between u and v in degrees, 0 for a zero length. */
  function AngleDeg(m: Libm, u: Vec, v: Vec): real {
    if Denom(m, u, v) == 0.0 then 0.0
    else m.acos(Clamp(Cosine(m, u, v))) * 180.0 / Pi
  }

  // ---------------------------------------------------------------------
  // Lemmas about the helpers

  /** A product of two positive reals is positive. */
  lemma MulPos(a: real, b: real)
    requires 0.0 < a && 0.0 < b
    ensures 0.0 < a * b
  {
  }

  /** A square is never negative, and it is positive for a non-zero real. */
  lemma SquareSign(x: real)
    ensures 0.0 <= x * x
    ensures x != 0.0 ==> 0.0 < x * x
  {
  }

  /** The squared length is never negative, and it is positive for a non-zero vector. */
  lemma SquaredLengthSign(u: Vec)
    ensures 0.0 <= Dot(u, u)
    ensures u != Zero ==> 0.0 < Dot(u, u)
  {
    if u == Zero {
      calc {
        Dot(u, u);
        ==
        u.dx * u.dx + u.dy * u.dy;
        >= { SquareSign(u.dx); SquareSign(u.dy); }
        0.0;
      }
    } else {
      calc {
        Dot(u, u);
        ==
        u.dx * u.dx + u.dy * u.dy;
        > { SquareSign(u.dx); SquareSign(u.dy); }
        0.0;
      }
    }
  }

  /** A product of two non-negative reals is non-negative. */
  lemma MulNonNeg(a: real, b: real)
    requires 0.0 <= a && 0.0 <= b
    ensures 0.0 <= a * b
  {
  }

  /** A fraction t in [0, 1] of a non-negative w lies in [0, w]. */
  lemma ScaleWithin(t: real, w: real)
    requires 0.0 <= t <= 1.0 && 0.0 <= w
    ensures 0.0 <= t * w <= w
  {
    MulNonNeg(t, w);
    MulNonNeg(1.0 - t, w);
    assert (1.0 - t) * w == w - t * w;
  }

  /** A real whose square is positive is not zero. */
  lemma RootNonZero(s: real, a: real)
    requires s * s == a && 0.0 < a
    ensures s != 0.0
  {
  }

  /** Two non-negative reals with equal squares are equal. */
  lemma SquareInjective(s: real, t: real)
    requires 0.0 <= s && 0.0 <= t && s * s == t * t
    ensures s == t
  {
    if s < t {
      MulPos(t - s, t + s);
      assert false;
    } else if t < s {
      MulPos(s - t, s + t);
      assert false;
    }
  }

  /** The length is the non-negative root of the squared length. */
  lemma MagSquare(m: Libm, u: Vec)
    requires Lawful(m)
    ensures 0.0 <= Dot(u, u)
    ensures 0.0 <= Mag(m, u) && Mag(m, u) * Mag(m, u) == Dot(u, u)
  {
    SquaredLengthSign(u);
  }

  /** Over the reals a length is the unique non-negative root of the squared length. */
  lemma MagUnique(m: Libm, u: Vec, t: real)
    requires Lawful(m)
    requires 0.0 <= t && t * t == Dot(u, u)
    ensures Mag(m, u) == t
  {
    MagSquare(m, u);
    SquareInjective(Mag(m, u), t);
  }

  /** A length is never negative, and it is zero exactly for the zero vector. */
  lemma MagZeroIff(m: Libm, u: Vec)
    requires Lawful(m)
    ensures 0.0 <= Mag(m, u)
    ensures Mag(m, u) == 0.0 <==> u == Zero
  {
    MagSquare(m, u);
    if u == Zero {
      MagUnique(m, u, 0.0);
    } else {
      SquaredLengthSign(u);
      RootNonZero(Mag(m, u), Dot(u, u));
    }
  }

  /** A non-zero vector has a positive length, the root of its squared length. */
  lemma MagPositive(m: Libm, u: Vec)
    requires Lawful(m)
    requires u != Zero
    ensures 0.0 < Mag(m, u) && Mag(m, u) * Mag(m, u) == Dot(u, u)
  {
    MagZeroIff(m, u);
    MagSquare(m, u);
  }

  /** `angleDeg` takes its zero branch exactly when one of the vectors is zero. */
  lemma DegenerateIff(m: Libm, u: Vec, v: Vec)
    requires Lawful(m)
    ensures Denom(m, u, v) == 0.0 <==> u == Zero || v == Zero
  {
    MagZeroIff(m, u);
    MagZeroIff(m, v);
    if u != Zero && v != Zero {
      MulPos(Mag(m, u), Mag(m, v));
    }
  }

  /** A zero vector on either side gives the angle 0. */
  lemma AngleDegDegenerate(m: Libm, u: Vec, v: Vec)
    requires Lawful(m)
    requires u == Zero || v == Zero
    ensures AngleDeg(m, u, v) == 0.0
  {
    DegenerateIff(m, u, v);
  }

  /** The angle is the same whichever vector comes first. */
  lemma AngleDegSymmetric(m: Libm, u: Vec, v: Vec)
    ensures AngleDeg(m, u, v) == AngleDeg(m, v, u)
  {
    assert Denom(m, u, v) == Denom(m, v, u);
    assert Dot(u, v) == Dot(v, u);
  }

  /** The angle lies in [0, 180] degrees. */
  lemma AngleDegBounds(m: Libm, u: Vec, v: Vec)
    requires Lawful(m)
    ensures 0.0 <= AngleDeg(m, u, v) <= 180.0
  {
    if Denom(m, u, v) != 0.0 {
      var a := m.acos(Clamp(Cosine(m, u, v)));
      assert 0.0 <= a <= Pi;
    }
  }

  /** Lagrange's identity in the plane: the squared dot product is at most the product of squared lengths. */
  lemma DotSquareBound(u: Vec, v: Vec)
    ensures Dot(u, v) * Dot(u, v) <= Dot(u, u) * Dot(v, v)
  {
    var w := u.dx * v.dy - u.dy * v.dx;
    assert Dot(u, u) * Dot(v, v) - Dot(u, v) * Dot(u, v) == w * w;
    SquareSign(w);
  }

  /** A real whose square is at most n * n, for positive n, lies in [-n, n]. */
  lemma BoundFromSquares(d: real, n: real)
    requires 0.0 < n && d * d <= n * n
    ensures -n <= d <= n
  {
    if n < d {
      MulPos(d - n, d + n);
      assert false;
    } else if d < -n {
      MulPos(-d - n, n - d);
      assert false;
    }
  }

  /** A quotient by a positive n of a number in [-n, n] lies in [-1, 1]. */
  lemma QuotientBound(d: real, n: real)
    requires 0.0 < n && -n <= d <= n
    ensures -1.0 <= d / n <= 1.0
  {
    var r := d / n;
    assert r * n == d;
    if 1.0 < r {
      MulPos(r - 1.0, n);
      assert false;
    } else if r < -1.0 {
      MulPos(-1.0 - r, n);
      assert false;
    }
  }

  /** The arithmetic core of Cauchy-Schwarz: d^2 <= p^2 q^2 puts d / (p q) in [-1, 1]. */
  lemma CosineBound(d: real, a: real, b: real, p: real, q: real)
    requires 0.0 < p && 0.0 < q && p * p == a && q * q == b && d * d <= a * b
    ensures p * q != 0.0
    ensures -1.0 <= d / (p * q) <= 1.0
  {
    MulPos(p, q);
    var n := p * q;
    assert n * n == a * b;
    BoundFromSquares(d, n);
    QuotientBound(d, n);
  }

  /** Cauchy-Schwarz for the cosine, from the facts about the two lengths. */
  lemma CosineWithinUnit(m: Libm, u: Vec, v: Vec)
    requires Lawful(m)
    requires 0.0 < Mag(m, u) && 0.0 < Mag(m, v)
    requires Mag(m, u) * Mag(m, u) == Dot(u, u) && Mag(m, v) * Mag(m, v) == Dot(v, v)
    requires Dot(u, v) * Dot(u, v) <= Dot(u, u) * Dot(v, v)
    ensures Denom(m, u, v) != 0.0
    ensures -1.0 <= Cosine(m, u, v) <= 1.0
  {
    CosineBound(Dot(u, v), Dot(u, u), Dot(v, v), Mag(m, u), Mag(m, v));
    assert Denom(m, u, v) == Mag(m, u) * Mag(m, v);
  }

  /**
   * Cauchy-Schwarz: for two non-zero vectors the cosine already lies in
   * [-1, 1], so over the reals the clamp in `angleDeg` never changes it
   * (it guards against rounding in floating point).
   */
  lemma ClampInactive(m: Libm, u: Vec, v: Vec)
    requires Lawful(m)
    requires u != Zero && v != Zero
    ensures Denom(m, u, v) != 0.0
    ensures -1.0 <= Cosine(m, u, v) <= 1.0
    ensures Clamp(Cosine(m, u, v)) == Cosine(m, u, v)
  {
    MagPositive(m, u);
    MagPositive(m, v);
    DotSquareBound(u, v);
    CosineWithinUnit(m, u, v);
  }

  /** Scaling a vector by k scales its length by |k|. */
  lemma MagScale(m: Libm, u: Vec, k: real)
    requires Lawful(m)
    ensures Mag(m, Vec(k * u.dx, k * u.dy)) == (if k < 0.0 then -k else k) * Mag(m, u)
  {
    var p := Mag(m, u);
    MagSquare(m, u);
    var ak := if k < 0.0 then -k else k;
    if 0.0 < ak && 0.0 < p {
      MulPos(ak, p);
    }
    assert (ak * p) * (ak * p) == (k * k) * (p * p);
    MagUnique(m, Vec(k * u.dx, k * u.dy), ak * p);
  }

  /** Scaling the second vector scales the dot product. */
  lemma DotScale(u: Vec, k: real)
    ensures Dot(u, Vec(k * u.dx, k * u.dy)) == k * Dot(u, u)
  {
  }

  /** (k s) / (p |k| p) is the sign of k when p * p = s > 0. */
  lemma SignRatio(k: real, s: real, p: real, q: real)
    requires 0.0 < s && k != 0.0 && 0.0 < p && p * p == s
    requires q == (if k < 0.0 then -k else k) * p
    ensures p * q != 0.0
    ensures (k * s) / (p * q) == (if k < 0.0 then -1.0 else 1.0)
  {
    var ak := if k < 0.0 then -k else k;
    MulPos(ak, s);
    assert p * q == ak * s;
  }

  /** A vector and a non-zero multiple of it have cosine 1 or -1, the sign of the factor. */
  lemma ScaledCosine(m: Libm, u: Vec, v: Vec, k: real)
    requires Lawful(m)
    requires u != Zero && k != 0.0 && v == Vec(k * u.dx, k * u.dy)
    ensures Denom(m, u, v) != 0.0
    ensures Cosine(m, u, v) == if k < 0.0 then -1.0 else 1.0
  {
    MagPositive(m, u);
    SquaredLengthSign(u);
    MagScale(m, u, k);
    DotScale(u, k);
    SignRatio(k, Dot(u, u), Mag(m, u), Mag(m, v));
  }

  /** Two vectors pointing the same way make the angle 0. */
  lemma AngleDegParallel(m: Libm, u: Vec, v: Vec, k: real)
    requires Lawful(m)
    requires u != Zero && 0.0 < k && v == Vec(k * u.dx, k * u.dy)
    ensures AngleDeg(m, u, v) == 0.0
  {
    ScaledCosine(m, u, v, k);
  }

  /** Two vectors pointing opposite ways make the angle 180. */
  lemma AngleDegOpposite(m: Libm, u: Vec, v: Vec, k: real)
    requires Lawful(m)
    requires u != Zero && k < 0.0 && v == Vec(k * u.dx, k * u.dy)
    ensures AngleDeg(m, u, v) == 180.0
  {
    ScaledCosine(m, u, v, k);
  }

  /** Two non-zero perpendicular vectors make the angle 90. */
  lemma AngleDegPerpendicular(m: Libm, u: Vec, v: Vec)
    requires Lawful(m)
    requires u != Zero && v != Zero && Dot(u, v) == 0.0
    ensures AngleDeg(m, u, v) == 90.0
  {
    DegenerateIff(m, u, v);
  }

  /** The scaled coordinates of a landmark inside the unit square. */
  lemma ScaledIntoViewport(p: PosePoint, size: Size)
    requires 0.0 <= size.width && 0.0 <= size.height
    requires 0.0 <= p.x <= 1.0 && 0.0 <= p.y <= 1.0
    ensures 0.0 <= p.x * size.width <= size.width
    ensures 0.0 <= p.y * size.height <= size.height
  {
    ScaleWithin(p.x, size.width);
    ScaleWithin(p.y, size.height);
  }

  /**
   * A landmark inside the unit square lands inside the viewport, and the
   * mapping mirrors x only: x = 0 goes to the right edge, x = 1 to the left.
   */
  lemma ScreenInViewport(p: PosePoint, size: Size)
    requires 0.0 <= size.width && 0.0 <= size.height
    requires 0.0 <= p.x <= 1.0 && 0.0 <= p.y <= 1.0
    ensures 0.0 <= Screen(p, size).x <= size.width
    ensures 0.0 <= Screen(p, size).y <= size.height
    ensures Screen(p, size).x + p.x * size.width == size.width
  {
    ScaledIntoViewport(p, size);
  }

  /** Mirroring is injective on a non-empty viewport: distinct x stay distinct. */
  lemma ScreenMirrorInjective(p: PosePoint, q: PosePoint, size: Size)
    requires size.width != 0.0
    ensures Screen(p, size).x == Screen(q, size).x <==> p.x == q.x
  {
    if Screen(p, size).x == Screen(q, size).x {
      assert (p.x - q.x) * size.width == 0.0;
    }
  }

  // ---------------------------------------------------------------------
  // Slopes, with the floating-point outcome of a division by zero

  /**
   * The value of `dy / dx` in double arithmetic: a number when dx is
   * non-zero; otherwise plus or minus infinity, or NaN for 0 / 0.
   */
  datatype Slope = Finite(value: real) | PosInf | NegInf | NaN

  /** `dy / dx` where dx is the positive zero that `a - a` produces. */
  function SlopeOf(dy: real, dx: real): Slope {
    if dx != 0.0 then Finite(dy / dx)
    else if 0.0 < dy then PosInf
    else if dy < 0.0 then NegInf
    else NaN
  }

  /** Floating-point `a < b`: false whenever either side is NaN. */
  predicate Less(a: Slope, b: Slope) {
    if a.NaN? || b.NaN? then false
    else if a.Finite? && b.Finite? then a.value < b.value
    else if a.NegInf? then !b.NegInf?
    else b.PosInf? && !a.PosInf?
  }

  /** Floating-point `a >= b`: false whenever either side is NaN. */
  predicate AtLeast(a: Slope, b: Slope) {
    !a.NaN? && !b.NaN? && !Less(a, b)
  }

  /**
   * Away from NaN, `>=` is the negation of `<`; with a NaN both are false,
   * so `>=` and `not <` differ exactly there.
   */
  lemma SlopeOrder(a: Slope, b: Slope)
    ensures a.NaN? || b.NaN? ==> !Less(a, b) && !AtLeast(a, b)
    ensures !a.NaN? && !b.NaN? ==> (AtLeast(a, b) <==> !Less(a, b))
    ensures Less(a, b) ==> !Less(b, a)
  {
  }

  /**
   * With non-zero run on both sides the slope comparison is a cross-product
   * sign test, free of division.
   */
  lemma SlopeLessIffCross(dy1: real, dx1: real, dy2: real, dx2: real)
    requires dx1 != 0.0 && dx2 != 0.0
    ensures Less(SlopeOf(dy1, dx1), SlopeOf(dy2, dx2))
        <==> dx1 * dx2 * (dy1 * dx2 - dy2 * dx1) < 0.0
  {
    var s1, s2 := dy1 / dx1, dy2 / dx2;
    assert s1 * dx1 == dy1 && s2 * dx2 == dy2;
    var k := dx1 * dx2;
    assert 0.0 < k * k;
    assert dx1 * dx2 * (dy1 * dx2 - dy2 * dx1) == (s1 - s2) * (k * k) by {
      assert dy1 * dx2 - dy2 * dx1 == (s1 - s2) * k;
    }
    if s1 < s2 {
      assert (s1 - s2) * (k * k) < 0.0;
    } else {
      assert 0.0 <= (s1 - s2) * (k * k);
    }
  }
}

/** Planar vectors, the Unity math the core relies on, and the laws that math is assumed to obey.

    The engine's cos, sin, sqrt and asin are not defined here: a `Numerics` value carries them as
    functions, and every property that depends on them names the law it needs as a precondition.
    Angles are in degrees on both sides (the Deg2Rad / Rad2Deg conversions are folded in). */
module Vectors {

  /** Vector2 with unbounded real coordinates. */
  datatype Vec2 = Vec2(x: real, y: real) {
    function Plus(o: Vec2): Vec2 { Vec2(x + o.x, y + o.y) }
    function Minus(o: Vec2): Vec2 { Vec2(x - o.x, y - o.y) }
    /** Reflection about the vertical axis through the origin: (x, y) becomes (-x, y). */
    function Mirror(): Vec2 { Vec2(-x, y) }
  }

  const Zero: Vec2 := Vec2(0.0, 0.0)

  function Abs(r: real): real { if r < 0.0 then -r else r }

  /** The engine's numeric primitives: cos and sin of an angle in degrees, sqrt,
      asin with its result in degrees, and Vector2.normalized. */
  datatype Numerics = Numerics(
    cos: real -> real,
    sin: real -> real,
    sqrt: real -> real,
    asin: real -> real,
    normalized: Vec2 -> Vec2)

  /** sqrt is the non-negative square root on non-negative arguments. */
  ghost predicate SqrtLaw(num: Numerics) {
    forall r :: 0.0 <= r ==> 0.0 <= num.sqrt(r) && num.sqrt(r) * num.sqrt(r) == r
  }

  /** asin maps [0, 1] into [0, 90] degrees and inverts sin there. */
  ghost predicate AsinLaw(num: Numerics) {
    forall s :: 0.0 <= s <= 1.0 ==> 0.0 <= num.asin(s) <= 90.0 && num.sin(num.asin(s)) == s
  }

  /** asin undoes sin on [0, 90] degrees. */
  ghost predicate AsinOfSinLaw(num: Numerics) {
    forall x :: 0.0 <= x <= 90.0 ==> num.asin(num.sin(x)) == x
  }

  /** sin(2a) = 2 sin(a) cos(a). */
  ghost predicate DoubleAngleLaw(num: Numerics) {
    forall a {:trigger num.cos(a)} :: num.sin(2.0 * a) == 2.0 * num.sin(a) * num.cos(a)
  }

  /** cos and sin are non-negative in the first quadrant. */
  ghost predicate FirstQuadrantLaw(num: Numerics) {
    forall a :: 0.0 <= a <= 90.0 ==> 0.0 <= num.cos(a) && 0.0 <= num.sin(a)
  }

  /** normalized keeps the sign of the x component and yields an x component of size at most 1. */
  ghost predicate NormalizedLaw(num: Numerics) {
    forall v {:trigger UnitX(v, num.normalized(v))} :: UnitX(v, num.normalized(v))
  }

  /** u.x has the sign of v.x (or is zero) and lies in [-1, 1]. */
  predicate UnitX(v: Vec2, u: Vec2) {
    (0.0 <= v.x ==> 0.0 <= u.x <= 1.0) && (v.x <= 0.0 ==> -1.0 <= u.x <= 0.0)
  }

  /** Vector2.kEpsilon: below this magnitude `normalized` yields the zero vector. */
  const NormalizeEpsilon: real := 0.00001

  function Magnitude(num: Numerics, v: Vec2): real {
    num.sqrt(v.x * v.x + v.y * v.y)
  }

  /** Unity's definition of Vector2.normalized: v scaled to unit length, or zero when v is
      (nearly) zero. */
  function UnityNormalized(num: Numerics, v: Vec2): Vec2 {
    var m := Magnitude(num, v);
    if m > NormalizeEpsilon then Vec2(v.x / m, v.y / m) else Zero
  }

  /** Unity's normalized keeps the sign of v.x and never exceeds 1 in size: with a lawful sqrt,
      taking `normalized` to be UnityNormalized satisfies NormalizedLaw. */
  lemma UnityNormalizedX(num: Numerics, v: Vec2)
    requires SqrtLaw(num)
    ensures UnitX(v, UnityNormalized(num, v))
  {
    var m := Magnitude(num, v);
    if m > NormalizeEpsilon {
      var sum := v.x * v.x + v.y * v.y;
      assert m * m == sum;
      BelowRoot(Abs(v.x), m, sum);
    }
  }

  /** A non-negative number whose square is at most m * m is at most m. */
  lemma BelowRoot(a: real, m: real, s: real)
    requires 0.0 <= a && 0.0 < m && m * m == s && a * a <= s
    ensures a <= m
  {
  }
}

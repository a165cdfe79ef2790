/** Closed-form relations of BodyTrajectory: launch velocity from speed and angle, the range
    of a launch, the inversions of the range formula and the apex of the flight. */
module Parabola {
  import opened Vectors

  /** BodyTrajectory.GRAVITY: magnitude of the downward acceleration. */
  const Gravity: real := 10.0
  /** BodyTrajectory.FLOAT_EPSILON. */
  const FloatEpsilon: real := 0.00001

  /** GetInitialVelocity: speed times the unit vector at `angle` degrees above the horizontal. */
  function InitialVelocity(num: Numerics, speed: real, angle: real): Vec2 {
    Vec2(speed * num.cos(angle), speed * num.sin(angle))
  }

  /** GetRange: horizontal distance between launch and the return to launch height. */
  function Range(v: Vec2): real {
    2.0 * v.x * v.y / Gravity
  }

  /** The denominator of IncreaseRangeWithSpeed: twice the product of the unit direction's
      components, i.e. sin of twice the angle. */
  function RangeDenominator(num: Numerics, angle: real): real {
    2.0 * num.cos(angle) * num.sin(angle)
  }

  /** The range of a launch is speed squared times the angle's denominator over gravity. */
  lemma RangeOfLaunch(num: Numerics, speed: real, angle: real)
    ensures Range(InitialVelocity(num, speed, angle))
         == speed * speed * RangeDenominator(num, angle) / Gravity
  {
    var c, s := num.cos(angle), num.sin(angle);
    calc {
      Range(InitialVelocity(num, speed, angle));
      2.0 * (speed * c) * (speed * s) / Gravity;
      { assert (speed * c) * (speed * s) == speed * speed * (c * s); }
      speed * speed * (2.0 * c * s) / Gravity;
    }
  }

  /** In the first quadrant a launch never has a negative range. */
  lemma RangeNonNegative(num: Numerics, speed: real, angle: real)
    requires FirstQuadrantLaw(num)
    requires 0.0 <= speed && 0.0 <= angle <= 90.0
    ensures 0.0 <= Range(InitialVelocity(num, speed, angle))
  {
    RangeOfLaunch(num, speed, angle);
    assert 0.0 <= num.cos(angle) * num.sin(angle);
    assert 0.0 <= speed * speed;
  }

  /** Speed inversion (IncreaseRangeWithSpeed): with the angle fixed and a non-degenerate
      denominator, the speed sqrt(range * G / denom) launches exactly `range` far. */
  lemma SpeedForRange(num: Numerics, angle: real, range: real)
    requires SqrtLaw(num)
    requires RangeDenominator(num, angle) > FloatEpsilon
    requires 0.0 <= range
    ensures Range(InitialVelocity(num, num.sqrt(range * Gravity / RangeDenominator(num, angle)), angle))
         == range
  {
    var d := RangeDenominator(num, angle);
    var q := range * Gravity / d;
    assert 0.0 <= q;
    var speed := num.sqrt(q);
    assert speed * speed == q;
    RangeOfLaunch(num, speed, angle);
    calc {
      speed * speed * d / Gravity;
      q * d / Gravity;
      range;
    }
  }

  /** The other round trip of the speed inversion: the speed computed for the range of a launch
      is the launch's own speed. */
  lemma SpeedRoundTrip(num: Numerics, angle: real, speed: real)
    requires SqrtLaw(num)
    requires RangeDenominator(num, angle) > FloatEpsilon
    requires 0.0 <= speed
    ensures num.sqrt(Range(InitialVelocity(num, speed, angle)) * Gravity / RangeDenominator(num, angle))
         == speed
  {
    var d := RangeDenominator(num, angle);
    RangeOfLaunch(num, speed, angle);
    var q := Range(InitialVelocity(num, speed, angle)) * Gravity / d;
    assert q == speed * speed;
    var r := num.sqrt(q);
    assert 0.0 <= r && r * r == q;
    SameSquare(r, speed);
  }

  /** Two non-negative numbers with the same square are equal. */
  lemma SameSquare(a: real, b: real)
    requires 0.0 <= a && 0.0 <= b && a * a == b * b
    ensures a == b
  {
    if a < b {
      SquareGrows(a, b);
    } else if b < a {
      SquareGrows(b, a);
    }
  }

  lemma SquareGrows(a: real, b: real)
    requires 0.0 <= a < b
    ensures a * a < b * b
  {
    PositiveProduct(b - a, b + a);
    assert (b - a) * (b + a) == b * b - a * a;
  }

  /** sin of twice the angle that carries a launch at `speed` exactly `range` far. */
  function SinDoubleAngle(range: real, speed: real): real
    requires speed != 0.0
  {
    range * Gravity / (speed * speed)
  }

  /** Angle inversion (IncreaseRangeWithVelocitySlopeAngle): with the speed fixed and
      s = range * G / speed^2 in [0, 1], the angle asin(s) / 2 lies in [0, 45] degrees and
      launches exactly `range` far. */
  lemma AngleForRange(num: Numerics, speed: real, range: real)
    requires AsinLaw(num) && DoubleAngleLaw(num)
    requires speed > FloatEpsilon
    requires 0.0 <= SinDoubleAngle(range, speed) <= 1.0
    ensures var angle := num.asin(SinDoubleAngle(range, speed)) / 2.0;
      && 0.0 <= angle <= 45.0
      && Range(InitialVelocity(num, speed, angle)) == range
  {
    var s := SinDoubleAngle(range, speed);
    var angle := num.asin(s) / 2.0;
    assert 2.0 * angle == num.asin(s);
    assert num.sin(2.0 * angle) == 2.0 * num.sin(angle) * num.cos(angle);
    assert RangeDenominator(num, angle) == s;
    RangeOfLaunch(num, speed, angle);
    calc {
      speed * speed * s / Gravity;
      { assert speed * speed * s == range * Gravity; }
      range;
    }
  }

  /** The other round trip of the angle inversion: for a launch at an angle of at most 45
      degrees, the angle computed for its range is its own angle. (Above 45 degrees the inversion
      returns the complementary angle, 90 degrees less the launch angle, which carries as far.) */
  lemma AngleRoundTrip(num: Numerics, speed: real, angle: real)
    requires AsinOfSinLaw(num) && DoubleAngleLaw(num)
    requires speed > FloatEpsilon
    requires 0.0 <= angle <= 45.0
    ensures num.asin(SinDoubleAngle(Range(InitialVelocity(num, speed, angle)), speed)) / 2.0 == angle
  {
    var d := RangeDenominator(num, angle);
    RangeOfLaunch(num, speed, angle);
    var range := Range(InitialVelocity(num, speed, angle));
    PositiveProduct(speed, speed);
    var sq := speed * speed;
    assert range * Gravity == d * sq;
    assert SinDoubleAngle(range, speed) == d;
    assert num.sin(2.0 * angle) == 2.0 * num.sin(angle) * num.cos(angle);
    assert num.asin(num.sin(2.0 * angle)) == 2.0 * angle;
  }

  /** A launch from `origin` with velocity `v`: the quantities UpdateTrajectory derives. */
  datatype Launch = Launch(origin: Vec2, v: Vec2) {
    /** Time to the apex. */
    function TTop(): real { v.y / Gravity }
    /** Height of the apex above the launch point. */
    function HMax(): real { Gravity * TTop() * TTop() / 2.0 }
    /** Coefficient of the apex-centred parabola y = x^2 * XSquaredMlp(). */
    function XSquaredMlp(): real
      requires v.x != 0.0
    {
      -Gravity / (2.0 * v.x * v.x)
    }
    /** pTop: the apex of the flight. */
    function Apex(): Vec2 {
      origin.Plus(Vec2(v.x * TTop(), v.y * TTop() - HMax()))
    }
  }

  /** The apex lies HMax above the launch point and half the range ahead of it, and
      HMax is never negative. */
  lemma ApexGeometry(l: Launch)
    ensures 0.0 <= l.HMax()
    ensures l.Apex().y == l.origin.y + l.HMax()
    ensures l.Apex().x == l.origin.x + Range(l.v) / 2.0
  {
    var t := l.TTop();
    assert l.v.y == Gravity * t;
    assert l.v.y * t == Gravity * t * t;
    assert 0.0 <= t * t;
    assert l.v.x * t == l.v.x * l.v.y / Gravity;
  }

  /** The apex-centred parabola opens downwards. */
  lemma OpensDownwards(l: Launch)
    requires l.v.x != 0.0
    ensures l.XSquaredMlp() < 0.0
  {
    NegativeCoefficient(Gravity, l.v.x);
  }

  /** -g / (2 x^2) is negative for positive g and non-zero x. */
  lemma NegativeCoefficient(g: real, x: real)
    requires 0.0 < g && x != 0.0
    ensures -g / (2.0 * x * x) < 0.0
  {
    if x < 0.0 {
      var y := -x;
      NegativeCoefficientRight(g, y);
      assert 2.0 * x * x == 2.0 * y * y;
    } else {
      NegativeCoefficientRight(g, x);
    }
  }

  lemma NegativeCoefficientRight(g: real, x: real)
    requires 0.0 < g && 0.0 < x
    ensures -g / (2.0 * x * x) < 0.0
  {
    var twice := 2.0 * x;
    PositiveProduct(twice, x);
    NegativeQuotient(g, twice * x);
  }

  lemma PositiveProduct(a: real, b: real)
    requires 0.0 < a && 0.0 < b
    ensures 0.0 < a * b
  {
  }

  lemma NegativeQuotient(g: real, d: real)
    requires 0.0 < g && 0.0 < d
    ensures -g / d < 0.0
  {
  }
}

/** TrajectoryBody: the analytic flight of the ball. While the position-update routine runs,
    every frame moves the body along the launch-anchored parabola; the first frame that would
    take it below launch height ends the flight and hands the body back to the physics engine. */
module Flight {
  import opened Wrappers
  import opened Vectors
  import opened Parabola
  import opened Preview
  import opened Scene
  import opened Trajectory

  /** Physics2D.gravity.y, which Awake sets to -GRAVITY. */
  const GravityY: real := -Gravity

  /** The height of the flight above x: the parabola through the launch point p0 with the
      launch slope v0.y / v0.x, curved by gravity. */
  function LaunchHeight(v0: Vec2, p0: Vec2, x: real): real
    requires v0.x != 0.0
  {
    var s := x - p0.x;
    p0.y + s * v0.y / v0.x + GravityY * s * s / (2.0 * v0.x * v0.x)
  }

  /** GetUpdatedPosition: advance x by v0.x * dt and read y off the launch curve; a (nearly)
      vertical launch does not move. */
  function UpdatedPosition(v0: Vec2, p0: Vec2, position: Vec2, dt: real): Vec2 {
    if Abs(v0.x) > FloatEpsilon then
      var x := position.x + v0.x * dt;
      Vec2(x, LaunchHeight(v0, p0, x))
    else
      position
  }

  /** The time since launch at which the flight reaches x. */
  function ElapsedTime(v0: Vec2, p0: Vec2, x: real): real
    requires v0.x != 0.0
  {
    (x - p0.x) / v0.x
  }

  /** GetVelocity: the velocity of the flight at the body's position, handed to the physics
      engine when the flight ends. */
  function HandOffVelocity(v0: Vec2, p0: Vec2, position: Vec2): Vec2
    requires v0.x != 0.0
  {
    Vec2(v0.x, v0.y + GravityY * ElapsedTime(v0, p0, position.x))
  }

  /** A position the flight can occupy: on the launch curve, reached at a non-negative time,
      and not below launch height; a vertical launch stays at the launch point. */
  ghost predicate Airborne(v0: Vec2, p0: Vec2, position: Vec2) {
    && p0.y <= position.y
    && (Abs(v0.x) > FloatEpsilon ==>
          position.y == LaunchHeight(v0, p0, position.x) && 0.0 <= ElapsedTime(v0, p0, position.x))
    && (Abs(v0.x) <= FloatEpsilon ==> position == p0)
  }

  lemma NonZeroProduct(a: real, b: real)
    requires a != 0.0 && b != 0.0
    ensures a * b != 0.0
  {
  }

  lemma DivExact(n: real, d: real, q: real)
    requires d != 0.0 && n == q * d
    ensures n / d == q
  {
  }

  /** The launch curve starts at the launch point. */
  lemma StartsAtLaunch(v0: Vec2, p0: Vec2)
    requires v0.x != 0.0
    ensures LaunchHeight(v0, p0, p0.x) == p0.y
    ensures ElapsedTime(v0, p0, p0.x) == 0.0
  {
    KinematicHeight(v0, p0, p0.x, 0.0);
  }

  /** The launch curve is the path of a body thrown from p0 with velocity v0 under gravity:
      at time t it is at x = p0.x + v0.x * t, at height p0.y + v0.y * t - G * t^2 / 2. */
  lemma KinematicHeight(v0: Vec2, p0: Vec2, x: real, t: real)
    requires v0.x != 0.0 && x == p0.x + v0.x * t
    ensures LaunchHeight(v0, p0, x) == p0.y + v0.y * t - Gravity * t * t / 2.0
    ensures ElapsedTime(v0, p0, x) == t
  {
    var vx, vy := v0.x, v0.y;
    var s := x - p0.x;
    assert s == vx * t;
    assert s * vy == (t * vy) * vx;
    DivExact(s * vy, vx, t * vy);
    var twice := 2.0 * vx;
    NonZeroProduct(twice, vx);
    var d := twice * vx;
    assert GravityY * s * s == (-Gravity * t * t / 2.0) * d;
    DivExact(GravityY * s * s, d, -Gravity * t * t / 2.0);
    DivExact(s, vx, t);
  }

  lemma ExpandHeight(vy: real, tTop: real, u: real)
    requires vy == Gravity * tTop
    ensures vy * (tTop + u) - Gravity * (tTop + u) * (tTop + u) / 2.0
         == vy * tTop - Gravity * tTop * tTop / 2.0 - Gravity * u * u / 2.0
  {
  }

  lemma ParabolaTerm(vx: real, u: real, px: real)
    requires vx != 0.0 && px == vx * u
    ensures px * px * (-Gravity / (2.0 * vx * vx)) == -Gravity * u * u / 2.0
  {
    var twice := 2.0 * vx;
    NonZeroProduct(twice, vx);
    var d := twice * vx;
    assert (vx * u) * (vx * u) == (u * u / 2.0) * d;
  }

  /** The flight passes through the apex that BodyTrajectory computes. */
  lemma ApexOnLaunchCurve(l: Launch)
    requires l.v.x != 0.0
    ensures LaunchHeight(l.v, l.origin, l.Apex().x) == l.Apex().y
  {
    KinematicHeight(l.v, l.origin, l.Apex().x, l.TTop());
  }

  /** Every point of the apex-centred parabola y = x^2 * XSquaredMlp, placed at the apex, lies
      on the launch curve: the preview is drawn on the path the ball flies. */
  lemma ApexParabolaOnLaunchCurve(l: Launch, p: Vec2)
    requires l.v.x != 0.0 && OnParabola(l.XSquaredMlp(), p)
    ensures LaunchHeight(l.v, l.origin, l.Apex().x + p.x) == l.Apex().y + p.y
  {
    var vx, vy, t := l.v.x, l.v.y, l.TTop();
    var u := p.x / vx;
    assert vx * u == p.x;
    assert l.Apex().x + p.x == l.origin.x + vx * (t + u);
    KinematicHeight(l.v, l.origin, l.Apex().x + p.x, t + u);
    ExpandHeight(vy, t, u);
    ParabolaTerm(vx, u, p.x);
  }

  /** Every marker the preview shows lies on the launch curve. */
  lemma PreviewOnLaunchCurve(num: Numerics, l: Launch, n: int, i: nat)
    requires l.v.x != 0.0
    requires Slot(num, l, n, i).active
    ensures var q := Slot(num, l, n, i).position; q.y == LaunchHeight(l.v, l.origin, q.x)
  {
    SlotIsDrawn(num, l, n, i);
    var a := l.XSquaredMlp();
    if i == 0 {
      ApexOnLaunchCurve(l);
    } else {
      var p := Point(num, a, if i % 2 == 1 then (i + 1) / 2 else i / 2);
      PointOnParabola(num, a, if i % 2 == 1 then (i + 1) / 2 else i / 2);
      var m := if i % 2 == 1 then p else p.Mirror();
      assert OnParabola(a, m);
      ApexParabolaOnLaunchCurve(l, m);
    }
  }

  /** A frame of flight either stays airborne or lands: a step from an airborne position that
      is not below launch height is airborne again. */
  lemma StepStaysAirborne(v0: Vec2, p0: Vec2, position: Vec2, dt: real)
    requires Airborne(v0, p0, position) && 0.0 <= dt
    requires p0.y <= UpdatedPosition(v0, p0, position, dt).y
    ensures Airborne(v0, p0, UpdatedPosition(v0, p0, position, dt))
  {
    if Abs(v0.x) > FloatEpsilon {
      ElapsedAfterStep(v0.x, p0.x, position.x, dt);
    }
  }

  /** A frame of length dt adds dt to the elapsed time. */
  lemma ElapsedAfterStep(vx: real, x0: real, x: real, dt: real)
    requires vx != 0.0
    ensures ((x + vx * dt) - x0) / vx == (x - x0) / vx + dt
  {
    var t := (x - x0) / vx;
    assert vx * t == x - x0 by {
      DivExact(x - x0, vx, t);
    }
    DivExact((x + vx * dt) - x0, vx, t + dt);
  }

  /** A vertical launch never lands: its step leaves the body where it is. */
  lemma VerticalNeverLands(v0: Vec2, p0: Vec2, position: Vec2, dt: real)
    requires Airborne(v0, p0, position) && Abs(v0.x) <= FloatEpsilon
    ensures UpdatedPosition(v0, p0, position, dt) == position
    ensures p0.y <= UpdatedPosition(v0, p0, position, dt).y
  {
  }

  lemma NonNegativeProduct(a: real, b: real)
    requires 0.0 <= a && 0.0 <= b
    ensures 0.0 <= a * b
  {
  }

  lemma PositiveFactor(t: real, w: real)
    requires 0.0 < t && 0.0 <= t * w
    ensures 0.0 <= w
  {
  }

  /** An airborne body has flown for a non-negative time, and once it has left the launch point
      no longer than a launch takes to come back to launch height, 2 * v0.y / G. */
  lemma AirborneWithinFlightTime(v0: Vec2, p0: Vec2, position: Vec2)
    requires Airborne(v0, p0, position) && Abs(v0.x) > FloatEpsilon
    ensures var t := ElapsedTime(v0, p0, position.x);
      0.0 <= t && (0.0 < t ==> Gravity * t <= 2.0 * v0.y)
  {
    var t := ElapsedTime(v0, p0, position.x);
    assert v0.x * t == position.x - p0.x by {
      DivExact(position.x - p0.x, v0.x, t);
    }
    KinematicHeight(v0, p0, position.x, t);
    var w := v0.y - Gravity * t / 2.0;
    assert t * w == v0.y * t - Gravity * t * t / 2.0;
    assert 0.0 <= t * w;
    if 0.0 < t {
      PositiveFactor(t, w);
    }
  }

  /** The velocity handed back when a flight ends keeps the horizontal speed, and its vertical
      part is no larger in size than at launch: between +|v0.y| on the way up and -|v0.y| on the
      way down. */
  lemma HandOffBounded(v0: Vec2, p0: Vec2, position: Vec2)
    requires Airborne(v0, p0, position) && Abs(v0.x) > FloatEpsilon
    ensures HandOffVelocity(v0, p0, position).x == v0.x
    ensures -Abs(v0.y) <= HandOffVelocity(v0, p0, position).y <= Abs(v0.y)
  {
    AirborneWithinFlightTime(v0, p0, position);
  }

  /** From the launch point, the first frame of length dt > 0 already lands exactly when the
      launch climbs slower than G * dt / 2; a flat launch (v0.y = 0) always does. */
  lemma FirstStepLands(v0: Vec2, p0: Vec2, dt: real)
    requires Abs(v0.x) > FloatEpsilon && 0.0 < dt
    ensures UpdatedPosition(v0, p0, p0, dt).y < p0.y <==> v0.y < Gravity * dt / 2.0
  {
    var x := p0.x + v0.x * dt;
    KinematicHeight(v0, p0, x, dt);
    assert v0.y * dt - Gravity * dt * dt / 2.0 == dt * (v0.y - Gravity * dt / 2.0);
    var w := v0.y - Gravity * dt / 2.0;
    assert UpdatedPosition(v0, p0, p0, dt).y == p0.y + dt * w;
    if w < 0.0 {
      PositiveProduct(dt, -w);
      assert dt * (-w) == -(dt * w);
    } else {
      NonNegativeProduct(dt, w);
    }
  }

  /** A flat launch (no vertical speed) lands on its very first frame, inside the synchronous
      part of the coroutine that StartPositionUpdateRoutine starts. */
  lemma FlatLaunchLandsAtOnce(vx: real, p0: Vec2, dt: real)
    requires Abs(vx) > FloatEpsilon && 0.0 < dt
    ensures UpdatedPosition(Vec2(vx, 0.0), p0, p0, dt).y < p0.y
  {
    FirstStepLands(Vec2(vx, 0.0), p0, dt);
  }

  /** The launch point itself is airborne. */
  lemma LaunchPointAirborne(v0: Vec2, p0: Vec2)
    ensures Airborne(v0, p0, p0)
  {
    if Abs(v0.x) > FloatEpsilon {
      StartsAtLaunch(v0, p0);
    }
  }

  /** The invocations `onEnd?.Invoke()` performs: none for a null callback. */
  function Invocation(onEnd: Option<nat>): seq<nat> {
    if onEnd.Some? then [onEnd.value] else []
  }

  /** The ball. Its rigid body is reduced to the two properties the flight sets, `simulated` and
      `velocity`; the position-update coroutine to its handle and whether it is still alive. */
  class TrajectoryBody {
    const trajectory: BodyTrajectory
    const transform: Transform
    /** rigidbody.simulated: whether the physics engine moves the body. */
    var simulated: bool
    /** rigidbody.velocity. */
    var velocity: Vec2
    var initialPosition: Vec2
    var initialVelocity: Vec2
    /** updatePositionRoutine != null. */
    var updatePositionRoutine: bool
    /** The coroutine the handle was last given is neither finished nor stopped. */
    var routineAlive: bool
    /** The onEnd action of the live coroutine, identified by a number; None for null. */
    var onEnd: Option<nat>
    /** Every onEnd action invoked so far, in order. */
    var invoked: seq<nat>

    /** Awake, with the fields' default values and a fresh rigid body. */
    constructor(trajectory: BodyTrajectory, transform: Transform)
      ensures this.trajectory == trajectory && this.transform == transform
      ensures simulated && velocity == Zero
      ensures initialPosition == Zero && initialVelocity == Zero
      ensures !IsUpdatingPosition() && !routineAlive
      ensures onEnd == None && invoked == []
      ensures Valid()
    {
      this.trajectory := trajectory;
      this.transform := transform;
      simulated := true;
      velocity := Zero;
      initialPosition := Zero;
      initialVelocity := Zero;
      updatePositionRoutine := false;
      routineAlive := false;
      onEnd := None;
      invoked := [];
    }

    predicate IsUpdatingPosition()
      reads this
    {
      updatePositionRoutine
    }

    /** The handle is set exactly while a flight goes on, and a flight in progress keeps the
        body on its launch curve, not below launch height. */
    ghost predicate Valid()
      reads this, transform
    {
      && updatePositionRoutine == routineAlive
      && (routineAlive ==> Airborne(initialVelocity, initialPosition, transform.position))
    }

    /** ResetBody: back to the launch position, at rest, under physics. The trajectory preview
        is re-attached to the body, which this model does not represent. */
    method ResetBody()
      modifies this, transform
      ensures simulated && velocity == Zero && transform.position == initialPosition
      ensures initialPosition == old(initialPosition) && initialVelocity == old(initialVelocity)
      ensures updatePositionRoutine == old(updatePositionRoutine)
      ensures routineAlive == old(routineAlive)
      ensures onEnd == old(onEnd) && invoked == old(invoked)
      ensures old(Valid()) ==> Valid()
    {
      simulated := true;
      velocity := Zero;
      transform.position := initialPosition;
      LaunchPointAirborne(initialVelocity, initialPosition);
    }

    /** One resumption of UpdatePositionRoutine: a frame of length dt either moves the body
        along the launch curve or, when that would take it below launch height, ends the flight:
        physics takes over with the flight's velocity, the handle is cleared, then onEnd runs. */
    method Step(dt: real) returns (landed: bool)
      requires routineAlive && Airborne(initialVelocity, initialPosition, transform.position)
      requires 0.0 <= dt
      modifies this, transform
      ensures landed <==> UpdatedPosition(initialVelocity, initialPosition, old(transform.position), dt).y < initialPosition.y
      ensures !landed ==> && transform.position == UpdatedPosition(initialVelocity, initialPosition, old(transform.position), dt)
                          && Airborne(initialVelocity, initialPosition, transform.position)
                          && simulated == old(simulated) && velocity == old(velocity)
                          && updatePositionRoutine == old(updatePositionRoutine) && routineAlive
                          && invoked == old(invoked)
      ensures landed ==> && transform.position == old(transform.position)
                         && Abs(initialVelocity.x) > FloatEpsilon && simulated
                         && velocity == HandOffVelocity(initialVelocity, initialPosition, transform.position)
                         && -Abs(initialVelocity.y) <= velocity.y <= Abs(initialVelocity.y)
                         && !updatePositionRoutine && !routineAlive
                         && invoked == old(invoked) + Invocation(onEnd)
      ensures initialPosition == old(initialPosition) && initialVelocity == old(initialVelocity)
      ensures onEnd == old(onEnd)
      ensures old(Valid()) ==> Valid()
      ensures old(updatePositionRoutine) == routineAlive ==> Valid()
    {
      var updated := UpdatedPosition(initialVelocity, initialPosition, transform.position, dt);
      if updated.y >= initialPosition.y {
        StepStaysAirborne(initialVelocity, initialPosition, transform.position, dt);
        transform.position := updated;
        landed := false;
      } else {
        HandOffBounded(initialVelocity, initialPosition, transform.position);
        simulated := true;
        velocity := HandOffVelocity(initialVelocity, initialPosition, transform.position);
        updatePositionRoutine := false;
        routineAlive := false;
        if onEnd.Some? {
          invoked := invoked + [onEnd.value];
        }
        landed := true;
      }
    }

    /** The synchronous part of a new coroutine: everything before its first yield, which
        StartCoroutine runs at once. The routine leaves physics, captures the launch, and takes
        its first frame of length dt. */
    method BeginRoutine(onEnd: Option<nat>, dt: real) returns (landed: bool)
      requires 0.0 <= dt
      modifies this, transform
      ensures initialVelocity == trajectory.GetInitialVelocity()
      ensures initialPosition == old(transform.position) && this.onEnd == onEnd
      ensures landed <==> UpdatedPosition(initialVelocity, initialPosition, initialPosition, dt).y < initialPosition.y
      ensures !landed ==> && transform.position == UpdatedPosition(initialVelocity, initialPosition, initialPosition, dt)
                          && Airborne(initialVelocity, initialPosition, transform.position)
                          && !simulated && velocity == old(velocity) && routineAlive
                          && updatePositionRoutine == old(updatePositionRoutine)
                          && invoked == old(invoked)
      ensures landed ==> && transform.position == initialPosition && simulated
                         && velocity == initialVelocity && !updatePositionRoutine && !routineAlive
                         && invoked == old(invoked) + Invocation(onEnd)
    {
      routineAlive := true;
      this.onEnd := onEnd;
      simulated := false;
      initialVelocity := trajectory.GetInitialVelocity();
      initialPosition := transform.position;
      LaunchPointAirborne(initialVelocity, initialPosition);
      landed := Step(dt);
      if landed {
        StartsAtLaunch(initialVelocity, initialPosition);
      }
    }

    /** StartPositionUpdateRoutine, with the handle recorded before the new coroutine runs: any
        running flight is stopped first (its onEnd never runs), and afterwards the body is
        updating its position exactly when its first frame has not already landed it. */
    method StartPositionUpdateRoutine(onEnd: Option<nat>, dt: real) returns (landed: bool)
      requires 0.0 <= dt
      modifies this, transform
      ensures initialVelocity == trajectory.GetInitialVelocity()
      ensures initialPosition == old(transform.position) && this.onEnd == onEnd
      ensures landed <==> UpdatedPosition(initialVelocity, initialPosition, initialPosition, dt).y < initialPosition.y
      ensures IsUpdatingPosition() <==> !landed
      ensures simulated <==> landed
      ensures landed ==> && transform.position == initialPosition && velocity == initialVelocity
                         && invoked == old(invoked) + Invocation(onEnd)
      ensures !landed ==> && transform.position == UpdatedPosition(initialVelocity, initialPosition, initialPosition, dt)
                          && velocity == old(velocity) && invoked == old(invoked)
      ensures Valid()
    {
      if updatePositionRoutine {
        routineAlive := false;
      }
      updatePositionRoutine := true;
      landed := BeginRoutine(onEnd, dt);
    }

    /** StartPositionUpdateRoutine as the source writes it: the value StartCoroutine returns is
        stored after the coroutine's synchronous part has run. Whether that value is null for a
        coroutine that finished before its first yield is the engine's choice, not visible in
        the game's code: `finishedHandle` says whether the engine returns a handle then. When it
        does and the first frame ends the flight, a handle to a finished coroutine is left
        behind and the body reports that it is still updating its position; when it does not,
        the routine behaves as the corrected one. */
    method StartPositionUpdateRoutineAsWritten(onEnd: Option<nat>, dt: real, finishedHandle: bool)
      returns (landed: bool)
      requires 0.0 <= dt
      modifies this, transform
      ensures initialVelocity == trajectory.GetInitialVelocity()
      ensures initialPosition == old(transform.position) && this.onEnd == onEnd
      ensures landed <==> UpdatedPosition(initialVelocity, initialPosition, initialPosition, dt).y < initialPosition.y
      ensures IsUpdatingPosition() <==> !landed || finishedHandle
      ensures landed ==> && transform.position == initialPosition && simulated && velocity == initialVelocity
                         && !routineAlive && invoked == old(invoked) + Invocation(onEnd)
      ensures !landed ==> && transform.position == UpdatedPosition(initialVelocity, initialPosition, initialPosition, dt)
                          && !simulated && velocity == old(velocity) && routineAlive
                          && invoked == old(invoked)
      ensures landed && finishedHandle ==> !Valid()
      ensures !finishedHandle ==> Valid()
    {
      if updatePositionRoutine {
        routineAlive := false;
      }
      landed := BeginRoutine(onEnd, dt);
      updatePositionRoutine := !landed || finishedHandle;
    }
  }
}

# One Tap Golf: the flight of the ball, its preview, the hole and the score

This project models the core of One Tap Golf, a Unity game in which the player holds a finger down to
stretch the ball's range and lets go to shoot. The ball then flies along an analytic parabola and
has to come to rest in a hole that moves after every level.

The model covers four components:

- **BodyTrajectory** computes the launch velocity from speed and angle. It inverts the range
  formula `R = 2 vx vy / G`, once by speed and once by angle. It also previews the flight in a
  pool of 75 markers, sampled outwards from the apex and mirrored about it.
- **TrajectoryBody** flies the ball. Each frame it moves the ball along the launch-anchored
  parabola. It ends the flight at the first frame that would take the ball below launch height,
  and then hands the ball back to the physics engine with the flight's velocity.
- **HoleBody** moves the hole by a random offset inside a band. It checks whether the ball lies
  inside its collider.
- **GameManager** keeps the level and the score counters in the player-preferences store. It
  scores a hit against the stored best score and sets up each level.

Floats are reals. The engine's cos, sin, sqrt, asin and `Vector2.normalized` are fields of a
`Numerics` value. Each property that depends on them names, as a precondition, the law it needs:
`SqrtLaw`, `AsinLaw`, `AsinOfSinLaw`, `DoubleAngleLaw`, `FirstQuadrantLaw` or `NormalizedLaw`. Angles are in
degrees.

Random draws, the frame time `Time.deltaTime` and the player-preferences store are parameters.
The callbacks the game passes around (`onEnd`, `onLevelSuccess`, `onLevelFail`) are numbers, and
the model logs every invocation of them.

Module layout:

| module | contents |
|---|---|
| `Wrappers` | `Option` |
| `Vectors` | `Vec2`, the numeric primitives and their laws |
| `Parabola` | range, inversions, apex |
| `Preview` | what `UpdateTrajectory` draws, as functions and lemmas |
| `Scene` | `Transform` |
| `Trajectory` | class `BodyTrajectory` |
| `Flight` | flight curve, lemmas, class `TrajectoryBody` |
| `Hole` | class `HoleBody` |
| `Game` | class `GameManager` |

### Behaviour of the code worth knowing

The model follows the code in each of these cases.

- **Angle inversion with a near-zero speed.** When the speed is at most `FLOAT_EPSILON`,
  `IncreaseRangeWithVelocitySlopeAngle` returns the current range without `deltaRange` added.
- **Hand-off velocity is not always descending.** The hand-off velocity is computed at the last
  position written, not at the crossing of launch height. So it is not always descending: a flight
  whose first frame already lands hands back the launch velocity itself, with positive `vy`
  (`Flight.TrajectoryBody.BeginRoutine`). What holds is `|vy_end| <= |vy0|`
  (`Flight.HandOffBounded`).
- **The angle inversion picks the flatter of two angles.** `asin(s)/2` always lies in [0°, 45°].
  For a launch angle θ in [0°, 45°] the inversion gives θ back (`Parabola.AngleRoundTrip`). For
  θ in (45°, 90°) it gives 90° - θ, the complementary angle that carries the ball just as far.
- **The routine handle can outlive its coroutine.** If the engine returns a handle for a
  coroutine that finished before its first `yield`, `IsUpdatingPosition` does not hold exactly
  while a flight goes on (see Findings).

## Model

| member | source | states |
|---|---|---|
| Vectors.UnityNormalizedX | Assets/Scripts/Body/BodyTrajectory.cs:111 | Unity's `normalized` (a zero vector at or below magnitude 1e-5, otherwise `v / |v|`), with a lawful sqrt, keeps the sign of `v.x` and yields an x component in [-1, 1]: it satisfies the law the preview lemmas assume |
| Parabola.RangeOfLaunch | Assets/Scripts/Body/BodyTrajectory.cs:166-170 | the range `2 vx vy / G` of the launch velocity equals speed² · 2 cos θ sin θ / G |
| Parabola.RangeNonNegative | Assets/Scripts/Body/BodyTrajectory.cs:166-170 | for a non-negative speed and an angle in [0°, 90°] the range is never negative |
| Parabola.SpeedForRange | Assets/Scripts/Body/BodyTrajectory.cs:137-141 | with a denominator above ε and a non-negative target, the speed `sqrt(range·G/denom)` launches exactly `range` far at the same angle |
| Parabola.SpeedRoundTrip | Assets/Scripts/Body/BodyTrajectory.cs:137-141 | inverting the range of a launch by speed gives back that launch's non-negative speed: `sqrt(R(speed, θ)·G/denom) = speed` |
| Parabola.AngleRoundTrip | Assets/Scripts/Body/BodyTrajectory.cs:153-156 | inverting the range of a launch by angle gives back a launch angle in [0°, 45°]: `asin(R(speed, θ)·G/speed²)/2 = θ` |
| Parabola.AngleForRange | Assets/Scripts/Body/BodyTrajectory.cs:153-156 | with `s = range·G/speed²` in [0, 1], the angle `asin(s)/2` lies in [0°, 45°] and launches exactly `range` far at the same speed |
| Parabola.ApexGeometry | Assets/Scripts/Body/BodyTrajectory.cs:85-90 | `pTop` lies `hMax ≥ 0` above the launch point and half the range ahead of it |
| Parabola.OpensDownwards | Assets/Scripts/Body/BodyTrajectory.cs:88 | `xSquaredMlp = -G/(2 vx²)` is negative for every non-zero `vx` |
| Preview.NextPoint | Assets/Scripts/Body/BodyTrajectory.cs:104-115 | definition: one round's step of `dx = 0.75` along the parabola followed by the five correction passes; `NextOnParabola`, `RefineAdvances` and `PointAdvances` state its properties, and `Trajectory.BodyTrajectory.NextSample` computes it with the source's loop |
| Preview.Point | Assets/Scripts/Body/BodyTrajectory.cs:98-119 | definition: the k-th sample relative to the apex, the apex itself for k = 0; `PointOnParabola`, `PointsOrdered` and `PointsDescend` state its properties |
| Preview.PassOnParabola | Assets/Scripts/Body/BodyTrajectory.cs:111-114 | every correction pass puts the sample back on `y = x²·xSquaredMlp` |
| Preview.RefineOnParabola | Assets/Scripts/Body/BodyTrajectory.cs:109-115 | the five correction passes keep a sample on the parabola |
| Preview.PassAdvances | Assets/Scripts/Body/BodyTrajectory.cs:111-113 | a pass moves the sample to within `[p1.x, p1.x + 0.75]` when it is not left of `p1` |
| Preview.RefineAdvances | Assets/Scripts/Body/BodyTrajectory.cs:109-115 | after the correction passes the sample lies within `[p1.x, p1.x + 0.75]` |
| Preview.NextOnParabola | Assets/Scripts/Body/BodyTrajectory.cs:106-115 | each new sample lies on the apex-centred parabola |
| Preview.PointOnParabola | Assets/Scripts/Body/BodyTrajectory.cs:102-119 | every sample the loop computes lies on the apex-centred parabola |
| Preview.PointAdvances | Assets/Scripts/Body/BodyTrajectory.cs:104-115 | consecutive samples move right by at most the step length 0.75 and never left |
| Preview.ParabolaDescends | Assets/Scripts/Body/BodyTrajectory.cs:107 | on the downward parabola, of two points right of the apex the further one is no higher |
| Preview.PointsOrdered | Assets/Scripts/Body/BodyTrajectory.cs:102-119 | no sample lies left of an earlier one |
| Preview.PointsDescend | Assets/Scripts/Body/BodyTrajectory.cs:102-119 | no sample lies higher than an earlier one: the sampled branch descends |
| Preview.PairCount | Assets/Scripts/Body/BodyTrajectory.cs:102 | the number of loop rounds is the first count at which the guard `p2.y > -hMax && markerIndex < n - 2` fails; the guard holds for all earlier counts |
| Preview.KeptSlots | Assets/Scripts/Body/BodyTrajectory.cs:120 | the slots left active number either none or an odd count below `n - 2` (the apex marker plus whole mirrored pairs), and none at all for a flat launch or a pool of at most three slots |
| Preview.DrawnPair | Assets/Scripts/Body/BodyTrajectory.cs:117-118 | each round writes the sample at slot `2k+1` and its mirror image about the apex at slot `2k+2` |
| Preview.DrawnPrefixExtend | Assets/Scripts/Body/BodyTrajectory.cs:117-118 | a round's two writes extend the drawn prefix of the pool by two slots |
| Preview.LoopExit | Assets/Scripts/Body/BodyTrajectory.cs:120 | after the loop, `Mathf.Max(0, markerIndex - 2)` is the number of slots that stay active |
| Preview.PreviewAfterReset | Assets/Scripts/Body/BodyTrajectory.cs:120-125 | a drawn prefix followed by hidden slots at the body is exactly the preview, slot by slot |
| Preview.ActiveSlotsAboveLaunch | Assets/Scripts/Body/BodyTrajectory.cs:102-125 | every marker left active lies strictly above the launch point: the last pair, which may reach launch height, is always reset |
| Preview.ActiveSlotsMirrored | Assets/Scripts/Body/BodyTrajectory.cs:117-118 | an active marker at an even slot has an active partner at the slot before it, at the same height and mirrored about the apex |
| Preview.ActiveSlotsMirroredRight | Assets/Scripts/Body/BodyTrajectory.cs:117-118 | an active marker at an odd slot has an active partner at the slot after it, at the same height and mirrored about the apex |
| Preview.SlotIsDrawn | Assets/Scripts/Body/BodyTrajectory.cs:120-125 | a slot is active exactly below the kept count, and then holds what the loop drew |
| Preview.OddDrawn | Assets/Scripts/Body/BodyTrajectory.cs:117 | an odd slot `2j-1` holds sample `j` placed at the apex |
| Preview.DrawnDescends | Assets/Scripts/Body/BodyTrajectory.cs:117 | along the right-hand branch the drawn markers move right and never climb |
| Preview.ActiveSlotsDescend | Assets/Scripts/Body/BodyTrajectory.cs:102-125 | along the right-hand branch the active markers form a prefix, move right and never climb |
| Trajectory.BodyTrajectory.constructor | Assets/Scripts/Body/BodyTrajectory.cs:17-37 | Awake with CreateMarkers: the serialized angle and speed (field initialisers 30° and 8, inspector ranges [0°, 85°] and [0, 20]) are kept as given, and a fresh pool of 75 prefab markers exists exactly when the markers transform is assigned |
| Trajectory.BodyTrajectory.GetInitialVelocity | Assets/Scripts/Body/BodyTrajectory.cs:68-72 | definition: `speed·(cos θ, sin θ)` for the current speed and angle; `Parabola.RangeOfLaunch`, `Parabola.SpeedRoundTrip` and `Parabola.AngleRoundTrip` state what it launches |
| Trajectory.BodyTrajectory.GetRange | Assets/Scripts/Body/BodyTrajectory.cs:166-170 | the range is speed² · 2 cos θ sin θ / G for the current speed and angle |
| Trajectory.BodyTrajectory.SetMarkerActiveAtPosition | Assets/Scripts/Body/BodyTrajectory.cs:199-209 | only the slot at `index` changes, to an active marker at `position`, and the index moves on by one |
| Trajectory.BodyTrajectory.ResetMarker | Assets/Scripts/Body/BodyTrajectory.cs:192-197 | only the slot at `index` changes, to an inactive marker at the body's position |
| Trajectory.BodyTrajectory.NextSample | Assets/Scripts/Body/BodyTrajectory.cs:104-115 | the step-and-refine loop computes the next sample of the preview |
| Trajectory.BodyTrajectory.ResetFrom | Assets/Scripts/Body/BodyTrajectory.cs:122-125 | every slot from `from` onwards ends inactive at the body, and the slots before it are untouched |
| Trajectory.BodyTrajectory.DrawPair | Assets/Scripts/Body/BodyTrajectory.cs:117-118 | the two writes of a round extend the drawn prefix by the sample and its mirror image, the index moves on by two, and every slot from the new index on keeps its marker |
| Trajectory.BodyTrajectory.DrawFromApex | Assets/Scripts/Body/BodyTrajectory.cs:98-120 | the sampling loop stays inside the pool, draws the preview's prefix, stops where `Mathf.Max(0, index - 2)` is the kept count, and leaves every slot from the returned index on as it was |
| Trajectory.BodyTrajectory.UpdateTrajectory | Assets/Scripts/Body/BodyTrajectory.cs:74-127 | nothing changes without a body, without markers or for a near-vertical launch; otherwise every slot ends up holding the preview of the current launch |
| Trajectory.BodyTrajectory.IncreaseRangeWithSpeed | Assets/Scripts/Body/BodyTrajectory.cs:129-144 | a denominator at most ε leaves the speed and returns the current range; otherwise the method returns range + Δ, sets `speed = sqrt(range·G/denom)` and, under the sqrt law for a non-negative range, the new range is exactly the one returned; the angle never changes |
| Trajectory.BodyTrajectory.IncreaseRangeWithVelocitySlopeAngle | Assets/Scripts/Body/BodyTrajectory.cs:146-164 | a speed at most ε leaves the angle and returns the current range without Δ; otherwise the method returns range + Δ and sets the angle to `asin(s)/2` when `s ∈ [0, 1]` (then within [0°, 45°] and reaching exactly that range) and to 45° otherwise; the speed never changes |
| Trajectory.BodyTrajectory.SetRandomInitialVelocity | Assets/Scripts/Body/BodyTrajectory.cs:60-66 | the speed lands in [8, 10] and the angle in [35°, 65°], and the preview is redrawn |
| Flight.UpdatedPosition | Assets/Scripts/Body/TrajectoryBody.cs:36-50 | definition: x advances by `vx·dt` and y is read off the launch-anchored curve, and a launch with `|vx| ≤ ε` does not move; `KinematicHeight`, `StepStaysAirborne`, `VerticalNeverLands` and `FirstStepLands` state its properties |
| Flight.HandOffVelocity | Assets/Scripts/Body/TrajectoryBody.cs:52-57 | definition: `(vx0, vy0 + g·t)` at the elapsed time `t = (x - x0)/vx0` of the body's position; `HandOffBounded` bounds it |
| Flight.StartsAtLaunch | Assets/Scripts/Body/TrajectoryBody.cs:41-47 | the launch curve passes through the launch point, reached at time 0 |
| Flight.KinematicHeight | Assets/Scripts/Body/TrajectoryBody.cs:41-47 | the curve `y0 + s·vy/vx + g·s²/(2vx²)` is the path of a body thrown with `v0` under gravity: at `x = x0 + vx·t` it is at height `y0 + vy·t - G t²/2` |
| Flight.ApexOnLaunchCurve | Assets/Scripts/Body/TrajectoryBody.cs:46 | the flight passes through the apex `pTop` the preview computes |
| Flight.ApexParabolaOnLaunchCurve | Assets/Scripts/Body/TrajectoryBody.cs:46 | every point of the apex-centred parabola, placed at the apex, lies on the flight curve |
| Flight.PreviewOnLaunchCurve | Assets/Scripts/Body/BodyTrajectory.cs:117-118 | every marker the preview leaves active lies on the curve the ball flies |
| Flight.StepStaysAirborne | Assets/Scripts/Body/TrajectoryBody.cs:69-73 | a frame that does not go below launch height writes a position on the launch curve, reached at a later non-negative time |
| Flight.ElapsedAfterStep | Assets/Scripts/Body/TrajectoryBody.cs:44 | a frame of length dt adds exactly dt to the elapsed flight time `(x - x0)/vx` |
| Flight.VerticalNeverLands | Assets/Scripts/Body/TrajectoryBody.cs:39-49 | with `|vx| ≤ ε` a frame returns the current position, so the flight neither advances nor lands |
| Flight.AirborneWithinFlightTime | Assets/Scripts/Body/TrajectoryBody.cs:55 | during a flight the elapsed time is non-negative and, once the ball has left the launch point, at most the full flight time `2 vy/G` |
| Flight.HandOffBounded | Assets/Scripts/Body/TrajectoryBody.cs:52-57 | the hand-off velocity keeps `vx` and has a vertical part between `-|vy0|` and `|vy0|` |
| Flight.FirstStepLands | Assets/Scripts/Body/TrajectoryBody.cs:69 | from the launch point, a first frame of length dt > 0 lands exactly when `vy < G·dt/2` |
| Flight.FlatLaunchLandsAtOnce | Assets/Scripts/Body/TrajectoryBody.cs:69 | a flat launch lands on its very first frame |
| Flight.LaunchPointAirborne | Assets/Scripts/Body/TrajectoryBody.cs:66 | the launch point is a position of the flight |
| Flight.TrajectoryBody.constructor | Assets/Scripts/Body/TrajectoryBody.cs:14-24 | a new ball is simulated, at rest, with no routine running |
| Flight.TrajectoryBody.IsUpdatingPosition | Assets/Scripts/Body/TrajectoryBody.cs:19 | definition: the routine handle is set; `StartPositionUpdateRoutine`, `Step` and `Valid` tie it to a live flight |
| Flight.TrajectoryBody.ResetBody | Assets/Scripts/Body/TrajectoryBody.cs:26-34 | simulation on, velocity zero, position back at the stored launch position; nothing else changes |
| Flight.TrajectoryBody.Step | Assets/Scripts/Body/TrajectoryBody.cs:69-80 | a frame either writes the next position, which stays on the curve and not below launch height, or it ends the flight: it re-enables simulation, hands off `(vx0, vy0 + g·t)` at the last written position, clears the handle, then invokes `onEnd` once |
| Flight.TrajectoryBody.BeginRoutine | Assets/Scripts/Body/TrajectoryBody.cs:59-73 | starting the coroutine disables simulation, captures the launch velocity and position, and runs its first frame at once |
| Flight.TrajectoryBody.StartPositionUpdateRoutine | Assets/Scripts/Body/TrajectoryBody.cs:83-90 | corrected: an older flight is stopped before the new one captures its launch velocity and position. A first frame that lands leaves the ball at the launch point, simulated, with the launch velocity, and invokes `onEnd` once. Otherwise the ball moves to the first frame's position on the curve, stays unsimulated and keeps its velocity, and nothing is invoked. `IsUpdatingPosition` holds exactly when the flight goes on |
| Flight.TrajectoryBody.StartPositionUpdateRoutineAsWritten | Assets/Scripts/Body/TrajectoryBody.cs:83-90 | as written, with `finishedHandle` standing for whether the engine returns a handle for a coroutine that finished before its first `yield`. The ball moves as in the corrected routine: a landing first frame leaves it at the launch point, simulated, with the launch velocity, and invokes `onEnd` once; otherwise it moves to the first frame's position, unsimulated, keeping its velocity. `IsUpdatingPosition` holds afterwards exactly when the flight goes on or `finishedHandle` holds, so a landing first frame with `finishedHandle` leaves the body reporting a flight that is over |
| Hole.RandomSign | Assets/Scripts/Body/HoleBody.cs:58 | `2r - 1` for `r ∈ {0, 1}` is -1 or +1, and +1 exactly for `r = 1` |
| Hole.DeltaXBounds | Assets/Scripts/Body/HoleBody.cs:56-59 | with `maxDeltaX ≥ 0` the offset has size between `0.25·maxDeltaX` and `maxDeltaX` |
| Hole.ContainsWithinExtents | Assets/Scripts/Body/HoleBody.cs:46-50 | the bounds contain exactly the points within the half-size of the centre on both axes |
| Hole.HoleBody.constructor | Assets/Scripts/Body/HoleBody.cs:15-21 | Awake remembers the initial position and the sprite's extents |
| Hole.HoleBody.MaxDeltaX | Assets/Scripts/Body/HoleBody.cs:56 | definition: the band sprite's half-width less the hole sprite's; `SetRandomPosition` and `DeltaXBounds` keep the hole within it |
| Hole.HoleBody.ContainsBody | Assets/Scripts/Body/HoleBody.cs:46-50 | definition: the ball's position lies in the collider's world bounds, borders included; `ContainsWithinExtents` restates it as distances to the centre, and `CheckLevelResult` scores exactly when it holds |
| Hole.HoleBody.SetRandomPosition | Assets/Scripts/Body/HoleBody.cs:52-68 | y is kept; `x + deltaX` is kept when inside `initial.x ± maxDeltaX`, otherwise x becomes `initial.x - deltaX`; either way, for `maxDeltaX ≥ 0`, x ends inside the band |
| Game.Max | Assets/Scripts/GameManager.cs:61 | the result is at least both arguments and equals one of them |
| Game.OscillationPeriod | Assets/Scripts/GameManager.cs:111 | the period is `2 - 0.05·(level - 1)` up to level 26 and 0.75 from then on, so within [0.75, 2] for every level ≥ 1 |
| Game.PeriodNonIncreasing | Assets/Scripts/GameManager.cs:111 | a later level never has a longer period |
| Game.GameManager.constructor | Assets/Scripts/GameManager.cs:31-34 | level and score come from the store, defaulting to 1 and 0 |
| Game.GameManager.SetLevelResultCallbacks | Assets/Scripts/GameManager.cs:49-53 | stores both callbacks and changes nothing else |
| Game.GameManager.CheckLevelResult | Assets/Scripts/GameManager.cs:57-70 | a hit raises the score by one, stores it, and stores `max(oldBest, score)` as the best score, so best ≥ score; the success callback hears the new score. A miss leaves score and store alone and the fail callback hears `(score, storedBest)`. `onEnd` runs once after either |
| Game.GameManager.InitLevel | Assets/Scripts/GameManager.cs:95-113 | the hole keeps its y and moves by the random offset, or to its reflection about the initial x when the offset leaves the band, ending inside the band; the ball rests under physics at its unchanged launch position, with its launch velocity, routine handle and log untouched; the oscillation starts with the level's period; the counters, store and callbacks are kept |
| Game.GameManager.ResetGame | Assets/Scripts/GameManager.cs:73-79 | level 1 and score 0, both stored, then a new level with period 2: the hole and the ball are set up as `InitLevel` sets them up; the log and the level-result callbacks stay as they were |
| Game.GameManager.StartNextLevel | Assets/Scripts/GameManager.cs:81-86 | the level goes up by exactly one and is stored, the score is unchanged, the new period is no longer than the old, the hole and the ball are set up as `InitLevel` sets them up, and the log and the level-result callbacks stay as they were |

## Left out

- **Floating-point rounding.** Floats are reals. cos, sin, sqrt, asin and `normalized` are abstract functions with laws, and the model makes no claim about their accuracy.
- **Unity's zero case of `normalized`.** The preview lemmas assume only `NormalizedLaw`. `Vectors.UnityNormalizedX` shows that Unity's definition satisfies it.
- **Coroutine scheduling.**
  - `UpdatePositionRoutine` is modelled as `BeginRoutine` (its part before the first `yield`) plus one `Step` per later frame.
  - `StopCoroutine` only marks the old coroutine as no longer alive.
  - The 2-second delay of `StartLevelResultCheckRoutine` is not modelled. Its action is `CheckLevelResult`.
- **Engine set-up.** The gravity set-up in `Awake`/`SetPhysics` and `Time.fixedDeltaTime` are not modelled. `Physics2D.gravity.y` is taken as `-GRAVITY` throughout.
- **Transform re-parenting.** The re-parenting of the trajectory and the range sprite (TrajectoryBody.cs lines 33 and 61, HoleBody.cs line 22) is not modelled. The range sprite's activation is not modelled either.
- **The z coordinate** of every position is not modelled.
- **The `incrementMarkerIndex` parameter** of `SetMarkerActiveAtPosition` (BodyTrajectory.cs line 199) is left out. Every call uses its default, `true`, so the index always moves on by one.
- **CreateMarkers.** `Instantiate` and `DestroyAllChildren` are not modelled. The pool is a fresh array of copies of the prefab marker.
- **Editor and debug code.** `Start`, the editor-only `Update` and the `DEBUG_*` variants are not modelled. `Start` only calls `UpdateTrajectory` or `InitLevel`.
- **Randomness.** The implementation of `Random.Range` is not modelled. Its draws are parameters, constrained to the ranges it is asked for.
- **PlayerPrefs.** Disk persistence is not modelled. The store is a `map<string, int>`.
- **Callbacks.** What the callbacks do is not modelled. Only their invocations are logged.
- **Missing engine calls in InitLevel.** `SetInitialVelocityForRandomRange` and `StartVelocityAngleOscillationRoutine`, which `InitLevel` calls, are not part of this model: `BodyTrajectory.cs` does not define them.
  - So `InitLevel` does not model the distance it computes (GameManager.cs lines 105-106).
  - It only records the period it passes on.
- **TouchHandler and the UI panels** are not part of this model.
- Trajectory.BodyTrajectory.IncreaseRangeWithSpeed: the new range equals the returned one only under `SqrtLaw` and for a non-negative target. A negative target takes the square root of a negative number, which the engine answers with NaN.
- Trajectory.BodyTrajectory.IncreaseRangeWithVelocitySlopeAngle: the new range equals the returned one only under `AsinLaw` and `DoubleAngleLaw`, and only when `s ∈ [0, 1]`. The 45° fallback carries the ball as far as 45° does, not to the returned range.
- Flight.TrajectoryBody.StartPositionUpdateRoutineAsWritten: what `StartCoroutine` returns for a coroutine that finished before its first `yield` is engine behaviour outside the game's code, so it is the parameter `finishedHandle`.
- Parabola.AngleRoundTrip: the round trip is proved for launch angles in [0°, 45°] only, where `asin` undoes `sin` of the doubled angle; above 45° the inversion returns the complementary angle.
- Game.OscillationPeriod: the bounds are stated for levels ≥ 1. A store holding a level below 1 would give a longer period.
- Game.GameManager.InitLevel: it requires the hole and the ball to be distinct scene objects. The scene guarantees this; the source does not check it.

## Findings

| source | as written | input that shows it | evidently intended | confidence | as-written member | corrected member |
|---|---|---|---|---|---|---|
| Assets/Scripts/Body/TrajectoryBody.cs:89 | The handle returned by `StartCoroutine` is stored after the coroutine's synchronous part has run. If the first frame already lands, the coroutine clears the handle (line 78) and then the assignment sets it again. If the engine returns a non-null handle for a coroutine that finished before its first `yield`, `IsUpdatingPosition` then stays true with no flight, and `TouchHandler.Shoot` (TouchHandler.cs line 44) refuses every later shot. If the engine returns null then, the routine behaves as the corrected one. | a launch with `vy < G·Time.deltaTime/2`, e.g. a flat launch `vy = 0` (`Flight.FlatLaunchLandsAtOnce`, `Flight.FirstStepLands`) | `IsUpdatingPosition` holds exactly while a flight goes on | not executed; depends on the engine's return value for a finished coroutine, which the game's code does not show | Flight.TrajectoryBody.StartPositionUpdateRoutineAsWritten | Flight.TrajectoryBody.StartPositionUpdateRoutine |

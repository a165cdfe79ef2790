/** BodyTrajectory: the launch velocity of the ball, the inversions of the range formula that
    the charging gesture drives, and the pool of markers that previews the flight. */
module Trajectory {
  import opened Vectors
  import opened Parabola
  import opened Preview
  import opened Scene

  /** MARKERS_COUNT: size of the marker pool that Awake creates. */
  const MarkersCount: nat := 75
  const RandomSlopeAngleMin: real := 35.0
  const RandomSlopeAngleMax: real := 65.0
  const RandomSpeedMin: real := 8.0
  const RandomSpeedMax: real := 10.0

  class BodyTrajectory {
    /** The engine's cos, sin, sqrt, asin and normalized. */
    const num: Numerics
    /** bodyTransform: the body whose flight is previewed; null when not assigned. */
    const bodyTransform: Transform?
    /** The children of the `markers` transform; null when that transform is not assigned. */
    const markers: array?<Marker>
    /** initialVelocitySlopeAngle, in degrees. */
    var slopeAngle: real
    /** initialSpeed. */
    var speed: real

    /** Awake with CreateMarkers: a fresh pool of MarkersCount copies of the marker prefab when
        the markers transform is assigned. The angle and speed are the serialized values the
        scene gives the component (30 degrees and 8 unless the inspector overrides them), within
        the inspector's ranges [0, 85] and [0, 20]. */
    constructor(num: Numerics, bodyTransform: Transform?, hasMarkers: bool, prefab: Marker,
                slopeAngle: real, speed: real)
      requires 0.0 <= slopeAngle <= 85.0 && 0.0 <= speed <= 20.0
      ensures this.num == num && this.bodyTransform == bodyTransform
      ensures this.slopeAngle == slopeAngle && this.speed == speed
      ensures hasMarkers <==> markers != null
      ensures markers != null ==> fresh(markers) && markers.Length == MarkersCount
      ensures markers != null ==> forall i :: 0 <= i < markers.Length ==> markers[i] == prefab
    {
      this.num := num;
      this.bodyTransform := bodyTransform;
      this.slopeAngle := slopeAngle;
      this.speed := speed;
      if hasMarkers {
        markers := new Marker[MarkersCount](_ => prefab);
      } else {
        markers := null;
      }
    }

    /** GetInitialVelocity: the launch velocity for the current speed and angle. */
    function GetInitialVelocity(): Vec2
      reads this
    {
      InitialVelocity(num, speed, slopeAngle)
    }

    /** GetRange: how far the current launch velocity carries the body at launch height. */
    function GetRange(): (r: real)
      reads this
      ensures r == speed * speed * RangeDenominator(num, slopeAngle) / Gravity
    {
      RangeOfLaunch(num, speed, slopeAngle);
      Range(GetInitialVelocity())
    }

    /** UpdateTrajectory has something to draw: body and pool assigned, the pool not empty and
        the launch not (nearly) vertical. */
    predicate Drawable()
      reads this, bodyTransform
    {
      bodyTransform != null && markers != null && markers.Length != 0
      && Abs(GetInitialVelocity().x) > FloatEpsilon
    }

    /** The launch UpdateTrajectory previews: from the body, with the current velocity. */
    function CurrentLaunch(): Launch
      reads this, bodyTransform
      requires bodyTransform != null
    {
      Launch(bodyTransform.position, GetInitialVelocity())
    }

    /** Every slot of the pool holds the marker the preview of the current launch puts there. */
    ghost predicate ShowsPreview()
      reads this, bodyTransform, markers
      requires Drawable()
    {
      forall i :: 0 <= i < markers.Length ==>
        markers[i] == Slot(num, CurrentLaunch(), markers.Length, i)
    }

    /** SetMarkerActiveAtPosition: show the marker of slot `index` at `position`; the caller's
        index moves on to the next slot. */
    method SetMarkerActiveAtPosition(index: nat, position: Vec2) returns (next: nat)
      requires markers != null && index < markers.Length
      modifies markers
      ensures markers[..] == old(markers[..])[index := Marker(position, true)]
      ensures next == index + 1
    {
      markers[index] := Marker(position, true);
      next := index + 1;
    }

    /** ResetMarker: hide the marker of slot `index` and move it back to the body. */
    method ResetMarker(index: nat)
      requires bodyTransform != null && markers != null && index < markers.Length
      modifies markers
      ensures markers[..] == old(markers[..])[index := Marker(bodyTransform.position, false)]
    {
      markers[index] := Marker(bodyTransform.position, false);
    }

    /** The refinement loop of UpdateTrajectory: one StepLength further along the parabola
        y = x^2 * a, corrected AccuracyIterations times. */
    method NextSample(a: real, p1: Vec2) returns (p2: Vec2)
      ensures p2 == NextPoint(num, a, p1)
    {
      var dx := StepLength;
      p2 := AtX(a, p1.x + dx);
      for i := 0 to AccuracyIterations
        invariant Refine(num, a, p1, p2, i) == NextPoint(num, a, p1)
      {
        var delta := num.normalized(p2.Minus(p1));
        p2 := AtX(a, p1.x + delta.x * dx);
      }
    }

    /** The reset loop of UpdateTrajectory: every slot from `from` onwards is hidden at the body,
        the slots before it keep their markers. */
    method ResetFrom(from: nat)
      requires bodyTransform != null && markers != null && from <= markers.Length
      modifies markers
      ensures markers[..from] == old(markers[..from])
      ensures forall j :: from <= j < markers.Length ==> markers[j] == Marker(bodyTransform.position, false)
    {
      for i := from to markers.Length
        invariant markers[..from] == old(markers[..from])
        invariant forall j :: from <= j < i ==> markers[j] == Marker(bodyTransform.position, false)
      {
        ResetMarker(i);
      }
    }

    /** The two writes of one round of the sampling loop: the sample and its mirror image,
        placed at the apex, behind the markers already drawn. */
    method DrawPair(l: Launch, p: Vec2, index: int, ghost pairs: nat) returns (next: int)
      requires markers != null && l.v.x != 0.0
      requires index == 1 + 2 * pairs && index + 2 <= markers.Length
      requires p == Point(num, l.XSquaredMlp(), pairs + 1)
      requires DrawnPrefix(num, l, markers[..], index)
      modifies markers
      ensures next == index + 2
      ensures DrawnPrefix(num, l, markers[..], next)
      ensures markers[next..] == old(markers[next..])
    {
      DrawnPrefixExtend(num, l, markers[..], pairs);
      var pTop := l.Apex();
      next := SetMarkerActiveAtPosition(index, p.Plus(pTop));
      next := SetMarkerActiveAtPosition(next, Vec2(-p.x, p.y).Plus(pTop));
    }

    /** The sampling loop of UpdateTrajectory: the apex in slot 0, then one mirrored pair of
        markers per sample of the apex-centred parabola, while the samples stay above launch
        height and two slots remain. Returns the index after the last marker written. */
    method DrawFromApex(l: Launch) returns (markerIndex: int, ghost pairs: nat)
      requires markers != null && markers.Length != 0 && l.v.x != 0.0
      modifies markers
      ensures markerIndex == 1 + 2 * pairs <= markers.Length
      ensures KeptSlots(num, l, markers.Length) == if 0 < markerIndex - 2 then markerIndex - 2 else 0
      ensures DrawnPrefix(num, l, markers[..], markerIndex)
      ensures markers[markerIndex..] == old(markers[markerIndex..])
    {
      ghost var n := markers.Length;
      var hMax := l.HMax();
      var xSquaredMlp := l.XSquaredMlp();
      var pTop := l.Apex();
      var p2 := Zero;
      markerIndex := 0;
      markerIndex := SetMarkerActiveAtPosition(markerIndex, pTop);
      pairs := 0;
      while p2.y > -hMax && markerIndex < markers.Length - 2
        invariant markerIndex == 1 + 2 * pairs <= n
        invariant p2 == Point(num, xSquaredMlp, pairs)
        invariant PairCount(num, l, n, pairs) == PairCount(num, l, n, 0)
        invariant DrawnPrefix(num, l, markers[..], markerIndex)
        invariant markers[markerIndex..] == old(markers[markerIndex..])
        decreases n - markerIndex
      {
        assert Continues(num, l, n, pairs);
        var p1 := p2;
        p2 := NextSample(xSquaredMlp, p1);
        markerIndex := DrawPair(l, p2, markerIndex, pairs);
        pairs := pairs + 1;
      }
      LoopExit(num, l, n, pairs);
    }

    /** UpdateTrajectory: draw the preview from the apex outwards, then hide every slot from
        the last pair onwards. Nothing changes when there is nothing to draw. */
    method UpdateTrajectory()
      modifies markers
      ensures markers != null && !Drawable() ==> unchanged(markers)
      ensures Drawable() ==> ShowsPreview()
    {
      if bodyTransform == null || markers == null || markers.Length == 0 {
        return;
      }
      var v0 := GetInitialVelocity();
      if Abs(v0.x) > FloatEpsilon {
        var l := Launch(bodyTransform.position, v0);
        var markerIndex;
        ghost var pairs;
        markerIndex, pairs := DrawFromApex(l);
        ghost var drawn := markers[..];
        markerIndex := if 0 < markerIndex - 2 then markerIndex - 2 else 0;
        ResetFrom(markerIndex);
        PreviewAfterReset(num, l, drawn, markers[..], 1 + 2 * pairs);
        assert CurrentLaunch() == l;
        assert forall i :: 0 <= i < markers.Length ==> markers[i] == markers[..][i];
      }
    }

    /** IncreaseRangeWithSpeed: keep the angle and choose the speed that carries the body
        `deltaRange` further; with a (nearly) flat or vertical angle nothing changes. Returns the
        range aimed at. */
    method IncreaseRangeWithSpeed(deltaRange: real) returns (range: real)
      modifies this`speed
      ensures RangeDenominator(num, slopeAngle) <= FloatEpsilon ==>
        speed == old(speed) && range == old(GetRange())
      ensures RangeDenominator(num, slopeAngle) > FloatEpsilon ==>
        range == old(GetRange()) + deltaRange
        && speed == num.sqrt(range * Gravity / RangeDenominator(num, slopeAngle))
      ensures RangeDenominator(num, slopeAngle) > FloatEpsilon && SqrtLaw(num) && 0.0 <= range ==>
        GetRange() == range
    {
      var denom := RangeDenominator(num, slopeAngle);
      range := GetRange();
      if denom > FloatEpsilon {
        range := range + deltaRange;
        speed := num.sqrt(range * Gravity / denom);
        if SqrtLaw(num) && 0.0 <= range {
          SpeedForRange(num, slopeAngle, range);
        }
      }
    }

    /** IncreaseRangeWithVelocitySlopeAngle: keep the speed and choose the angle that carries
        the body `deltaRange` further, or 45 degrees when no angle does; with a (nearly) zero
        speed nothing changes and the current range, without deltaRange, is returned. */
    method IncreaseRangeWithVelocitySlopeAngle(deltaRange: real) returns (range: real)
      modifies this`slopeAngle
      ensures speed <= FloatEpsilon ==> slopeAngle == old(slopeAngle) && range == old(GetRange())
      ensures speed > FloatEpsilon ==> range == old(GetRange()) + deltaRange
      ensures speed > FloatEpsilon ==> var s := SinDoubleAngle(range, speed);
        && (0.0 <= s <= 1.0 ==> slopeAngle == num.asin(s) / 2.0)
        && (!(0.0 <= s <= 1.0) ==> slopeAngle == 45.0)
      ensures speed > FloatEpsilon && 0.0 <= SinDoubleAngle(range, speed) <= 1.0
              && AsinLaw(num) && DoubleAngleLaw(num) ==>
        0.0 <= slopeAngle <= 45.0 && GetRange() == range
    {
      range := GetRange();
      if speed > FloatEpsilon {
        range := range + deltaRange;
        var sinDoubleSlopeAngle := SinDoubleAngle(range, speed);
        if sinDoubleSlopeAngle >= 0.0 && sinDoubleSlopeAngle <= 1.0 {
          slopeAngle := num.asin(sinDoubleSlopeAngle) / 2.0;
          if AsinLaw(num) && DoubleAngleLaw(num) {
            AngleForRange(num, speed, range);
          }
        } else {
          slopeAngle := 45.0;
        }
      }
    }

    /** SetRandomInitialVelocity: speed and angle from the random draws, then a fresh preview.
        The draws are the values Random.Range returned, inside the ranges it is asked for. */
    method SetRandomInitialVelocity(speedDraw: real, angleDraw: real)
      requires RandomSpeedMin <= speedDraw <= RandomSpeedMax
      requires RandomSlopeAngleMin <= angleDraw <= RandomSlopeAngleMax
      modifies this, markers
      ensures speed == speedDraw && slopeAngle == angleDraw
      ensures RandomSpeedMin <= speed <= RandomSpeedMax
      ensures RandomSlopeAngleMin <= slopeAngle <= RandomSlopeAngleMax
      ensures markers != null && !Drawable() ==> unchanged(markers)
      ensures Drawable() ==> ShowsPreview()
    {
      speed := speedDraw;
      slopeAngle := angleDraw;
      UpdateTrajectory();
    }
  }
}

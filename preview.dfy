/** What UpdateTrajectory draws: the points of the apex-centred parabola it samples, how many
    pairs of markers its loop writes, and the marker every pool slot holds afterwards. */
module Preview {
  import opened Vectors
  import opened Parabola

  /** A slot of the marker pool: where the marker is and whether it is shown. */
  datatype Marker = Marker(position: Vec2, active: bool)

  /** dx: the length of one sampling step. */
  const StepLength: real := 0.75
  /** accuracyInterations: correction passes per step. */
  const AccuracyIterations: nat := 5

  /** The point of the apex-centred parabola y = x^2 * a above x. */
  function AtX(a: real, x: real): Vec2 {
    Vec2(x, x * x * a)
  }

  /** One correction pass: move p2 to distance StepLength from p1 along the direction p1 -> p2
      (horizontally) and put it back on the parabola y = x^2 * a. */
  function Pass(num: Numerics, a: real, p1: Vec2, p2: Vec2): Vec2 {
    var delta := num.normalized(p2.Minus(p1));
    AtX(a, p1.x + delta.x * StepLength)
  }

  /** The correction passes still due after `done` of them, applied to p2. */
  function Refine(num: Numerics, a: real, p1: Vec2, p2: Vec2, done: nat): Vec2
    decreases AccuracyIterations - done
  {
    if done >= AccuracyIterations then p2 else Refine(num, a, p1, Pass(num, a, p1, p2), done + 1)
  }

  /** The first guess for the point after p1: one StepLength further right, on the parabola. */
  function Proposal(a: real, p1: Vec2): Vec2 {
    AtX(a, p1.x + StepLength)
  }

  /** The sample that follows p1. */
  function NextPoint(num: Numerics, a: real, p1: Vec2): Vec2 {
    Refine(num, a, p1, Proposal(a, p1), 0)
  }

  /** Point(k): the k-th sample relative to the apex; Point(0) is the apex itself. */
  function Point(num: Numerics, a: real, k: nat): Vec2 {
    if k == 0 then Zero else NextPoint(num, a, Point(num, a, k - 1))
  }

  /** The guard of the sampling loop after k pairs have been written (the marker index is then
      1 + 2k): the last sample is still above launch height and two slots remain. */
  predicate Continues(num: Numerics, l: Launch, n: int, k: nat)
    requires l.v.x != 0.0
  {
    Point(num, l.XSquaredMlp(), k).y > -l.HMax() && 1 + 2 * k < n - 2
  }

  /** The number of pairs the sampling loop writes into a pool of n slots, counting from c:
      the first k >= c at which the guard fails. */
  function PairCount(num: Numerics, l: Launch, n: int, c: nat): (r: nat)
    requires l.v.x != 0.0
    ensures c <= r
    ensures !Continues(num, l, n, r)
    ensures forall k :: c <= k < r ==> Continues(num, l, n, k)
    decreases n - 2 * c
  {
    if Continues(num, l, n, c) then PairCount(num, l, n, c + 1) else c
  }

  /** How many leading slots stay active: the marker index after the loop, less the last pair.
      At most n - 3 slots stay active, none when the launch is flat or the pool has at most
      three slots, and otherwise an odd number: the apex and whole pairs. */
  function KeptSlots(num: Numerics, l: Launch, n: int): (r: nat)
    requires l.v.x != 0.0
    ensures r == 0 || r < n - 2
    ensures r == 0 || r % 2 == 1
    ensures l.v.y == 0.0 || n <= 3 ==> r == 0
  {
    var pairs := PairCount(num, l, n, 0);
    assert Point(num, l.XSquaredMlp(), 0) == Zero;
    assert l.v.y == 0.0 ==> l.TTop() == 0.0 && l.HMax() == 0.0;
    assert pairs > 0 ==> Continues(num, l, n, pairs - 1) && Continues(num, l, n, 0);
    if pairs == 0 then 0 else 2 * pairs - 1
  }

  /** The marker the sampling loop writes at slot i (i < 1 + 2 * pairs): the apex at slot 0,
      Point(j) at slot 2j - 1 and its mirror image at slot 2j. */
  function Drawn(num: Numerics, l: Launch, i: nat): Marker
    requires l.v.x != 0.0
  {
    var a := l.XSquaredMlp();
    if i == 0 then Marker(l.Apex(), true)
    else if i % 2 == 1 then Marker(Point(num, a, (i + 1) / 2).Plus(l.Apex()), true)
    else Marker(Point(num, a, i / 2).Mirror().Plus(l.Apex()), true)
  }

  /** The marker slot i of an n-slot pool holds after UpdateTrajectory: what the loop drew
      below KeptSlots, and an inactive marker at the launch point from there on. */
  function Slot(num: Numerics, l: Launch, n: int, i: nat): Marker
    requires l.v.x != 0.0
  {
    if i < KeptSlots(num, l, n) then Drawn(num, l, i) else Marker(l.origin, false)
  }

  /** p lies on the apex-centred parabola y = x^2 * a. */
  predicate OnParabola(a: real, p: Vec2) {
    p.y == p.x * p.x * a
  }

  lemma PassOnParabola(num: Numerics, a: real, p1: Vec2, p2: Vec2)
    ensures OnParabola(a, Pass(num, a, p1, p2))
  {
  }

  /** Refinement keeps a point on the parabola. */
  lemma {:induction false} RefineOnParabola(num: Numerics, a: real, p1: Vec2, p2: Vec2, done: nat)
    requires OnParabola(a, p2)
    ensures OnParabola(a, Refine(num, a, p1, p2, done))
    decreases AccuracyIterations - done
  {
    if done < AccuracyIterations {
      PassOnParabola(num, a, p1, p2);
      RefineOnParabola(num, a, p1, Pass(num, a, p1, p2), done + 1);
    }
  }

  /** One pass moves p2 to within [p1.x, p1.x + StepLength] when p2 is not left of p1. */
  lemma PassAdvances(num: Numerics, a: real, p1: Vec2, p2: Vec2)
    requires NormalizedLaw(num)
    requires p1.x <= p2.x
    ensures p1.x <= Pass(num, a, p1, p2).x <= p1.x + StepLength
  {
    assert UnitX(p2.Minus(p1), num.normalized(p2.Minus(p1)));
  }

  /** Refinement never moves a point left of p1, nor more than StepLength right of it. */
  lemma {:induction false} RefineAdvances(num: Numerics, a: real, p1: Vec2, p2: Vec2, done: nat)
    requires NormalizedLaw(num)
    requires p1.x <= p2.x <= p1.x + StepLength
    ensures p1.x <= Refine(num, a, p1, p2, done).x <= p1.x + StepLength
    decreases AccuracyIterations - done
  {
    if done < AccuracyIterations {
      PassAdvances(num, a, p1, p2);
      RefineAdvances(num, a, p1, Pass(num, a, p1, p2), done + 1);
    }
  }

  /** Every sample lies on the apex-centred parabola y = x^2 * a. */
  lemma NextOnParabola(num: Numerics, a: real, p1: Vec2)
    ensures OnParabola(a, NextPoint(num, a, p1))
  {
      RefineOnParabola(num, a, p1, Proposal(a, p1), 0);
  }
  lemma PointOnParabola(num: Numerics, a: real, k: nat)
    ensures OnParabola(a, Point(num, a, k))
  {
    if k > 0 {
      NextOnParabola(num, a, Point(num, a, k - 1));
    }
  }

  /** Consecutive samples move right by at most StepLength and never left. */
  lemma PointAdvances(num: Numerics, a: real, k: nat)
    requires NormalizedLaw(num)
    ensures Point(num, a, k).x <= Point(num, a, k + 1).x <= Point(num, a, k).x + StepLength
  {
    var p1 := Point(num, a, k);
    RefineAdvances(num, a, p1, Proposal(a, p1), 0);
  }

  /** On a downward-opening parabola, of two points right of the apex the further one is lower. */
  lemma ParabolaDescends(a: real, p: Vec2, q: Vec2)
    requires a <= 0.0 && 0.0 <= p.x <= q.x
    requires OnParabola(a, p) && OnParabola(a, q)
    ensures q.y <= p.y
  {
    assert p.x * p.x <= p.x * q.x <= q.x * q.x;
    assert q.x * q.x * a <= p.x * p.x * a;
  }

  /** Samples are ordered left to right from the apex: no sample lies left of an earlier one. */
  lemma {:induction false} PointsOrdered(num: Numerics, a: real, j: nat, k: nat)
    requires NormalizedLaw(num)
    requires j <= k
    ensures Point(num, a, j).x <= Point(num, a, k).x
    decreases k - j
  {
    if j < k {
      var k' := k - 1;
      PointsOrdered(num, a, j, k');
      PointAdvances(num, a, k');
      assert k' + 1 == k;
    }
  }

  /** The parabola opening downwards, each sample lies no higher than the one before:
      the sampled branch descends monotonically. */
  lemma PointsDescend(num: Numerics, a: real, j: nat, k: nat)
    requires NormalizedLaw(num) && a <= 0.0
    requires j <= k
    ensures Point(num, a, k).y <= Point(num, a, j).y
  {
    PointsOrdered(num, a, 0, j);
    PointsOrdered(num, a, j, k);
    PointOnParabola(num, a, j);
    PointOnParabola(num, a, k);
    ParabolaDescends(a, Point(num, a, j), Point(num, a, k));
  }

  /** The pair of slots written for the sample Point(k + 1): slot 2k + 1 holds it, slot 2k + 2
      its mirror image. */
  lemma DrawnPair(num: Numerics, l: Launch, k: nat)
    requires l.v.x != 0.0
    ensures Drawn(num, l, 1 + 2 * k)
         == Marker(Point(num, l.XSquaredMlp(), k + 1).Plus(l.Apex()), true)
    ensures Drawn(num, l, 2 + 2 * k)
         == Marker(Point(num, l.XSquaredMlp(), k + 1).Mirror().Plus(l.Apex()), true)
  {
    assert (1 + 2 * k + 1) / 2 == k + 1;
    assert (2 + 2 * k) / 2 == k + 1;
  }

  /** The first k slots of `pool` hold what the sampling loop draws there. */
  ghost predicate DrawnPrefix(num: Numerics, l: Launch, pool: seq<Marker>, k: nat)
    requires l.v.x != 0.0
  {
    k <= |pool| && forall i :: 0 <= i < k ==> pool[i] == Drawn(num, l, i)
  }

  /** Writing the pair for Point(j + 1) behind a drawn prefix of length 2j + 1 extends it. */
  lemma DrawnPrefixExtend(num: Numerics, l: Launch, pool: seq<Marker>, j: nat)
    requires l.v.x != 0.0
    requires DrawnPrefix(num, l, pool, 1 + 2 * j) && 3 + 2 * j <= |pool|
    ensures var p := Point(num, l.XSquaredMlp(), j + 1);
      DrawnPrefix(num, l, pool[1 + 2 * j := Marker(p.Plus(l.Apex()), true)]
                              [2 + 2 * j := Marker(Vec2(-p.x, p.y).Plus(l.Apex()), true)], 3 + 2 * j)
  {
    DrawnPair(num, l, j);
  }

  /** When the sampling loop stops after `pairs` pairs, at marker index 1 + 2 * pairs, the
      index it falls back to, Mathf.Max(0, index - 2), is KeptSlots. */
  lemma LoopExit(num: Numerics, l: Launch, n: int, pairs: nat)
    requires l.v.x != 0.0
    requires PairCount(num, l, n, pairs) == PairCount(num, l, n, 0)
    requires !Continues(num, l, n, pairs)
    ensures KeptSlots(num, l, n) == if 0 < 2 * pairs - 1 then 2 * pairs - 1 else 0
  {
    assert PairCount(num, l, n, pairs) == pairs;
  }

  /** A pool whose first KeptSlots slots still hold what the loop drew, and whose other slots
      are hidden at the launch point, holds exactly the preview. */
  lemma PreviewAfterReset(num: Numerics, l: Launch, drawn: seq<Marker>, pool: seq<Marker>, k: nat)
    requires l.v.x != 0.0
    requires |drawn| == |pool| && KeptSlots(num, l, |pool|) <= k
    requires DrawnPrefix(num, l, drawn, k)
    requires pool[..KeptSlots(num, l, |pool|)] == drawn[..KeptSlots(num, l, |pool|)]
    requires forall j :: KeptSlots(num, l, |pool|) <= j < |pool| ==> pool[j] == Marker(l.origin, false)
    ensures forall i :: 0 <= i < |pool| ==> pool[i] == Slot(num, l, |pool|, i)
  {
    var kept := KeptSlots(num, l, |pool|);
    forall i | 0 <= i < |pool|
      ensures pool[i] == Slot(num, l, |pool|, i)
    {
      if i < kept {
        assert pool[i] == pool[..kept][i];
      }
    }
  }

  /** Every marker UpdateTrajectory leaves active lies strictly above the launch point: the
      pair drawn last, which may reach launch height, is always reset. */
  lemma ActiveSlotsAboveLaunch(num: Numerics, l: Launch, n: int, i: nat)
    requires l.v.x != 0.0
    requires Slot(num, l, n, i).active
    ensures Slot(num, l, n, i).position.y > l.origin.y
  {
    var pairs := PairCount(num, l, n, 0);
    var a := l.XSquaredMlp();
    ApexGeometry(l);
    assert Continues(num, l, n, 0);
    if i > 0 {
      var j := if i % 2 == 1 then (i + 1) / 2 else i / 2;
      assert j < pairs;
      assert Continues(num, l, n, j);
      assert Slot(num, l, n, i).position.y == Point(num, a, j).y + l.Apex().y;
    }
  }

  /** Active markers come in mirrored pairs: the marker at an even slot 2j is the one at slot
      2j - 1 reflected in the vertical line through the apex. */
  lemma ActiveSlotsMirrored(num: Numerics, l: Launch, n: int, i: nat)
    requires l.v.x != 0.0
    requires 0 < i && i % 2 == 0 && Slot(num, l, n, i).active
    ensures Slot(num, l, n, i - 1).active
    ensures Slot(num, l, n, i).position.y == Slot(num, l, n, i - 1).position.y
    ensures Slot(num, l, n, i).position.x - l.Apex().x
         == -(Slot(num, l, n, i - 1).position.x - l.Apex().x)
  {
    assert (i - 1 + 1) / 2 == i / 2;
  }

  /** Active markers come in mirrored pairs, seen from the right-hand branch: the marker at an
      odd slot 2j - 1 has its mirror image about the apex, active, at slot 2j. */
  lemma ActiveSlotsMirroredRight(num: Numerics, l: Launch, n: int, i: nat)
    requires l.v.x != 0.0
    requires i % 2 == 1 && Slot(num, l, n, i).active
    ensures Slot(num, l, n, i + 1).active
    ensures Slot(num, l, n, i + 1).position.y == Slot(num, l, n, i).position.y
    ensures Slot(num, l, n, i + 1).position.x - l.Apex().x
         == -(Slot(num, l, n, i).position.x - l.Apex().x)
  {
    assert (i + 1) / 2 * 2 == i + 1;
  }

  /** A slot is active exactly below KeptSlots, and then holds the marker the loop drew. */
  lemma SlotIsDrawn(num: Numerics, l: Launch, n: int, i: nat)
    requires l.v.x != 0.0
    ensures Slot(num, l, n, i).active <==> i < KeptSlots(num, l, n)
    ensures Slot(num, l, n, i).active ==> Slot(num, l, n, i) == Drawn(num, l, i)
  {
  }

  /** An odd slot 2j - 1 holds the sample Point(j) placed at the apex. */
  lemma OddDrawn(num: Numerics, l: Launch, i: nat)
    requires l.v.x != 0.0 && i % 2 == 1
    ensures Drawn(num, l, i).position == Point(num, l.XSquaredMlp(), (i + 1) / 2).Plus(l.Apex())
  {
  }

  /** Along the branch right of the apex the drawn markers move right and never climb. */
  lemma DrawnDescends(num: Numerics, l: Launch, i: nat, k: nat)
    requires NormalizedLaw(num) && l.v.x != 0.0
    requires i % 2 == 1 && k % 2 == 1 && i <= k
    ensures Drawn(num, l, i).position.x <= Drawn(num, l, k).position.x
    ensures Drawn(num, l, k).position.y <= Drawn(num, l, i).position.y
  {
    var a := l.XSquaredMlp();
    var ji, jk := (i + 1) / 2, (k + 1) / 2;
    OddDrawn(num, l, i);
    OddDrawn(num, l, k);
    OpensDownwards(l);
    PointsOrdered(num, a, ji, jk);
    PointsDescend(num, a, ji, jk);
  }

  /** Along the branch right of the apex (odd slots) the active markers move right and never
      climb: the preview descends monotonically from the apex. */
  lemma ActiveSlotsDescend(num: Numerics, l: Launch, n: int, i: nat, k: nat)
    requires NormalizedLaw(num) && l.v.x != 0.0
    requires i % 2 == 1 && k % 2 == 1 && i <= k
    requires Slot(num, l, n, k).active
    ensures Slot(num, l, n, i).active
    ensures Slot(num, l, n, i).position.x <= Slot(num, l, n, k).position.x
    ensures Slot(num, l, n, k).position.y <= Slot(num, l, n, i).position.y
  {
    SlotIsDrawn(num, l, n, i);
    SlotIsDrawn(num, l, n, k);
    DrawnDescends(num, l, i, k);
  }
}

/** HoleBody: the target. Each level moves it by a random offset within the band that its
    range sprite marks out, and the level is won when the ball comes to rest inside its
    collider. */
module Hole {
  import opened Vectors
  import opened Scene
  import opened Flight

  /** An axis-aligned box given by its centre and half-sizes, as Unity's Bounds. */
  datatype Bounds = Bounds(center: Vec2, extents: Vec2) {
    /** Bounds.Contains: the point lies inside the box or on its border. */
    predicate Contains(p: Vec2) {
      && center.x - extents.x <= p.x <= center.x + extents.x
      && center.y - extents.y <= p.y <= center.y + extents.y
    }
  }

  /** Random.Range(minInclusive, maxInclusive) on floats: a draw between the two bounds,
      whichever of them is the larger. */
  predicate Between(lo: real, hi: real, r: real) {
    (lo <= r <= hi) || (hi <= r <= lo)
  }

  /** 2 * Random.Range(0, 2) - 1, for the integer draw r of Random.Range(0, 2). */
  function RandomSign(r: int): (s: int)
    requires r == 0 || r == 1
    ensures s == -1 || s == 1
    ensures s == 1 <==> r == 1
  {
    2 * r - 1
  }

  /** The offset SetRandomPosition tries: a random sign times a random magnitude. */
  function DeltaX(signDraw: int, magnitudeDraw: real): real
    requires signDraw == 0 || signDraw == 1
  {
    RandomSign(signDraw) as real * magnitudeDraw
  }

  /** With a non-negative band half-width m, the offset is at least a quarter of m and at most
      m in size. */
  lemma DeltaXBounds(signDraw: int, magnitudeDraw: real, m: real)
    requires signDraw == 0 || signDraw == 1
    requires 0.0 <= m && Between(m * 0.25, m, magnitudeDraw)
    ensures m * 0.25 <= Abs(DeltaX(signDraw, magnitudeDraw)) <= m
  {
    if signDraw == 0 {
      assert DeltaX(signDraw, magnitudeDraw) == -magnitudeDraw;
    } else {
      assert DeltaX(signDraw, magnitudeDraw) == magnitudeDraw;
    }
  }

  /** A box holds exactly the points no farther from its centre than its half-size on each
      axis. */
  lemma ContainsWithinExtents(b: Bounds, p: Vec2)
    ensures b.Contains(p) <==> Abs(p.x - b.center.x) <= b.extents.x && Abs(p.y - b.center.y) <= b.extents.y
  {
  }

  /** The band the hole may occupy: within m of its initial x. */
  predicate InBand(x: real, initialX: real, m: real) {
    initialX - m <= x <= initialX + m
  }

  class HoleBody {
    const transform: Transform
    /** initialPosition: where Awake found the hole. */
    const initialPosition: Vec2
    /** spriteExtents: half the size of the hole's own sprite. */
    const spriteExtents: Vec2
    /** rangeSprite.bounds.extents: half the size of the band sprite, which Awake detaches from
        the hole so that it stays put. */
    const rangeExtents: Vec2
    /** Collider2D.bounds relative to the hole: the offset of its centre and its half-sizes. */
    const colliderOffset: Vec2
    const colliderExtents: Vec2

    /** Awake: remember the initial position and the sprite's size. */
    constructor(transform: Transform, spriteExtents: Vec2, rangeExtents: Vec2,
                colliderOffset: Vec2, colliderExtents: Vec2)
      ensures this.transform == transform && initialPosition == transform.position
      ensures this.spriteExtents == spriteExtents && this.rangeExtents == rangeExtents
      ensures this.colliderOffset == colliderOffset && this.colliderExtents == colliderExtents
    {
      this.transform := transform;
      initialPosition := transform.position;
      this.spriteExtents := spriteExtents;
      this.rangeExtents := rangeExtents;
      this.colliderOffset := colliderOffset;
      this.colliderExtents := colliderExtents;
    }

    /** maxDeltaX: how far the hole may move from its initial x while its sprite stays within
        the band sprite. */
    function MaxDeltaX(): real {
      rangeExtents.x - spriteExtents.x
    }

    /** The world-space bounds of the hole's collider, which move with the hole. */
    function ColliderBounds(): Bounds
      reads this, transform
    {
      Bounds(transform.position.Plus(colliderOffset), colliderExtents)
    }

    /** ContainsBody: the ball's position lies within the collider bounds, borders included; a
        query that changes nothing. */
    predicate ContainsBody(body: TrajectoryBody)
      reads this, transform, body, body.transform
    {
      ColliderBounds().Contains(body.transform.position)
    }

    /** SetRandomPosition, with the two Random.Range draws as parameters. The offset is added
        to the current x when that stays inside the band; otherwise the hole is placed at the
        initial x minus the offset, the reflection to the other side of the band. */
    method SetRandomPosition(signDraw: int, magnitudeDraw: real)
      requires signDraw == 0 || signDraw == 1
      requires Between(MaxDeltaX() * 0.25, MaxDeltaX(), magnitudeDraw)
      modifies transform
      ensures transform.position.y == old(transform.position.y)
      ensures var x, d := old(transform.position.x), DeltaX(signDraw, magnitudeDraw);
        && (InBand(x + d, initialPosition.x, MaxDeltaX()) ==> transform.position.x == x + d)
        && (!InBand(x + d, initialPosition.x, MaxDeltaX()) ==> transform.position.x == initialPosition.x - d)
      ensures 0.0 <= MaxDeltaX() ==> InBand(transform.position.x, initialPosition.x, MaxDeltaX())
    {
      var position := transform.position;
      var maxDeltaX := rangeExtents.x - spriteExtents.x;
      var deltaSign := 2 * signDraw - 1;
      var deltaX := deltaSign as real * magnitudeDraw;
      position := position.(x := position.x + deltaX);
      if position.x > initialPosition.x + maxDeltaX || position.x < initialPosition.x - maxDeltaX {
        position := position.(x := initialPosition.x - deltaX);
      }
      if 0.0 <= maxDeltaX {
        DeltaXBounds(signDraw, magnitudeDraw, maxDeltaX);
      }
      transform.position := position;
    }
  }
}

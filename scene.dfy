/** Engine objects shared between components. */
module Scene {
  import opened Vectors

  /** A Unity Transform, reduced to the world position the core reads and writes. Components
      that refer to the same game object share one Transform. */
  class Transform {
    var position: Vec2

    constructor(position: Vec2)
      ensures this.position == position
    {
      this.position := position;
    }
  }
}

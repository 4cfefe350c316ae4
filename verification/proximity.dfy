/**
 * The pointer-proximity rule: the pointer is "approaching" when it lies
 * within `ApproachDistance` of the button's top-left corner, the boundary
 * included.
 */
module Proximity {

  /** Distance, in CSS pixels, under which the pointer counts as approaching. */
  const ApproachDistance: int := 400

  /** A point in viewport coordinates (the pointer, or the button's corner). */
  datatype Point = Point(x: int, y: int)

  /** The square of the Euclidean distance between two points. */
  function SquaredDistance(p: Point, q: Point): (d: int)
    ensures d >= 0
  {
    var dx, dy := p.x - q.x, p.y - q.y;
    dx * dx + dy * dy
  }

  /** `Math.hypot(dx, dy) <= APPROACH_DISTANCE`, compared on squares so that it stays in integers. */
  predicate Approaches(mouse: Point, btn: Point)
    ensures Approaches(mouse, btn) ==>
              && -ApproachDistance <= mouse.x - btn.x <= ApproachDistance
              && -ApproachDistance <= mouse.y - btn.y <= ApproachDistance
  {
    SquaredDistance(mouse, btn) <= ApproachDistance * ApproachDistance
  }

  /**
   * The integer test agrees with comparing the real Euclidean distance `h`
   * (the non-negative root of the squared distance) against 400.
   */
  lemma HypotAgreement(mouse: Point, btn: Point, h: real)
    requires h >= 0.0 && h * h == SquaredDistance(mouse, btn) as real
    ensures Approaches(mouse, btn) <==> h <= ApproachDistance as real
  {
    var limit := ApproachDistance as real;
    if h <= limit {
      assert h * h <= limit * h;
      assert limit * h <= limit * limit;
    } else {
      assert h * h > limit * h;
      assert limit * h > limit * limit;
    }
  }

  /** A pointer exactly 400 away (a 240-320-400 right triangle) is approaching; 401 away along an axis is not. */
  lemma BoundaryIncluded(btn: Point)
    ensures Approaches(Point(btn.x + 240, btn.y + 320), btn)
    ensures !Approaches(Point(btn.x + 401, btn.y), btn)
  {
  }
}

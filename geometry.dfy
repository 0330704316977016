/**
 * The geometry helpers of the repetition counter: the joint angle at a
 * vertex, gated on landmark visibility, and the distance between two
 * landmarks.
 *
 * The trigonometry (`atan2`) and `sqrt` are not computed here.  The absolute
 * difference of the two rays' polar angles, in degrees, is supplied by the
 * caller as a `RawAngle` (a value in [0, 360]); distances are compared
 * through their squares, which is equivalent for non-negative bounds
 * (lemma `BelowIffSquareBelow`).
 */
module Geometry {
  import opened Wrappers

  /** One pose landmark: normalised image coordinates and detector confidence. */
  datatype Landmark = Landmark(x: real, y: real, visibility: real)

  /** The landmark list of one detection, indexed as MediaPipe Pose numbers joints. */
  type Frame = seq<Landmark>

  /** The highest landmark index any classifier reads (the right ankle). */
  const HighestIndexUsed: nat := 28

  /** Every index a classifier dereferences is present. */
  predicate WellFormed(frame: Frame)
  {
    |frame| > HighestIndexUsed
  }

  /** CONFIG.visibilityThreshold. */
  const VisibilityThreshold: real := 0.5

  /** The sentinel `calculateAngle` returns when it has no evidence. */
  const NoAngle: real := -1.0

  type Degrees = r: real | 0.0 <= r <= 360.0

  /** |atan2(c - b) - atan2(a - b)| converted to degrees, for vertex b. */
  type RawAngle = (Landmark, Landmark, Landmark) -> Degrees

  /** All three landmarks exist and none is below the visibility threshold. */
  predicate Measurable(a: Option<Landmark>, b: Option<Landmark>, c: Option<Landmark>)
  {
    && a.Some? && b.Some? && c.Some?
    && a.value.visibility >= VisibilityThreshold
    && b.value.visibility >= VisibilityThreshold
    && c.value.visibility >= VisibilityThreshold
  }

  /**
   * calculateAngle: the interior angle at `b`, folded into [0, 180], or the
   * sentinel -1 when a landmark is missing or not visible enough.
   */
  function CalculateAngle(a: Option<Landmark>, b: Option<Landmark>, c: Option<Landmark>, raw: RawAngle): (r: real)
    ensures r == NoAngle <==> !Measurable(a, b, c)
    ensures Measurable(a, b, c) ==> 0.0 <= r <= 180.0
    ensures Measurable(a, b, c) ==>
      var d := raw(a.value, b.value, c.value);
      (d <= 180.0 ==> r == d) && (d > 180.0 ==> r + d == 360.0)
  {
    if a.None? || b.None? || c.None? then NoAngle
    else if a.value.visibility < VisibilityThreshold
         || b.value.visibility < VisibilityThreshold
         || c.value.visibility < VisibilityThreshold then NoAngle
    else
      var angle := raw(a.value, b.value, c.value);
      if angle > 180.0 then 360.0 - angle else angle
  }

  /**
   * The square of calculateDistance: 0 when either landmark is missing,
   * otherwise dx*dx + dy*dy.
   */
  function SquaredDistance(a: Option<Landmark>, b: Option<Landmark>): (r: real)
    ensures r >= 0.0
    ensures a.None? || b.None? ==> r == 0.0
    ensures a.Some? && b.Some? && a.value.x == b.value.x && a.value.y == b.value.y ==> r == 0.0
  {
    if a.None? || b.None? then 0.0
    else
      var dx := a.value.x - b.value.x;
      var dy := a.value.y - b.value.y;
      SquarePositive(dx);
      SquarePositive(dy);
      dx * dx + dy * dy
  }

  lemma SquarePositive(v: real)
    ensures v * v >= 0.0
    ensures v == 0.0 ==> v * v == 0.0
  {
    if v > 0.0 {
      ProductPositive(v, v);
    } else if v < 0.0 {
      ProductPositive(-v, -v);
      assert (-v) * (-v) == v * v;
    }
  }

  lemma ProductPositive(u: real, v: real)
    requires u > 0.0 && v > 0.0
    ensures u * v > 0.0
  {
  }

  /**
   * Comparing a distance `d` with a non-negative bound is the same as
   * comparing `d * d` with the bound's square; this is why the model may
   * compare squared distances where the source compares square roots.
   */
  lemma BelowIffSquareBelow(d: real, bound: real)
    requires d >= 0.0 && bound >= 0.0
    ensures d < bound <==> d * d < bound * bound
    ensures d > bound <==> d * d > bound * bound
  {
    if d < bound {
      SquareStrictlyMonotone(d, bound);
    } else if d > bound {
      SquareStrictlyMonotone(bound, d);
    }
  }

  lemma SquareStrictlyMonotone(u: real, v: real)
    requires 0.0 <= u < v
    ensures u * u < v * v
  {
    ProductPositive(v - u, v + u);
    assert (v - u) * (v + u) == v * v - u * u;
  }
}

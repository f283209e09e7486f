/** The value helpers of utils.py. */
module Utils {
  import opened Config
  import opened Geometry
  import opened Vision
  import RealBounds

  /**
   * adjust_color_range: shifts saturation and value of a lower/upper pair, clamping the lower
   * bounds at 0 and the upper bounds at 255 (one side each); hue is untouched. The range is a
   * value, so the caller's range cannot change.
   */
  function AdjustColorRange(cr: ColorRange, saturationAdjust: int, valueAdjust: int): (r: ColorRange)
    ensures r.lower.h == cr.lower.h && r.upper.h == cr.upper.h
    ensures r.lower.s >= 0 && r.lower.v >= 0 && r.upper.s <= 255 && r.upper.v <= 255
    ensures cr.lower.s + saturationAdjust >= 0 ==> r.lower.s == cr.lower.s + saturationAdjust
    ensures cr.lower.s + saturationAdjust < 0 ==> r.lower.s == 0
    ensures cr.upper.s + saturationAdjust <= 255 ==> r.upper.s == cr.upper.s + saturationAdjust
    ensures cr.upper.s + saturationAdjust > 255 ==> r.upper.s == 255
    ensures cr.lower.v + valueAdjust >= 0 ==> r.lower.v == cr.lower.v + valueAdjust
    ensures cr.lower.v + valueAdjust < 0 ==> r.lower.v == 0
    ensures cr.upper.v + valueAdjust <= 255 ==> r.upper.v == cr.upper.v + valueAdjust
    ensures cr.upper.v + valueAdjust > 255 ==> r.upper.v == 255
  {
    var lower := cr.lower.(s := Max(0, cr.lower.s + saturationAdjust));
    var upper := cr.upper.(s := Min(255, cr.upper.s + saturationAdjust));
    ColorRange(lower.(v := Max(0, lower.v + valueAdjust)), upper.(v := Min(255, upper.v + valueAdjust)))
  }

  /** smooth_movement: the per-axis delta scaled by the factor, truncated toward zero. */
  function SmoothMovement(current: Point, target: Point, factor: real): (r: Point)
    ensures factor == 0.0 ==> r == Point(0, 0)
    ensures factor == 1.0 ==> r == Point(target.x - current.x, target.y - current.y)
    ensures 0.0 <= factor <= 1.0 ==>
      (target.x >= current.x ==> 0 <= r.x <= target.x - current.x)
      && (target.x <= current.x ==> target.x - current.x <= r.x <= 0)
      && (target.y >= current.y ==> 0 <= r.y <= target.y - current.y)
      && (target.y <= current.y ==> target.y - current.y <= r.y <= 0)
  {
    var dx := (target.x - current.x) as real * factor;
    var dy := (target.y - current.y) as real * factor;
    if 0.0 <= factor <= 1.0 then
      RealBounds.ScaleBound((target.x - current.x) as real, factor, dx);
      RealBounds.ScaleBound((target.y - current.y) as real, factor, dy);
      Point(Trunc(dx), Trunc(dy))
    else
      Point(Trunc(dx), Trunc(dy))
  }

  /** apply_headshot_offset: x kept, the offset added to y. */
  function ApplyHeadshotOffset(position: Point, offset: int): (r: Point)
    ensures r.x == position.x
    ensures r.y - position.y == offset
  {
    Point(position.x, position.y + offset)
  }

  /**
   * The front ends add the headshot offset inline; their aim point is apply_headshot_offset
   * of the plain centroid.
   */
  lemma {:induction false} AimPointAppliesHeadshotOffset(b: Blob, left: int, top: int, offset: int)
    requires b.m00 > 0.0
    ensures AimPoint(b, left, top, offset) == ApplyHeadshotOffset(AimPoint(b, left, top, 0), offset)
  {
  }

  /**
   * calculate_region_of_interest: a size x size box at `center - size // 2`, pushed to 0 at the
   * top-left edges and cut at the right and bottom screen edges.
   */
  function RegionOfInterest(center: Point, size: int, screenWidth: int, screenHeight: int): (r: Region)
    ensures r.left >= 0 && r.top >= 0
    ensures r.width <= size && r.height <= size
    ensures r.left + r.width <= screenWidth && r.top + r.height <= screenHeight
    ensures center.x >= size / 2 && center.y >= size / 2
            && center.x - size / 2 + size <= screenWidth && center.y - size / 2 + size <= screenHeight
            ==> r == Region(center.x - size / 2, center.y - size / 2, size, size)
    ensures r.left == Max(0, center.x - size / 2) && r.top == Max(0, center.y - size / 2)
    ensures r.width == Min(size, screenWidth - r.left) && r.height == Min(size, screenHeight - r.top)
  {
    var half := size / 2;
    var left := Max(0, center.x - half);
    var top := Max(0, center.y - half);
    Region(left, top, Min(size, screenWidth - left), Min(size, screenHeight - top))
  }
}

/**
 * Colour segmentation and target extraction shared by valorant.py, enhanced_aimassist.py,
 * arduino_controller.py (process_frame), triggerbot.py (detect_enemy_in_crosshair) and
 * calibration.py (create_hsv_mask).
 *
 * The frame is taken already in HSV. Morphological opening/closing and contour finding are
 * OpenCV internals; a contour reaches this module as a Blob record carrying what
 * cv2.contourArea and cv2.moments report for it.
 */
module Vision {
  import opened Wrappers
  import opened Config
  import opened Geometry

  type Image = seq<seq<Hsv>>
  type Mask = seq<seq<bool>>

  datatype ColorRange = ColorRange(lower: Hsv, upper: Hsv)

  /** cv2.inRange: inclusive on every channel. */
  predicate InRange(p: Hsv, lower: Hsv, upper: Hsv) {
    lower.h <= p.h <= upper.h && lower.s <= p.s <= upper.s && lower.v <= p.v <= upper.v
  }

  predicate SameShape(img: Image, m: Mask) {
    |m| == |img| && forall i :: 0 <= i < |img| ==> |m[i]| == |img[i]|
  }

  /** The mask of one range. */
  function RangeMask(img: Image, lower: Hsv, upper: Hsv): (m: Mask)
    ensures SameShape(img, m)
    ensures forall i, j :: 0 <= i < |img| && 0 <= j < |img[i]| ==> (m[i][j] <==> InRange(img[i][j], lower, upper))
  {
    seq(|img|, i requires 0 <= i < |img| =>
      seq(|img[i]|, j requires 0 <= j < |img[i]| => InRange(img[i][j], lower, upper)))
  }

  /** cv2.bitwise_or of two masks of one shape. */
  function Union(a: Mask, b: Mask): (m: Mask)
    requires |a| == |b| && forall i :: 0 <= i < |a| ==> |a[i]| == |b[i]|
    ensures |m| == |a| && forall i :: 0 <= i < |a| ==> |m[i]| == |a[i]|
    ensures forall i, j :: 0 <= i < |a| && 0 <= j < |a[i]| ==> (m[i][j] <==> a[i][j] || b[i][j])
  {
    seq(|a|, i requires 0 <= i < |a| => seq(|a[i]|, j requires 0 <= j < |a[i]| => a[i][j] || b[i][j]))
  }

  /** The detection mask of process_frame: range 1 OR range 2. */
  function DualRangeMask(img: Image, r1: ColorRange, r2: ColorRange): (m: Mask)
    ensures SameShape(img, m)
    ensures forall i, j :: 0 <= i < |img| && 0 <= j < |img[i]| ==>
      (m[i][j] <==> InRange(img[i][j], r1.lower, r1.upper) || InRange(img[i][j], r2.lower, r2.upper))
  {
    Union(RangeMask(img, r1.lower, r1.upper), RangeMask(img, r2.lower, r2.upper))
  }

  /** create_hsv_mask of the calibration tool: the second range joins only when both its bounds are given. */
  function HsvMask(img: Image, lower1: Hsv, upper1: Hsv, lower2: Option<Hsv>, upper2: Option<Hsv>): (m: Mask)
    ensures SameShape(img, m)
    ensures forall i, j :: 0 <= i < |img| && 0 <= j < |img[i]| ==>
      (m[i][j] <==> InRange(img[i][j], lower1, upper1)
                    || (lower2.Some? && upper2.Some? && InRange(img[i][j], lower2.value, upper2.value)))
  {
    if lower2.Some? && upper2.Some? then
      DualRangeMask(img, ColorRange(lower1, upper1), ColorRange(lower2.value, upper2.value))
    else
      RangeMask(img, lower1, upper1)
  }

  /** cv2.countNonZero over one row. */
  function CountRow(row: seq<bool>): (n: nat)
    ensures n <= |row|
    ensures n == 0 <==> forall j :: 0 <= j < |row| ==> !row[j]
  {
    if row == [] then 0 else CountRow(row[..|row| - 1]) + (if row[|row| - 1] then 1 else 0)
  }

  function Pixels(m: Mask): nat {
    if m == [] then 0 else Pixels(m[..|m| - 1]) + |m[|m| - 1]|
  }

  /** cv2.countNonZero: the number of set pixels, never more than the mask has, zero only for an empty mask. */
  function CountNonZero(m: Mask): (n: nat)
    ensures n <= Pixels(m)
    ensures n == 0 <==> forall i, j :: 0 <= i < |m| && 0 <= j < |m[i]| ==> !m[i][j]
  {
    if m == [] then 0
    else
      var n := CountNonZero(m[..|m| - 1]) + CountRow(m[|m| - 1]);
      assert forall i :: 0 <= i < |m| - 1 ==> m[..|m| - 1][i] == m[i];
      n
  }

  /** The positions (row, column) of the set pixels of one row, numbered `i`. */
  function RowCells(i: int, row: seq<bool>): set<(int, int)> {
    set j | 0 <= j < |row| && row[j] :: (i, j)
  }

  /** The positions (row, column) of all set pixels of a mask. */
  function Cells(m: Mask): set<(int, int)> {
    set i, j | 0 <= i < |m| && 0 <= j < |m[i]| && m[i][j] :: (i, j)
  }

  lemma {:induction false} CountRowIsCellCount(i: int, row: seq<bool>)
    ensures |RowCells(i, row)| == CountRow(row)
  {
    if row != [] {
      var k := |row| - 1;
      CountRowIsCellCount(i, row[..k]);
      var last := if row[k] then {(i, k)} else {};
      assert RowCells(i, row) == RowCells(i, row[..k]) + last;
      assert (i, k) !in RowCells(i, row[..k]);
    }
  }

  /** countNonZero is exactly the number of distinct set pixel positions. */
  lemma {:induction false} CountNonZeroIsCellCount(m: Mask)
    ensures CountNonZero(m) == |Cells(m)|
  {
    if m == [] {
      assert Cells(m) == {};
    } else {
      var k := |m| - 1;
      CountNonZeroIsCellCount(m[..k]);
      CountRowIsCellCount(k, m[k]);
      assert Cells(m) == Cells(m[..k]) + RowCells(k, m[k]);
      assert Cells(m[..k]) * RowCells(k, m[k]) == {};
    }
  }

  /** What contourArea and moments report for one contour. */
  datatype Blob = Blob(area: real, m00: real, m10: real, m01: real)

  predicate Qualifies(b: Blob, minArea: real) { b.area > minArea }

  /**
   * `k` is what `max(valid_contours, key=cv2.contourArea)` picks: a blob above the area threshold,
   * at least as large as every qualifying blob and strictly larger than every qualifying blob
   * before it (Python's max keeps the first of equal keys).
   */
  predicate IsFirstLargest(blobs: seq<Blob>, minArea: real, k: int) {
    0 <= k < |blobs| && Qualifies(blobs[k], minArea)
    && (forall j :: 0 <= j < |blobs| && Qualifies(blobs[j], minArea) ==> blobs[j].area <= blobs[k].area)
    && (forall j :: 0 <= j < k && Qualifies(blobs[j], minArea) ==> blobs[j].area < blobs[k].area)
  }

  /** The area filter followed by the first maximum, scanning the list in order. */
  function LargestQualifying(blobs: seq<Blob>, minArea: real): (k: Option<nat>)
    ensures k.Some? ==> IsFirstLargest(blobs, minArea, k.value)
    ensures k.None? <==> forall j :: 0 <= j < |blobs| ==> !Qualifies(blobs[j], minArea)
  {
    if blobs == [] then None
    else
      var init := blobs[..|blobs| - 1];
      var last := |blobs| - 1;
      var prev := LargestQualifying(init, minArea);
      assert forall j :: 0 <= j < last ==> init[j] == blobs[j];
      if Qualifies(blobs[last], minArea) && (prev.None? || blobs[last].area > blobs[prev.value].area)
      then Some(last)
      else prev
  }

  lemma FirstLargestUnique(blobs: seq<Blob>, minArea: real, k1: int, k2: int)
    requires IsFirstLargest(blobs, minArea, k1) && IsFirstLargest(blobs, minArea, k2)
    ensures k1 == k2
  {
  }

  /** The aim point of a blob: its truncated centroid moved into screen coordinates, lifted by the headshot offset. */
  function AimPoint(b: Blob, left: int, top: int, headshotOffset: int): Point
    requires b.m00 > 0.0
  {
    Point(Trunc(b.m10 / b.m00) + left, Trunc(b.m01 / b.m00) + top + headshotOffset)
  }

  /**
   * The post-contour part of process_frame. No blob above the area threshold gives no target;
   * otherwise the first largest blob decides: a positive m00 gives its aim point, any other
   * m00 gives no target.
   */
  function LocateTarget(blobs: seq<Blob>, minArea: real, left: int, top: int, headshotOffset: int): (t: Option<Point>)
    ensures (forall j :: 0 <= j < |blobs| ==> !Qualifies(blobs[j], minArea)) ==> t.None?
    ensures forall k :: IsFirstLargest(blobs, minArea, k) ==>
      t == (if blobs[k].m00 > 0.0 then Some(AimPoint(blobs[k], left, top, headshotOffset)) else None)
    ensures t.Some? ==> exists k :: IsFirstLargest(blobs, minArea, k) && blobs[k].m00 > 0.0
  {
    match LargestQualifying(blobs, minArea)
    case None => None
    case Some(k) =>
      assert forall k' :: IsFirstLargest(blobs, minArea, k') ==> k' == k by {
        forall k' | IsFirstLargest(blobs, minArea, k') { FirstLargestUnique(blobs, minArea, k, k'); }
      }
      if blobs[k].m00 > 0.0 then Some(AimPoint(blobs[k], left, top, headshotOffset)) else None
  }

  /** The crosshair test of triggerbot.py: a target when at least `minPixels` mask pixels are set (>=, not >). */
  function DetectInCrosshair(m: Mask, minPixels: int): (r: (bool, nat))
    ensures r.1 == CountNonZero(m)
    ensures r.0 <==> r.1 >= minPixels
    ensures minPixels > 0 && (forall i, j :: 0 <= i < |m| && 0 <= j < |m[i]| ==> !m[i][j]) ==> !r.0
    ensures minPixels > Pixels(m) ==> !r.0
  {
    var n := CountNonZero(m);
    (n >= minPixels, n)
  }
}

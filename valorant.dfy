/**
 * The plain front end of valorant.py: the scan rectangle follows the cursor, the target is the
 * first largest red blob, and a correction is injected directly or as three floor-divided sub-steps.
 * Cursor position, blob records, the distance and the random factor are inputs; the moves handed
 * to win32api.mouse_event are returned in order.
 */
module Valorant {
  import opened Wrappers
  import opened Config
  import opened Geometry
  import opened Vision
  import opened Correction

  const IndirectSteps: nat := 3

  class ValorantAimAssist {
    var centerX: int
    var centerY: int
    var monitor: Region
    /** Toggled by the keyboard listener (ctrl+alt+d); false at start. */
    var useDirectInput: bool

    constructor ()
      ensures centerX == GameWidth / 2 && centerY == GameHeight / 2
      ensures monitor == Region(0, 0, GameWidth, GameHeight)
      ensures !useDirectInput
    {
      centerX, centerY := GameWidth / 2, GameHeight / 2;
      monitor := Region(0, 0, GameWidth, GameHeight);
      useDirectInput := false;
    }

    /** update_scan_region: the centre becomes the cursor and the rectangle is recomputed around it. */
    method UpdateScanRegion(cursor: Point)
      modifies this
      ensures centerX == cursor.x && centerY == cursor.y
      ensures monitor == ScanRegion(cursor.x, cursor.y, ScanRegionSize)
      ensures monitor.left >= 0 && monitor.top >= 0
      ensures monitor.width == ScanRegionSize && monitor.height == ScanRegionSize
      ensures useDirectInput == old(useDirectInput)
    {
      centerX := cursor.x;
      centerY := cursor.y;
      monitor := ScanRegion(centerX, centerY, ScanRegionSize);
    }

    /** process_frame after contour extraction, offsets taken from the current rectangle. */
    method ProcessFrame(blobs: seq<Blob>) returns (target: Option<Point>)
      ensures (forall j :: 0 <= j < |blobs| ==> !Qualifies(blobs[j], MinimumContourArea)) ==> target.None?
      ensures forall k :: IsFirstLargest(blobs, MinimumContourArea, k) ==>
        target == (if blobs[k].m00 > 0.0 then Some(AimPoint(blobs[k], monitor.left, monitor.top, HeadshotOffset)) else None)
    {
      target := LocateTarget(blobs, MinimumContourArea, monitor.left, monitor.top, HeadshotOffset);
    }

    /** calculate_aim_adjustment: reads the centre and computes; nothing is updated. */
    method CalculateAimAdjustment(target: Option<Point>, distance: real, randomFactor: real) returns (o: Offset)
      ensures o == BasicAdjustment(Point(centerX, centerY), target, distance, randomFactor, BasicSettings)
      ensures -(MaxAdjustment as int) <= o.dx <= MaxAdjustment && -(MaxAdjustment as int) <= o.dy <= MaxAdjustment
    {
      o := BasicAdjustment(Point(centerX, centerY), target, distance, randomFactor, BasicSettings);
    }

    /**
     * aim_at_target: a zero correction sends nothing; direct mode sends the correction once;
     * indirect mode sends exactly three moves, each the correction floor-divided by 3.
     */
    method AimAtTarget(target: Option<Point>, distance: real, randomFactor: real) returns (sent: seq<Offset>)
      ensures var o := BasicAdjustment(Point(centerX, centerY), target, distance, randomFactor, BasicSettings);
        (o == Zero ==> sent == [])
        && (o != Zero && useDirectInput ==> sent == [o])
        && (o != Zero && !useDirectInput ==>
              |sent| == IndirectSteps
              && forall i :: 0 <= i < |sent| ==> sent[i] == Offset(o.dx / IndirectSteps, o.dy / IndirectSteps))
    {
      var o := CalculateAimAdjustment(target, distance, randomFactor);
      sent := [];
      if o.dx != 0 || o.dy != 0 {
        if useDirectInput {
          sent := [o];
        } else {
          for i := 0 to IndirectSteps
            invariant |sent| == i
            invariant forall k :: 0 <= k < i ==> sent[k] == Offset(o.dx / IndirectSteps, o.dy / IndirectSteps)
          {
            sent := sent + [Offset(o.dx / IndirectSteps, o.dy / IndirectSteps)];
          }
        }
      }
    }
  }

  /**
   * The indirect sub-steps as written add up to 3 * (m // 3): a negative move that is not a
   * multiple of 3 is overshot (a move of -1 becomes -3) and a positive one is cut short
   * (a move of 2 becomes 0).
   */
  lemma IndirectStepsMissTheMove(m: int)
    ensures m % 3 != 0 && m < 0 ==> IndirectSteps * (m / IndirectSteps) < m
    ensures m % 3 != 0 && m > 0 ==> 0 <= IndirectSteps * (m / IndirectSteps) < m
    ensures IndirectSteps * (-1 / IndirectSteps) == -3
    ensures IndirectSteps * (2 / IndirectSteps) == 0
  {
  }

  /**
   * The intended split: three sub-steps that add up to the move, each with the move's sign and
   * no larger than it (the quotient rounded toward zero, the remainder on the last step).
   */
  function ExactThreeWaySplit(m: int): (r: seq<int>)
    ensures |r| == 3 && r[0] + r[1] + r[2] == m
    ensures forall i :: 0 <= i < 3 ==> (m >= 0 ==> 0 <= r[i] <= m) && (m <= 0 ==> m <= r[i] <= 0)
  {
    var q := if m >= 0 then m / 3 else -((-m) / 3);
    [q, q, m - 2 * q]
  }
}

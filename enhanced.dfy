/**
 * The humanised front end of enhanced_aimassist.py: a correction that remembers the previous
 * move, selectable movement patterns and input methods, intermittent assistance and staggered
 * sub-steps. Random draws (the intermittent roll, random factor, jitter, step factors) are
 * inputs; the moves handed to the selected input method are returned in order.
 */
module Enhanced {
  import opened Wrappers
  import opened Config
  import opened Geometry
  import opened Vision
  import opened Correction

  /** A move handed to input method `via` (0 direct, 1 SendInput, 2 SetCursorPos, 3 event). */
  datatype Injection = Injection(via: nat, dx: int, dy: int)

  const InputMethodCount: nat := 4
  const AssistPercentage: int := 85

  /** `s` lies between 0 and `m`: the sign of `m` and no larger. */
  predicate Within(s: int, m: int) {
    (m >= 0 ==> 0 <= s <= m) && (m <= 0 ==> m <= s <= 0)
  }

  /**
   * The staggered sub-steps for the factors `fs` (the last is 1.0), each int(move * factor / steps)
   * per axis, with the steps whose two components are both 0 skipped.
   */
  function StaggerPlan(o: Offset, fs: seq<real>, steps: nat, via: nat): seq<Injection>
    requires steps > 0
  {
    if fs == [] then []
    else
      var sx := StaggerStep(o.dx, fs[|fs| - 1], steps);
      var sy := StaggerStep(o.dy, fs[|fs| - 1], steps);
      var before := StaggerPlan(o, fs[..|fs| - 1], steps, via);
      if sx == 0 && sy == 0 then before else before + [Injection(via, sx, sy)]
  }

  /** With factors in [0,1], no more sub-steps than factors are sent, none is empty and each stays within the move. */
  lemma {:induction false} StaggerPlanBounded(o: Offset, fs: seq<real>, steps: nat, via: nat)
    requires steps > 0
    requires forall i :: 0 <= i < |fs| ==> 0.0 <= fs[i] <= 1.0
    ensures var p := StaggerPlan(o, fs, steps, via);
      |p| <= |fs|
      && forall k :: 0 <= k < |p| ==>
           p[k].via == via && (p[k].dx != 0 || p[k].dy != 0) && Within(p[k].dx, o.dx) && Within(p[k].dy, o.dy)
  {
    if fs != [] {
      StaggerPlanBounded(o, fs[..|fs| - 1], steps, via);
    }
  }

  class EnhancedAimAssist {
    var centerX: int
    var centerY: int
    var monitor: Region
    var prevDx: int
    var prevDy: int
    var currentPattern: nat
    var currentMethod: nat
    // Toggled by the keyboard listener; all on at start.
    var humanizeMovement: bool
    var movementStagger: bool
    var intermittentAssist: bool

    ghost predicate Valid()
      reads this
    {
      currentPattern < PatternCount && currentMethod < InputMethodCount
    }

    constructor ()
      ensures Valid()
      ensures centerX == GameWidth / 2 && centerY == GameHeight / 2
      ensures monitor == Region(0, 0, GameWidth, GameHeight)
      ensures prevDx == 0 && prevDy == 0 && currentPattern == 0 && currentMethod == 0
      ensures humanizeMovement && movementStagger && intermittentAssist
    {
      centerX, centerY := GameWidth / 2, GameHeight / 2;
      monitor := Region(0, 0, GameWidth, GameHeight);
      prevDx, prevDy := 0, 0;
      currentPattern, currentMethod := 0, 0;
      humanizeMovement, movementStagger, intermittentAssist := true, true, true;
    }

    /** update_scan_region: the centre becomes the cursor and the rectangle is recomputed around it. */
    method UpdateScanRegion(cursor: Point)
      modifies this`centerX, this`centerY, this`monitor
      ensures centerX == cursor.x && centerY == cursor.y
      ensures monitor == ScanRegion(cursor.x, cursor.y, ScanRegionSize)
      ensures monitor.left >= 0 && monitor.top >= 0
      ensures monitor.width == ScanRegionSize && monitor.height == ScanRegionSize
    {
      centerX := cursor.x;
      centerY := cursor.y;
      monitor := ScanRegion(centerX, centerY, ScanRegionSize);
    }

    /** process_frame after contour extraction, offsets taken from the current rectangle. */
    method ProcessFrame(blobs: seq<Blob>) returns (target: Option<Point>)
      ensures (forall j :: 0 <= j < |blobs| ==> !Qualifies(blobs[j], MinimumContourArea)) ==> target.None?
      ensures forall k :: IsFirstLargest(blobs, MinimumContourArea, k) ==>
        target == (if blobs[k].m00 > 0.0 then Some(AimPoint(blobs[k], monitor.left, monitor.top, HeadshotOffset)) else None)
    {
      target := LocateTarget(blobs, MinimumContourArea, monitor.left, monitor.top, HeadshotOffset);
    }

    /**
     * calculate_aim_adjustment: outside the deadzone the previous move becomes the returned
     * move; with no target or inside the 3-unit deadzone the result is (0,0) and the previous
     * move is left as it was.
     */
    method CalculateAimAdjustment(target: Option<Point>, distance: real, randomFactor: real,
                                  jitterX: real, jitterY: real) returns (o: Offset)
      requires Valid()
      modifies this`prevDx, this`prevDy
      ensures o == EnhancedAdjustment(Point(centerX, centerY), target, Offset(old(prevDx), old(prevDy)), distance,
                                      currentPattern, randomFactor, jitterX, jitterY, humanizeMovement, EnhancedDefaults)
      ensures -(EnhancedDefaults.maxAdjustment as int) <= o.dx <= EnhancedDefaults.maxAdjustment
      ensures -(EnhancedDefaults.maxAdjustment as int) <= o.dy <= EnhancedDefaults.maxAdjustment
      ensures Engaged(Point(centerX, centerY), target) ==> prevDx == o.dx && prevDy == o.dy
      ensures !Engaged(Point(centerX, centerY), target) ==> o == Zero && prevDx == old(prevDx) && prevDy == old(prevDy)
    {
      o := EnhancedAdjustment(Point(centerX, centerY), target, Offset(prevDx, prevDy), distance,
                              currentPattern, randomFactor, jitterX, jitterY, humanizeMovement, EnhancedDefaults);
      if Engaged(Point(centerX, centerY), target) {
        prevDx := o.dx;
        prevDy := o.dy;
      }
    }

    /**
     * aim_at_target. A roll above 85 (with intermittent assistance on) skips the cycle before
     * any computation. Otherwise the correction is computed (updating the previous move); a zero
     * correction sends nothing; without stagger it is sent once through the current method; with
     * stagger the sub-steps of StaggerPlan are sent, and for factors in [0,1] each is non-empty
     * and within the correction on both axes.
     */
    method AimAtTarget(target: Option<Point>, roll: int, distance: real, randomFactor: real,
                       jitterX: real, jitterY: real, stepFactors: seq<real>) returns (sent: seq<Injection>)
      requires Valid()
      modifies this`prevDx, this`prevDy
      ensures intermittentAssist && roll > AssistPercentage ==>
        sent == [] && prevDx == old(prevDx) && prevDy == old(prevDy)
      ensures !(intermittentAssist && roll > AssistPercentage) ==>
        var o := EnhancedAdjustment(Point(centerX, centerY), target, Offset(old(prevDx), old(prevDy)), distance,
                                    currentPattern, randomFactor, jitterX, jitterY, humanizeMovement, EnhancedDefaults);
        (Engaged(Point(centerX, centerY), target) ==> prevDx == o.dx && prevDy == o.dy)
        && (!Engaged(Point(centerX, centerY), target) ==> prevDx == old(prevDx) && prevDy == old(prevDy))
        && (o == Zero ==> sent == [])
        && (o != Zero && !movementStagger ==> sent == [Injection(currentMethod, o.dx, o.dy)])
        && (o != Zero && movementStagger ==>
              sent == StaggerPlan(o, stepFactors + [1.0], |stepFactors| + 1, currentMethod)
              && ((forall i :: 0 <= i < |stepFactors| ==> 0.0 <= stepFactors[i] <= 1.0) ==>
                    |sent| <= |stepFactors| + 1
                    && forall k :: 0 <= k < |sent| ==>
                         (sent[k].dx != 0 || sent[k].dy != 0) && Within(sent[k].dx, o.dx) && Within(sent[k].dy, o.dy)))
    {
      sent := [];
      if intermittentAssist && roll > AssistPercentage {
        return;
      }
      var o := CalculateAimAdjustment(target, distance, randomFactor, jitterX, jitterY);
      if o.dx == 0 && o.dy == 0 {
        return;
      }
      if movementStagger {
        var fs := stepFactors + [1.0];
        var steps := |fs|;
        for i := 0 to steps
          invariant sent == StaggerPlan(o, fs[..i], steps, currentMethod)
        {
          var sx := StaggerStep(o.dx, fs[i], steps);
          var sy := StaggerStep(o.dy, fs[i], steps);
          assert fs[..i + 1][..i] == fs[..i];
          if !(sx == 0 && sy == 0) {
            sent := sent + [Injection(currentMethod, sx, sy)];
          }
        }
        assert fs[..steps] == fs;
        if forall i :: 0 <= i < |stepFactors| ==> 0.0 <= stepFactors[i] <= 1.0 {
          StaggerPlanBounded(o, fs, steps, currentMethod);
        }
      } else {
        sent := [Injection(currentMethod, o.dx, o.dy)];
      }
    }

    /** The ctrl+alt+p key: next movement pattern, wrapping after the third. */
    method CyclePattern()
      requires Valid()
      modifies this`currentPattern
      ensures Valid()
      ensures currentPattern == (old(currentPattern) + 1) % PatternCount
    {
      currentPattern := (currentPattern + 1) % PatternCount;
    }

    /** The ctrl+alt+m key: next input method, wrapping after the fourth. */
    method CycleInputMethod()
      requires Valid()
      modifies this`currentMethod
      ensures Valid()
      ensures currentMethod == (old(currentMethod) + 1) % InputMethodCount
    {
      currentMethod := (currentMethod + 1) % InputMethodCount;
    }
  }
}

/**
 * The editing state of calibration.py: two working HSV bounds (arrays edited in place), which
 * component and which bound the arrow keys change, which of the two red ranges is being
 * calibrated, and the size of one adjustment step.
 */
module Calibration {
  import opened Config

  const Components: nat := 3
  const HueMax: int := 179
  const ChannelMax: int := 255
  const InitialStep: int := 5
  const MinStep: int := 1
  const MaxStep: int := 20

  function Clamp(x: int, lo: int, hi: int): int
    requires lo <= hi
  {
    if x < lo then lo else if x > hi then hi else x
  }

  /**
   * One press of the up or down arrow on a component: the value moves by the step, is clamped
   * into [0,255] and, for the hue, again into [0,179]. Both clamps together are a single clamp
   * into the component's own range.
   */
  function EditedComponent(v: int, step: int, increase: bool, component: nat): (r: int)
    ensures 0 <= r <= ChannelMax
    ensures component == 0 ==> r <= HueMax
    ensures var t := if increase then v + step else v - step;
      var hi := if component == 0 then HueMax else ChannelMax;
      (0 <= t <= hi ==> r == t) && (t < 0 ==> r == 0) && (t > hi ==> r == hi)
  {
    var change := if increase then step else -step;
    var r := Clamp(v + change, 0, ChannelMax);
    if component == 0 then Clamp(r, 0, HueMax) else r
  }

  function Triple(a: array<int>): Hsv
    requires a.Length == Components
    reads a
  {
    Hsv(a[0], a[1], a[2])
  }

  /** The working copy of a configured bound. */
  method FreshBound(c: Hsv) returns (a: array<int>)
    ensures fresh(a) && a.Length == Components && Triple(a) == c
  {
    a := new int[Components];
    a[0], a[1], a[2] := c.h, c.s, c.v;
  }

  class ColorCalibrationTool {
    /** current_lower_red1 and current_upper_red1: the bounds under edit, whichever range that is. */
    var currentLower: array<int>
    var currentUpper: array<int>
    var colorComponent: nat
    var isLower: bool
    var rangeIndex: nat
    var adjustmentStep: int

    ghost predicate Valid()
      reads this
    {
      currentLower.Length == Components && currentUpper.Length == Components && currentLower != currentUpper
      && colorComponent < Components && rangeIndex < 2 && MinStep <= adjustmentStep <= MaxStep
    }

    constructor ()
      ensures Valid()
      ensures Triple(currentLower) == LowerRed1 && Triple(currentUpper) == UpperRed1
      ensures colorComponent == 0 && isLower && rangeIndex == 0 && adjustmentStep == InitialStep
    {
      var lower := FreshBound(LowerRed1);
      var upper := FreshBound(UpperRed1);
      currentLower, currentUpper := lower, upper;
      colorComponent, isLower, rangeIndex := 0, true, 0;
      adjustmentStep := InitialStep;
    }

    /**
     * adjust_value: only the selected component of the selected bound changes, to
     * EditedComponent of its old value; the other bound is untouched.
     */
    method AdjustValue(increase: bool)
      requires Valid()
      modifies currentLower, currentUpper
      ensures Valid()
      ensures var edited := if isLower then currentLower else currentUpper;
        edited[colorComponent] == EditedComponent(old(edited[colorComponent]), adjustmentStep, increase, colorComponent)
        && forall k :: 0 <= k < Components && k != colorComponent ==> edited[k] == old(edited[k])
      ensures var other := if isLower then currentUpper else currentLower;
        other[..] == old(other[..])
    {
      var values := if isLower then currentLower else currentUpper;
      values[colorComponent] := EditedComponent(values[colorComponent], adjustmentStep, increase, colorComponent);
    }

    /** toggle_component: H, S, V, H, ... */
    method ToggleComponent()
      requires Valid()
      modifies this`colorComponent
      ensures Valid()
      ensures colorComponent == (old(colorComponent) + 1) % Components
    {
      colorComponent := (colorComponent + 1) % Components;
    }

    /** toggle_bound: lower and upper alternate. */
    method ToggleBound()
      requires Valid()
      modifies this`isLower
      ensures Valid()
      ensures isLower == !old(isLower)
    {
      isLower := !isLower;
    }

    /**
     * toggle_range: the range index alternates and the working bounds are replaced by fresh
     * copies of the configured bounds of the newly selected range; the configured bounds are
     * values and cannot change.
     */
    method ToggleRange()
      requires Valid()
      modifies this`rangeIndex, this`currentLower, this`currentUpper
      ensures Valid()
      ensures rangeIndex == 1 - old(rangeIndex)
      ensures fresh(currentLower) && fresh(currentUpper)
      ensures rangeIndex == 0 ==> Triple(currentLower) == LowerRed1 && Triple(currentUpper) == UpperRed1
      ensures rangeIndex == 1 ==> Triple(currentLower) == LowerRed2 && Triple(currentUpper) == UpperRed2
    {
      rangeIndex := (rangeIndex + 1) % 2;
      var lower, upper;
      if rangeIndex == 0 {
        lower := FreshBound(LowerRed1);
        upper := FreshBound(UpperRed1);
      } else {
        lower := FreshBound(LowerRed2);
        upper := FreshBound(UpperRed2);
      }
      currentLower, currentUpper := lower, upper;
    }

    /** The right arrow: one more, at most 20. */
    method IncreaseStep()
      requires Valid()
      modifies this`adjustmentStep
      ensures Valid()
      ensures old(adjustmentStep) < MaxStep ==> adjustmentStep == old(adjustmentStep) + 1
      ensures old(adjustmentStep) == MaxStep ==> adjustmentStep == MaxStep
    {
      adjustmentStep := if adjustmentStep + 1 < MaxStep then adjustmentStep + 1 else MaxStep;
    }

    /** The left arrow: one less, at least 1. */
    method DecreaseStep()
      requires Valid()
      modifies this`adjustmentStep
      ensures Valid()
      ensures old(adjustmentStep) > MinStep ==> adjustmentStep == old(adjustmentStep) - 1
      ensures old(adjustmentStep) == MinStep ==> adjustmentStep == MinStep
    {
      adjustmentStep := if adjustmentStep - 1 > MinStep then adjustmentStep - 1 else MinStep;
    }

    /** The dictionary run returns: the working bounds under the names of the range being calibrated. */
    method Result() returns (r: map<string, Hsv>)
      requires Valid()
      ensures rangeIndex == 0 ==> r == map["lower_red1" := Triple(currentLower), "upper_red1" := Triple(currentUpper)]
      ensures rangeIndex != 0 ==> r == map["lower_red2" := Triple(currentLower), "upper_red2" := Triple(currentUpper)]
      ensures |r.Keys| == 2
    {
      if rangeIndex == 0 {
        r := map["lower_red1" := Triple(currentLower), "upper_red1" := Triple(currentUpper)];
      } else {
        r := map["lower_red2" := Triple(currentLower), "upper_red2" := Triple(currentUpper)];
      }
    }
  }
}

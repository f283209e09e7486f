/**
 * The motion-correction arithmetic of calculate_aim_adjustment: the deadzone, the distance-dependent
 * gain, truncation to whole device units and the per-axis clamp, in the plain variant
 * (valorant.py, arduino_controller.py) and the humanised one (enhanced_aimassist.py).
 *
 * np.sqrt is not computed: the Euclidean distance reaches these functions as the real
 * parameter `distance`, while the deadzone, which only compares it with a whole radius, is
 * decided exactly on the integer offsets. Random draws are parameters too.
 */
module Correction {
  import opened Wrappers
  import opened Config
  import opened Geometry
  import RealBounds

  /** A signed device movement (dx, dy). */
  datatype Offset = Offset(dx: int, dy: int)

  const Zero: Offset := Offset(0, 0)

  /** `sqrt(dx*dx + dy*dy) <= radius`, stated without the square root. */
  predicate InDeadzone(dx: int, dy: int, radius: nat) {
    dx * dx + dy * dy <= radius * radius
  }

  /** `if abs(m) > limit: m = limit if m > 0 else -limit`. */
  function ClampAxis(m: int, limit: nat): (r: int)
    ensures -(limit as int) <= r <= limit
    ensures -(limit as int) <= m <= limit ==> r == m
    ensures m > limit ==> r == limit
    ensures m < -(limit as int) ==> r == -(limit as int)
  {
    if (if m < 0 then -m else m) > limit then (if m > 0 then limit as int else -(limit as int)) else m
  }

  /** Configuration of the plain variant. */
  datatype AimSettings = AimSettings(aimSpeed: real, smoothing: real, maxAdjustment: nat)

  const BasicSettings: AimSettings := AimSettings(AimSpeed, SmoothingFactor, MaxAdjustment)
  const BasicDeadzone: nat := 5
  const BasicReferenceDistance: real := 500.0

  /** `smoothing + (1 - smoothing) * distance / 500`, scaled by the random factor below 50 units. */
  function BasicStrength(distance: real, smoothing: real, randomFactor: real): real {
    var s := smoothing + (1.0 - smoothing) * (distance / BasicReferenceDistance);
    if distance < 50.0 then s * randomFactor else s
  }

  /** Vector from the crosshair to the target. */
  function Delta(center: Point, target: Point): Point {
    Point(target.x - center.x, target.y - center.y)
  }

  /**
   * calculate_aim_adjustment of valorant.py and arduino_controller.py: no target or a target
   * within 5 units gives (0,0); otherwise each axis is bounded by maxAdjustment whatever the
   * distance, the random factor and the speed.
   */
  function BasicAdjustment(center: Point, target: Option<Point>, distance: real, randomFactor: real,
                           cfg: AimSettings): (o: Offset)
    ensures target.None? ==> o == Zero
    ensures target.Some? && InDeadzone(Delta(center, target.value).x, Delta(center, target.value).y, BasicDeadzone) ==> o == Zero
    ensures -(cfg.maxAdjustment as int) <= o.dx <= cfg.maxAdjustment && -(cfg.maxAdjustment as int) <= o.dy <= cfg.maxAdjustment
  {
    match target
    case None => Zero
    case Some(t) =>
      var d := Delta(center, t);
      if InDeadzone(d.x, d.y, BasicDeadzone) then Zero
      else
        var gain := cfg.aimSpeed * BasicStrength(distance, cfg.smoothing, randomFactor);
        Offset(ClampAxis(Trunc(d.x as real * gain), cfg.maxAdjustment),
               ClampAxis(Trunc(d.y as real * gain), cfg.maxAdjustment))
  }

  /** Scaling by a non-negative gain, truncating and clamping never reverses an axis. */
  lemma ScaledAxisKeepsSign(d: int, gain: real, limit: nat)
    requires gain >= 0.0
    ensures d >= 0 ==> ClampAxis(Trunc(d as real * gain), limit) >= 0
    ensures d <= 0 ==> ClampAxis(Trunc(d as real * gain), limit) <= 0
  {
    if d >= 0 {
      assert d as real * gain >= 0.0;
    } else {
      assert d as real * gain <= 0.0;
    }
  }

  /**
   * With the configured speed and smoothing (non-negative, smoothing at most 1) and a positive
   * random factor, the plain correction never moves away from the target on either axis.
   */
  lemma BasicMovesTowardTarget(center: Point, target: Point, distance: real, randomFactor: real, cfg: AimSettings)
    requires distance >= 0.0 && randomFactor > 0.0
    requires cfg.aimSpeed >= 0.0 && 0.0 <= cfg.smoothing <= 1.0
    ensures var o := BasicAdjustment(center, Some(target), distance, randomFactor, cfg);
            var d := Delta(center, target);
            (d.x >= 0 ==> o.dx >= 0) && (d.x <= 0 ==> o.dx <= 0)
            && (d.y >= 0 ==> o.dy >= 0) && (d.y <= 0 ==> o.dy <= 0)
  {
    var d := Delta(center, target);
    if !InDeadzone(d.x, d.y, BasicDeadzone) {
      var s := cfg.smoothing + (1.0 - cfg.smoothing) * (distance / BasicReferenceDistance);
      assert (1.0 - cfg.smoothing) * (distance / BasicReferenceDistance) >= 0.0;
      assert s >= 0.0;
      var strength := BasicStrength(distance, cfg.smoothing, randomFactor);
      assert strength >= 0.0;
      var gain := cfg.aimSpeed * strength;
      assert gain >= 0.0;
      ScaledAxisKeepsSign(d.x, gain, cfg.maxAdjustment);
      ScaledAxisKeepsSign(d.y, gain, cfg.maxAdjustment);
    }
  }

  // ---------------------------------------------------------------- enhanced_aimassist.py

  /** Configuration of the humanised variant. */
  datatype EnhancedSettings = EnhancedSettings(aimSpeed: real, smoothing: real, maxAdjustment: nat,
                                               inertia: real, jitter: real)

  /** aim_speed * 0.8 and int(max_adjustment * 0.7) of the constructor, inertia 0.3, jitter 2.0. */
  const EnhancedDefaults: EnhancedSettings := EnhancedSettings(AimSpeed * 0.8, SmoothingFactor, 70, 0.3, 2.0)
  const EnhancedDeadzone: nat := 3

  /** The three movement patterns, and how many there are. */
  const Patterns: seq<seq<real>> := [[0.8, 1.0, 0.8], [0.5, 1.0, 0.7], [0.7, 0.9, 1.0]]
  const PatternCount: nat := 3

  /**
   * The pattern band: progress = min(1, distance / 300); below 0.33 the first entry, below 0.66
   * the second, otherwise the third. In distance terms the bands are [0,99), [99,198) and [198,∞).
   */
  function PatternStrength(pattern: nat, distance: real): (s: real)
    requires pattern < PatternCount
    ensures distance < 99.0 ==> s == Patterns[pattern][0]
    ensures 99.0 <= distance < 198.0 ==> s == Patterns[pattern][1]
    ensures 198.0 <= distance ==> s == Patterns[pattern][2]
  {
    var progress := if 1.0 <= distance / 300.0 then 1.0 else distance / 300.0;
    if progress < 0.33 then Patterns[pattern][0]
    else if progress < 0.66 then Patterns[pattern][1]
    else Patterns[pattern][2]
  }

  /** The humanised variant acts only on a target outside the 3-unit deadzone. */
  predicate Engaged(center: Point, target: Option<Point>) {
    target.Some? && !InDeadzone(Delta(center, target.value).x, Delta(center, target.value).y, EnhancedDeadzone)
  }

  /** Inertia blend with the previous move, plus the jitter draw when jitter is enabled. */
  function Humanize(d: int, prev: int, jitterDraw: real, cfg: EnhancedSettings): real {
    d as real * (1.0 - cfg.inertia) + prev as real * cfg.inertia + (if cfg.jitter > 0.0 then jitterDraw else 0.0)
  }

  /**
   * calculate_aim_adjustment of enhanced_aimassist.py (its value; the update of prev_dx/prev_dy
   * is in Enhanced.EnhancedAimAssist). Outside the deadzone both axes stay within maxAdjustment
   * for every inertia weight, jitter draw, previous move and random factor.
   */
  function EnhancedAdjustment(center: Point, target: Option<Point>, prev: Offset, distance: real,
                              pattern: nat, randomFactor: real, jitterX: real, jitterY: real,
                              humanize: bool, cfg: EnhancedSettings): (o: Offset)
    requires pattern < PatternCount
    ensures !Engaged(center, target) ==> o == Zero
    ensures -(cfg.maxAdjustment as int) <= o.dx <= cfg.maxAdjustment && -(cfg.maxAdjustment as int) <= o.dy <= cfg.maxAdjustment
  {
    if !Engaged(center, target) then Zero
    else
      var d := Delta(center, target.value);
      var base := cfg.smoothing * PatternStrength(pattern, distance);
      var strength := if distance < 50.0 then base * randomFactor else base;
      var hx := if humanize then Humanize(d.x, prev.dx, jitterX, cfg) else d.x as real;
      var hy := if humanize then Humanize(d.y, prev.dy, jitterY, cfg) else d.y as real;
      Offset(ClampAxis(Trunc(hx * cfg.aimSpeed * strength), cfg.maxAdjustment),
             ClampAxis(Trunc(hy * cfg.aimSpeed * strength), cfg.maxAdjustment))
  }

  /** Without humanisation, a positive random factor and non-negative speed and smoothing never move away from the target. */
  lemma EnhancedMovesTowardTargetWithoutHumanize(center: Point, target: Point, prev: Offset, distance: real,
                                                 pattern: nat, randomFactor: real, jitterX: real, jitterY: real,
                                                 cfg: EnhancedSettings)
    requires pattern < PatternCount
    requires randomFactor > 0.0 && cfg.aimSpeed >= 0.0 && cfg.smoothing >= 0.0
    ensures var o := EnhancedAdjustment(center, Some(target), prev, distance, pattern, randomFactor, jitterX, jitterY, false, cfg);
            var d := Delta(center, target);
            (d.x >= 0 ==> o.dx >= 0) && (d.x <= 0 ==> o.dx <= 0)
            && (d.y >= 0 ==> o.dy >= 0) && (d.y <= 0 ==> o.dy <= 0)
  {
    if Engaged(center, Some(target)) {
      var d := Delta(center, target);
      var ps := PatternStrength(pattern, distance);
      assert ps > 0.0;
      var base := cfg.smoothing * ps;
      assert base >= 0.0;
      var strength := if distance < 50.0 then base * randomFactor else base;
      assert strength >= 0.0;
      var gain := cfg.aimSpeed * strength;
      assert gain >= 0.0;
      assert d.x as real * cfg.aimSpeed * strength == d.x as real * gain;
      assert d.y as real * cfg.aimSpeed * strength == d.y as real * gain;
      ScaledAxisKeepsSign(d.x, gain, cfg.maxAdjustment);
      ScaledAxisKeepsSign(d.y, gain, cfg.maxAdjustment);
    }
  }

  /**
   * One staggered sub-step: int(move * factor / steps). For a factor in [0,1] it has the sign of
   * the move and is no larger than the move.
   */
  function StaggerStep(move: int, factor: real, steps: nat): (s: int)
    requires steps > 0
    ensures 0.0 <= factor <= 1.0 && move >= 0 ==> 0 <= s <= move
    ensures 0.0 <= factor <= 1.0 && move <= 0 ==> move <= s <= 0
  {
    var x := move as real * factor / steps as real;
    if 0.0 <= factor <= 1.0 then
      RealBounds.ScaledStepBound(move as real, factor, steps as real, x);
      Trunc(x)
    else
      Trunc(x)
  }
}

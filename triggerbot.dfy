/**
 * The firing logic of triggerbot.py: a detection must be confirmed on consecutive frames, shots
 * are at least 50 ms apart, and after 8 shots in a row the streak counter restarts. Clock
 * readings are integer milliseconds passed in; the clicks performed are logged by their time.
 */
module Trigger {
  import opened Vision

  const RequiredConfirmations: nat := 2
  const MinTimeBetweenShotsMs: int := 50
  const MaxConsecutiveShots: nat := 8
  const InitialMinTargetPixels: int := 30
  const MinTargetPixelsFloor: int := 5
  const MinTargetPixelsCeiling: int := 200
  const MinTargetPixelsStep: int := 5

  /** confirmed_targets, consecutive_shots and last_shot_time. */
  datatype TriggerState = TriggerState(confirmed: nat, consecutive: nat, lastShot: int)

  /**
   * click_mouse, entered at time `now`: within 50 ms of the last shot nothing happens;
   * otherwise a click is made, the streak counter restarts first if it had reached 8, and the
   * last-shot time becomes the entry time. The boolean says whether a click was made.
   */
  function ClickStep(s: TriggerState, now: int): (r: (TriggerState, bool))
    ensures now - s.lastShot < MinTimeBetweenShotsMs ==> r == (s, false)
    ensures now - s.lastShot >= MinTimeBetweenShotsMs ==>
      r.1 && r.0.lastShot == now && r.0.confirmed == s.confirmed && 1 <= r.0.consecutive <= MaxConsecutiveShots
    ensures now - s.lastShot >= MinTimeBetweenShotsMs && s.consecutive < MaxConsecutiveShots ==> r.0.consecutive == s.consecutive + 1
    ensures now - s.lastShot >= MinTimeBetweenShotsMs && s.consecutive >= MaxConsecutiveShots ==> r.0.consecutive == 1
  {
    if now - s.lastShot < MinTimeBetweenShotsMs then (s, false)
    else
      var streak := if s.consecutive >= MaxConsecutiveShots then 0 else s.consecutive;
      (TriggerState(s.confirmed, streak + 1, now), true)
  }

  /**
   * The confirmation block of the main loop: a frame with a target adds one confirmation and,
   * from the second one on and unless the left button is already held, tries to click; a frame
   * without a target clears both counters.
   */
  function Cycle(s: TriggerState, hasTarget: bool, now: int, buttonHeld: bool): (r: (TriggerState, bool))
    ensures hasTarget ==> r.0.confirmed == s.confirmed + 1
    ensures !hasTarget ==> r == (TriggerState(0, 0, s.lastShot), false)
    ensures r.1 ==> hasTarget && s.confirmed + 1 >= RequiredConfirmations && !buttonHeld
    ensures r.1 ==> r.0.lastShot == now
    ensures hasTarget && !r.1 ==> r.0 == s.(confirmed := s.confirmed + 1)
    ensures hasTarget && s.confirmed + 1 >= RequiredConfirmations && !buttonHeld ==>
      r == ClickStep(s.(confirmed := s.confirmed + 1), now)
  {
    if hasTarget then
      var confirmed := s.(confirmed := s.confirmed + 1);
      if confirmed.confirmed >= RequiredConfirmations && !buttonHeld then ClickStep(confirmed, now)
      else (confirmed, false)
    else
      (TriggerState(0, 0, s.lastShot), false)
  }

  /** The streak bound consecutive_shots <= 8 survives every cycle. */
  lemma CycleKeepsStreakBound(s: TriggerState, hasTarget: bool, now: int, buttonHeld: bool)
    requires s.consecutive <= MaxConsecutiveShots
    ensures Cycle(s, hasTarget, now, buttonHeld).0.consecutive <= MaxConsecutiveShots
  {
  }

  /** A detection on a frame that follows a frame without one never fires. */
  lemma IsolatedDetectionNeverFires(s: TriggerState, t0: int, t1: int, held0: bool, held1: bool)
    ensures var after := Cycle(s, false, t0, held0).0;
      !Cycle(after, true, t1, held1).1
  {
  }

  /**
   * Two detections in a row after a miss fire on the second frame, provided the button is not
   * held and 50 ms have passed since the last shot; the first of them never fires.
   */
  lemma SecondConsecutiveDetectionFires(s: TriggerState, t0: int, t1: int, t2: int, held1: bool)
    requires t2 - s.lastShot >= MinTimeBetweenShotsMs
    ensures var s0 := Cycle(s, false, t0, false).0;
      var r1 := Cycle(s0, true, t1, held1);
      !r1.1 && r1.0.lastShot == s.lastShot && Cycle(r1.0, true, t2, false).1
  {
  }

  /** numpad +: five more pixels, at most 200. */
  function RaisedMinPixels(p: int): (r: int)
    ensures MinTargetPixelsFloor <= p <= MinTargetPixelsCeiling ==> MinTargetPixelsFloor <= r <= MinTargetPixelsCeiling
    ensures p + MinTargetPixelsStep <= MinTargetPixelsCeiling ==> r == p + MinTargetPixelsStep
    ensures p + MinTargetPixelsStep > MinTargetPixelsCeiling ==> r == MinTargetPixelsCeiling
  {
    if p + MinTargetPixelsStep <= MinTargetPixelsCeiling then p + MinTargetPixelsStep else MinTargetPixelsCeiling
  }

  /** numpad -: five fewer pixels, at least 5. */
  function LoweredMinPixels(p: int): (r: int)
    ensures MinTargetPixelsFloor <= p <= MinTargetPixelsCeiling ==> MinTargetPixelsFloor <= r <= MinTargetPixelsCeiling
    ensures p - MinTargetPixelsStep >= MinTargetPixelsFloor ==> r == p - MinTargetPixelsStep
    ensures p - MinTargetPixelsStep < MinTargetPixelsFloor ==> r == MinTargetPixelsFloor
  {
    if p - MinTargetPixelsStep >= MinTargetPixelsFloor then p - MinTargetPixelsStep else MinTargetPixelsFloor
  }

  class ValorantTriggerBot {
    var confirmedTargets: nat
    var consecutiveShots: nat
    var lastShotTime: int
    var minTargetPixels: int
    var enabled: bool
    /** The entry times of the clicks made, oldest first. */
    var clicks: seq<int>

    ghost predicate Valid()
      reads this
    {
      consecutiveShots <= MaxConsecutiveShots
      && MinTargetPixelsFloor <= minTargetPixels <= MinTargetPixelsCeiling
    }

    function State(): TriggerState
      reads this
    {
      TriggerState(confirmedTargets, consecutiveShots, lastShotTime)
    }

    /** The last shot is placed ten seconds before start-up so that the first shot is never held back. */
    constructor (startMs: int)
      ensures Valid()
      ensures State() == TriggerState(0, 0, startMs - 10000)
      ensures minTargetPixels == InitialMinTargetPixels && enabled && clicks == []
    {
      confirmedTargets, consecutiveShots, lastShotTime := 0, 0, startMs - 10000;
      minTargetPixels := InitialMinTargetPixels;
      enabled := true;
      clicks := [];
    }

    /**
     * detect_enemy_in_crosshair on the opened mask: a target is present exactly when at least
     * min_target_pixels pixels are set.
     */
    method DetectEnemyInCrosshair(mask: Mask) returns (hasTarget: bool, pixels: nat)
      ensures pixels == CountNonZero(mask)
      ensures hasTarget <==> pixels >= minTargetPixels
    {
      var r := DetectInCrosshair(mask, minTargetPixels);
      hasTarget, pixels := r.0, r.1;
    }

    /** click_mouse, tied to ClickStep; a click is logged at its entry time. */
    method ClickMouse(now: int)
      requires Valid()
      modifies this`consecutiveShots, this`lastShotTime, this`clicks
      ensures Valid()
      ensures State() == ClickStep(old(State()), now).0
      ensures clicks == old(clicks) + (if ClickStep(old(State()), now).1 then [now] else [])
    {
      if now - lastShotTime < MinTimeBetweenShotsMs {
        return;
      }
      if consecutiveShots >= MaxConsecutiveShots {
        consecutiveShots := 0;
      }
      clicks := clicks + [now];
      lastShotTime := now;
      consecutiveShots := consecutiveShots + 1;
    }

    /** One scan of the main loop with detection result `hasTarget`; disabled, it does nothing. */
    method RunCycle(hasTarget: bool, now: int, buttonHeld: bool)
      requires Valid()
      modifies this`confirmedTargets, this`consecutiveShots, this`lastShotTime, this`clicks
      ensures Valid()
      ensures !enabled ==> State() == old(State()) && clicks == old(clicks)
      ensures enabled ==> State() == Cycle(old(State()), hasTarget, now, buttonHeld).0
      ensures enabled ==> clicks == old(clicks) + (if Cycle(old(State()), hasTarget, now, buttonHeld).1 then [now] else [])
    {
      if !enabled {
        return;
      }
      if hasTarget {
        confirmedTargets := confirmedTargets + 1;
        if confirmedTargets >= RequiredConfirmations && !buttonHeld {
          ClickMouse(now);
        }
      } else {
        confirmedTargets := 0;
        consecutiveShots := 0;
      }
    }

    /** The toggle key (F2). */
    method ToggleEnabled()
      modifies this`enabled
      ensures enabled == !old(enabled)
    {
      enabled := !enabled;
    }

    /** The numpad + key. */
    method RaiseMinTargetPixels()
      requires Valid()
      modifies this`minTargetPixels
      ensures Valid()
      ensures minTargetPixels == RaisedMinPixels(old(minTargetPixels))
    {
      minTargetPixels := RaisedMinPixels(minTargetPixels);
    }

    /** The numpad - key. */
    method LowerMinTargetPixels()
      requires Valid()
      modifies this`minTargetPixels
      ensures Valid()
      ensures minTargetPixels == LoweredMinPixels(old(minTargetPixels))
    {
      minTargetPixels := LoweredMinPixels(minTargetPixels);
    }
  }
}

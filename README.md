# Valorunt aim-assist core in Dafny

This project models the decision logic shared by the four front ends of the valorunt
repository:

- the plain aim assist (valorant.py);
- the humanised aim assist (enhanced_aimassist.py);
- the serial-port controller for an Arduino mouse (arduino_controller.py), together with the
  sketch it prints for the board;
- the triggerbot (triggerbot.py);
- the colour calibration tool (calibration.py);
- the helpers in utils.py.

The model follows one frame of the perception → correction → actuation loop:

- **Perception:** a red mask is the union of two inclusive HSV range tests. The blobs found in
  it are filtered by area, and the first largest blob gives the target: its truncated centroid,
  shifted by the capture rectangle and the headshot offset.
- **Correction:** a dead zone, then a distance-dependent gain, truncation to whole units and a
  per-axis clamp. The humanised variant adds an inertia term remembered between frames and a
  pattern table.
- **Actuation:**
  - the plain variant sends the move once or as three sub-steps;
  - the humanised variant sends it once or as staggered sub-steps;
  - the Arduino controller queues one text line per command and drains the queue to the
    serial port.

Two small state machines sit beside the loop: the triggerbot's confirmation and cooldown
logic, and the calibration tool's bound editing.

Modules:

| file | module | contents |
|---|---|---|
| wrappers.dfy | Wrappers | `Option` |
| config.dfy | Config | the constants of config.py |
| geometry.dfy | Geometry | points, capture rectangles, Python's `int()` on a float, the scan rectangle |
| realbounds.dfy | RealBounds | sign and size bounds for products and quotients of reals |
| vision.dfy | Vision | HSV range masks, pixel counting, blob selection, target location |
| correction.dfy | Correction | dead zone, clamp, plain and humanised corrections, staggered sub-steps |
| utils.dfy | Utils | utils.py |
| valorant.dfy | Valorant | `ValorantAimAssist` |
| enhanced.dfy | Enhanced | `EnhancedAimAssist` |
| protocol.dfy | Protocol | the line format written to the board and the board's parser |
| arduino.dfy | Arduino | `ArduinoController` with its command queue and `connected` flag |
| triggerbot.dfy | Trigger | `ValorantTriggerBot` |
| calibration.dfy | Calibration | `ColorCalibrationTool` |

How inputs that Dafny cannot compute are modelled:

- **Floats** are exact reals.
- **Euclidean distance:** `np.sqrt` is not computed. The distance reaches the corrections as a
  real parameter. The dead zone, which compares it with a whole radius, is decided exactly on
  the integer offsets (`dx*dx + dy*dy <= r*r`).
- **OpenCV output:** contour extraction is replaced by a list of blob records
  `(area, m00, m10, m01)`, and the opened mask by a boolean grid.
- **External inputs are parameters:** random draws, the cursor position, clock readings
  (integer milliseconds) and the serial port. The port is an oracle that answers each
  exchange with a write error, a read error or the stripped reply line.
- **Windows input calls** (`mouse_event`, `SendInput`, `SetCursorPos`) are replaced by the
  sequence of moves handed to them, returned in order.

## Model

| member | source | states |
|---|---|---|
| Geometry.ScanRegion | valorant.py:82-86 | The scan rectangle is never left of or above the screen origin. Its width and height are both the scan size, because the `min` never bites once left and top are ≥ 0. It is centred on the cursor whenever the cursor is at least half a size from the edge, and pinned to 0 otherwise. |
| Vision.RangeMask | valorant.py:94-95 | `cv2.inRange` yields a mask of the image's shape, set at a pixel iff every channel lies within the inclusive bounds. |
| Vision.Union | valorant.py:96 | `cv2.bitwise_or` is set at a pixel iff either mask is set there. |
| Vision.DualRangeMask | valorant.py:94-96 | The detection mask is set at a pixel iff the pixel lies in the first range or in the second. |
| Vision.HsvMask | calibration.py:74-87 | The second range is unioned in only when both of its bounds are given. Otherwise the mask is the first range's alone. |
| Vision.CountNonZero | triggerbot.py:101 | The count of set pixels is at most the number of pixels. It is 0 iff no pixel is set. |
| Vision.CountNonZeroIsCellCount | triggerbot.py:101 | The count equals the size of the set of (row, column) positions whose pixel is set. |
| Vision.LargestQualifying | valorant.py:118-125 | A blob index is returned iff some blob has area strictly above the threshold. The returned blob is the earliest of maximal area among those blobs, as Python's `max` picks it. |
| Vision.FirstLargestUnique | valorant.py:125 | At most one blob is the first largest qualifying one. |
| Vision.LocateTarget | valorant.py:112-160 | No qualifying blob gives no target. Otherwise the first largest blob gives `(trunc(m10/m00)+left, trunc(m01/m00)+top+offset)` when `m00 > 0`, and no target when `m00 <= 0`. |
| Vision.DetectInCrosshair | triggerbot.py:86-112 | The pixel count is the mask's set-pixel count. A target is reported iff that count is ≥ the threshold (not >). An empty mask never reports a target for a positive threshold. |
| Correction.ClampAxis | valorant.py:207-211 | The clamped value is within ±limit. It is unchanged inside the band and set to the nearer limit outside it. |
| Correction.BasicAdjustment | valorant.py:178-213 | No target gives (0,0). A target within 5 units (squared distance ≤ 25) gives (0,0). Every result is within ±`max_adjustment` on both axes, whatever the distance, random factor and gain. |
| Correction.BasicMovesTowardTarget | valorant.py:193-211 | With non-negative speed, smoothing in [0,1] and a positive random factor, the correction never points away from the target on either axis. |
| Correction.PatternStrength | enhanced_aimassist.py:300-309 | With `progress = min(1, distance/300)`, the pattern's first entry is used below a distance of 99, the second in [99,198) and the third from 198 on. |
| Correction.EnhancedAdjustment | enhanced_aimassist.py:285-346 | No target, or a squared distance ≤ 9, gives (0,0). Both axes stay within ±`max_adjustment` for every inertia weight, jitter draw, previous move and random factor. |
| Correction.EnhancedMovesTowardTargetWithoutHumanize | enhanced_aimassist.py:311-336 | Without humanisation, and with non-negative speed and smoothing and a positive random factor, the humanised correction never points away from the target. |
| Correction.StaggerStep | enhanced_aimassist.py:397-398 | For a step factor in [0,1], a sub-step `int(move*factor/steps)` has the move's sign and is no larger than the move. |
| Utils.AdjustColorRange | utils.py:23-36 | Hue entries are unchanged. Lower S and V are ≥ 0 and upper S and V are ≤ 255. Each shifted entry is exact when inside its bound and equal to the bound otherwise. The input range is a value and is not changed. |
| Utils.SmoothMovement | utils.py:42-52 | A factor of 0 gives (0,0) and a factor of 1 gives the exact delta. A factor in [0,1] gives per-axis moves of the delta's sign and no larger than it. |
| Utils.ApplyHeadshotOffset | utils.py:65-67 | x is kept and y moves by exactly the offset. |
| Utils.AimPointAppliesHeadshotOffset | utils.py:65-67 | The front ends' aim point, which adds the offset inline, equals `apply_headshot_offset` of the plain centroid. |
| Utils.RegionOfInterest | utils.py:80-90 | Left and top are ≥ 0, width and height are ≤ size, and the region ends within the screen. A centre at least `size//2` from the top-left edges, with the box fitting on screen, gives exactly the `size × size` box at `centre − size//2`. In every case left and top are `max(0, centre − size//2)`, and width and height are `min(size, screen − left/top)`. |
| Valorant.ValorantAimAssist.constructor | valorant.py:16-68 | The capture rectangle starts as the whole 1920×1080 screen. The centre starts at its middle, and indirect input is selected. |
| Valorant.ValorantAimAssist.UpdateScanRegion | valorant.py:72-86 | The centre becomes the cursor and the rectangle is `ScanRegion` around it: left and top ≥ 0, width and height equal to the scan size. The input mode is unchanged. |
| Valorant.ValorantAimAssist.ProcessFrame | valorant.py:88-160 | No qualifying blob gives no target. Otherwise the first largest blob gives its aim point (or no target when `m00 <= 0`), offset by the current rectangle. |
| Valorant.ValorantAimAssist.CalculateAimAdjustment | valorant.py:178-213 | The result is `BasicAdjustment` from the current centre with the configured settings, and is within ±100 on both axes. |
| Valorant.ValorantAimAssist.AimAtTarget | valorant.py:215-233 | A zero correction sends nothing. Direct mode sends the correction once. Indirect mode sends exactly 3 moves, each the correction floor-divided by 3 per axis. |
| Valorant.IndirectStepsMissTheMove | valorant.py:227-232 | The three floor-divided sub-steps add up to `3*(m//3)`. A negative move that is not a multiple of 3 is overshot (−1 becomes −3), and a positive one is cut short (2 becomes 0). |
| Valorant.ExactThreeWaySplit | valorant.py:227-232 | Three sub-steps that add up to the move exactly, each with the move's sign and no larger than it. |
| Enhanced.StaggerPlanBounded | enhanced_aimassist.py:394-402 | For step factors in [0,1], the staggered plan has at most one sub-step per factor. Each sub-step carries the current input method and is never (0,0), and on each axis it has the move's sign and is no larger than the move. |
| Enhanced.EnhancedAimAssist.constructor | enhanced_aimassist.py:58-147 | The rectangle starts as the whole screen, with the centre at its middle. The previous move is (0,0), pattern and input method are 0, and humanising, stagger and intermittent assistance are on. |
| Enhanced.EnhancedAimAssist.UpdateScanRegion | enhanced_aimassist.py:174-188 | The centre becomes the cursor. The rectangle has left and top ≥ 0 and width and height equal to the scan size. |
| Enhanced.EnhancedAimAssist.ProcessFrame | enhanced_aimassist.py:214-262 | No qualifying blob gives no target. Otherwise the first largest blob with `m00 > 0` gives `(trunc(m10/m00)+left, trunc(m01/m00)+top+offset)`. |
| Enhanced.EnhancedAimAssist.CalculateAimAdjustment | enhanced_aimassist.py:285-346 | The result is `EnhancedAdjustment` with the current pattern and the previous move, and is within ±70 on both axes. Outside the dead zone the previous move becomes the result. With no target or inside the dead zone, the result is (0,0) and the previous move is untouched. |
| Enhanced.EnhancedAimAssist.AimAtTarget | enhanced_aimassist.py:378-426 | A roll above 85 with intermittent assistance skips the cycle and leaves the previous move as it was. A zero correction sends nothing. Without stagger the correction is sent once through the current method. With stagger the sent moves are the staggered plan; for factors in [0,1] there are at most one per factor, none (0,0), and each within the correction per axis. |
| Enhanced.EnhancedAimAssist.CyclePattern | enhanced_aimassist.py:469 | The pattern index advances modulo 3 and stays in [0,3). |
| Enhanced.EnhancedAimAssist.CycleInputMethod | enhanced_aimassist.py:475 | The input method advances modulo 4 and stays in [0,4). |
| Protocol.NatToDecimal | arduino_controller.py:162 | A natural number is written as a non-empty string of digits without leading zeros. |
| Protocol.Decimal | arduino_controller.py:162 | An f-string integer is non-empty, starts with a digit or '-', and contains no comma or space. |
| Protocol.Atol | arduino_controller.py:443-444 | `String.toInt` of a blank string is 0. |
| Protocol.ValueOfNatToDecimal | arduino_controller.py:162 | Reading back the digits of a natural number gives the number. |
| Protocol.DecimalRoundTrip | arduino_controller.py:443-444 | The board's `toInt` recovers every integer the host formats. |
| Protocol.ClampMove | arduino_controller.py:158-159 | `max(-127, min(127, v))` is within [-127,127]. It is `v` when `v` is in range and the nearer limit otherwise. |
| Protocol.Wrap16 | arduino_controller.py:443-444 | The board's 16-bit `int` holds a value congruent modulo 2^16, in [-32768,32767], and unchanged when it fits. |
| Protocol.Wrap8 | arduino_controller.py:445 | `Mouse.move`'s signed char holds a value congruent modulo 2^8, in [-128,127], and unchanged when it fits. |
| Protocol.DropTwo | arduino_controller.py:440 | `String.remove(0, 2)` drops the first two characters, or everything from a shorter string. |
| Protocol.IndexOf | arduino_controller.py:441 | `String.indexOf` gives -1 iff the character is absent. Otherwise it gives the first position holding it. |
| Protocol.DeviceHandle | arduino_controller.py:439-470 | The first character selects the handler. An `M` line moves iff the comma after its first number is at position > 0, and is silently dropped otherwise. A `C` line always clicks, for a duration in [1,32767]. `R` is a right click, `P` answers a ping, and anything else (or an empty line) is unknown. Moves are signed-char amounts. |
| Protocol.DeviceReply | arduino_controller.py:446-469 | The reply is `OK` iff the line moved or clicked, `PONG` iff it was a ping, and `UNKNOWN` iff the first character is not a known command. An `M` line without a comma after its first field gets no reply (the empty line readline returns on timeout). |
| Protocol.ParseMoveLine | arduino_controller.py:439-447 | An `M` line with a non-empty, comma-free first field moves by the narrowed values of its two fields. |
| Protocol.MoveCommand | arduino_controller.py:162 | The line starts with `M`. The board's handler moves by both amounts, narrowed to its 16-bit int and then to a signed char. |
| Protocol.ClickCommand | arduino_controller.py:166 | The line starts with `C`. The board clicks for the duration narrowed to its 16-bit int, or for 50 ms when that is ≤ 0. |
| Protocol.MoveRoundTrip | arduino_controller.py:155-162 | For every (dx, dy), the line `move_mouse` queues makes the board move by exactly the clamped amounts and answer `OK`. |
| Protocol.ClickRoundTrip | arduino_controller.py:449-457 | A click duration that fits a 16-bit int reaches the board unchanged when positive and becomes 50 ms when ≤ 0. It is answered `OK`. |
| Protocol.FixedCommandsAnswered | arduino_controller.py:459-467 | `R` is a right click answered `OK`. `P` is answered `PONG`. |
| Arduino.SendStep | arduino_controller.py:114-128 | With the flag down or no port object, nothing changes. Writing to a closed port raises: nothing is written and the flag is lowered. On an open port, a write or read failure lowers the flag, and a reply keeps it up. The line is written iff the write did not fail. The flag is never raised. |
| Arduino.DeliverWritesPrefix | arduino_controller.py:141-148 | A drain writes a prefix of its commands in enqueue order, after what was already written, and never raises the flag. |
| Arduino.DeliverConnectedWroteAll | arduino_controller.py:146-148 | If the flag is still up after a drain over a port, every command of the drain was written. |
| Arduino.DeliverClosedWritesNothing | arduino_controller.py:108-128 | Over a port that was closed by a failed reconnect, a drain writes nothing, and a non-empty drain lowers the flag. |
| Arduino.DeliverAllAnswered | arduino_controller.py:146-148 | If every exchange is answered, a controller connected over an open port writes the whole drain in order and stays connected. |
| Arduino.ArduinoController.constructor | arduino_controller.py:21-87 | The controller starts disconnected with no port object, an empty queue and nothing written. The rectangle is the whole screen and the centre its middle. |
| Arduino.ArduinoController.ConnectToArduino | arduino_controller.py:89-112 | The result is true iff the port opened and the ping reply is exactly `PONG`; then the flag is up and the port open. Every other outcome returns false and leaves the flag as it was, with no port open; a port object kept from before is closed, not dropped. The ping is written unless the write failed. The queue and the rectangle are unchanged. |
| Arduino.ArduinoController.SendCommand | arduino_controller.py:114-128 | The new flag and write log are `SendStep`'s. The result is true iff the controller was connected over an open port and the reply was exactly `OK`. |
| Arduino.ArduinoController.QueueCommand | arduino_controller.py:130-133 | The command is appended at the back of the queue and nothing else changes. |
| Arduino.ArduinoController.MoveMouse | arduino_controller.py:155-162 | Exactly one line, `M,dx,dy` with both amounts clamped to [-127,127], is appended. |
| Arduino.ArduinoController.ClickMouse | arduino_controller.py:164-166 | Exactly `C,<duration>` is appended. The duration defaults to `DefaultClickMs` (50 ms), as in the source's default argument. |
| Arduino.ArduinoController.RightClickMouse | arduino_controller.py:168-170 | Exactly `R` is appended. |
| Arduino.ArduinoController.DrainStep | arduino_controller.py:135-153 | The whole queue is taken and left empty, and the taken commands are sent in enqueue order. A prefix of them is written. Over a closed port nothing is written, and a non-empty drain lowers the flag. When connected over an open port and answered throughout, all of them are written and the flag stays up. |
| Arduino.ArduinoController.UpdateScanRegion | arduino_controller.py:172-179 | The rectangle is `ScanRegion` around the fixed screen centre: left and top ≥ 0, width and height equal to the scan size. |
| Arduino.ArduinoController.ProcessFrame | arduino_controller.py:205-253 | No qualifying blob gives no target. Otherwise the first largest blob gives its aim point, or no target when `m00 <= 0`. |
| Arduino.ArduinoController.CalculateAimAdjustment | arduino_controller.py:276-311 | The result is `BasicAdjustment` from the screen centre, and is within ±100 on both axes. |
| Arduino.ArduinoController.AimAtTarget | arduino_controller.py:313-319 | A zero correction queues nothing. Any other correction queues exactly one `M` line carrying it unchanged. |
| Arduino.ArduinoController.MoveIfNonzero | arduino_controller.py:316-318 | A zero correction queues nothing. A nonzero one within ±100 queues one `M` line, which the ±127 clamp leaves unchanged. |
| Trigger.ClickStep | triggerbot.py:134-164 | Within 50 ms of the last shot the state is unchanged and no click is made. Otherwise a click is made, the last-shot time becomes the entry time, and the streak becomes one more than before, or 1 if it had reached 8; it is in [1,8] either way. |
| Trigger.Cycle | triggerbot.py:255-266 | A frame with a target adds exactly one confirmation. Without a click, nothing else changes. With at least 2 confirmations and the button free, the result is exactly `ClickStep` of the confirmed state, so a click happens whenever the cooldown has passed. A frame without a target clears both counters and never clicks. Any click needs a target, 2 confirmations and a free button, and records the time. |
| Trigger.CycleKeepsStreakBound | triggerbot.py:143-164 | `consecutive_shots ≤ 8` is preserved by every cycle. |
| Trigger.IsolatedDetectionNeverFires | triggerbot.py:255-264 | A detection on the frame right after a frame without one never clicks. |
| Trigger.SecondConsecutiveDetectionFires | triggerbot.py:255-261 | After a miss, the first detection does not click. The second does, when the button is free and 50 ms have passed since the last shot. |
| Trigger.RaisedMinPixels | triggerbot.py:192-193 | +5, capped at 200; stays in [5,200]. |
| Trigger.LoweredMinPixels | triggerbot.py:197-198 | −5, floored at 5; stays in [5,200]. |
| Trigger.ValorantTriggerBot.constructor | triggerbot.py:22-74 | Both counters start at 0, the threshold at 30, and the bot enabled. The last shot is placed 10 s before start-up. The click log starts empty. |
| Trigger.ValorantTriggerBot.DetectEnemyInCrosshair | triggerbot.py:86-112 | The pixel count is the mask's count of set pixels. A target is reported iff that count is ≥ `min_target_pixels`. |
| Trigger.ValorantTriggerBot.ClickMouse | triggerbot.py:134-164 | The new counters and last-shot time are `ClickStep`'s. A click is logged at the entry time exactly when `ClickStep` clicks. The streak bound is kept. |
| Trigger.ValorantTriggerBot.RunCycle | triggerbot.py:234-266 | When disabled nothing changes. When enabled the state is `Cycle`'s, and the click log grows by the entry time exactly when `Cycle` clicks. |
| Trigger.ValorantTriggerBot.ToggleEnabled | triggerbot.py:174-177 | The toggle key flips the enabled flag. |
| Trigger.ValorantTriggerBot.RaiseMinTargetPixels | triggerbot.py:192-195 | The threshold becomes `RaisedMinPixels` of the old one and stays in [5,200]. |
| Trigger.ValorantTriggerBot.LowerMinTargetPixels | triggerbot.py:197-200 | The threshold becomes `LoweredMinPixels` of the old one and stays in [5,200]. |
| Calibration.EditedComponent | calibration.py:209-216 | The value moves by +step or −step and ends in [0,255], or in [0,179] for the hue. The two clamps together are one clamp into the component's own range. |
| Calibration.ColorCalibrationTool.constructor | calibration.py:18-65 | The working bounds are copies of range 1's configured bounds. Hue is selected, the lower bound is edited, the range index is 0 and the step is 5. |
| Calibration.ColorCalibrationTool.AdjustValue | calibration.py:202-216 | Only the selected component of the selected bound changes, to `EditedComponent` of its old value. The other components and the other bound are unchanged. |
| Calibration.ColorCalibrationTool.ToggleComponent | calibration.py:218-220 | The component cycles 0→1→2→0. |
| Calibration.ColorCalibrationTool.ToggleBound | calibration.py:222-224 | Lower and upper alternate, so two toggles restore the bound. |
| Calibration.ColorCalibrationTool.ToggleRange | calibration.py:226-236 | The range index alternates between 0 and 1. The working bounds become fresh copies of range 1 (index 0) or range 2 (index 1). The configured bounds are values and never change. |
| Calibration.ColorCalibrationTool.IncreaseStep | calibration.py:268-269 | The step grows by 1 up to 20 and stays in [1,20]. |
| Calibration.ColorCalibrationTool.DecreaseStep | calibration.py:272-273 | The step shrinks by 1 down to 1 and stays in [1,20]. |
| Calibration.ColorCalibrationTool.Result | calibration.py:309-318 | The result has two keys, `lower_red1`/`upper_red1` when the range index is 0 and `lower_red2`/`upper_red2` otherwise. The values are the working bounds. |

## Left out

- **OpenCV internals:** BGR→HSV conversion, the morphological open/close, `findContours`,
  `contourArea`, `moments` and the debug drawing. The model starts from an HSV grid, a boolean
  mask and blob records.
- **I/O:** screen capture (`mss`), Win32 input injection, cursor queries, window lookup and
  focus checks (`find_valorant_window`, `is_valorant_focused`). The cursor is a parameter and
  injected moves are returned.
- **The serial port itself:** opening, the 2 s reset wait and the encodings. Each exchange is
  an oracle value.
- **Threads and locks:** the background drain thread, the queue lock, the keyboard listener
  threads and the `run` loops with their rate limiting. Enqueue and drain are sequential
  steps. Of the listeners' effects, only these are modelled:
  - pattern and input-method cycling;
  - the triggerbot's enable toggle and pixel-threshold keys;
  - the calibration keys.
- **The other key toggles:** humanise, stagger and direct input flip fields that the modelled
  methods read, so any setting of them is covered. Assist on/off, debug and exit toggle
  `aim_assist_enabled`, `debug_mode` and `running`. Those only gate the `run` loops and the
  debug display, which are not modelled, and the debug toggle also closes the debug windows.
  None of the three is a field of a model class.
- **Randomness, sleeps and delays:** random draws are parameters. The sleeps, reaction and
  hold delays and the 10%/15% extra pauses do not affect any modelled state.
- **Float rounding:** reals are exact, so a strength or centroid whose float value rounds
  across an integer boundary is not captured.
- **`np.sqrt`:** the distance is a parameter. Nothing links it to the offsets except the exact
  integer dead-zone test.
- `update_fps`, `show_debug_image`, `update_display`, `apply_mask`, `capture_full_screen`,
  `save_calibration_data`, `enhance_image_contrast` and `draw_crosshair` are display,
  measurement or file output.
- `calculate_distance`, `get_screen_resolution`, `is_in_game_resolution` and
  `wait_for_key_press` are a square root, a system query and a polling loop.
- main.py (a subprocess menu) is not part of this model.
- **The triggerbot's button check:** `keyboard.is_pressed(VK_LBUTTON)` is a boolean parameter.
- **Timestamps:** `time.time()` and `datetime.now()` readings are integer milliseconds.
- Protocol.Atol: does not model overflow of the board's 32-bit `long` for numerals beyond
  ±2^31. The host never sends such numerals.
- Protocol.DeviceHandle: `Serial.readStringUntil` framing and its timeout are not modelled.
  The board is assumed to receive each written line whole.
- Enhanced.EnhancedAimAssist.AimAtTarget: the number of staggered steps (`randint(2, 4)`) is
  `|stepFactors| + 1` for any list of drawn factors. The range of the draw is not imposed.

## Findings

| source | as written | input that shows it | evidently intended | confidence | as-written member | corrected member |
|---|---|---|---|---|---|---|
| valorant.py:227-232 | each of the three indirect sub-steps is `move // 3` (floor division), so the steps add up to `3*(move//3)` | a correction of −1 sends three steps of −1 (total −3); a correction of 2 sends three steps of 0 (total 0) | three sub-steps that add up to the correction, none overshooting it | not executed | Valorant.IndirectStepsMissTheMove | Valorant.ExactThreeWaySplit |

/**
 * The constant settings every front end reads at start-up (config.py).
 * Floating-point settings are exact reals here.
 */
module Config {
  /**
   * An HSV triple as OpenCV stores it: hue in [0,179], saturation and value in [0,255].
   * As an inclusive upper limit for `inRange`, a hue bound may be 180 (UpperRed2).
   */
  datatype Hsv = Hsv(h: int, s: int, v: int)

  const GameWidth: int := 1920
  const GameHeight: int := 1080

  // Dual red range: hue wraps around 0/180, so two ranges are unioned.
  const LowerRed1: Hsv := Hsv(0, 100, 150)
  const UpperRed1: Hsv := Hsv(10, 255, 255)
  const LowerRed2: Hsv := Hsv(170, 100, 150)
  const UpperRed2: Hsv := Hsv(180, 255, 255)

  const ScanRegionSize: nat := 400
  const ScanRate: nat := 60
  const MinimumContourArea: real := 50.0

  const AimSpeed: real := 1.0
  const SmoothingFactor: real := 0.5
  const MaxAdjustment: nat := 100
  const HeadshotOffset: int := -10
}

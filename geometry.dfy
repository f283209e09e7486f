/** Screen points, capture rectangles and the float-to-int truncation Python's int() performs. */
module Geometry {
  datatype Point = Point(x: int, y: int)

  /** A capture rectangle: the `monitor` dictionary of the front ends. */
  datatype Region = Region(left: int, top: int, width: int, height: int)

  function Max(a: int, b: int): int { if a >= b then a else b }
  function Min(a: int, b: int): int { if a <= b then a else b }

  /** Python's int() on a float: rounds toward zero. */
  function Trunc(x: real): (r: int)
    ensures x >= 0.0 ==> 0 <= r && r as real <= x < r as real + 1.0
    ensures x < 0.0 ==> r <= 0 && r as real - 1.0 < x <= r as real
  {
    if x >= 0.0 then x.Floor else -((-x).Floor)
  }

  /**
   * The scan rectangle of update_scan_region: a size x size box whose top-left corner is
   * `size // 2` above and to the left of the centre, pushed back to 0 at the screen edge.
   * (Python's // and Dafny's / agree for the positive divisor 2.)
   */
  function ScanRegion(cx: int, cy: int, size: nat): (r: Region)
    ensures r.left >= 0 && r.top >= 0
    ensures r.width == size && r.height == size
    ensures cx >= size / 2 ==> r.left + size / 2 == cx
    ensures cx < size / 2 ==> r.left == 0
    ensures cy >= size / 2 ==> r.top + size / 2 == cy
    ensures cy < size / 2 ==> r.top == 0
  {
    var half := size / 2;
    var left := Max(0, cx - half);
    var top := Max(0, cy - half);
    Region(left, top, Min(size, left + size), Min(size, top + size))
  }
}

/** The build buffer: where each logical pixel lives, and that the map is injective inside a window. */
module BuildMap {
  const WIDTH := 320
  const HEIGHT := 200
  const ROW := 80
  const PLANE := 16000
  const BUILD_SIZE := 84001
  const BASE_INIT := 10000
  const FENCE := 256
  const BUFFER := 84513

  /** Offset of logical pixel (x, y) from the upper left corner of plane 3; planes lie in reverse order. */
  function Off(x: int, y: int): int { x / 4 + ROW * y + (3 - x % 4) * PLANE }

  /** First and last offset of the window at (sx, sy). */
  function First(sx: int, sy: int): int { sx / 4 + ROW * sy }

  function Last(sx: int, sy: int): int { 3 * PLANE + (sx + WIDTH - 1) / 4 + (sy + HEIGHT - 1) * ROW }

  predicate InWindow(sx: int, sy: int, x: int, y: int) { sx <= x < sx + WIDTH && sy <= y < sy + HEIGHT }

  /** The window at (sx, sy) lies inside the buffer when the origin is at off. */
  predicate FitsAt(off: int, sx: int, sy: int) { 0 <= off + First(sx, sy) && off + Last(sx, sy) < BUILD_SIZE }

  lemma OffInside(sx: int, sy: int, x: int, y: int)
    requires InWindow(sx, sy, x, y)
    ensures First(sx, sy) <= Off(x, y) <= Last(sx, sy)
  {
  }

  /** Position of a pixel inside its plane, counted from the plane's first pixel of the window. */
  function Place(sx: int, sy: int, x: int, y: int): int {
    x / 4 - sx / 4 - (if x % 4 < sx % 4 then 1 else 0) + ROW * (y - sy)
  }

  lemma PlaceInside(sx: int, sy: int, x: int, y: int)
    requires InWindow(sx, sy, x, y)
    ensures 0 <= Place(sx, sy, x, y) < PLANE
    ensures 0 <= Place(sx, sy, x, y) - ROW * (y - sy) < ROW
    ensures Off(x, y) == First(sx, sy) + (3 - x % 4) * PLANE + (if x % 4 < sx % 4 then 1 else 0) + Place(sx, sy, x, y)
  {
  }

  /** Distinct pixels of one window have distinct offsets, for every alignment of the window. */
  lemma OffInjective(sx: int, sy: int, x: int, y: int, u: int, v: int)
    requires InWindow(sx, sy, x, y) && InWindow(sx, sy, u, v) && Off(x, y) == Off(u, v)
    ensures x == u && y == v
  {
    PlaceInside(sx, sy, x, y);
    PlaceInside(sx, sy, u, v);
    SamePlane(3 - x % 4, 3 - u % 4, Place(sx, sy, x, y), Place(sx, sy, u, v),
              if x % 4 < sx % 4 then 1 else 0, if u % 4 < sx % 4 then 1 else 0);
  }

  lemma SamePlane(p: int, q: int, a: int, b: int, c: int, d: int)
    requires 0 <= p < 4 && 0 <= q < 4 && 0 <= a < PLANE && 0 <= b < PLANE && 0 <= c <= 1 && 0 <= d <= 1
    requires p * PLANE + c + a == q * PLANE + d + b
    requires (p < q ==> c <= d) && (q < p ==> d <= c) && (p == q ==> c == d)
    ensures p == q && a == b
  {
  }

  /** Re-centring always makes room for the window. */
  lemma RecentredFits(sx: int, sy: int)
    ensures FitsAt(BASE_INIT - sx / 4 - sy * ROW, sx, sy)
  {
  }

  /** The bytes from the first to the last common pixel of two overlapping windows lie in both windows. */
  lemma CommonRange(ox: int, oy: int, sx: int, sy: int)
    requires sx - WIDTH < ox < sx + WIDTH && sy - HEIGHT < oy < sy + HEIGHT
    ensures var px, py := if sx > ox then sx else ox, if sy > oy then sy else oy;
            var qx, qy := (if sx > ox then ox else sx) + WIDTH - 1, (if sy > oy then oy else sy) + HEIGHT - 1;
            && First(ox, oy) <= First(px, py) && First(sx, sy) <= First(px, py)
            && qx / 4 + qy * ROW + 3 * PLANE <= Last(ox, oy) && qx / 4 + qy * ROW + 3 * PLANE <= Last(sx, sy)
            && First(px, py) <= qx / 4 + qy * ROW + 3 * PLANE + 1
  {
  }

  lemma CommonPixel(ox: int, oy: int, sx: int, sy: int, x: int, y: int)
    requires InWindow(ox, oy, x, y) && InWindow(sx, sy, x, y)
    ensures var px, py := if sx > ox then sx else ox, if sy > oy then sy else oy;
            var qx, qy := (if sx > ox then ox else sx) + WIDTH - 1, (if sy > oy then oy else sy) + HEIGHT - 1;
            First(px, py) <= Off(x, y) <= qx / 4 + qy * ROW + 3 * PLANE
  {
  }

  /** The plane rotation of the screen copy is the inverse of the pixel map. */
  lemma Rotation(sx: int, sy: int, plane: int, a: int, row: int)
    requires 0 <= plane < 4 && 0 <= a < ROW && 0 <= row
    ensures var p := 3 - sx % 4;
            First(sx, sy) + ((p - plane + 4) % 4) * PLANE + (if p < plane then 1 else 0) + a + ROW * row ==
            Off(sx + 4 * a + plane, sy + row)
  {
    var r := sx % 4;
    assert (sx + 4 * a + plane) == 4 * (sx / 4 + a) + r + plane;
    if r + plane < 4 {
      assert (sx + 4 * a + plane) / 4 == sx / 4 + a;
    } else {
      assert (sx + 4 * a + plane) / 4 == sx / 4 + a + 1;
    }
  }

  /** Walking one pixel to the right. */
  lemma StepRight(x: int)
    ensures if x % 4 == 3 then (x + 1) / 4 == x / 4 + 1 && (x + 1) % 4 == 0
            else (x + 1) / 4 == x / 4 && (x + 1) % 4 == x % 4 + 1
  {
  }
}

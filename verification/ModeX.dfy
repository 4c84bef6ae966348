/** The mode X display: the build buffer as an incremental cache of the visible window, and the two video pages. */
module ModeX {
  import opened BuildMap

  const FENCE_MAGIC := 0xF3
  const VIDEO_PLANE := 65536
  const PAGE := 0x4000
  const SHOWN_BYTES := 14560
  const SHOWN_ROWS := 182

  class Display {
    const build: array<int>
    const video: array<int>
    var img3_off: int
    var img3: int
    var show_x: int
    var show_y: int
    var target_img: int

    ghost predicate Valid()
      reads this
    {
      && build.Length == BUFFER && video.Length == 4 * VIDEO_PLANE && build != video
      && img3 == img3_off + FENCE && FitsAt(img3_off, show_x, show_y)
      && (target_img == 0 || target_img == PAGE)
    }

    /** The build buffer byte of a logical pixel. */
    ghost function Cell(x: int, y: int): int
      reads this, build
    {
      var i := img3 + Off(x, y);
      if 0 <= i < build.Length then build[i] else -1
    }

    /** The magic bytes on both sides of the buffer are as set up. */
    ghost predicate FenceIntact()
      reads this, build
    {
      && build.Length == BUFFER
      && (forall i :: 0 <= i < FENCE ==> build[i] == FENCE_MAGIC)
      && (forall i :: BUILD_SIZE + FENCE <= i < BUFFER ==> build[i] == FENCE_MAGIC)
    }

    constructor ()
      ensures Valid() && FenceIntact() && show_x == 0 && show_y == 0 && target_img == 0
      ensures fresh(build) && fresh(video)
    {
      build := new int[BUFFER](_ => 0);
      video := new int[4 * VIDEO_PLANE](_ => 0);
      show_x, show_y := 0, 0;
      img3_off := BASE_INIT;
      img3 := BASE_INIT + FENCE;
      target_img := 0;
      new;
      var i := 0;
      while i < FENCE
        modifies build
        invariant 0 <= i <= FENCE
        invariant forall j :: 0 <= j < i ==> build[j] == FENCE_MAGIC
        invariant forall j :: BUILD_SIZE + FENCE <= j < BUILD_SIZE + FENCE + i ==> build[j] == FENCE_MAGIC
      {
        build[i] := FENCE_MAGIC;
        build[BUILD_SIZE + FENCE + i] := FENCE_MAGIC;
        i := i + 1;
      }
    }

    /** Copies len bytes inside the build buffer; the areas may overlap, so the direction depends on their order. */
    method CopyOverlapping(src: int, dst: int, len: nat)
      requires build.Length == BUFFER
      requires 0 <= src && src + len <= BUFFER && 0 <= dst && dst + len <= BUFFER
      modifies build
      ensures forall k :: dst <= k < dst + len ==> build[k] == old(build[src + (k - dst)])
      ensures forall i :: 0 <= i < dst || dst + len <= i < BUFFER ==> build[i] == old(build[i])
    {
      if src < dst {
        var i := len;
        while i > 0
          invariant 0 <= i <= len
          invariant forall k :: dst + i <= k < dst + len ==> build[k] == old(build[src + (k - dst)])
          invariant forall k :: 0 <= k < dst + i || dst + len <= k < BUFFER ==> build[k] == old(build[k])
        {
          i := i - 1;
          build[dst + i] := build[src + i];
        }
      } else {
        var i := 0;
        while i < len
          invariant 0 <= i <= len
          invariant forall k :: dst <= k < dst + i ==> build[k] == old(build[src + (k - dst)])
          invariant forall k :: 0 <= k < dst || dst + i <= k < BUFFER ==> build[k] == old(build[k])
        {
          build[dst + i] := build[src + i];
          i := i + 1;
        }
      }
    }

    /** Moves the window; every pixel in both the old and the new window keeps its value. */
    method SetViewWindow(x: int, y: int)
      requires Valid()
      modifies this`img3_off, this`img3, this`show_x, this`show_y, build
      ensures Valid() && show_x == x && show_y == y && (old(FenceIntact()) ==> FenceIntact())
      ensures forall u, v :: InWindow(old(show_x), old(show_y), u, v) && InWindow(x, y, u, v) ==>
                Cell(u, v) == old(Cell(u, v))
    {
      var oldX, oldY := show_x, show_y;
      show_x, show_y := x, y;
      if img3_off + x / 4 + y * ROW >= 0 &&
         img3_off + 3 * PLANE + (x + WIDTH - 1) / 4 + (y + HEIGHT - 1) * ROW < BUILD_SIZE {
        return;
      }
      if x <= oldX - WIDTH || x >= oldX + WIDTH || y <= oldY - HEIGHT || y >= oldY + HEIGHT {
        img3_off := BASE_INIT - x / 4 - y * ROW;
        img3 := img3_off + FENCE;
        RecentredFits(x, y);
        return;
      }
      MoveCommon(oldX, oldY);
    }

    /** Re-centres the new window and moves along the bytes from the first to the last pixel it shares with the old one. */
    method MoveCommon(oldX: int, oldY: int)
      requires build.Length == BUFFER && img3 == img3_off + FENCE && FitsAt(img3_off, oldX, oldY)
      requires show_x - WIDTH < oldX < show_x + WIDTH && show_y - HEIGHT < oldY < show_y + HEIGHT
      modifies this`img3_off, this`img3, build
      ensures img3 == img3_off + FENCE && FitsAt(img3_off, show_x, show_y) && (old(FenceIntact()) ==> FenceIntact())
      ensures forall u, v :: InWindow(oldX, oldY, u, v) && InWindow(show_x, show_y, u, v) ==>
                Cell(u, v) == old(Cell(u, v))
    {
      var x, y := show_x, show_y;
      var startX, endX := if x > oldX then x else oldX, (if x > oldX then oldX else x) + WIDTH - 1;
      var startY, endY := if y > oldY then y else oldY, (if y > oldY then oldY else y) + HEIGHT - 1;
      CommonRange(oldX, oldY, x, y);
      RecentredFits(x, y);
      var startOff := startX / 4 + startY * ROW;
      var length := endX / 4 + endY * ROW + 1 - startOff + 3 * PLANE;
      Slide(BASE_INIT - x / 4 - y * ROW, startOff, length);
      forall u, v | InWindow(oldX, oldY, u, v) && InWindow(x, y, u, v)
        ensures Cell(u, v) == old(Cell(u, v))
      {
        CommonPixel(oldX, oldY, x, y, u, v);
      }
    }

    /** Moves the origin, and the bytes at the given offsets from it along. */
    method Slide(newOff: int, startOff: int, length: nat)
      requires build.Length == BUFFER && img3 == img3_off + FENCE
      requires 0 <= img3_off + startOff && img3_off + startOff + length <= BUILD_SIZE
      requires 0 <= newOff + startOff && newOff + startOff + length <= BUILD_SIZE
      modifies this`img3_off, this`img3, build
      ensures img3_off == newOff && img3 == img3_off + FENCE && (old(FenceIntact()) ==> FenceIntact())
      ensures forall u, v :: startOff <= Off(u, v) < startOff + length ==> Cell(u, v) == old(Cell(u, v))
    {
      var start := img3 + startOff;
      img3_off := newOff;
      img3 := img3_off + FENCE;
      var target := img3 + startOff;
      CopyOverlapping(start, target, length);
      forall u, v | startOff <= Off(u, v) < startOff + length
        ensures Cell(u, v) == old(Cell(u, v))
      {
        ghost var k := target + (Off(u, v) - startOff);
        assert build[k] == old(build[start + (k - target)]);
      }
    }

    /** Writes the byte of one pixel of the window: no other pixel of the window and no fence byte changes. */
    method Poke(k: int, value: int, ghost x: int, ghost y: int)
      requires Valid() && InWindow(show_x, show_y, x, y) && k == img3 + Off(x, y)
      modifies build
      ensures Cell(x, y) == value && (old(FenceIntact()) ==> FenceIntact())
      ensures forall u, v :: InWindow(show_x, show_y, u, v) && (u, v) != (x, y) ==> Cell(u, v) == old(Cell(u, v))
    {
      OffInside(show_x, show_y, x, y);
      build[k] := value;
      forall u, v | InWindow(show_x, show_y, u, v) && (u, v) != (x, y)
        ensures Cell(u, v) == old(Cell(u, v))
      {
        if Off(u, v) == Off(x, y) {
          OffInjective(show_x, show_y, u, v, x, y);
        }
      }
    }

    /** Puts a row of pixels into the planes, row y of the window. */
    method PutRow(y: int, buf: array<int>)
      requires Valid() && 0 <= y < HEIGHT && buf.Length == WIDTH && buf != build
      modifies build
      ensures old(FenceIntact()) ==> FenceIntact()
      ensures forall u, v :: InWindow(show_x, show_y, u, v) ==>
                Cell(u, v) == if v == show_y + y then buf[u - show_x] else old(Cell(u, v))
    {
      var row := y + show_y;
      var addr := img3 + show_x / 4 + row * ROW;
      var p := 3 - show_x % 4;
      var i := 0;
      while i < WIDTH
        invariant 0 <= i <= WIDTH && addr == img3 + (show_x + i) / 4 + row * ROW && p == 3 - (show_x + i) % 4
        invariant old(FenceIntact()) ==> FenceIntact()
        invariant forall u, v :: InWindow(show_x, show_y, u, v) ==>
                    Cell(u, v) == if v == row && u < show_x + i then buf[u - show_x] else old(Cell(u, v))
      {
        Poke(addr + p * PLANE, buf[i], show_x + i, row);
        StepRight(show_x + i);
        p := p - 1;
        if p < 0 {
          p := 3;
          addr := addr + 1;
        }
        i := i + 1;
      }
    }

    /** Puts a column of pixels into its plane, column x of the window. */
    method PutColumn(x: int, buf: array<int>)
      requires Valid() && 0 <= x < WIDTH && buf.Length == HEIGHT && buf != build
      modifies build
      ensures old(FenceIntact()) ==> FenceIntact()
      ensures forall u, v :: InWindow(show_x, show_y, u, v) ==>
                Cell(u, v) == if u == show_x + x then buf[v - show_y] else old(Cell(u, v))
    {
      var column := x + show_x;
      var addr := img3 + column / 4 + show_y * ROW;
      var p := 3 - column % 4;
      var i := 0;
      while i < HEIGHT
        invariant 0 <= i <= HEIGHT && addr == img3 + column / 4 + (show_y + i) * ROW
        invariant old(FenceIntact()) ==> FenceIntact()
        invariant forall u, v :: InWindow(show_x, show_y, u, v) ==>
                    Cell(u, v) == if u == column && v < show_y + i then buf[v - show_y] else old(Cell(u, v))
      {
        Poke(addr + p * PLANE, buf[i], column, show_y + i);
        addr := addr + ROW;
        i := i + 1;
      }
    }

    /** Copies one plane of the screen image to video memory. */
    method CopyImage(src: int, plane: nat, page: int)
      requires build.Length == BUFFER && video.Length == 4 * VIDEO_PLANE && build != video
      requires 0 <= src && src + SHOWN_BYTES <= BUFFER && plane < 4 && (page == 0 || page == PAGE)
      modifies video
      ensures forall j :: 0 <= j - plane * VIDEO_PLANE - page < SHOWN_BYTES ==>
                video[j] == build[src + (j - plane * VIDEO_PLANE - page)]
      ensures forall j :: 0 <= j < video.Length && !(0 <= j - plane * VIDEO_PLANE - page < SHOWN_BYTES) ==>
                video[j] == old(video[j])
    {
      var to := plane * VIDEO_PLANE + page;
      var k := 0;
      while k < SHOWN_BYTES
        invariant 0 <= k <= SHOWN_BYTES
        invariant forall j :: to <= j < to + k ==> video[j] == build[src + (j - to)]
        invariant forall j :: 0 <= j < to || to + k <= j < video.Length ==> video[j] == old(video[j])
      {
        video[to + k] := build[src + k];
        k := k + 1;
      }
    }

    /** Where the bytes of a display plane start in the build buffer. */
    function PlaneSource(plane: int): int
      reads this
    {
      var p := 3 - show_x % 4;
      img3 + show_x / 4 + show_y * ROW + ((p - plane + 4) % 4) * PLANE + (if p < plane then 1 else 0)
    }

    /** What the page shows at screen position (sx, sy). */
    ghost function Shown(sx: int, sy: int): int
      reads this, video
    {
      var j := (sx % 4) * VIDEO_PLANE + target_img + sx / 4 + ROW * sy;
      if 0 <= j < video.Length then video[j] else -1
    }

    /** A display plane of the current page holds the bytes from src on. */
    ghost predicate PlaneHolds(plane: int, src: int)
      reads this, build, video
    {
      && 0 <= src && src + SHOWN_BYTES <= build.Length && 0 <= plane * VIDEO_PLANE + target_img
      && plane * VIDEO_PLANE + target_img + SHOWN_BYTES <= video.Length
      && forall j :: 0 <= j - plane * VIDEO_PLANE - target_img < SHOWN_BYTES ==>
           video[j] == build[src + (j - plane * VIDEO_PLANE - target_img)]
    }

    lemma SourceInside(plane: int)
      requires Valid() && 0 <= plane < 4
      ensures 0 <= PlaneSource(plane) && PlaneSource(plane) + SHOWN_BYTES <= BUFFER
    {
      Rotation(show_x, show_y, plane, 0, 0);
      OffInside(show_x, show_y, show_x + plane, show_y);
      Rotation(show_x, show_y, plane, ROW - 1, SHOWN_ROWS - 1);
      OffInside(show_x, show_y, show_x + 4 * (ROW - 1) + plane, show_y + SHOWN_ROWS - 1);
    }

    lemma SourceOf(plane: int, a: int, row: int)
      requires Valid() && 0 <= plane < 4 && 0 <= a < ROW && 0 <= row < SHOWN_ROWS
      ensures PlaneSource(plane) + (a + ROW * row) == img3 + Off(show_x + (4 * a + plane), show_y + row)
    {
      Rotation(show_x, show_y, plane, a, row);
    }

    lemma PixelShown(plane: int, a: int, row: int, src: int)
      requires Valid() && 0 <= plane < 4 && 0 <= a < ROW && 0 <= row < SHOWN_ROWS
      requires PlaneHolds(plane, src) && src + (a + ROW * row) == img3 + Off(show_x + (4 * a + plane), show_y + row)
      ensures Shown(4 * a + plane, row) == Cell(show_x + (4 * a + plane), show_y + row)
    {
      var j := plane * VIDEO_PLANE + target_img + a + ROW * row;
      assert (4 * a + plane) % 4 == plane && (4 * a + plane) / 4 == a;
      assert video[j] == build[src + (j - plane * VIDEO_PLANE - target_img)];
    }

    lemma AllShown()
      requires Valid() && forall plane :: 0 <= plane < 4 ==> PlaneHolds(plane, PlaneSource(plane))
      ensures forall sx, sy :: 0 <= sx < WIDTH && 0 <= sy < SHOWN_ROWS ==>
                Shown(sx, sy) == Cell(show_x + sx, show_y + sy)
    {
      forall sx, sy | 0 <= sx < WIDTH && 0 <= sy < SHOWN_ROWS
        ensures Shown(sx, sy) == Cell(show_x + sx, show_y + sy)
      {
        var plane, a := sx % 4, sx / 4;
        SourceOf(plane, a, sy);
        PixelShown(plane, a, sy, PlaneSource(plane));
      }
    }

    /** Copies one display plane; the planes copied before stay as they are. */
    method ShowPlane(i: nat)
      requires Valid() && i < 4
      modifies video
      ensures PlaneHolds(i, PlaneSource(i))
      ensures forall p, src :: 0 <= p < i && old(PlaneHolds(p, src)) ==> PlaneHolds(p, src)
      ensures forall j :: 0 <= j < video.Length && OffPage(j, target_img) ==> video[j] == old(video[j])
    {
      SourceInside(i);
      CopyImage(PlaneSource(i), i, target_img);
    }

    /** Flips the page and copies the four planes: rows 0 to 181 of the new page show the window exactly. */
    method ShowScreen()
      requires Valid()
      modifies this`target_img, video
      ensures Valid() && target_img == PAGE - old(target_img)
      ensures forall sx, sy :: 0 <= sx < WIDTH && 0 <= sy < SHOWN_ROWS ==>
                Shown(sx, sy) == Cell(show_x + sx, show_y + sy)
      ensures forall j :: 0 <= j < video.Length && OffPage(j, target_img) ==> video[j] == old(video[j])
    {
      target_img := PAGE - target_img;
      var i := 0;
      while i < 4
        invariant 0 <= i <= 4 && Valid() && target_img == PAGE - old(target_img)
        invariant forall plane :: 0 <= plane < i ==> PlaneHolds(plane, PlaneSource(plane))
        invariant forall j :: 0 <= j < video.Length && OffPage(j, target_img) ==> video[j] == old(video[j])
      {
        ShowPlane(i);
        i := i + 1;
      }
      AllShown();
    }
  }

  /** Video index j is outside the shown part of the page in every plane. */
  predicate OffPage(j: int, page: int) {
    && !(0 <= j - page < SHOWN_BYTES) && !(0 <= j - VIDEO_PLANE - page < SHOWN_BYTES)
    && !(0 <= j - 2 * VIDEO_PLANE - page < SHOWN_BYTES) && !(0 <= j - 3 * VIDEO_PLANE - page < SHOWN_BYTES)
  }
}

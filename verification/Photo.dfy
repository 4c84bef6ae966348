/** Room photos with objects painted over them, and the two line fillers. */
module Photo {
  const TRANSPARENT := 0x40

  /** Pixels of a rectangle, row by row. */
  datatype Picture = Picture(width: nat, height: nat, img: seq<int>)

  datatype Sprite = Sprite(x: int, y: int, image: Picture)

  /** A room's photo and its objects in list order: later objects are painted over earlier ones. */
  datatype Scene = Scene(photo: Picture, objects: seq<Sprite>)

  ghost predicate WellSized(p: Picture) { |p.img| == p.width * p.height }

  ghost predicate ValidScene(s: Scene) {
    WellSized(s.photo) && forall i :: 0 <= i < |s.objects| ==> WellSized(s.objects[i].image)
  }

  lemma RowMajor(width: nat, height: nat, x: int, y: int)
    requires 0 <= x < width && 0 <= y < height
    ensures 0 <= width * y + x < width * height
  {
    assert width * y + width <= width * height by {
      assert width * (y + 1) <= width * height;
    }
  }

  function Sample(p: Picture, x: int, y: int): int
    requires WellSized(p) && 0 <= x < p.width && 0 <= y < p.height
  {
    RowMajor(p.width, p.height, x, y);
    p.img[p.width * y + x]
  }

  lemma SampleIs(p: Picture, x: int, y: int, i: int)
    requires WellSized(p) && 0 <= x < p.width && 0 <= y < p.height && i == p.width * y + x
    ensures 0 <= i < |p.img| && p.img[i] == Sample(p, x, y)
  {
    RowMajor(p.width, p.height, x, y);
  }

  // ------------------------------------------------------------ the simple renderer

  function Background(p: Picture, x: int, y: int): int
    requires WellSized(p)
  {
    if 0 <= x < p.width && 0 <= y < p.height then Sample(p, x, y) else 0
  }

  /** Whether object o shows at (x, y). */
  predicate Covers(o: Sprite, x: int, y: int)
    requires WellSized(o.image)
  {
    && o.x <= x < o.x + o.image.width && o.y <= y < o.y + o.image.height
    && Sample(o.image, x - o.x, y - o.y) != TRANSPARENT
  }

  /** The colour left by painting bg and then the objects: that of the last object that covers the point. */
  function Composite(objects: seq<Sprite>, bg: int, x: int, y: int): int
    requires forall i :: 0 <= i < |objects| ==> WellSized(objects[i].image)
  {
    if objects == [] then bg
    else
      var o := objects[|objects| - 1];
      if Covers(o, x, y) then Sample(o.image, x - o.x, y - o.y)
      else Composite(objects[..|objects| - 1], bg, x, y)
  }

  /** Colour of logical pixel (x, y) of a scene. */
  function Pixel(s: Scene, x: int, y: int): int
    requires ValidScene(s)
  {
    Composite(s.objects, Background(s.photo, x, y), x, y)
  }

  /** The composite is the topmost opaque object, or the background when no object covers the point. */
  lemma {:induction false} TopmostWins(objects: seq<Sprite>, bg: int, x: int, y: int)
    requires forall i :: 0 <= i < |objects| ==> WellSized(objects[i].image)
    ensures (forall i :: 0 <= i < |objects| ==> !Covers(objects[i], x, y)) ==> Composite(objects, bg, x, y) == bg
    ensures forall i :: 0 <= i < |objects| && Covers(objects[i], x, y) &&
                        (forall j :: i < j < |objects| ==> !Covers(objects[j], x, y)) ==>
              Composite(objects, bg, x, y) == Sample(objects[i].image, x - objects[i].x, y - objects[i].y)
  {
    if objects != [] && !Covers(objects[|objects| - 1], x, y) {
      var below := objects[..|objects| - 1];
      TopmostWins(below, bg, x, y);
      assert forall i :: 0 <= i < |below| ==> below[i] == objects[i];
    }
  }

  lemma PaintOne(objects: seq<Sprite>, k: nat, bg: int, x: int, y: int)
    requires k < |objects| && forall i :: 0 <= i < |objects| ==> WellSized(objects[i].image)
    ensures Composite(objects[..k + 1], bg, x, y) ==
            if Covers(objects[k], x, y) then Sample(objects[k].image, x - objects[k].x, y - objects[k].y)
            else Composite(objects[..k], bg, x, y)
  {
    assert objects[..k + 1][..k] == objects[..k];
  }

  // ------------------------------------------------------------ the line fillers

  /** Paints the part of object o on the row from (x, y) over buf. */
  method PaintRow(o: Sprite, x: int, y: int, buf: array<int>)
    requires WellSized(o.image)
    modifies buf
    ensures forall i :: 0 <= i < buf.Length ==>
              buf[i] == if Covers(o, x + i, y) then Sample(o.image, x + i - o.x, y - o.y) else old(buf[i])
  {
    if y < o.y || y >= o.y + o.image.height || x + buf.Length <= o.x || x >= o.x + o.image.width {
      return;
    }
    var yoff := (y - o.y) * o.image.width;
    var idx, imgx := 0, x - o.x;
    if x <= o.x {
      idx, imgx := o.x - x, 0;
    }
    while buf.Length > idx && o.image.width > imgx
      invariant 0 <= idx <= buf.Length && 0 <= imgx <= o.image.width && x + idx == o.x + imgx
      invariant forall i :: 0 <= i < buf.Length ==>
                  buf[i] == if i < idx && Covers(o, x + i, y) then Sample(o.image, x + i - o.x, y - o.y) else old(buf[i])
    {
      SampleIs(o.image, imgx, y - o.y, yoff + imgx);
      var pixel := o.image.img[yoff + imgx];
      if pixel != TRANSPARENT {
        buf[idx] := pixel;
      }
      idx, imgx := idx + 1, imgx + 1;
    }
  }

  /** Paints the part of object o on the column from (x, y) over buf. */
  method PaintColumn(o: Sprite, x: int, y: int, buf: array<int>)
    requires WellSized(o.image)
    modifies buf
    ensures forall i :: 0 <= i < buf.Length ==>
              buf[i] == if Covers(o, x, y + i) then Sample(o.image, x - o.x, y + i - o.y) else old(buf[i])
  {
    if x < o.x || x >= o.x + o.image.width || y + buf.Length <= o.y || y >= o.y + o.image.height {
      return;
    }
    var xoff := x - o.x;
    var idx, imgy := 0, y - o.y;
    if y <= o.y {
      idx, imgy := o.y - y, 0;
    }
    while buf.Length > idx && o.image.height > imgy
      invariant 0 <= idx <= buf.Length && 0 <= imgy <= o.image.height && y + idx == o.y + imgy
      invariant forall i :: 0 <= i < buf.Length ==>
                  buf[i] == if i < idx && Covers(o, x, y + i) then Sample(o.image, x - o.x, y + i - o.y) else old(buf[i])
    {
      SampleIs(o.image, xoff, imgy, xoff + o.image.width * imgy);
      var pixel := o.image.img[xoff + o.image.width * imgy];
      if pixel != TRANSPARENT {
        buf[idx] := pixel;
      }
      idx, imgy := idx + 1, imgy + 1;
    }
  }

  /** The image of the row of pixels from (x, y) to the right, y inside the photo. */
  method FillHoriz(s: Scene, x: int, y: int, buf: array<int>)
    requires ValidScene(s) && 0 <= y < s.photo.height
    modifies buf
    ensures forall i :: 0 <= i < buf.Length ==> buf[i] == Pixel(s, x + i, y)
  {
    var idx := 0;
    while idx < buf.Length
      invariant 0 <= idx <= buf.Length
      invariant forall i :: 0 <= i < idx ==> buf[i] == Background(s.photo, x + i, y)
    {
      if 0 <= x + idx < s.photo.width {
        SampleIs(s.photo, x + idx, y, s.photo.width * y + (x + idx));
        buf[idx] := s.photo.img[s.photo.width * y + (x + idx)];
      } else {
        buf[idx] := 0;
      }
      idx := idx + 1;
    }
    var k := 0;
    while k < |s.objects|
      invariant 0 <= k <= |s.objects|
      invariant forall i :: 0 <= i < buf.Length ==>
                  buf[i] == Composite(s.objects[..k], Background(s.photo, x + i, y), x + i, y)
    {
      forall i | 0 <= i < buf.Length
        ensures Composite(s.objects[..k + 1], Background(s.photo, x + i, y), x + i, y) ==
                if Covers(s.objects[k], x + i, y) then Sample(s.objects[k].image, x + i - s.objects[k].x, y - s.objects[k].y)
                else buf[i]
      {
        PaintOne(s.objects, k, Background(s.photo, x + i, y), x + i, y);
      }
      PaintRow(s.objects[k], x, y, buf);
      k := k + 1;
    }
    assert s.objects[..k] == s.objects;
  }

  /** The image of the column of pixels from (x, y) downward, x inside the photo. */
  method FillVert(s: Scene, x: int, y: int, buf: array<int>)
    requires ValidScene(s) && 0 <= x < s.photo.width
    modifies buf
    ensures forall i :: 0 <= i < buf.Length ==> buf[i] == Pixel(s, x, y + i)
  {
    var idx := 0;
    while idx < buf.Length
      invariant 0 <= idx <= buf.Length
      invariant forall i :: 0 <= i < idx ==> buf[i] == Background(s.photo, x, y + i)
    {
      if 0 <= y + idx < s.photo.height {
        SampleIs(s.photo, x, y + idx, s.photo.width * (y + idx) + x);
        buf[idx] := s.photo.img[s.photo.width * (y + idx) + x];
      } else {
        buf[idx] := 0;
      }
      idx := idx + 1;
    }
    var k := 0;
    while k < |s.objects|
      invariant 0 <= k <= |s.objects|
      invariant forall i :: 0 <= i < buf.Length ==>
                  buf[i] == Composite(s.objects[..k], Background(s.photo, x, y + i), x, y + i)
    {
      forall i | 0 <= i < buf.Length
        ensures Composite(s.objects[..k + 1], Background(s.photo, x, y + i), x, y + i) ==
                if Covers(s.objects[k], x, y + i) then Sample(s.objects[k].image, x - s.objects[k].x, y + i - s.objects[k].y)
                else buf[i]
      {
        PaintOne(s.objects, k, Background(s.photo, x, y + i), x, y + i);
      }
      PaintColumn(s.objects[k], x, y, buf);
      k := k + 1;
    }
    assert s.objects[..k] == s.objects;
  }
}

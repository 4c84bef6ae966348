/** The panning and redraw policy of the game loop: every frame shown is the simple rendering of the scene. */
module Adventure {
  import opened BuildMap
  import opened ModeX
  import opened Photo

  // ------------------------------------------------------------ the simple model: what should be on the screen

  /** A scene seen through a window at (x, y), with the panning speeds. */
  datatype View = View(scene: Scene, x: int, y: int, xSpeed: nat, ySpeed: nat)

  datatype Event =
    | Up
    | Right
    | Down
    | Left
    | Enter(room: Scene)
    | Redraw(changed: Scene, xs: nat, ys: nat)
    | Speeds(xs: nat, ys: nat)
    | Nothing

  function Least(a: int, b: int): int { if a < b then a else b }

  function Step(v: View, e: Event): View {
    match e
    case Up => v.(y := v.y - Least(v.ySpeed, v.y))
    case Right => v.(x := v.x + Least(v.xSpeed, v.scene.photo.width - WIDTH - v.x))
    case Down => v.(y := v.y + Least(v.ySpeed, v.scene.photo.height - HEIGHT - v.y))
    case Left => v.(x := v.x - Least(v.xSpeed, v.x))
    case Enter(room) => v.(scene := room, x := 0, y := 0)
    case Redraw(changed, xs, ys) => v.(scene := changed, xSpeed := xs, ySpeed := ys)
    case Speeds(xs, ys) => v.(xSpeed := xs, ySpeed := ys)
    case Nothing => v
  }

  /** A photo that fills the screen. */
  ghost predicate Roomy(s: Scene) { ValidScene(s) && s.photo.width >= WIDTH && s.photo.height >= HEIGHT }

  /** The window lies inside the photo. */
  ghost predicate Inside(v: View) {
    Roomy(v.scene) && 0 <= v.x <= v.scene.photo.width - WIDTH && 0 <= v.y <= v.scene.photo.height - HEIGHT
  }

  /** A room entered has a screen-filling photo; a change of contents keeps the window inside the photo. */
  ghost predicate Allowed(v: View, e: Event) {
    match e
    case Enter(room) => Roomy(room)
    case Redraw(changed, _, _) => Inside(v.(scene := changed))
    case _ => true
  }

  function Run(v: View, es: seq<Event>): View {
    if es == [] then v else Step(Run(v, es[..|es| - 1]), es[|es| - 1])
  }

  ghost predicate AllAllowed(v: View, es: seq<Event>) {
    forall k :: 0 <= k < |es| ==> Allowed(Run(v, es[..k]), es[k])
  }

  lemma StepInside(v: View, e: Event)
    requires Inside(v) && Allowed(v, e)
    ensures Inside(Step(v, e))
  {
  }

  lemma RunStep(v: View, es: seq<Event>, k: nat)
    requires k < |es|
    ensures Run(v, es[..k + 1]) == Step(Run(v, es[..k]), es[k])
  {
    assert es[..k + 1][..k] == es[..k];
  }

  /** Panning never leaves the photo, in any run. */
  lemma {:induction false} RunInside(v: View, es: seq<Event>, k: nat)
    requires Inside(v) && AllAllowed(v, es) && k <= |es|
    ensures Inside(Run(v, es[..k]))
  {
    if k > 0 {
      RunInside(v, es, k - 1);
      RunStep(v, es, k - 1);
      StepInside(Run(v, es[..k - 1]), es[k - 1]);
    }
  }

  // ------------------------------------------------------------ the program

  /** A snapshot of video memory with the displayed page. */
  datatype Frame = Frame(memory: seq<int>, page: int)

  ghost predicate FrameShows(f: Frame, v: View) {
    && Inside(v) && |f.memory| == 4 * VIDEO_PLANE && (f.page == 0 || f.page == PAGE)
    && forall sx, sy :: 0 <= sx < WIDTH && 0 <= sy < SHOWN_ROWS ==> FrameAt(f, sx, sy) == Pixel(v.scene, v.x + sx, v.y + sy)
  }

  function FrameAt(f: Frame, sx: int, sy: int): int
    requires |f.memory| == 4 * VIDEO_PLANE && (f.page == 0 || f.page == PAGE)
    requires 0 <= sx < WIDTH && 0 <= sy < SHOWN_ROWS
  {
    f.memory[(sx % 4) * VIDEO_PLANE + f.page + sx / 4 + ROW * sy]
  }

  class Game {
    const display: Display
    var scene: Scene
    var mapX: int
    var mapY: int
    var xSpeed: nat
    var ySpeed: nat

    /** The game starts with nothing drawn in the first room. */
    constructor (first: Scene, speed: nat)
      ensures fresh(display) && fresh(display.build) && fresh(display.video)
      ensures display.Valid() && display.FenceIntact() && Looking() == View(first, 0, 0, speed, speed)
    {
      display := new Display();
      scene := first;
      mapX, mapY := 0, 0;
      xSpeed, ySpeed := speed, speed;
    }

    ghost function Looking(): View
      reads this
    {
      View(scene, mapX, mapY, xSpeed, ySpeed)
    }

    ghost predicate Ready()
      reads this, display, display.build
    {
      && display.Valid() && display.FenceIntact()
      && display.show_x == mapX && display.show_y == mapY && Inside(Looking())
    }

    /** Pixel (u, v) of the build buffer is the rendered one. */
    ghost predicate Right(u: int, v: int)
      requires ValidScene(scene)
      reads this, display, display.build
    {
      display.Cell(u, v) == Pixel(scene, u, v)
    }

    /** Every pixel of the window in the build buffer is the rendered one. */
    ghost predicate Drawn()
      reads this, display, display.build
    {
      ValidScene(scene) && forall u, v :: InWindow(display.show_x, display.show_y, u, v) ==> Right(u, v)
    }

    /** Draws row y of the window; a row outside it is refused. */
    method DrawHorizLine(y: int) returns (r: int)
      requires Ready()
      modifies display.build
      ensures Ready() && r == (if 0 <= y < HEIGHT then 0 else -1)
      ensures forall u, v :: InWindow(mapX, mapY, u, v) && (v == mapY + y || old(Right(u, v))) ==> Right(u, v)
    {
      if y < 0 || y >= HEIGHT {
        return -1;
      }
      var buf := new int[WIDTH];
      FillHoriz(scene, display.show_x, y + display.show_y, buf);
      display.PutRow(y, buf);
      r := 0;
    }

    /** Draws column x of the window; a column outside it is refused. */
    method DrawVertLine(x: int) returns (r: int)
      requires Ready()
      modifies display.build
      ensures Ready() && r == (if 0 <= x < WIDTH then 0 else -1)
      ensures forall u, v :: InWindow(mapX, mapY, u, v) && (u == mapX + x || old(Right(u, v))) ==> Right(u, v)
    {
      if x < 0 || x >= WIDTH {
        return -1;
      }
      var buf := new int[HEIGHT];
      FillVert(scene, x + display.show_x, display.show_y, buf);
      display.PutColumn(x, buf);
      r := 0;
    }

    method RedrawRoom()
      requires Ready()
      modifies display.build
      ensures Ready() && Drawn()
    {
      var i := 0;
      while i < HEIGHT
        modifies display.build
        invariant 0 <= i <= HEIGHT && Ready()
        invariant forall u, v :: InWindow(mapX, mapY, u, v) && v < mapY + i ==> Right(u, v)
      {
        var r := DrawHorizLine(i);
        i := i + 1;
      }
    }

    /** Moves the window; pixels in both windows stay right. */
    method Shift()
      requires display.Valid() && display.FenceIntact() && Inside(Looking())
      modifies display`img3_off, display`img3, display`show_x, display`show_y, display.build
      ensures Ready()
      ensures forall u, v ::
                (InWindow(old(display.show_x), old(display.show_y), u, v) && InWindow(mapX, mapY, u, v) && old(Right(u, v)))
                ==> Right(u, v)
    {
      display.SetViewWindow(mapX, mapY);
    }

    /** The up key: the photo moves down, rows appear at the top. */
    method MovePhotoDown()
      requires Ready() && Drawn()
      modifies this`mapY, display`img3_off, display`img3, display`show_x, display`show_y, display.build
      ensures Ready() && Drawn() && Looking() == Step(old(Looking()), Up)
    {
      var delta := if ySpeed > mapY then mapY else ySpeed;
      mapY := mapY - delta;
      Shift();
      var idx := 0;
      while idx < delta
        modifies display.build
        invariant 0 <= idx <= delta && Ready()
        invariant forall u, v :: InWindow(mapX, mapY, u, v) && (v < mapY + idx || v >= mapY + delta) ==> Right(u, v)
      {
        var r := DrawHorizLine(idx);
        idx := idx + 1;
      }
    }

    /** The right key: the photo moves left, columns appear at the right. */
    method MovePhotoLeft()
      requires Ready() && Drawn()
      modifies this`mapX, display`img3_off, display`img3, display`show_x, display`show_y, display.build
      ensures Ready() && Drawn() && Looking() == Step(old(Looking()), Event.Right)
    {
      var delta := scene.photo.width - WIDTH - mapX;
      delta := if xSpeed > delta then delta else xSpeed;
      mapX := mapX + delta;
      Shift();
      var idx := 1;
      while delta >= idx
        modifies display.build
        invariant 1 <= idx <= delta + 1 && Ready()
        invariant forall u, v :: InWindow(mapX, mapY, u, v) && (u > mapX + WIDTH - idx || u < mapX + WIDTH - delta) ==>
                    Right(u, v)
      {
        var r := DrawVertLine(WIDTH - idx);
        idx := idx + 1;
      }
    }

    /** The left key: the photo moves right, columns appear at the left. */
    method MovePhotoRight()
      requires Ready() && Drawn()
      modifies this`mapX, display`img3_off, display`img3, display`show_x, display`show_y, display.build
      ensures Ready() && Drawn() && Looking() == Step(old(Looking()), Left)
    {
      var delta := if xSpeed > mapX then mapX else xSpeed;
      mapX := mapX - delta;
      Shift();
      var idx := 0;
      while idx < delta
        modifies display.build
        invariant 0 <= idx <= delta && Ready()
        invariant forall u, v :: InWindow(mapX, mapY, u, v) && (u < mapX + idx || u >= mapX + delta) ==> Right(u, v)
      {
        var r := DrawVertLine(idx);
        idx := idx + 1;
      }
    }

    /** The down key: the photo moves up, rows appear at the bottom. */
    method MovePhotoUp()
      requires Ready() && Drawn()
      modifies this`mapY, display`img3_off, display`img3, display`show_x, display`show_y, display.build
      ensures Ready() && Drawn() && Looking() == Step(old(Looking()), Down)
    {
      var delta := scene.photo.height - HEIGHT - mapY;
      delta := if ySpeed > delta then delta else ySpeed;
      mapY := mapY + delta;
      Shift();
      var idx := 1;
      while delta >= idx
        modifies display.build
        invariant 1 <= idx <= delta + 1 && Ready()
        invariant forall u, v :: InWindow(mapX, mapY, u, v) && (v > mapY + HEIGHT - idx || v < mapY + HEIGHT - delta) ==>
                    Right(u, v)
      {
        var r := DrawHorizLine(HEIGHT - idx);
        idx := idx + 1;
      }
    }

    /** A room has been entered: back to the corner, and everything is drawn. */
    method EnterRoom()
      requires display.Valid() && display.FenceIntact() && Roomy(scene)
      modifies this`mapX, this`mapY, display`img3_off, display`img3, display`show_x, display`show_y, display.build
      ensures Ready() && Drawn() && Looking() == old(Looking()).(x := 0, y := 0)
    {
      mapX, mapY := 0, 0;
      display.SetViewWindow(mapX, mapY);
      RedrawRoom();
    }

    /** Shows the window: the new frame is the simple rendering. */
    method Show() returns (frame: Frame)
      requires Ready() && Drawn()
      modifies display`target_img, display.video
      ensures Ready() && Drawn() && FrameShows(frame, Looking())
      ensures frame.page == PAGE - old(display.target_img) == display.target_img
    {
      display.ShowScreen();
      frame := Frame(display.video[..], display.target_img);
      ShownFrame(frame);
    }

    lemma ShownFrame(frame: Frame)
      requires Ready() && Drawn() && frame == Frame(display.video[..], display.target_img)
      requires forall sx, sy :: 0 <= sx < WIDTH && 0 <= sy < SHOWN_ROWS ==>
                 display.Shown(sx, sy) == display.Cell(mapX + sx, mapY + sy)
      ensures FrameShows(frame, Looking())
    {
      forall sx, sy | 0 <= sx < WIDTH && 0 <= sy < SHOWN_ROWS
        ensures FrameAt(frame, sx, sy) == Pixel(scene, mapX + sx, mapY + sy)
      {
        assert FrameAt(frame, sx, sy) == display.Shown(sx, sy);
        assert Right(mapX + sx, mapY + sy);
      }
    }

    /** The view to be shown next is v: either it is drawn already, or a room has been entered and is yet to be. */
    ghost predicate Ahead(entered: bool, v: View)
      reads this, display, display.build
    {
      && display.Valid() && display.FenceIntact() && Inside(v)
      && if entered then Looking().(x := 0, y := 0) == v else Looking() == v && Ready() && Drawn()
    }

    /** One command of the event loop; entering a room is carried out at the top of the next turn. */
    method Handle(e: Event, ghost v: View) returns (entered: bool)
      requires Ahead(false, v) && Allowed(v, e)
      modifies this, display`img3_off, display`img3, display`show_x, display`show_y, display.build
      ensures Ahead(entered, Step(v, e)) && entered == e.Enter?
    {
      StepInside(v, e);
      entered := false;
      match e {
        case Up => MovePhotoDown();
        case Right => MovePhotoLeft();
        case Down => MovePhotoUp();
        case Left => MovePhotoRight();
        case Enter(room) =>
          scene := room;
          entered := true;
        case Redraw(changed, xs, ys) =>
          scene, xSpeed, ySpeed := changed, xs, ys;
          RedrawRoom();
        case Speeds(xs, ys) => xSpeed, ySpeed := xs, ys;
        case Nothing =>
      }
    }

    /** The drawing half of a turn of the loop. */
    method Turn(entered: bool, ghost v: View) returns (frame: Frame)
      requires Ahead(entered, v)
      modifies this`mapX, this`mapY, display, display.build, display.video
      ensures Ahead(false, v) && FrameShows(frame, v)
      ensures frame.page == PAGE - old(display.target_img) == display.target_img
    {
      if entered {
        EnterRoom();
      }
      frame := Show();
    }

    /** One turn: show the frame of v, then handle the command. */
    method Cycle(entered: bool, e: Event, ghost v: View) returns (frame: Frame, enters: bool)
      requires Ahead(entered, v) && Allowed(v, e)
      modifies this, display, display.build, display.video
      ensures Ahead(enters, Step(v, e)) && FrameShows(frame, v)
      ensures frame.page == PAGE - old(display.target_img) == display.target_img
    {
      frame := Turn(entered, v);
      enters := Handle(e, v);
    }

    /** The event loop over any allowed events: frame k is the simple rendering of the view after k events. */
    method Loop(es: seq<Event>) returns (frames: seq<Frame>)
      requires Ahead(true, Looking()) && AllAllowed(Looking(), es)
      modifies this, display, display.build, display.video
      ensures |frames| == |es| + 1 && display.FenceIntact() && Framed(frames, old(Looking()), es)
      ensures forall k :: 0 <= k < |es| ==> frames[k].page != frames[k + 1].page
    {
      ghost var first := Looking();
      frames := [];
      var entered := true;
      var i := 0;
      while i < |es|
        invariant 0 <= i <= |es| && |frames| == i
        invariant Ahead(entered, Run(first, es[..i])) && Framed(frames, first, es)
        invariant forall k :: 0 <= k < i - 1 ==> frames[k].page != frames[k + 1].page
        invariant i > 0 ==> frames[i - 1].page == display.target_img
      {
        RunStep(first, es, i);
        var frame, enters := Cycle(entered, es[i], Run(first, es[..i]));
        AddFrame(frames, frame, first, es);
        frames := frames + [frame];
        entered := enters;
        i := i + 1;
      }
      var frame := Turn(entered, Run(first, es[..i]));
      AddFrame(frames, frame, first, es);
      frames := frames + [frame];
    }
  }

  /** Frame k shows the view after k events. */
  ghost predicate Framed(frames: seq<Frame>, first: View, es: seq<Event>) {
    |frames| <= |es| + 1 && forall k :: 0 <= k < |frames| ==> FrameShows(frames[k], Run(first, es[..k]))
  }

  lemma AddFrame(frames: seq<Frame>, frame: Frame, first: View, es: seq<Event>)
    requires Framed(frames, first, es) && |frames| <= |es| && FrameShows(frame, Run(first, es[..|frames|]))
    ensures Framed(frames + [frame], first, es)
  {
  }

  // ------------------------------------------------------------ what the player sees of a pan

  /** A step of the picture on the screen. */
  datatype Offset = Offset(dx: int, dy: int)

  predicate OnScreen(sx: int, sy: int) { 0 <= sx < WIDTH && 0 <= sy < SHOWN_ROWS }

  /** What frame f shows is shown by frame g displaced by the shift, as far as it is still on the screen. */
  ghost predicate Displaced(f: Frame, g: Frame, m: Offset) {
    && |f.memory| == |g.memory| == 4 * VIDEO_PLANE && f.page in {0, PAGE} && g.page in {0, PAGE}
    && forall sx, sy :: OnScreen(sx, sy) && OnScreen(sx + m.dx, sy + m.dy) ==> FrameAt(g, sx + m.dx, sy + m.dy) == FrameAt(f, sx, sy)
  }

  /** The view at the edge of the photo to which a key leads. */
  predicate AtEdge(v: View, e: Event) {
    match e
    case Up => v.y == 0
    case Right => v.x + WIDTH == v.scene.photo.width
    case Down => v.y + HEIGHT == v.scene.photo.height
    case Left => v.x == 0
    case _ => false
  }

  /** The photo moves against the key: down for up, left for right, up for down, right for left. */
  function Against(e: Event, d: int): Offset {
    match e
    case Up => Offset(0, d)
    case Right => Offset(-d, 0)
    case Down => Offset(0, -d)
    case Left => Offset(d, 0)
    case _ => Offset(0, 0)
  }

  /** Two frames of the same scene differ by how the view has moved. */
  lemma ViewsDisplace(v: View, u: View, f: Frame, g: Frame)
    requires FrameShows(f, v) && FrameShows(g, u) && u.scene == v.scene
    ensures Displaced(f, g, Offset(v.x - u.x, v.y - u.y))
  {
    var m := Offset(v.x - u.x, v.y - u.y);
    forall sx, sy | OnScreen(sx, sy) && OnScreen(sx + m.dx, sy + m.dy)
      ensures FrameAt(g, sx + m.dx, sy + m.dy) == FrameAt(f, sx, sy)
    {
      var tx, ty := sx + m.dx, sy + m.dy;
      assert FrameAt(g, tx, ty) == Pixel(u.scene, u.x + tx, u.y + ty);
      assert u.x + tx == v.x + sx && u.y + ty == v.y + sy;
    }
  }

  /** A pan displaces the picture by exactly the speed, or by less just to the photo's edge, and changes nothing else. */
  lemma PanShifts(v: View, e: Event, f: Frame, g: Frame) returns (d: nat)
    requires FrameShows(f, v) && FrameShows(g, Step(v, e)) && (e.Up? || e.Right? || e.Down? || e.Left?)
    ensures Displaced(f, g, Against(e, d))
    ensures var speed := if e.Up? || e.Down? then v.ySpeed else v.xSpeed;
            d <= speed && (d < speed ==> AtEdge(Step(v, e), e))
    ensures var u := Step(v, e); u.scene == v.scene && u.xSpeed == v.xSpeed && u.ySpeed == v.ySpeed
  {
    var u := Step(v, e);
    d := if e.Up? then v.y - u.y else if e.Right? then u.x - v.x else if e.Down? then u.y - v.y else v.x - u.x;
    ViewsDisplace(v, u, f, g);
  }

  /** A room entered is shown from its corner, a changed one from where the view was; without a command the picture stays. */
  lemma OtherwiseShows(v: View, e: Event, f: Frame, g: Frame, sx: int, sy: int)
    requires FrameShows(f, v) && FrameShows(g, Step(v, e)) && OnScreen(sx, sy)
    ensures e.Enter? ==> FrameAt(g, sx, sy) == Pixel(e.room, sx, sy)
    ensures e.Redraw? ==> ValidScene(e.changed) && FrameAt(g, sx, sy) == Pixel(e.changed, v.x + sx, v.y + sy)
    ensures e.Speeds? || e.Nothing? ==> FrameAt(g, sx, sy) == FrameAt(f, sx, sy)
  {
    var u := Step(v, e);
    assert FrameAt(g, sx, sy) == Pixel(u.scene, u.x + sx, u.y + sy);
  }

  /** In every run of the event loop, each pan displaces the frame before it so. */
  lemma RunPans(frames: seq<Frame>, first: View, es: seq<Event>, k: nat) returns (d: nat)
    requires Framed(frames, first, es) && k + 1 < |frames| && (es[k].Up? || es[k].Right? || es[k].Down? || es[k].Left?)
    ensures Displaced(frames[k], frames[k + 1], Against(es[k], d))
    ensures var v := Run(first, es[..k]); var speed := if es[k].Up? || es[k].Down? then v.ySpeed else v.xSpeed;
            d <= speed && (d < speed ==> AtEdge(Run(first, es[..k + 1]), es[k]))
  {
    RunStep(first, es, k);
    assert FrameShows(frames[k], Run(first, es[..k])) && FrameShows(frames[k + 1], Run(first, es[..k + 1]));
    d := PanShifts(Run(first, es[..k]), es[k], frames[k], frames[k + 1]);
  }
}

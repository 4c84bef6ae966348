/** World and screen together: every frame of a game is the rendering of the room that the rules give. */
module GameLoop {
  import opened BuildMap
  import opened Photo
  import opened Adventure
  import opened WorldMap
  import opened WorldGame
  import opened WorldProofs
  import opened WorldPlaces
  import opened WorldHeap
  import WorldCrafts
  import WorldLaws

  const MOTION_SPEED := 2

  // ------------------------------------------------------------ what the player should see

  /** The photo of each room in each of its views, and the image of each object. */
  datatype Assets = Assets(photo: (int, int) -> Picture, image: int -> Picture)

  ghost predicate Good(a: Assets) {
    && (forall r, v :: WellSized(a.photo(r, v)) && a.photo(r, v).width >= WIDTH && a.photo(r, v).height >= HEIGHT)
    && (forall o :: WellSized(a.image(o)))
  }

  /** Which of its photos a room shows. */
  function ViewNumber(r: int, carView: int, circleView: int): int {
    if r == R_CAR_SITE then carView else if r == R_CIRCLE_N then circleView else 0
  }

  function Coordinate(cs: seq<int>, o: int): int { if 0 <= o < |cs| then cs[o] else 0 }

  function Sprites(a: Assets, l: seq<int>, xs: seq<int>, ys: seq<int>): seq<Sprite> {
    seq(|l|, i requires 0 <= i < |l| => Sprite(Coordinate(xs, l[i]), Coordinate(ys, l[i]), a.image(l[i])))
  }

  /** Room r with the objects of list l. */
  function RoomScene(a: Assets, r: int, carView: int, circleView: int, l: seq<int>, xs: seq<int>, ys: seq<int>): Scene {
    Scene(a.photo(r, ViewNumber(r, carView, circleView)), Sprites(a, l, xs, ys))
  }

  /** The world, and where each object is drawn. */
  datatype Stage = Stage(world: World, xs: seq<int>, ys: seq<int>)

  function SceneOf(a: Assets, g: Stage): Scene {
    var r := g.world.s.where;
    RoomScene(a, r, g.world.s.carView, g.world.s.circleView, if 0 <= r < |g.world.lists| then g.world.lists[r] else [], g.xs, g.ys)
  }

  lemma SceneIsRoomy(a: Assets, g: Stage)
    requires Good(a)
    ensures Roomy(SceneOf(a, g))
  {
  }

  // ------------------------------------------------------------ inputs and what they do

  datatype Key = KeyUp | KeyRight | KeyDown | KeyLeft | NoKey

  datatype Input = Pan(key: Key) | Act(turn: Turn)

  function EventOf(k: Key): Event {
    match k
    case KeyUp => Event.Up
    case KeyRight => Event.Right
    case KeyDown => Event.Down
    case KeyLeft => Event.Left
    case NoKey => Event.Nothing
  }

  /** Board and jetpack speed the player up when got, and no longer when dropped. */
  function Speed(c: Command, carried: bool, speed: nat): nat {
    if c.CmdDrop? && !carried then MOTION_SPEED
    else if c.CmdGet? && carried then 3 * MOTION_SPEED
    else speed
  }

  /** A moment of a game: the stage, and the view of it on the screen. */
  datatype Moment = Moment(stage: Stage, view: View)

  /** The view after a command: the new scene, from the corner if the room was entered. */
  function Viewed(v: View, scene: Scene, c: Command, s: Status, changed: bool): View {
    View(scene, if changed then 0 else v.x, if changed then 0 else v.y,
         Speed(c, Carried(s, O_BOARD), v.xSpeed), Speed(c, Carried(s, O_JETPACK), v.ySpeed))
  }

  /** What a turn does to a world. */
  type Rules = (World, Turn) -> Outcome

  /** Marks the turns a proof looks up in the rules. */
  predicate Ask(w: World, turn: Turn) { true }

  ghost predicate Lawful(rules: Rules) {
    forall w: World, turn: Turn {:trigger Ask(w, turn)} | Structure(w) && Present(w.s) ::
      rules(w, turn) == Perform(w, turn.command, turn.coin)
  }

  /** A command puts at most one object somewhere, at its due place, and leaves all others at theirs. */
  ghost predicate Rearranged(g: Stage, h: Stage, at: Place) { Arranged(g.world, g.xs, g.ys, h.world, h.xs, h.ys, at) }

  /** Where the contents lists are the same, so are the places. */
  lemma QuietKeepsPlaces(g: Stage, h: Stage, at: Place)
    requires Rearranged(g, h, at) && Structure(g.world) && Structure(h.world) && h.world.lists == g.world.lists
    ensures h.xs == g.xs && h.ys == g.ys
  {
    forall p | IsObject(p)
      ensures h.xs[p] == g.xs[p] && h.ys[p] == g.ys[p]
    {
      var r := h.world.s.loc[p];
      if r != NONE {
        assert ListOk(h.world.lists[r], h.world.s.loc, r) && ListOk(g.world.lists[r], g.world.s.loc, r);
        assert p in g.world.lists[r];
      }
      assert !Arrives(g.world.s.loc, h.world.s.loc, p);
    }
  }

  /** How a moment follows another by an input. */
  ghost predicate Follows(rules: Rules, a: Assets, m: Moment, i: Input, n: Moment) {
    match i
    case Pan(key) => n.stage == m.stage && n.view == Step(m.view, EventOf(key))
    case Act(turn) =>
      && m.stage.world.s.where != NONE
      && var r := rules(m.stage.world, turn);
         && n.stage.world == r.world && Rearranged(m.stage, n.stage, turn.at)
         && n.view == Viewed(m.view, SceneOf(a, n.stage), turn.command, r.world.s, r.action == ChangeRoom)
  }

  ghost predicate Linked(rules: Rules, a: Assets, ms: seq<Moment>, inputs: seq<Input>) {
    0 < |ms| <= |inputs| + 1 && forall k :: 0 <= k < |ms| - 1 ==> Follows(rules, a, ms[k], inputs[k], ms[k + 1])
  }

  /** The commands among the inputs. */
  function TurnsOf(inputs: seq<Input>): seq<Turn> {
    if inputs == [] then []
    else TurnsOf(inputs[..|inputs| - 1]) + match inputs[|inputs| - 1] case Pan(_) => [] case Act(turn) => [turn]
  }

  /** In linked moments the world is the one the game's commands give, and it is sound. */
  lemma {:induction false} WorldsArePlayed(rules: Rules, a: Assets, ms: seq<Moment>, inputs: seq<Input>, k: nat)
    requires Lawful(rules) && Linked(rules, a, ms, inputs) && k < |ms|
    requires Structure(ms[0].stage.world) && Logic(ms[0].stage.world.s)
    ensures ms[k].stage.world == Play(ms[0].stage.world, TurnsOf(inputs[..k]))
    ensures Structure(ms[k].stage.world) && Logic(ms[k].stage.world.s)
  {
    if k > 0 {
      WorldsArePlayed(rules, a, ms, inputs, k - 1);
      assert Follows(rules, a, ms[k - 1], inputs[k - 1], ms[k - 1 + 1]);
      assert inputs[..k][..k - 1] == inputs[..k - 1] && inputs[..k][k - 1] == inputs[k - 1];
      match inputs[k - 1] {
        case Pan(_) => assert TurnsOf(inputs[..k]) == TurnsOf(inputs[..k - 1]);
        case Act(turn) =>
          assert Ask(ms[k - 1].stage.world, turn);
          PlayAppend(ms[0].stage.world, TurnsOf(inputs[..k - 1]), [turn]);
          PlayOne(ms[k - 1].stage.world, turn);
      }
      PlayKeeps(ms[0].stage.world, TurnsOf(inputs[..k]));
    }
  }

  // ------------------------------------------------------------ the backpack over a whole game

  /** No more objects than the grid has places. */
  predicate Fits(g: Stage) { |g.world.lists| == N_ROOMS && |g.world.lists[R_INVENTORY]| <= SLOTS }

  ghost predicate Neat(g: Stage) { Tidy(g.world, g.xs, g.ys) }

  /** While never more than twelve objects were carried, they sit on the grid, each on a place of its own. */
  lemma {:induction false} BackpackStaysNeat(rules: Rules, a: Assets, ms: seq<Moment>, inputs: seq<Input>, k: nat)
    requires Lawful(rules) && Linked(rules, a, ms, inputs) && k < |ms|
    requires Structure(ms[0].stage.world) && Logic(ms[0].stage.world.s) && Neat(ms[0].stage)
    requires forall j :: 0 <= j <= k ==> Fits(ms[j].stage)
    ensures Neat(ms[k].stage)
  {
    if k > 0 {
      BackpackStaysNeat(rules, a, ms, inputs, k - 1);
      WorldsArePlayed(rules, a, ms, inputs, k);
      var m, n := ms[k - 1].stage, ms[k].stage;
      assert Follows(rules, a, ms[k - 1], inputs[k - 1], ms[k - 1 + 1]) && Fits(n);
      match inputs[k - 1] {
        case Pan(_) =>
        case Act(turn) => TidyKept(m.world, m.xs, m.ys, n.world, n.xs, n.ys, turn.at);
      }
    }
  }

  /** Nothing is carried at the start. */
  lemma StartsOnFoot(g: Stage)
    requires g.world == Start()
    ensures forall o :: IsObject(o) ==> !Carried(g.world.s, o)
  {
    forall o | IsObject(o)
      ensures !Carried(g.world.s, o)
    {
      BuiltAt(N_OBJECTS, o);
      NowhereInside(o);
    }
  }

  lemma StartsNeat(g: Stage)
    requires g.world == Start() && |g.xs| == |g.ys| == N_OBJECTS
    ensures Neat(g)
  {
    StartsOnFoot(g);
    StartOk();
  }

  lemma NowhereInside(o: int)
    ensures StartRoom(o) != R_INVENTORY
  {
  }

  // ------------------------------------------------------------ what a frame of a game shows

  /** Object o lies in the room shown, and its picture has a colour of its own at (px, py). */
  predicate Hits(a: Assets, g: Stage, o: int, px: int, py: int)
    requires WellSized(a.image(o))
  {
    && 0 <= o < |g.world.s.loc| && |g.world.s.loc| == |g.xs| == |g.ys| && g.world.s.loc[o] == g.world.s.where
    && 0 <= px - g.xs[o] < a.image(o).width && 0 <= py - g.ys[o] < a.image(o).height
    && Sample(a.image(o), px - g.xs[o], py - g.ys[o]) != TRANSPARENT
  }

  /** The photo behind the objects: the car with its hood open from its opening to its repair, the bridge by chance. */
  function PhotoBehind(a: Assets, s: Status): Picture {
    a.photo(s.where, if s.where == R_CAR_SITE then (if s.open && !s.fixed then 1 else 0) else if s.where == R_CIRCLE_N then s.circleView else 0)
  }

  lemma PhotoIs(a: Assets, g: Stage)
    requires Logic(g.world.s)
    ensures SceneOf(a, g).photo == PhotoBehind(a, g.world.s)
  {
  }

  lemma SpriteHits(a: Assets, g: Stage, i: nat, px: int, py: int)
    requires Good(a) && Structure(g.world) && IsRoom(g.world.s.where) && |g.xs| == |g.ys| == N_OBJECTS
    requires i < |g.world.lists[g.world.s.where]|
    ensures var o, objects := g.world.lists[g.world.s.where][i], SceneOf(a, g).objects;
            && IsObject(o) && |objects| == |g.world.lists[g.world.s.where]| && objects[i] == Sprite(g.xs[o], g.ys[o], a.image(o))
            && (Covers(objects[i], px, py) <==> Hits(a, g, o, px, py))
  {
    var l := g.world.lists[g.world.s.where];
    assert ListOk(l, g.world.s.loc, g.world.s.where) && l[i] in l;
  }

  /** The object shown at a point is the one that has been longest in the room. */
  lemma SeenObject(a: Assets, g: Stage, i: nat, px: int, py: int)
    requires Good(a) && Structure(g.world) && IsRoom(g.world.s.where) && |g.xs| == |g.ys| == N_OBJECTS
    requires var l := g.world.lists[g.world.s.where];
             i < |l| && Hits(a, g, l[i], px, py) && forall j :: i < j < |l| ==> !Hits(a, g, l[j], px, py)
    ensures var o := g.world.lists[g.world.s.where][i];
            Roomy(SceneOf(a, g)) && Pixel(SceneOf(a, g), px, py) == Sample(a.image(o), px - g.xs[o], py - g.ys[o])
  {
    SceneIsRoomy(a, g);
    var scene := SceneOf(a, g);
    SpriteHits(a, g, i, px, py);
    forall j | i < j < |scene.objects|
      ensures !Covers(scene.objects[j], px, py)
    {
      SpriteHits(a, g, j, px, py);
    }
    TopmostWins(scene.objects, Background(scene.photo, px, py), px, py);
  }

  /** Where no object is, the photo shows. */
  lemma SeenPhoto(a: Assets, g: Stage, px: int, py: int)
    requires Good(a) && Structure(g.world) && Logic(g.world.s) && g.world.s.where != NONE && |g.xs| == |g.ys| == N_OBJECTS
    requires forall o :: IsObject(o) ==> !Hits(a, g, o, px, py)
    ensures Roomy(SceneOf(a, g)) && Pixel(SceneOf(a, g), px, py) == Background(PhotoBehind(a, g.world.s), px, py)
  {
    SceneIsRoomy(a, g);
    var scene := SceneOf(a, g);
    PhotoIs(a, g);
    forall j | 0 <= j < |scene.objects|
      ensures !Covers(scene.objects[j], px, py)
    {
      SpriteHits(a, g, j, px, py);
    }
    TopmostWins(scene.objects, Background(scene.photo, px, py), px, py);
  }

  // ------------------------------------------------------------ speeds over a whole game

  /** Two pixels a step on foot, six with the board sideways and with the jetpack up and down. */
  predicate RightSpeeds(m: Moment) {
    && m.view.xSpeed == (if Carried(m.stage.world.s, O_BOARD) then 6 else 2)
    && m.view.ySpeed == (if Carried(m.stage.world.s, O_JETPACK) then 6 else 2)
  }

  lemma NotCrafted(k: WorldCrafts.Craft, o: int)
    requires o == O_BOARD || o == O_JETPACK
    ensures o !in WorldCrafts.RecipeOf(k).used && WorldCrafts.RecipeOf(k).product != o
  {
  }

  /** Board and jetpack come into the backpack by getting and leave it by dropping only. */
  lemma VehicleKept(w: World, v: World, c: Command, o: int)
    requires WorldLaws.Explained(w, v, c) && Present(w.s) && (o == O_BOARD || o == O_JETPACK)
    ensures Carried(v.s, o) && !Carried(w.s, o) ==> c.CmdGet?
    ensures Carried(w.s, o) && !Carried(v.s, o) ==> c.CmdDrop?
  {
    assert WorldLaws.Fate(w, v.s, c, o);
    forall k: WorldCrafts.Craft
      ensures WorldCrafts.PlaceAfter(w.s, k, o) == w.s.loc[o]
    {
      NotCrafted(k, o);
    }
  }

  /** At every moment of a game the player pans as fast as what is carried allows. */
  lemma {:induction false} SpeedsStayRight(rules: Rules, a: Assets, ms: seq<Moment>, inputs: seq<Input>, k: nat)
    requires Lawful(rules) && Linked(rules, a, ms, inputs) && k < |ms|
    requires Structure(ms[0].stage.world) && Logic(ms[0].stage.world.s) && RightSpeeds(ms[0])
    ensures RightSpeeds(ms[k])
  {
    if k > 0 {
      SpeedsStayRight(rules, a, ms, inputs, k - 1);
      WorldsArePlayed(rules, a, ms, inputs, k - 1);
      assert Follows(rules, a, ms[k - 1], inputs[k - 1], ms[k - 1 + 1]);
      SpeedsFollow(rules, a, ms[k - 1], inputs[k - 1], ms[k]);
    }
  }

  lemma SpeedsFollow(rules: Rules, a: Assets, m: Moment, i: Input, n: Moment)
    requires Lawful(rules) && Structure(m.stage.world) && Logic(m.stage.world.s) && RightSpeeds(m) && Follows(rules, a, m, i, n)
    ensures RightSpeeds(n)
  {
    match i {
      case Pan(_) =>
      case Act(turn) =>
        assert Ask(m.stage.world, turn);
        SpeedsAfter(m, n, turn);
    }
  }

  lemma SpeedsAfter(m: Moment, n: Moment, turn: Turn)
    requires Structure(m.stage.world) && Present(m.stage.world.s) && RightSpeeds(m)
    requires n.stage.world == Perform(m.stage.world, turn.command, turn.coin).world
    requires n.view.xSpeed == Speed(turn.command, Carried(n.stage.world.s, O_BOARD), m.view.xSpeed)
    requires n.view.ySpeed == Speed(turn.command, Carried(n.stage.world.s, O_JETPACK), m.view.ySpeed)
    ensures RightSpeeds(n)
  {
    WorldLaws.EveryChangeExplained(m.stage.world, turn.command, turn.coin);
    VehicleKept(m.stage.world, n.stage.world, turn.command, O_BOARD);
    VehicleKept(m.stage.world, n.stage.world, turn.command, O_JETPACK);
  }

  /** Where a key moves the photo. */
  function PhotoMoves(key: Key, d: int): Offset {
    match key
    case KeyUp => Offset(0, d)
    case KeyDown => Offset(0, -d)
    case KeyLeft => Offset(d, 0)
    case KeyRight => Offset(-d, 0)
    case NoKey => Offset(0, 0)
  }

  /** In a game each pan moves the picture on by two pixels, by six with the vehicle for that direction, or just to the edge. */
  lemma GamePans(rules: Rules, a: Assets, frames: seq<Frame>, ms: seq<Moment>, inputs: seq<Input>, k: nat) returns (d: nat)
    requires Lawful(rules) && Linked(rules, a, ms, inputs) && Shown(a, frames, ms) && k + 1 < |frames|
    requires Structure(ms[0].stage.world) && Logic(ms[0].stage.world.s) && RightSpeeds(ms[0])
    requires inputs[k].Pan? && inputs[k].key != NoKey
    ensures Displaced(frames[k], frames[k + 1], PhotoMoves(inputs[k].key, d))
    ensures var key, s := inputs[k].key, ms[k].stage.world.s;
            var speed := if Carried(s, if key == KeyUp || key == KeyDown then O_JETPACK else O_BOARD) then 6 else 2;
            d <= speed && (d < speed ==> AtEdge(ms[k + 1].view, EventOf(key)))
  {
    SpeedsStayRight(rules, a, ms, inputs, k);
    assert Follows(rules, a, ms[k], inputs[k], ms[k + 1]);
    assert FrameShows(frames[k], ms[k].view) && FrameShows(frames[k + 1], ms[k + 1].view);
    d := PanShifts(ms[k].view, EventOf(inputs[k].key), frames[k], frames[k + 1]);
  }

  // ------------------------------------------------------------ what the screen is told

  /** The event the game loop makes of a command's result. */
  function EventFor(action: Action, scene: Scene, xs: nat, ys: nat): Event {
    match action
    case ChangeRoom => Enter(scene)
    case RedrawRoom => Redraw(scene, xs, ys)
    case _ => Speeds(xs, ys)
  }

  lemma WalkRedraws(w: World, c: Command, coin: bool)
    requires Structure(w) && Present(w.s) && Walks(c)
    ensures Perform(w, c, coin).action != RedrawRoom
  {
  }

  lemma HandleStays(w: World, c: Command, coin: bool)
    requires Structure(w) && Present(w.s) && Handles(c)
    ensures var r := Perform(w, c, coin);
            r.action != ChangeRoom && SamePhoto(w.s, r.world.s)
  {
    match c {
      case CmdBuy(arg) => assert Buy(w, arg).action != ChangeRoom && SamePhoto(w.s, Buy(w, arg).world.s);
      case CmdDrink(arg) => assert Drink(w, arg).action != ChangeRoom && SamePhoto(w.s, Drink(w, arg).world.s);
      case CmdDrop(arg) =>
        FoundExists(w, R_INVENTORY, arg);
        DropStays(w, arg);
      case CmdGet(arg) =>
        FoundExists(w, Standing(w.s), arg);
        GetStays(w, arg);
      case CmdWear(arg) => assert Wear(w, arg).action != ChangeRoom && SamePhoto(w.s, Wear(w, arg).world.s);
    }
  }

  lemma DropStays(w: World, arg: string)
    requires Sized(w) && IsRoom(Standing(w.s))
    requires FindIn(w.lists[R_INVENTORY], arg) != NONE ==> IsObject(FindIn(w.lists[R_INVENTORY], arg))
    ensures Drop(w, arg).action != ChangeRoom && SamePhoto(w.s, Drop(w, arg).world.s)
  {
  }

  lemma GetStays(w: World, arg: string)
    requires Sized(w) && IsRoom(Standing(w.s))
    requires FindIn(w.lists[Standing(w.s)], arg) != NONE ==> IsObject(FindIn(w.lists[Standing(w.s)], arg))
    ensures Get(w, arg).action != ChangeRoom && SamePhoto(w.s, Get(w, arg).world.s)
  {
  }

  lemma WorkStays(w: World, c: Command, coin: bool)
    requires Structure(w) && Present(w.s) && !Walks(c) && !Handles(c)
    ensures Perform(w, c, coin).action != ChangeRoom ==> SamePhoto(w.s, Perform(w, c, coin).world.s)
  {
  }

  /** The player is in the same room and it shows the same photo. */
  predicate SamePhoto(s: Status, u: Status) { u.where == s.where && u.carView == s.carView && u.circleView == s.circleView }

  /** A command after which the room is only redrawn has not changed the room or its photo; getting and dropping enters no room. */
  lemma RedrawStays(w: World, c: Command, coin: bool)
    requires Structure(w) && Present(w.s)
    ensures Perform(w, c, coin).action == RedrawRoom ==> SamePhoto(w.s, Perform(w, c, coin).world.s)
    ensures Perform(w, c, coin).action == ChangeRoom ==> !c.CmdGet? && !c.CmdDrop?
  {
    if Walks(c) {
      WalkRedraws(w, c, coin);
    } else if Handles(c) {
      HandleStays(w, c, coin);
    } else {
      WorkStays(w, c, coin);
    }
  }

  lemma SightSame(a: Assets, g: Stage, h: Stage)
    requires SameSight(g.world, h.world) && h.xs == g.xs && h.ys == g.ys
    ensures SceneOf(a, h) == SceneOf(a, g)
  {
  }

  /** A redrawn scene has the photo of the one before, so the window stays inside it. */
  lemma RedrawInside(a: Assets, v: View, g: Stage, h: Stage)
    requires Good(a) && Inside(v) && v.scene == SceneOf(a, g) && SamePhoto(g.world.s, h.world.s)
    ensures Inside(v.(scene := SceneOf(a, h)))
  {
    SceneIsRoomy(a, h);
  }

  /** The event made of a command is one the screen accepts, and takes the view to that of the new stage. */
  lemma EventFits(a: Assets, m: Moment, turn: Turn, action: Action, after: Stage, xs: nat, ys: nat)
    requires Good(a) && Inside(m.view) && m.view.scene == SceneOf(a, m.stage)
    requires Structure(m.stage.world) && Present(m.stage.world.s)
    requires Perform(m.stage.world, turn.command, turn.coin) == Outcome(after.world, action)
    requires Rearranged(m.stage, after, turn.at)
    requires xs == Speed(turn.command, Carried(after.world.s, O_BOARD), m.view.xSpeed)
    requires ys == Speed(turn.command, Carried(after.world.s, O_JETPACK), m.view.ySpeed)
    ensures var e := EventFor(action, SceneOf(a, after), xs, ys);
            && Allowed(m.view, e)
            && Step(m.view, e) == Viewed(m.view, SceneOf(a, after), turn.command, after.world.s, action == ChangeRoom)
  {
    RedrawStays(m.stage.world, turn.command, turn.coin);
    QuietChangesNothing(m.stage.world, turn.command, turn.coin);
    SceneIsRoomy(a, after);
    match action {
      case ChangeRoom =>
      case RedrawRoom => RedrawInside(a, m.view, m.stage, after);
      case _ =>
        StructureKept(m.stage.world, turn.command, turn.coin);
        QuietKeepsPlaces(m.stage, after, turn.at);
        SightSame(a, m.stage, after);
    }
  }

  /** The event of a command, with the speeds it leaves. */
  function CommandEvent(a: Assets, v: View, c: Command, action: Action, after: Stage): Event {
    EventFor(action, SceneOf(a, after), Speed(c, Carried(after.world.s, O_BOARD), v.xSpeed),
             Speed(c, Carried(after.world.s, O_JETPACK), v.ySpeed))
  }

  /** The moment after a command. */
  lemma Reacts(rules: Rules, a: Assets, m: Moment, turn: Turn, action: Action, after: Stage) returns (n: Moment, due: Event)
    requires Lawful(rules) && Good(a) && Inside(m.view) && m.view.scene == SceneOf(a, m.stage)
    requires Structure(m.stage.world) && Logic(m.stage.world.s) && m.stage.world.s.where != NONE
    requires rules(m.stage.world, turn) == Outcome(after.world, action) && Rearranged(m.stage, after, turn.at)
    ensures n.stage == after && n.view.scene == SceneOf(a, after) && Follows(rules, a, m, Act(turn), n)
    ensures due == CommandEvent(a, m.view, turn.command, action, after) && Allowed(m.view, due) && n.view == Step(m.view, due)
  {
    assert Ask(m.stage.world, turn);
    EventFits(a, m, turn, action, after, Speed(turn.command, Carried(after.world.s, O_BOARD), m.view.xSpeed),
              Speed(turn.command, Carried(after.world.s, O_JETPACK), m.view.ySpeed));
    due := CommandEvent(a, m.view, turn.command, action, after);
    n := Moment(after, Viewed(m.view, SceneOf(a, after), turn.command, after.world.s, action == ChangeRoom));
  }

  // ------------------------------------------------------------ the program

  /** The linked lists and the coordinates hold the stage. */
  ghost predicate Holds(h: Heap, g: Stage)
    reads h, h.next, h.loc, h.contents, h.x, h.y
  {
    h.Valid() && h.Abstract() == g.world && h.x[..] == g.xs && h.y[..] == g.ys && Logic(g.world.s)
  }

  predicate ApartFrom(h: Heap, b: array<int>) { h.next != b && h.loc != b && h.contents != b && h.x != b && h.y != b }

  /** World and screen share no memory. */
  predicate Apart(h: Heap, d: Game) {
    ApartFrom(h, d.display.build) && ApartFrom(h, d.display.video)
  }

  /** The scene of the room the player is in. */
  method Look(h: Heap, a: Assets, ghost g: Stage) returns (scene: Scene)
    requires Holds(h, g) && h.where != NONE
    ensures scene == SceneOf(a, g) && Holds(h, g)
  {
    var l := h.ContentsOf(h.where);
    scene := RoomScene(a, h.where, h.carView, h.circleView, l, h.x[..], h.y[..]);
  }

  /** The world obeys a command. */
  method Obey(h: Heap, turn: Turn, ghost rules: Rules, ghost g: Stage) returns (action: Action, ghost after: Stage)
    requires Lawful(rules) && Holds(h, g) && g.world.s.where != NONE
    modifies h, h.next, h.contents, h.loc, h.x, h.y
    ensures Holds(h, after) && rules(g.world, turn) == Outcome(after.world, action) && Rearranged(g, after, turn.at)
  {
    assert Ask(g.world, turn);
    LogicKept(g.world, turn.command, turn.coin);
    ghost var put: int;
    action, put := h.Dispatch(turn.command, turn.coin, turn.at.x, turn.at.y);
    after := Stage(h.Abstract(), h.x[..], h.y[..]);
    TurnedArranged(g.world, g.xs, g.ys, after.world, after.xs, after.ys, put, turn.at, action);
  }

  /** World and screen are at moment m, whose room has just been entered or is already drawn. */
  ghost predicate At(h: Heap, d: Game, a: Assets, entered: bool, m: Moment)
    reads h, h.next, h.loc, h.contents, h.x, h.y, d, d.display, d.display.build
  {
    Apart(h, d) && Holds(h, m.stage) && m.stage.world.s.where != NONE && m.view.scene == SceneOf(a, m.stage) && d.Ahead(entered, m.view)
  }

  /** Obeying does not touch the screen. */
  method ObeyBehind(h: Heap, d: Game, turn: Turn, ghost rules: Rules, ghost g: Stage, ghost v: View)
      returns (action: Action, ghost after: Stage)
    requires Lawful(rules) && Apart(h, d) && Holds(h, g) && g.world.s.where != NONE && d.Ahead(false, v)
    modifies h, h.next, h.contents, h.loc, h.x, h.y
    ensures Holds(h, after) && d.Ahead(false, v)
    ensures rules(g.world, turn) == Outcome(after.world, action) && Rearranged(g, after, turn.at)
  {
    action, after := Obey(h, turn, rules, g);
  }

  /** Drawing does not touch the world. */
  method Draw(h: Heap, d: Game, e: Event, ghost g: Stage, ghost v: View, ghost u: View) returns (entered: bool)
    requires Apart(h, d) && Holds(h, g) && d.Ahead(false, v) && Allowed(v, e) && u == Step(v, e)
    modifies d, d.display`img3_off, d.display`img3, d.display`show_x, d.display`show_y, d.display.build
    ensures Holds(h, g) && d.Ahead(entered, u)
  {
    entered := d.Handle(e, v);
  }

  method ShowTurn(h: Heap, d: Game, entered: bool, ghost g: Stage, ghost v: View) returns (frame: Frame)
    requires Apart(h, d) && Holds(h, g) && d.Ahead(entered, v)
    modifies d`mapX, d`mapY, d.display, d.display.build, d.display.video
    ensures Holds(h, g) && d.Ahead(false, v) && FrameShows(frame, v)
  {
    frame := d.Turn(entered, v);
  }

  /** The event of a command that has been obeyed, from what the program keeps. */
  method Announce(h: Heap, d: Game, a: Assets, c: Command, action: Action, ghost g: Stage, ghost v: View) returns (e: Event)
    requires Holds(h, g) && g.world.s.where != NONE && d.Ahead(false, v)
    ensures e == CommandEvent(a, v, c, action, g) && Holds(h, g) && d.Ahead(false, v)
  {
    var xs := Speed(c, h.loc[O_BOARD] == R_INVENTORY, d.xSpeed);
    var ys := Speed(c, h.loc[O_JETPACK] == R_INVENTORY, d.ySpeed);
    var scene := Look(h, a, g);
    e := EventFor(action, scene, xs, ys);
  }

  /** The screen follows a command that has been obeyed. */
  method Follow(h: Heap, d: Game, a: Assets, c: Command, action: Action, ghost g: Stage, ghost v: View, ghost due: Event, ghost u: View)
      returns (entered: bool)
    requires Apart(h, d) && Holds(h, g) && g.world.s.where != NONE && d.Ahead(false, v)
    requires due == CommandEvent(a, v, c, action, g) && Allowed(v, due) && u == Step(v, due)
    modifies d, d.display`img3_off, d.display`img3, d.display`show_x, d.display`show_y, d.display.build
    ensures Holds(h, g) && d.Ahead(entered, u)
  {
    var e := Announce(h, d, a, c, action, g, v);
    entered := Draw(h, d, e, g, v, u);
  }

  /** The loop's part of a command that has been obeyed; winning leaves the screen as it is. */
  method React(h: Heap, d: Game, a: Assets, turn: Turn, action: Action, ghost rules: Rules, ghost m: Moment, ghost after: Stage)
      returns (entered: bool, won: bool, ghost n: Moment)
    requires Lawful(rules) && Good(a) && m.view.scene == SceneOf(a, m.stage)
    requires Structure(m.stage.world) && Logic(m.stage.world.s) && m.stage.world.s.where != NONE
    requires Apart(h, d) && Holds(h, after) && d.Ahead(false, m.view)
    requires rules(m.stage.world, turn) == Outcome(after.world, action) && Rearranged(m.stage, after, turn.at)
    modifies d, d.display`img3_off, d.display`img3, d.display`show_x, d.display`show_y, d.display.build
    ensures n.stage == after && n.view.scene == SceneOf(a, after) && Follows(rules, a, m, Act(turn), n)
    ensures won <==> after.world.s.where == NONE
    ensures Holds(h, after) && (!won ==> d.Ahead(entered, n.view))
  {
    ghost var due;
    n, due := Reacts(rules, a, m, turn, action, after);
    won := h.where == NONE;
    entered := false;
    if !won {
      entered := Follow(h, d, a, turn.command, action, after, m.view, due, n.view);
    }
  }

  /** The world obeys a command and the screen follows. */
  method Command(h: Heap, d: Game, a: Assets, turn: Turn, ghost rules: Rules, ghost m: Moment)
      returns (entered: bool, won: bool, ghost n: Moment)
    requires Lawful(rules) && Good(a) && At(h, d, a, false, m)
    modifies h, h.next, h.contents, h.loc, h.x, h.y, d, d.display`img3_off, d.display`img3, d.display`show_x, d.display`show_y,
             d.display.build
    ensures Follows(rules, a, m, Act(turn), n) && (won <==> n.stage.world.s.where == NONE)
    ensures !won ==> At(h, d, a, entered, n)
  {
    ghost var after: Stage;
    var action: Action;
    action, after := ObeyBehind(h, d, turn, rules, m.stage, m.view);
    entered, won, n := React(h, d, a, turn, action, rules, m, after);
  }

  lemma KeyPans(v: View, key: Key) returns (u: View)
    ensures Allowed(v, EventOf(key)) && u == Step(v, EventOf(key)) && u.scene == v.scene
  {
    u := Step(v, EventOf(key));
  }

  /** A key that pans, or none. */
  method Panned(h: Heap, d: Game, a: Assets, key: Key, ghost rules: Rules, ghost m: Moment) returns (entered: bool, ghost n: Moment)
    requires At(h, d, a, false, m)
    modifies d, d.display`img3_off, d.display`img3, d.display`show_x, d.display`show_y, d.display.build
    ensures Follows(rules, a, m, Pan(key), n) && n.stage == m.stage && At(h, d, a, entered, n)
  {
    ghost var u := KeyPans(m.view, key);
    n := Moment(m.stage, u);
    entered := Draw(h, d, EventOf(key), m.stage, m.view, u);
  }

  /** One input of the game loop. */
  method Advance(h: Heap, d: Game, a: Assets, i: Input, ghost rules: Rules, ghost m: Moment)
      returns (entered: bool, won: bool, ghost n: Moment)
    requires Lawful(rules) && Good(a) && At(h, d, a, false, m)
    modifies h, h.next, h.contents, h.loc, h.x, h.y, d, d.display`img3_off, d.display`img3, d.display`show_x, d.display`show_y,
             d.display.build
    ensures Follows(rules, a, m, i, n) && (won <==> n.stage.world.s.where == NONE)
    ensures !won ==> At(h, d, a, entered, n)
  {
    match i {
      case Pan(key) =>
        entered, n := Panned(h, d, a, key, rules, m);
        won := false;
      case Act(turn) => entered, won, n := Command(h, d, a, turn, rules, m);
    }
  }

  /** One turn: show the screen, then take an input. */
  method Cycle(h: Heap, d: Game, a: Assets, i: Input, wasEntered: bool, ghost rules: Rules, ghost m: Moment)
      returns (frame: Frame, entered: bool, won: bool, ghost n: Moment)
    requires Lawful(rules) && Good(a) && At(h, d, a, wasEntered, m)
    modifies h, h.next, h.contents, h.loc, h.x, h.y, d, d.display, d.display.build, d.display.video
    ensures FrameShows(frame, m.view) && Follows(rules, a, m, i, n) && (won <==> n.stage.world.s.where == NONE)
    ensures !won ==> At(h, d, a, entered, n)
  {
    frame := ShowTurn(h, d, wasEntered, m.stage, m.view);
    entered, won, n := Advance(h, d, a, i, rules, m);
  }

  /** Each frame is the rendering of its moment. */
  ghost predicate Shown(a: Assets, frames: seq<Frame>, ms: seq<Moment>) {
    |frames| <= |ms| && forall k :: 0 <= k < |frames| ==> FrameShows(frames[k], ms[k].view) && ms[k].view.scene == SceneOf(a, ms[k].stage)
  }

  lemma AddShown(a: Assets, frames: seq<Frame>, frame: Frame, ms: seq<Moment>)
    requires Shown(a, frames, ms) && |frames| < |ms| && FrameShows(frame, ms[|frames|].view)
    requires ms[|frames|].view.scene == SceneOf(a, ms[|frames|].stage)
    ensures Shown(a, frames + [frame], ms)
  {
  }

  lemma AddMoment(rules: Rules, a: Assets, frames: seq<Frame>, ms: seq<Moment>, n: Moment, inputs: seq<Input>)
    requires Linked(rules, a, ms, inputs) && Shown(a, frames, ms) && |ms| <= |inputs| && Follows(rules, a, ms[|ms| - 1], inputs[|ms| - 1], n)
    ensures Linked(rules, a, ms + [n], inputs) && Shown(a, frames, ms + [n])
  {
    var more := ms + [n];
    forall k | 0 <= k < |more| - 1
      ensures Follows(rules, a, more[k], inputs[k], more[k + 1])
    {
      if k < |ms| - 1 {
        assert Follows(rules, a, ms[k], inputs[k], ms[k + 1]);
      }
    }
  }

  /** The game loop: each turn shows the screen and takes an input, until the inputs end or the game is won. */
  method Loop(h: Heap, d: Game, a: Assets, inputs: seq<Input>, ghost rules: Rules, ghost first: Moment)
      returns (frames: seq<Frame>, won: bool, ghost ms: seq<Moment>)
    requires Lawful(rules) && Good(a) && At(h, d, a, true, first)
    modifies h, h.next, h.contents, h.loc, h.x, h.y, d, d.display, d.display.build, d.display.video
    ensures Linked(rules, a, ms, inputs) && ms[0] == first && Shown(a, frames, ms)
    ensures won <==> ms[|ms| - 1].stage.world.s.where == NONE
    ensures if won then |frames| == |ms| - 1 else |frames| == |ms| == |inputs| + 1
  {
    frames, ms, won := [], [first], false;
    var entered := true;
    var i := 0;
    while i < |inputs| && !won
      invariant 0 <= i <= |inputs| && |ms| == i + 1 && |frames| == i
      invariant Linked(rules, a, ms, inputs) && ms[0] == first && Shown(a, frames, ms)
      invariant won <==> ms[i].stage.world.s.where == NONE
      invariant !won ==> At(h, d, a, entered, ms[i])
    {
      ghost var n: Moment;
      var frame;
      frame, entered, won, n := Cycle(h, d, a, inputs[i], entered, rules, ms[i]);
      AddShown(a, frames, frame, ms);
      frames := frames + [frame];
      AddMoment(rules, a, frames, ms, n, inputs);
      ms := ms + [n];
      i := i + 1;
    }
    if !won {
      var frame := ShowTurn(h, d, entered, ms[i].stage, ms[i].view);
      AddShown(a, frames, frame, ms);
      frames := frames + [frame];
    }
  }

  /** The rules of the adventure: what its commands do, as a function of world and turn. */
  ghost function GameRules(): Rules {
    (w: World, turn: Turn) =>
      if Structure(w) && Present(w.s) then Perform(w, turn.command, turn.coin) else Outcome(w, AllowEdit)
  }

  lemma GameRulesLawful()
    ensures Lawful(GameRules())
  {
  }

  /** The world as it is built. */
  method SetUpWorld(at: int -> Place) returns (h: Heap, ghost g: Stage)
    ensures fresh(h) && fresh(h.next) && fresh(h.loc) && fresh(h.contents) && fresh(h.x) && fresh(h.y)
    ensures Holds(h, g) && g.world == Start() && |g.xs| == |g.ys| == N_OBJECTS && AllPlaced(g.xs, g.ys, N_OBJECTS, at)
  {
    h := new Heap();
    h.BuildWorld(at);
    StartOk();
    g := Stage(h.Abstract(), h.x[..], h.y[..]);
  }

  method NewScreen(scene: Scene) returns (d: Game)
    requires Roomy(scene)
    ensures fresh(d) && fresh(d.display) && fresh(d.display.build) && fresh(d.display.video)
    ensures d.Ahead(true, View(scene, 0, 0, MOTION_SPEED, MOTION_SPEED))
  {
    d := new Game(scene, MOTION_SPEED);
  }

  /** A screen about to draw the room of a world. */
  method SetUpScreen(h: Heap, a: Assets, ghost g: Stage) returns (d: Game, ghost first: Moment)
    requires Good(a) && Holds(h, g) && g.world.s.where != NONE
    ensures fresh(d) && fresh(d.display) && fresh(d.display.build) && fresh(d.display.video)
    ensures At(h, d, a, true, first) && first == Moment(g, View(SceneOf(a, g), 0, 0, MOTION_SPEED, MOTION_SPEED))
  {
    var scene := Look(h, a, g);
    SceneIsRoomy(a, g);
    first := Moment(g, View(scene, 0, 0, MOTION_SPEED, MOTION_SPEED));
    d := NewScreen(scene);
  }

  lemma StartsSomewhere()
    ensures Start().s.where != NONE
  {
    BuiltAt(N_OBJECTS, 0);
  }

  /**
   * A whole game with its screen. Whatever the player types and whichever keys pan the view, the world is that
   * of the rules, every frame is the rendering of the room that the world gives at that moment, the objects of the
   * backpack do not cover each other while there are at most twelve, and the frames go on until the inputs end or
   * the game is won.
   */
  method PlayShown(a: Assets, at: int -> Place, inputs: seq<Input>, ghost rules: Rules)
      returns (frames: seq<Frame>, won: bool, ghost ms: seq<Moment>)
    requires Good(a) && Lawful(rules)
    ensures Linked(rules, a, ms, inputs) && Shown(a, frames, ms) && Opening(a, at, ms[0])
    ensures forall k :: 0 <= k < |ms| ==> ms[k].stage.world == Play(Start(), TurnsOf(inputs[..k]))
    ensures forall k :: 0 <= k < |ms| && (forall j :: 0 <= j <= k ==> Fits(ms[j].stage)) ==> Neat(ms[k].stage)
    ensures forall k :: 0 <= k < |ms| ==> RightSpeeds(ms[k])
    ensures won <==> ms[|ms| - 1].stage.world.s.where == NONE
    ensures if won then |frames| == |ms| - 1 else |frames| == |ms| == |inputs| + 1
  {
    ghost var g, first;
    var h, d;
    h, g := SetUpWorld(at);
    StartsSomewhere();
    d, first := SetUpScreen(h, a, g);
    frames, won, ms := Loop(h, d, a, inputs, rules, first);
    forall k | 0 <= k < |ms|
      ensures ms[k].stage.world == Play(Start(), TurnsOf(inputs[..k]))
    {
      StartOk();
      WorldsArePlayed(rules, a, ms, inputs, k);
    }
    forall k | 0 <= k < |ms|
      ensures RightSpeeds(ms[k])
    {
      StartOk();
      StartsOnFoot(ms[0].stage);
      SpeedsStayRight(rules, a, ms, inputs, k);
    }
    forall k | 0 <= k < |ms| && (forall j :: 0 <= j <= k ==> Fits(ms[j].stage))
      ensures Neat(ms[k].stage)
    {
      StartOk();
      StartsNeat(ms[0].stage);
      BackpackStaysNeat(rules, a, ms, inputs, k);
    }
  }

  /** The first moment: the built world seen from the corner of its first room. */
  predicate Opening(a: Assets, at: int -> Place, m: Moment) {
    && m.stage.world == Start() && |m.stage.xs| == |m.stage.ys| == N_OBJECTS
    && AllPlaced(m.stage.xs, m.stage.ys, N_OBJECTS, at)
    && m.view == View(SceneOf(a, m.stage), 0, 0, MOTION_SPEED, MOTION_SPEED)
  }
}

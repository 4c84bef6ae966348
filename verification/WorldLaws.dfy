/** What all commands have in common: when each accomplishment is gained, each object vanishes, and the game is won. */
module WorldLaws {
  import opened WorldMap
  import opened WorldGame
  import opened WorldProofs
  import opened WorldEffects
  import opened WorldCrafts
  import opened WorldWalks

  predicate Crafts(c: Command) {
    c.CmdBuy? || c.CmdCharge? || c.CmdDrink? || c.CmdFix? || c.CmdFlash? || c.CmdInstall? || c.CmdUse? || c.CmdWear?
  }

  /** The command asks for craft k and everything for it is ready. */
  predicate Does(s: Status, c: Command, k: Craft) { Asks(c, k) && Ready(s, k) }

  predicate EatsYogurt(s: Status, c: Command) { c.CmdBuy? && Same("yogurt", c.arg) && s.where == R_IN_COCOMR }

  predicate LosesAppetite(s: Status, c: Command) { c.CmdSigh? && s.where == R_BY_ZAS }

  lemma UnknownBuy(w: World, arg: string)
    requires Sized(w) && !Same("dew", arg)
    ensures Buy(w, arg).world == w.(s := w.s.(eaten := w.s.eaten || (Same("yogurt", arg) && w.s.where == R_IN_COCOMR)))
  {
  }

  lemma Unknown(w: World, arg: string)
    requires Sized(w)
    ensures !Same("dew", arg) ==> Drink(w, arg).world == w
    ensures !Same("bunnysuit", arg) ==> Wear(w, arg).world == w
    ensures !Same("battery", arg) ==> Charge(w, arg).world == w
    ensures !Same("gps", arg) ==> Fix(w, arg).world == w
    ensures !Same("robot", arg) ==> Flash(w, arg).world == w
    ensures !Same("car", arg) && !Same("fish", arg) ==> Use(w, arg).world == w
    ensures !Same("battery", arg) && !Same("mimo", arg) && !Same("card", arg) && !Same("transmitter", arg) ==>
              Install(w, arg).world == w
  {
  }

  /** The words that no craft goes by. */
  predicate Strange(c: Command) {
    match c
    case CmdBuy(arg) => !Same("dew", arg)
    case CmdDrink(arg) => !Same("dew", arg)
    case CmdWear(arg) => !Same("bunnysuit", arg)
    case CmdCharge(arg) => !Same("battery", arg)
    case CmdFix(arg) => !Same("gps", arg)
    case CmdFlash(arg) => !Same("robot", arg)
    case CmdUse(arg) => !Same("car", arg) && !Same("fish", arg)
    case CmdInstall(arg) => !Same("battery", arg) && !Same("mimo", arg) && !Same("card", arg) && !Same("transmitter", arg)
    case _ => false
  }

  lemma NotAsked(c: Command)
    requires Crafts(c) && forall k :: !Asks(c, k)
    ensures Strange(c)
  {
    assert !Asks(c, BuyDew) && !Asks(c, DrinkDew) && !Asks(c, WearSuit) && !Asks(c, ChargeBattery) && !Asks(c, FixGps);
    assert !Asks(c, FlashRobot) && !Asks(c, FitBattery) && !Asks(c, FitCard) && !Asks(c, OpenCar) && !Asks(c, LureTux);
  }

  /** A command for a craft that nobody knows changes nothing, but for the appetite of who buys yogurt where it is sold. */
  lemma NoCraft(w: World, c: Command, coin: bool)
    requires Structure(w) && Present(w.s) && Strange(c)
    ensures Perform(w, c, coin).world == w.(s := w.s.(eaten := w.s.eaten || EatsYogurt(w.s, c)))
  {
    match c {
      case CmdBuy(arg) => UnknownBuy(w, arg);
      case CmdDrink(arg) => Unknown(w, arg);
      case CmdWear(arg) => Unknown(w, arg);
      case _ => NoWork(w, c, coin);
    }
  }

  lemma NoWork(w: World, c: Command, coin: bool)
    requires Structure(w) && Present(w.s) && Strange(c) && !Handles(c)
    ensures Perform(w, c, coin).world == w
  {
    Unknown(w, c.arg);
  }

  /** What can become of object p. */
  ghost predicate Fate(w: World, t: Status, c: Command, p: int)
    requires |w.s.loc| == N_OBJECTS && IsObject(p) && |t.loc| == N_OBJECTS
  {
    || t.loc[p] == w.s.loc[p]
    || (exists k :: Does(w.s, c, k) && t.loc[p] == PlaceAfter(w.s, k, p))
    || (c.CmdDrop? && w.s.loc[p] == R_INVENTORY && Same(c.arg, Name(p)) && StandsIn(w.s, t.loc[p]))
    || (c.CmdGet? && t.loc[p] == R_INVENTORY && StandsIn(w.s, w.s.loc[p]) && Same(c.arg, Name(p)))
    || (c.CmdGet? && t.loc[p] == R_INVENTORY && StandsIn(w.s, R_RESERVE) && Same("book", c.arg) && HandsOut(w.s, p))
    || (c.CmdGet? && AtOpenCar(w.s) && ((p == O_BATT_CAR && t.loc[p] == NONE) || (p == O_BATT_EMPTY && t.loc[p] == R_INVENTORY)))
  }

  /** The accomplishments after a command: each is kept, and gained by its own deed only. */
  ghost predicate Gained(s: Status, t: Status, c: Command) {
    && (t.eaten <==> s.eaten || EatsYogurt(s, c) || LosesAppetite(s, c))
    && (t.suit <==> s.suit || Does(s, c, WearSuit)) && (t.open <==> s.open || Does(s, c, OpenCar))
    && (t.fixed <==> s.fixed || Does(s, c, FitBattery)) && (t.lured <==> s.lured || Does(s, c, LureTux))
    && t.cockpit == (if Does(s, c, FitCard) then R_OVER_WILL else s.cockpit)
  }

  /** A command explains every change. */
  ghost predicate Explained(w: World, v: World, c: Command) {
    && |w.s.loc| == |v.s.loc| == N_OBJECTS && Gained(w.s, v.s, c) && (forall p :: IsObject(p) ==> Fate(w, v.s, c, p))
    && (v.s.where == w.s.where || Way(w.s, c, v.s.where))
  }

  /** Only the appetite may have changed. */
  lemma StillExplained(w: World, v: World, c: Command)
    requires |w.s.loc| == N_OBJECTS && v == w.(s := w.s.(eaten := v.s.eaten)) && forall k :: !Does(w.s, c, k)
    requires v.s.eaten <==> w.s.eaten || EatsYogurt(w.s, c) || LosesAppetite(w.s, c)
    ensures Explained(w, v, c)
  {
  }

  lemma MadeExplained(w: World, t: Status, c: Command, k: Craft)
    requires Made(w.s, t, k) && Does(w.s, c, k)
    ensures Explained(w, World(w.lists, t), c)
  {
    OnlyCraft(c, k);
    NoAppetite(c, k);
    forall p | IsObject(p)
      ensures Fate(w, t, c, p)
    {
      assert t.loc[p] == PlaceAfter(w.s, k, p);
    }
  }

  lemma NoAppetite(c: Command, k: Craft)
    requires Asks(c, k)
    ensures !(c.CmdBuy? && Same("yogurt", c.arg)) && !c.CmdSigh? && Crafts(c)
  {
  }

  lemma CraftedExplained(w: World, r: Outcome, c: Command, k: Craft)
    requires |w.s.loc| == N_OBJECTS && Asks(c, k) && Crafted(w, r, k)
    ensures Explained(w, r.world, c)
  {
    if Ready(w.s, k) {
      MadeExplained(w, r.world.s, c, k);
      StatusExplains(w, World(w.lists, r.world.s), r.world, c);
    } else {
      OnlyCraft(c, k);
      NoAppetite(c, k);
      StillExplained(w, r.world, c);
    }
  }

  lemma CraftExplains(w: World, c: Command, coin: bool)
    requires Structure(w) && Present(w.s) && Crafts(c)
    ensures Explained(w, Perform(w, c, coin).world, c)
  {
    var r := Perform(w, c, coin);
    if k :| Asks(c, k) {
      CraftEffect(w, c, coin, k);
      CraftedExplained(w, r, c, k);
    } else {
      NotAsked(c);
      NoCraft(w, c, coin);
      StillExplained(w, r.world, c);
    }
  }

  lemma StatusExplains(w: World, u: World, v: World, c: Command)
    requires Explained(w, u, c) && u.s == v.s
    ensures Explained(w, v, c)
  {
  }

  lemma OnlyCraft(c: Command, k: Craft)
    requires Asks(c, k)
    ensures forall j :: Asks(c, j) ==> j == k
  {
    forall j | Asks(c, j)
      ensures j == k
    {
      OneCraft(c, j, k);
    }
  }

  lemma NoCraftAsked(c: Command)
    requires !Crafts(c)
    ensures forall k :: !Asks(c, k)
  {
  }

  lemma WalkedExplained(w: World, r: Outcome, c: Command, d: int, coin: bool)
    requires |w.s.loc| == N_OBJECTS && Walks(c) && Way(w.s, c, d) && Walked(w, r, c, d, coin)
    ensures Explained(w, r.world, c)
  {
    NoCraftAsked(c);
  }

  lemma WalkExplains(w: World, c: Command, coin: bool)
    requires Structure(w) && Present(w.s) && Walks(c)
    ensures Explained(w, Perform(w, c, coin).world, c)
  {
    var r := Perform(w, c, coin);
    if d :| Way(w.s, c, d) {
      WayTaken(w, c, coin, d);
      WalkedExplained(w, r, c, d, coin);
    } else {
      NoWay(w, c, coin);
      NoCraftAsked(c);
      StillExplained(w, r.world, c);
    }
  }

  /** One object has moved, and for it there is a reason. */
  lemma OnlyExplained(w: World, v: World, c: Command, o: int, r: int)
    requires Only(w.s, v.s, o, r) && (c.CmdDrop? || c.CmdGet?) && Fate(w, v.s, c, o)
    ensures Explained(w, v, c)
  {
    NoCraftAsked(c);
  }

  lemma DropExplains(w: World, arg: string, coin: bool)
    requires Structure(w) && Present(w.s)
    ensures Explained(w, Perform(w, CmdDrop(arg), coin).world, CmdDrop(arg))
  {
    var v := Perform(w, CmdDrop(arg), coin).world;
    var o := DropEffect(w, arg, coin);
    if v == w {
      NoCraftAsked(CmdDrop(arg));
      StillExplained(w, v, CmdDrop(arg));
    } else {
      var here := if w.s.where == R_INVENTORY then w.s.backpack else w.s.where;
      OnlyExplained(w, v, CmdDrop(arg), o, here);
    }
  }

  lemma BatteryExplained(w: World, v: World, arg: string)
    requires |w.s.loc| == |v.s.loc| == N_OBJECTS && AtOpenCar(w.s) && v.s == w.s.(loc := v.s.loc)
    requires v.s.loc[O_BATT_CAR] == NONE && v.s.loc[O_BATT_EMPTY] == R_INVENTORY
    requires forall p :: IsObject(p) && p != O_BATT_CAR && p != O_BATT_EMPTY ==> v.s.loc[p] == w.s.loc[p]
    ensures Explained(w, v, CmdGet(arg))
  {
    NoCraftAsked(CmdGet(arg));
  }

  lemma FoundExplains(w: World, arg: string, coin: bool, src: int)
    requires Structure(w) && Present(w.s) && StandsIn(w.s, src) && Ordinary(w.s, src, arg)
    ensures Explained(w, Perform(w, CmdGet(arg), coin).world, CmdGet(arg))
  {
    var v := Perform(w, CmdGet(arg), coin).world;
    var o := GetEffect(w, arg, coin, src);
    if v == w {
      NoCraftAsked(CmdGet(arg));
      StillExplained(w, v, CmdGet(arg));
    } else {
      OnlyExplained(w, v, CmdGet(arg), o, R_INVENTORY);
    }
  }

  lemma GetExplains(w: World, arg: string, coin: bool)
    requires Structure(w) && Present(w.s)
    ensures Explained(w, Perform(w, CmdGet(arg), coin).world, CmdGet(arg))
  {
    var v := Perform(w, CmdGet(arg), coin).world;
    var src := if w.s.where == R_INVENTORY then w.s.backpack else w.s.where;
    var book := if w.s.eaten then O_BOOK_C else O_BOOK_WODE;
    if src == R_RESERVE && Same("book", arg) && HandsOut(w.s, book) {
      GetBookEffect(w, arg, coin, book);
      OnlyExplained(w, v, CmdGet(arg), book, R_INVENTORY);
    } else if AtOpenCar(w.s) {
      GetBatteryEffect(w, arg, coin);
      BatteryExplained(w, v, arg);
    } else {
      FoundExplains(w, arg, coin, src);
    }
  }

  /** Every change that a command makes has one of these reasons. */
  lemma EveryChangeExplained(w: World, c: Command, coin: bool)
    requires Structure(w) && Present(w.s)
    ensures Explained(w, Perform(w, c, coin).world, c)
  {
    if Walks(c) {
      WalkExplains(w, c, coin);
    } else if Crafts(c) {
      CraftExplains(w, c, coin);
    } else if c.CmdDrop? {
      DropExplains(w, c.arg, coin);
    } else {
      GetExplains(w, c.arg, coin);
    }
  }

  /** The game is won exactly by doing the assignment in the laboratory, with book and assignment carried and Tux there. */
  lemma WinsExactly(w: World, c: Command, coin: bool)
    requires Structure(w) && Present(w.s)
    ensures Perform(w, c, coin).world.s.where == NONE <==>
              && c.CmdDo? && (Same("391", c.arg) || Same("mp2", c.arg)) && w.s.where == R_IN_391LAB
              && w.s.loc[O_BOOK_C] == R_INVENTORY && w.s.loc[O_MP2] == R_INVENTORY && w.s.loc[O_TUX] == R_IN_391LAB
  {
    EveryChangeExplained(w, c, coin);
    if Way(w.s, c, NONE) {
      WayTaken(w, c, coin, NONE);
    }
  }

  // ------------------------------------------------------------ over a whole game

  /** Objects that no command uses up. */
  predicate Lasting(o: int) {
    o in {O_BOARD, O_JETPACK, O_TUX, O_MP2, O_BOOK_C, O_BOOK_WODE, O_GPS_GOOD, O_ICARD, O_ROBOT_LIVE}
  }

  lemma NotUsed(k: Craft, o: int)
    requires Lasting(o)
    ensures o !in RecipeOf(k).used && (RecipeOf(k).product == o ==> IsRoom(RecipeOf(k).into))
  {
  }

  lemma FateKeeps(w: World, v: World, c: Command, o: int)
    requires Explained(w, v, c) && Present(w.s) && Lasting(o) && w.s.loc[o] != NONE
    ensures v.s.loc[o] != NONE
  {
    assert Fate(w, v.s, c, o);
    forall k: Craft
      ensures PlaceAfter(w.s, k, o) != NONE
    {
      NotUsed(k, o);
    }
  }

  /** Once in the world, a lasting object stays in it, and what is accomplished stays so. */
  lemma {:induction false} NothingIsLost(w: World, turns: seq<Turn>, o: int)
    requires Structure(w) && Logic(w.s) && Lasting(o)
    ensures var t := Play(w, turns).s;
            && |t.loc| == N_OBJECTS && (w.s.loc[o] != NONE ==> t.loc[o] != NONE)
            && (w.s.eaten ==> t.eaten) && (w.s.suit ==> t.suit) && (w.s.open ==> t.open) && (w.s.fixed ==> t.fixed)
            && (w.s.lured ==> t.lured)
    decreases |turns|
  {
    if turns != [] && w.s.where != NONE {
      var c, coin := turns[0].command, turns[0].coin;
      var v := Perform(w, c, coin).world;
      LogicKept(w, c, coin);
      StructureKept(w, c, coin);
      EveryChangeExplained(w, c, coin);
      if w.s.loc[o] != NONE {
        FateKeeps(w, v, c, o);
      }
      NothingIsLost(v, turns[1..], o);
    }
  }
}

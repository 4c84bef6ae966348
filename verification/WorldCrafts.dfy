/** The commands that make, use up or install something, as recipes: what they take, what they give, and nothing else. */
module WorldCrafts {
  import opened WorldMap
  import opened WorldGame
  import opened WorldProofs

  datatype Craft =
    | BuyDew
    | DrinkDew
    | WearSuit
    | ChargeBattery
    | FixGps
    | FlashRobot
    | FitBattery
    | FitCard
    | OpenCar
    | LureTux

  /**
   * A recipe works in a room (NONE: anywhere), with some objects at hand and others not; it uses some of them up and
   * brings a product (NONE: none) into a room.
   */
  datatype Recipe = Recipe(room: int, hand: set<int>, lacking: set<int>, used: set<int>, product: int, into: int, action: Action)

  function RecipeOf(k: Craft): Recipe {
    match k
    case BuyDew => Recipe(R_EVRT_VEND, {}, {O_MTN_DEW}, {}, O_MTN_DEW, R_INVENTORY, RedrawRoom)
    case DrinkDew => Recipe(NONE, {O_MTN_DEW}, {}, {O_MTN_DEW}, NONE, NONE, RedrawRoom)
    case WearSuit => Recipe(NONE, {O_BUNNYSUIT}, {}, {O_BUNNYSUIT}, NONE, NONE, RedrawRoom)
    case ChargeBattery => Recipe(R_BECK_MRI, {O_BATT_EMPTY}, {O_BATT_FULL}, {O_BATT_EMPTY}, O_BATT_FULL, R_INVENTORY, RedrawRoom)
    case FixGps => Recipe(R_IN_CLEANR, {O_GPS_BAD, O_GPS_SPEC}, {O_GPS_GOOD}, {O_GPS_BAD, O_GPS_SPEC}, O_GPS_GOOD, R_INVENTORY, ChangeRoom)
    case FlashRobot => Recipe(R_IN_395LAB, {O_ROBOT_DEAD}, {O_ROBOT_LIVE}, {O_ROBOT_DEAD}, O_ROBOT_LIVE, R_INVENTORY, RedrawRoom)
    case FitBattery => Recipe(R_CAR_SITE, {O_BATT_FULL}, {O_BATT_EMPTY}, {O_BATT_FULL}, NONE, NONE, ChangeRoom)
    case FitCard => Recipe(R_COCKPIT, {O_MIMO_CARD}, {}, {O_MIMO_CARD}, NONE, NONE, RedrawRoom)
    case OpenCar => Recipe(R_CAR_SITE, {O_CAR_KEY}, {}, {O_CAR_KEY}, O_BATT_CAR, R_CAR_SITE, ChangeRoom)
    case LureTux => Recipe(R_REM_LAB, {O_FISH}, {}, {O_FISH}, O_TUX, R_INVENTORY, RedrawRoom)
  }

  /** The words that ask for a craft. */
  predicate Asks(c: Command, k: Craft) {
    match k
    case BuyDew => c.CmdBuy? && Same("dew", c.arg)
    case DrinkDew => c.CmdDrink? && Same("dew", c.arg)
    case WearSuit => c.CmdWear? && Same("bunnysuit", c.arg)
    case ChargeBattery => c.CmdCharge? && Same("battery", c.arg)
    case FixGps => c.CmdFix? && Same("gps", c.arg)
    case FlashRobot => c.CmdFlash? && Same("robot", c.arg)
    case FitBattery => c.CmdInstall? && Same("battery", c.arg)
    case FitCard => c.CmdInstall? && (Same("mimo", c.arg) || Same("card", c.arg) || Same("transmitter", c.arg))
    case OpenCar => c.CmdUse? && Same("car", c.arg)
    case LureTux => c.CmdUse? && Same("fish", c.arg)
  }

  /** Carried, or lying in the room shown. */
  predicate AtHand(s: Status, o: int) { 0 <= o < |s.loc| && s.loc[o] in {R_INVENTORY, s.where} }

  /** The car is opened once, with a key that is carried. */
  predicate Ready(s: Status, k: Craft) {
    && (RecipeOf(k).room == NONE || RecipeOf(k).room == s.where)
    && (forall o | o in RecipeOf(k).hand :: AtHand(s, o)) && (forall o | o in RecipeOf(k).lacking :: !AtHand(s, o))
    && (k.OpenCar? ==> 0 <= O_CAR_KEY < |s.loc| && s.loc[O_CAR_KEY] == R_INVENTORY && !s.open && !s.fixed)
  }

  /** Where an object is after a craft. */
  function PlaceAfter(s: Status, k: Craft, p: int): int
    requires |s.loc| == N_OBJECTS && IsObject(p)
  {
    if p == RecipeOf(k).product then RecipeOf(k).into else if p in RecipeOf(k).used then NONE else s.loc[p]
  }

  /** Used up and produced objects apart, nothing has moved; the craft's own accomplishment apart, nothing is gained. */
  ghost predicate Made(s: Status, t: Status, k: Craft) {
    && |s.loc| == |t.loc| == N_OBJECTS && (forall p :: IsObject(p) ==> t.loc[p] == PlaceAfter(s, k, p))
    && t.eaten == s.eaten && t.suit == (s.suit || k.WearSuit?) && t.open == (s.open || k.OpenCar?)
    && t.fixed == (s.fixed || k.FitBattery?) && t.lured == (s.lured || k.LureTux?)
    && t.where == s.where && t.backpack == s.backpack && t.cockpit == (if k.FitCard? then R_OVER_WILL else s.cockpit)
    && (if k.OpenCar? || k.FitBattery? then t.carView == s.carSwap && t.carSwap == s.carView
        else t.carView == s.carView && t.carSwap == s.carSwap)
    && t.circleView == s.circleView && t.circleSwap == s.circleSwap
  }

  /** The effect of a craft that was asked for: made if everything is ready, and otherwise nothing happens at all. */
  ghost predicate Crafted(w: World, r: Outcome, k: Craft) {
    if Ready(w.s, k) then Made(w.s, r.world.s, k) && r.action == RecipeOf(k).action else r == Outcome(w, DiscardText)
  }

  /** What it takes for each craft, told by locations. */
  lemma ReadyIs(s: Status)
    requires |s.loc| == N_OBJECTS
    ensures Ready(s, BuyDew) <==> s.where == R_EVRT_VEND && !Near(s, O_MTN_DEW)
    ensures Ready(s, DrinkDew) <==> Near(s, O_MTN_DEW)
    ensures Ready(s, WearSuit) <==> Near(s, O_BUNNYSUIT)
    ensures Ready(s, ChargeBattery) <==> s.where == R_BECK_MRI && Near(s, O_BATT_EMPTY) && !Near(s, O_BATT_FULL)
    ensures Ready(s, FixGps) <==> s.where == R_IN_CLEANR && Near(s, O_GPS_BAD) && Near(s, O_GPS_SPEC) && !Near(s, O_GPS_GOOD)
    ensures Ready(s, FlashRobot) <==> s.where == R_IN_395LAB && Near(s, O_ROBOT_DEAD) && !Near(s, O_ROBOT_LIVE)
    ensures Ready(s, FitBattery) <==> s.where == R_CAR_SITE && Near(s, O_BATT_FULL) && !Near(s, O_BATT_EMPTY)
    ensures Ready(s, FitCard) <==> s.where == R_COCKPIT && Near(s, O_MIMO_CARD)
    ensures Ready(s, OpenCar) <==> s.where == R_CAR_SITE && s.loc[O_CAR_KEY] == R_INVENTORY && !s.open && !s.fixed
    ensures Ready(s, LureTux) <==> s.where == R_REM_LAB && Near(s, O_FISH)
  {
  }

  lemma BuyEffect(w: World, arg: string)
    requires Sized(w) && Same("dew", arg)
    ensures Crafted(w, Buy(w, arg), BuyDew)
  {
    ReadyIs(w.s);
  }

  lemma DrinkEffect(w: World, arg: string)
    requires Sized(w) && Same("dew", arg)
    ensures Crafted(w, Drink(w, arg), DrinkDew)
  {
    ReadyIs(w.s);
  }

  lemma WearEffect(w: World, arg: string)
    requires Sized(w) && Same("bunnysuit", arg)
    ensures Crafted(w, Wear(w, arg), WearSuit)
  {
    ReadyIs(w.s);
  }

  lemma ChargeEffect(w: World, arg: string)
    requires Sized(w) && Same("battery", arg)
    ensures Crafted(w, Charge(w, arg), ChargeBattery)
  {
    ReadyIs(w.s);
  }

  lemma FixEffect(w: World, arg: string)
    requires Sized(w) && Same("gps", arg)
    ensures Crafted(w, Fix(w, arg), FixGps)
  {
    ReadyIs(w.s);
  }

  lemma FlashEffect(w: World, arg: string)
    requires Sized(w) && Same("robot", arg)
    ensures Crafted(w, Flash(w, arg), FlashRobot)
  {
    ReadyIs(w.s);
  }

  lemma FitBatteryEffect(w: World)
    requires Sized(w)
    ensures Crafted(w, InstallBattery(w), FitBattery)
  {
    ReadyIs(w.s);
  }

  lemma FitCardEffect(w: World)
    requires Sized(w)
    ensures Crafted(w, InstallCard(w), FitCard)
  {
    ReadyIs(w.s);
  }

  lemma UseCarEffect(w: World)
    requires Sized(w)
    ensures Crafted(w, UseCar(w), OpenCar)
  {
    ReadyIs(w.s);
  }

  lemma UseFishEffect(w: World)
    requires Sized(w)
    ensures Crafted(w, UseFish(w), LureTux)
  {
    ReadyIs(w.s);
  }

  /** Words of different length are different. */
  lemma OneCraft(c: Command, j: Craft, k: Craft)
    requires Asks(c, j) && Asks(c, k)
    ensures j == k
  {
  }

  /** Every command that asks for a craft is carried out by its recipe. */
  lemma CraftEffect(w: World, c: Command, coin: bool, k: Craft)
    requires Structure(w) && Present(w.s) && Asks(c, k)
    ensures Crafted(w, Perform(w, c, coin), k)
  {
    match k {
      case BuyDew => BuyEffect(w, c.arg);
      case DrinkDew => DrinkEffect(w, c.arg);
      case WearSuit => WearEffect(w, c.arg);
      case ChargeBattery => ChargeEffect(w, c.arg);
      case FixGps => FixEffect(w, c.arg);
      case FlashRobot => FlashEffect(w, c.arg);
      case _ => PlaceEffect(w, c, coin, k);
    }
  }

  /** The crafts that put something to its place. */
  lemma PlaceEffect(w: World, c: Command, coin: bool, k: Craft)
    requires Structure(w) && Present(w.s) && Asks(c, k) && (c.CmdInstall? || c.CmdUse?)
    ensures Crafted(w, Perform(w, c, coin), k)
  {
    if c.CmdUse? {
      UseCarEffect(w);
      UseFishEffect(w);
    } else {
      FitBatteryEffect(w);
      FitCardEffect(w);
    }
  }
}

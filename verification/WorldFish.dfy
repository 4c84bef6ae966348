/** A game in which a dropped object is not got back: at the open car every get takes the battery. */
module WorldFish {
  import opened WorldMap
  import opened WorldGame
  import opened WorldProofs
  import WorldEffects
  import WorldWin
  import Itinerary

  lemma Parked() returns (t: Itinerary.Trip)
    ensures WorldWin.Reached(t) && t == Itinerary.Gathered().(at := R_CAR_SITE)
  {
    var R := WorldWin.DeedsClosed();
    Itinerary.Gather(R);
    Driveway();
    t := Itinerary.Journey(R, Itinerary.Gathered(), [R_BECK_LOT, R_GARAGE, R_CAR_SITE], R_CAR_SITE);
  }

  lemma Driveway()
    ensures Itinerary.Joins([R_BECK_LOT, R_GARAGE, R_CAR_SITE], R_BECK_LOT, R_CAR_SITE)
  {
    assert Itinerary.Exit(R_BECK_LOT, R_GARAGE) && Itinerary.Exit(R_GARAGE, R_CAR_SITE);
  }

  /** Some game stands at the closed car with the key and the fish. */
  lemma AtTheCar() returns (turns: seq<Turn>, w: World)
    ensures w == Play(Start(), turns) && Structure(w) && w.s.where == R_CAR_SITE && |w.s.loc| == N_OBJECTS
    ensures w.s.loc[O_CAR_KEY] == R_INVENTORY && w.s.loc[O_FISH] == R_INVENTORY && !w.s.open && !w.s.fixed
  {
    var t := Parked();
    assert O_CAR_KEY in t.carried && O_FISH in t.carried;
    turns, w := WorldWin.Now(t);
  }

  /** With the car opened, the fish is dropped and asked for again, and the battery comes instead. */
  lemma DroppedFishIsNotGotBack() returns (turns: seq<Turn>)
    ensures var w := Play(Start(), turns);
            && Structure(w) && Logic(w.s) && w.s.where == R_CAR_SITE && w.s.loc[O_FISH] == R_INVENTORY
            && var v := Perform(w, CmdDrop("fish"), false).world;
               && Structure(v) && Present(v.s)
               && !WorldEffects.GetsNamed(v.s, Perform(v, CmdGet("fish"), false).world.s, "fish")
  {
    var first, u := AtTheCar();
    WorldWin.CarIs(u);
    WorldWin.Extend(first, u, CmdUse("car"), UseCar(u).world);
    turns := first + [WorldWin.Calm(CmdUse("car"))];
    EveryGame(turns);
    NotGotBack(UseCar(u).world);
  }

  lemma NotGotBack(w: World)
    requires Structure(w) && Logic(w.s) && w.s.where == R_CAR_SITE
    requires w.s.loc[O_FISH] == R_INVENTORY && w.s.loc[O_BATT_CAR] == R_CAR_SITE
    ensures var v := Perform(w, CmdDrop("fish"), false).world;
            && Structure(v) && Present(v.s)
            && !WorldEffects.GetsNamed(v.s, Perform(v, CmdGet("fish"), false).world.s, "fish")
  {
    assert Same("fish", Name(O_FISH)) && |"battery"| != |"fish"|;
    WorldEffects.GetBackExactly(w, "fish", false, false);
  }
}

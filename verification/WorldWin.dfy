/** The game can be won: a complete walkthrough, checked against the rules. */
module WorldWin {
  import opened Itinerary
  import opened WorldMap
  import opened WorldGame
  import opened WorldProofs

  /** Where object o is at that point: the walkthrough leaves nothing lying around. */
  function PlaceOf(t: Trip, o: int): int {
    if o in t.carried then R_INVENTORY else if o in t.gone then NONE else StartRoom(o)
  }

  function Places(t: Trip): (loc: seq<int>)
    ensures |loc| == N_OBJECTS && forall o :: IsObject(o) ==> loc[o] == PlaceOf(t, o)
  {
    seq(N_OBJECTS, o => PlaceOf(t, o))
  }

  function StatusOf(t: Trip): Status {
    var hood := t.open && !t.fixed;
    Status(Places(t), t.eaten, t.suit, t.open, t.fixed, t.lured, t.at, NONE, if t.flown then R_OVER_WILL else NONE,
           if hood then CAR_OPENED else CAR_CLOSED, if hood then CAR_CLOSED else CAR_OPENED, 0, 1)
  }

  /** A game whose world is in the state of the trip. */
  ghost predicate Shows(w: World, t: Trip) { Structure(w) && w.s == StatusOf(t) }

  ghost predicate Reached(t: Trip) { exists turns :: Shows(Play(Start(), turns), t) }

  // ------------------------------------------------------------ one step

  /** A command in a turn without luck. */
  function Calm(c: Command): Turn { Turn(c, false, Place(0, 0)) }

  /** Some game has got to this point. */
  lemma Now(t: Trip) returns (turns: seq<Turn>, w: World)
    requires Reached(t)
    ensures w == Play(Start(), turns) && Shows(w, t)
  {
    turns :| Shows(Play(Start(), turns), t);
    w := Play(Start(), turns);
  }

  lemma Extend(turns: seq<Turn>, w: World, c: Command, v: World)
    requires w == Play(Start(), turns) && Structure(w) && Present(w.s) && v == Perform(w, c, false).world
    ensures v == Play(Start(), turns + [Calm(c)]) && Structure(v)
  {
    StructureKept(w, c, false);
    PlayAppend(Start(), turns, [Calm(c)]);
    PlayOne(w, Calm(c));
  }

  /** A command that takes the world to state u. */
  lemma Next(turns: seq<Turn>, w: World, c: Command, v: World, u: Trip)
    requires w == Play(Start(), turns) && Structure(w) && Present(w.s) && v == Perform(w, c, false).world
    requires v.s == StatusOf(u)
    ensures Reached(u)
  {
    Extend(turns, w, c, v);
    assert Shows(Play(Start(), turns + [Calm(c)]), u);
  }

  // ------------------------------------------------------------ walking

  lemma LeftIs(w: World, d: int)
    requires Structure(w) && Present(w.s) && LeftOf(w.s.where) == d && d != NONE
    ensures Perform(w, CmdLeft, false).world == w.(s := w.s.(where := d))
  {
  }

  lemma RightIs(w: World, d: int)
    requires Structure(w) && Present(w.s) && RightOf(w.s.where) == d && d != NONE
    ensures Perform(w, CmdRight, false).world == w.(s := w.s.(where := d))
  {
  }

  lemma EnterIs(w: World, d: int)
    requires Structure(w) && Present(w.s) && DoorOf(w.s, w.s.where) == d && d != NONE
    ensures Perform(w, CmdEnter, false).world == w.(s := w.s.(where := d))
  {
  }

  lemma Walk(t: Trip, d: int) returns (u: Trip)
    requires Reached(t) && Outdoors(t) && t.at != R_COCKPIT && Exit(t.at, d)
    ensures u == t.(at := d) && Reached(u)
  {
    u := t.(at := d);
    assert Places(u) == Places(t);
    var turns, w := Now(t);
    var v := w.(s := w.s.(where := d));
    if LeftOf(t.at) == d {
      LeftIs(w, d);
      Next(turns, w, CmdLeft, v, u);
    } else if RightOf(t.at) == d {
      RightIs(w, d);
      Next(turns, w, CmdRight, v, u);
    } else {
      EnterIs(w, d);
      Next(turns, w, CmdEnter, v, u);
    }
  }

  // ------------------------------------------------------------ taking things

  lemma {:induction false} FindOnly(l: seq<int>, arg: string, o: int)
    requires o in l && Same(arg, Name(o)) && forall p :: p in l && Same(arg, Name(p)) ==> p == o
    ensures FindIn(l, arg) == o
  {
    if l[0] != o {
      FindOnly(l[1..], arg, o);
    }
  }

  /** Objects that start in the same room have names of different lengths. */
  lemma StartAlone(o: int, p: int)
    requires StartRoom(o) == StartRoom(p) && StartRoom(o) != NONE && o != p
    ensures |Name(o)| != |Name(p)|
  {
  }

  lemma FindStarting(w: World, t: Trip, o: int)
    requires Shows(w, t) && Outdoors(t) && IsObject(o) && StartRoom(o) == t.at && o !in t.carried && o !in t.gone
    ensures FindIn(w.lists[t.at], Name(o)) == o
  {
    var l := w.lists[t.at];
    assert ListOk(l, w.s.loc, t.at);
    forall p | p in l && Same(Name(o), Name(p))
      ensures p == o
    {
      assert PlaceOf(t, p) == t.at;
      if p != o {
        StartAlone(o, p);
      }
    }
    FindOnly(l, Name(o), o);
  }

  lemma GetIs(w: World, arg: string, o: int)
    requires Structure(w) && Present(w.s) && FindIn(w.lists[Standing(w.s)], arg) == o && IsObject(o) && o != O_TUX
    requires Standing(w.s) != R_RESERVE && Standing(w.s) != R_CAR_SITE
    ensures Perform(w, CmdGet(arg), false).world == Carry(w, o)
  {
  }

  lemma Take(t: Trip, o: int) returns (u: Trip)
    requires Reached(t) && Outdoors(t) && IsObject(o) && o != O_TUX && StartRoom(o) == t.at && t.at != R_CAR_SITE
    requires t.at != R_RESERVE && o !in t.carried && o !in t.gone
    ensures u == t.(carried := t.carried + {o}) && Reached(u)
  {
    u := t.(carried := t.carried + {o});
    assert Places(u) == Places(t)[o := R_INVENTORY];
    var turns, w := Now(t);
    FindStarting(w, t, o);
    GetIs(w, Name(o), o);
    Next(turns, w, CmdGet(Name(o)), Carry(w, o), u);
  }

  // ------------------------------------------------------------ the other deeds

  lemma StartAbsent(o: int)
    requires o == O_BOOK_C || o == O_ROBOT_LIVE || o == O_BATT_EMPTY || o == O_BATT_FULL || o == O_BATT_CAR || o == O_GPS_GOOD
    ensures StartRoom(o) == NONE
  {
  }

  /** Something that is neither at its start nor carried is nowhere. */
  lemma Absent(t: Trip, o: int)
    requires o == O_BOOK_C || o == O_ROBOT_LIVE || o == O_BATT_EMPTY || o == O_BATT_FULL || o == O_BATT_CAR || o == O_GPS_GOOD
    requires o !in t.carried
    ensures Places(t)[o] == NONE
  {
    StartAbsent(o);
  }

  lemma WearSuit(t: Trip) returns (u: Trip)
    requires Reached(t) && Outdoors(t) && O_BUNNYSUIT in t.carried
    ensures u == t.(carried := t.carried - {O_BUNNYSUIT}, gone := t.gone + {O_BUNNYSUIT}, suit := true) && Reached(u)
  {
    u := t.(carried := t.carried - {O_BUNNYSUIT}, gone := t.gone + {O_BUNNYSUIT}, suit := true);
    assert Places(u) == Places(t)[O_BUNNYSUIT := NONE];
    var turns, w := Now(t);
    WearIs(w);
    Next(turns, w, CmdWear("bunnysuit"), Wear(w, "bunnysuit").world, u);
  }

  lemma WearIs(w: World)
    requires Structure(w) && Present(w.s) && w.s.loc[O_BUNNYSUIT] == R_INVENTORY
    ensures Perform(w, CmdWear("bunnysuit"), false) == Wear(w, "bunnysuit")
    ensures Wear(w, "bunnysuit").world.s == w.s.(loc := w.s.loc[O_BUNNYSUIT := NONE], suit := true)
  {
  }

  lemma EatYogurt(t: Trip) returns (u: Trip)
    requires Reached(t) && t.at == R_IN_COCOMR
    ensures u == t.(eaten := true) && Reached(u)
  {
    u := t.(eaten := true);
    assert Places(u) == Places(t);
    var turns, w := Now(t);
    YogurtIs(w);
    Next(turns, w, CmdBuy("yogurt"), Buy(w, "yogurt").world, u);
  }

  lemma YogurtIs(w: World)
    requires Structure(w) && w.s.where == R_IN_COCOMR
    ensures Perform(w, CmdBuy("yogurt"), false) == Buy(w, "yogurt")
    ensures Buy(w, "yogurt").world.s == w.s.(eaten := true)
  {
    assert |"yogurt"| != |"dew"|;
  }

  lemma BorrowBook(t: Trip) returns (u: Trip)
    requires Reached(t) && t.at == R_RESERVE && t.eaten && O_BOOK_C !in t.carried
    ensures u == t.(carried := t.carried + {O_BOOK_C}) && Reached(u)
  {
    u := t.(carried := t.carried + {O_BOOK_C});
    assert Places(u) == Places(t)[O_BOOK_C := R_INVENTORY];
    var turns, w := Now(t);
    Absent(t, O_BOOK_C);
    BookIs(w);
    Next(turns, w, CmdGet("book"), Carry(w, O_BOOK_C), u);
  }

  lemma BookIs(w: World)
    requires Structure(w) && w.s.where == R_RESERVE && w.s.eaten && w.s.loc[O_BOOK_C] == NONE
    ensures Perform(w, CmdGet("book"), false).world == Carry(w, O_BOOK_C)
  {
  }

  lemma RaidedStatus(t: Trip)
    requires !t.open && !t.fixed && O_BATT_CAR !in t.carried
    ensures StatusOf(Raided(t)) ==
            SwapCar(StatusOf(t)).(loc := Places(t)[O_CAR_KEY := NONE][O_BATT_CAR := NONE][O_BATT_EMPTY := R_INVENTORY], open := true)
  {
    Absent(t, O_BATT_CAR);
    assert Places(Raided(t)) == Places(t)[O_CAR_KEY := NONE][O_BATT_CAR := NONE][O_BATT_EMPTY := R_INVENTORY];
  }

  lemma Raid(w: World, v: World)
    requires Structure(w) && Structure(v) && v.s == SwapCar(w.s).(loc := w.s.loc[O_CAR_KEY := NONE][O_BATT_CAR := R_CAR_SITE], open := true)
    ensures Carry(Remove(v, O_BATT_CAR), O_BATT_EMPTY).s ==
            SwapCar(w.s).(loc := w.s.loc[O_CAR_KEY := NONE][O_BATT_CAR := NONE][O_BATT_EMPTY := R_INVENTORY], open := true)
  {
    assert v.s.loc[O_BATT_CAR := NONE] == w.s.loc[O_CAR_KEY := NONE][O_BATT_CAR := NONE];
  }

  /** The key opens the car, and the battery is taken out. */
  lemma RaidCar(t: Trip) returns (u: Trip)
    requires Reached(t) && t.at == R_CAR_SITE && O_CAR_KEY in t.carried && !t.open && !t.fixed && O_BATT_CAR !in t.carried
    ensures u == Raided(t) && Reached(u)
  {
    u := Raided(t);
    RaidedStatus(t);
    var turns, w := Now(t);
    CarIs(w);
    var v := UseCar(w).world;
    Extend(turns, w, CmdUse("car"), v);
    Raid(w, v);
    BatteryIs(v);
    Next(turns + [Calm(CmdUse("car"))], v, CmdGet("battery"), Carry(Remove(v, O_BATT_CAR), O_BATT_EMPTY), u);
  }

  lemma CarIs(w: World)
    requires Structure(w) && w.s.where == R_CAR_SITE && w.s.loc[O_CAR_KEY] == R_INVENTORY && !w.s.open && !w.s.fixed
    ensures Perform(w, CmdUse("car"), false) == UseCar(w)
    ensures UseCar(w).world.s == SwapCar(w.s).(loc := w.s.loc[O_CAR_KEY := NONE][O_BATT_CAR := R_CAR_SITE], open := true)
  {
  }

  lemma BatteryIs(v: World)
    requires Structure(v) && v.s.where == R_CAR_SITE && v.s.loc[O_BATT_CAR] == R_CAR_SITE
    ensures Perform(v, CmdGet("battery"), false).world == Carry(Remove(v, O_BATT_CAR), O_BATT_EMPTY)
  {
  }

  lemma TradedPlaces(t: Trip, gone: int, come: int)
    requires IsObject(gone) && IsObject(come) && gone != come
    ensures Places(Traded(t, gone, come)) == Places(t)[gone := NONE][come := R_INVENTORY]
  {
  }

  lemma FlashRobot(t: Trip) returns (u: Trip)
    requires Reached(t) && t.at == R_IN_395LAB && O_ROBOT_DEAD in t.carried && O_ROBOT_LIVE !in t.carried
    ensures u == Traded(t, O_ROBOT_DEAD, O_ROBOT_LIVE) && Reached(u)
  {
    u := Traded(t, O_ROBOT_DEAD, O_ROBOT_LIVE);
    TradedPlaces(t, O_ROBOT_DEAD, O_ROBOT_LIVE);
    var turns, w := Now(t);
    Absent(t, O_ROBOT_LIVE);
    FlashIs(w);
    Next(turns, w, CmdFlash("robot"), Flash(w, "robot").world, u);
  }

  lemma FlashIs(w: World)
    requires Structure(w) && w.s.where == R_IN_395LAB && w.s.loc[O_ROBOT_DEAD] == R_INVENTORY && w.s.loc[O_ROBOT_LIVE] == NONE
    ensures Perform(w, CmdFlash("robot"), false) == Flash(w, "robot")
    ensures Flash(w, "robot").world.s == w.s.(loc := w.s.loc[O_ROBOT_DEAD := NONE][O_ROBOT_LIVE := R_INVENTORY])
  {
  }

  lemma ChargeBattery(t: Trip) returns (u: Trip)
    requires Reached(t) && t.at == R_BECK_MRI && O_BATT_EMPTY in t.carried && O_BATT_FULL !in t.carried
    ensures u == Traded(t, O_BATT_EMPTY, O_BATT_FULL) && Reached(u)
  {
    u := Traded(t, O_BATT_EMPTY, O_BATT_FULL);
    TradedPlaces(t, O_BATT_EMPTY, O_BATT_FULL);
    var turns, w := Now(t);
    Absent(t, O_BATT_FULL);
    ChargeIs(w);
    Next(turns, w, CmdCharge("battery"), Charge(w, "battery").world, u);
  }

  lemma ChargeIs(w: World)
    requires Structure(w) && w.s.where == R_BECK_MRI && w.s.loc[O_BATT_EMPTY] == R_INVENTORY && w.s.loc[O_BATT_FULL] == NONE
    ensures Perform(w, CmdCharge("battery"), false) == Charge(w, "battery")
    ensures Charge(w, "battery").world.s == w.s.(loc := w.s.loc[O_BATT_EMPTY := NONE][O_BATT_FULL := R_INVENTORY])
  {
  }

  lemma RepairedPlaces(t: Trip)
    ensures Places(Repaired(t)) == Places(t)[O_GPS_BAD := NONE][O_GPS_SPEC := NONE][O_GPS_GOOD := R_INVENTORY]
  {
  }

  lemma FixGps(t: Trip) returns (u: Trip)
    requires Reached(t) && t.at == R_IN_CLEANR && O_GPS_BAD in t.carried && O_GPS_SPEC in t.carried && O_GPS_GOOD !in t.carried
    ensures u == Repaired(t) && Reached(u)
  {
    u := Repaired(t);
    RepairedPlaces(t);
    var turns, w := Now(t);
    Absent(t, O_GPS_GOOD);
    FixIs(w);
    Next(turns, w, CmdFix("gps"), Fix(w, "gps").world, u);
  }

  lemma FixIs(w: World)
    requires Structure(w) && w.s.where == R_IN_CLEANR && w.s.loc[O_GPS_GOOD] == NONE
    requires w.s.loc[O_GPS_BAD] == R_INVENTORY && w.s.loc[O_GPS_SPEC] == R_INVENTORY
    ensures Perform(w, CmdFix("gps"), false) == Fix(w, "gps")
    ensures Fix(w, "gps").world.s == w.s.(loc := w.s.loc[O_GPS_BAD := NONE][O_GPS_SPEC := NONE][O_GPS_GOOD := R_INVENTORY])
  {
  }

  lemma InstallBatteryInCar(t: Trip) returns (u: Trip)
    requires Reached(t) && t.at == R_CAR_SITE && O_BATT_FULL in t.carried && O_BATT_EMPTY in t.gone && O_BATT_EMPTY !in t.carried
    requires t.open && !t.fixed
    ensures u == t.(carried := t.carried - {O_BATT_FULL}, gone := t.gone + {O_BATT_FULL}, fixed := true) && Reached(u)
  {
    u := t.(carried := t.carried - {O_BATT_FULL}, gone := t.gone + {O_BATT_FULL}, fixed := true);
    assert Places(u) == Places(t)[O_BATT_FULL := NONE];
    var turns, w := Now(t);
    BatteryInIs(w);
    Next(turns, w, CmdInstall("battery"), InstallBattery(w).world, u);
  }

  lemma BatteryInIs(w: World)
    requires Structure(w) && w.s.where == R_CAR_SITE && w.s.loc[O_BATT_FULL] == R_INVENTORY && w.s.loc[O_BATT_EMPTY] == NONE
    ensures Perform(w, CmdInstall("battery"), false) == InstallBattery(w)
    ensures InstallBattery(w).world.s == SwapCar(w.s.(loc := w.s.loc[O_BATT_FULL := NONE], fixed := true))
  {
  }

  /** Where the car goes from a room. */
  lemma Drive(t: Trip, arg: string, d: int) returns (u: Trip)
    requires Reached(t) && Outdoors(t)
    requires || (Same("allerton", arg) && d == R_ALLERTON && t.at == R_CAR_SITE && t.fixed && O_GPS_GOOD in t.carried)
             || (Same("willard", arg) && !Same("allerton", arg) && d == R_WILLARD && t.at == R_ALLERTON && t.fixed)
             || (Same("campus", arg) && !Same("allerton", arg) && !Same("willard", arg) && !Same("airport", arg) &&
                 d == R_CAR_SITE && t.at == R_WILLARD)
    ensures u == t.(at := d) && Reached(u)
  {
    u := t.(at := d);
    assert Places(u) == Places(t);
    var turns, w := Now(t);
    DriveIs(w, arg, d);
    Next(turns, w, CmdGo(arg), Go(w, arg).world, u);
  }

  lemma DriveIs(w: World, arg: string, d: int)
    requires Structure(w) && Present(w.s)
    requires || (Same("allerton", arg) && d == R_ALLERTON && w.s.where == R_CAR_SITE && w.s.fixed && w.s.loc[O_GPS_GOOD] == R_INVENTORY)
             || (Same("willard", arg) && !Same("allerton", arg) && d == R_WILLARD && w.s.where == R_ALLERTON && w.s.fixed)
             || (Same("campus", arg) && !Same("allerton", arg) && !Same("willard", arg) && !Same("airport", arg) &&
                 d == R_CAR_SITE && w.s.where == R_WILLARD)
    ensures Perform(w, CmdGo(arg), false) == Go(w, arg) && Go(w, arg).world.s == w.s.(where := d)
  {
  }

  lemma InstallMimo(t: Trip) returns (u: Trip)
    requires Reached(t) && t.at == R_COCKPIT && O_MIMO_CARD in t.carried
    ensures u == t.(carried := t.carried - {O_MIMO_CARD}, gone := t.gone + {O_MIMO_CARD}, flown := true) && Reached(u)
  {
    u := t.(carried := t.carried - {O_MIMO_CARD}, gone := t.gone + {O_MIMO_CARD}, flown := true);
    assert Places(u) == Places(t)[O_MIMO_CARD := NONE];
    var turns, w := Now(t);
    MimoIs(w);
    Next(turns, w, CmdInstall("mimo"), InstallCard(w).world, u);
  }

  lemma MimoIs(w: World)
    requires Structure(w) && w.s.where == R_COCKPIT && w.s.loc[O_MIMO_CARD] == R_INVENTORY
    ensures Perform(w, CmdInstall("mimo"), false) == InstallCard(w)
    ensures InstallCard(w).world.s == w.s.(loc := w.s.loc[O_MIMO_CARD := NONE], cockpit := R_OVER_WILL)
  {
    assert |"mimo"| != |"battery"|;
  }

  lemma TakeOff(t: Trip) returns (u: Trip)
    requires Reached(t) && t.at == R_COCKPIT && t.flown
    ensures u == t.(at := R_OVER_WILL) && Reached(u)
  {
    u := t.(at := R_OVER_WILL);
    assert Places(u) == Places(t);
    var turns, w := Now(t);
    EnterIs(w, R_OVER_WILL);
    Next(turns, w, CmdEnter, w.(s := w.s.(where := R_OVER_WILL)), u);
  }

  lemma CockpitExit()
    ensures RightOf(R_COCKPIT) == R_REM_PLANE
  {
  }

  lemma LeaveCockpit(t: Trip) returns (u: Trip)
    requires Reached(t) && t.at == R_COCKPIT
    ensures u == t.(at := R_REM_PLANE) && Reached(u)
  {
    u := t.(at := R_REM_PLANE);
    assert Places(u) == Places(t);
    var turns, w := Now(t);
    CockpitExit();
    RightIs(w, R_REM_PLANE);
    Next(turns, w, CmdRight, w.(s := w.s.(where := R_REM_PLANE)), u);
  }

  lemma Locked(r: int)
    requires r == R_BY_CLEANR || r == R_BY_395LAB || r == R_CSL_DOOR || r == R_BECK_DOOR
    ensures EnterOf(r) == NONE
  {
  }

  lemma UnlockIs(w: World, t: Trip, d: int)
    requires Shows(w, t) && Opens(t, d) && EnterOf(t.at) == NONE
    ensures Perform(w, CmdEnter, false).world == w.(s := w.s.(where := d))
  {
  }

  lemma Unlock(t: Trip, d: int) returns (u: Trip)
    requires Reached(t) && Opens(t, d)
    ensures u == t.(at := d) && Reached(u)
  {
    u := t.(at := d);
    assert Places(u) == Places(t);
    var turns, w := Now(t);
    Locked(t.at);
    UnlockIs(w, t, d);
    Next(turns, w, CmdEnter, w.(s := w.s.(where := d)), u);
  }

  lemma LureTux(t: Trip) returns (u: Trip)
    requires Reached(t) && t.at == R_REM_LAB && O_FISH in t.carried && O_TUX !in t.carried
    ensures u == Traded(t, O_FISH, O_TUX).(lured := true) && Reached(u)
  {
    u := Traded(t, O_FISH, O_TUX).(lured := true);
    TradedPlaces(t, O_FISH, O_TUX);
    assert Places(u) == Places(Traded(t, O_FISH, O_TUX));
    var turns, w := Now(t);
    FishIs(w);
    Next(turns, w, CmdUse("fish"), UseFish(w).world, u);
  }

  lemma FishIs(w: World)
    requires Structure(w) && w.s.where == R_REM_LAB && w.s.loc[O_FISH] == R_INVENTORY
    ensures Perform(w, CmdUse("fish"), false) == UseFish(w)
    ensures UseFish(w).world.s == w.s.(loc := w.s.loc[O_FISH := NONE][O_TUX := R_INVENTORY], lured := true)
  {
    assert |"fish"| != |"car"|;
  }

  // ------------------------------------------------------------ the end

  /** Only Tux answers to that name. */
  lemma OneTux(p: int)
    requires Same("tux", Name(p))
    ensures p == O_TUX
  {
    var n := Name(p);
    assert |n| == 3 && Lower(n[0]) == 't';
  }

  lemma DropTuxIs(w: World, t: Trip)
    requires Shows(w, t) && t.at == R_IN_391LAB && O_TUX in t.carried
    ensures Perform(w, CmdDrop("tux"), false).world == Insert(w, O_TUX, R_IN_391LAB)
  {
    var l := w.lists[R_INVENTORY];
    assert ListOk(l, w.s.loc, R_INVENTORY);
    forall p | p in l && Same("tux", Name(p))
      ensures p == O_TUX
    {
      OneTux(p);
    }
    FindOnly(l, "tux", O_TUX);
  }

  lemma DoIs(w: World)
    requires Structure(w) && w.s.where == R_IN_391LAB
    requires w.s.loc[O_BOOK_C] == R_INVENTORY && w.s.loc[O_MP2] == R_INVENTORY && w.s.loc[O_TUX] == R_IN_391LAB
    ensures Perform(w, CmdDo("mp2"), false).world.s.where == NONE
  {
  }

  lemma Finish(t: Trip) returns (turns: seq<Turn>)
    requires Reached(t) && t.at == R_IN_391LAB && O_TUX in t.carried && O_BOOK_C in t.carried && O_MP2 in t.carried
    ensures Play(Start(), turns).s.where == NONE
  {
    var first, w := Now(t);
    DropTuxIs(w, t);
    var v := Insert(w, O_TUX, R_IN_391LAB);
    Extend(first, w, CmdDrop("tux"), v);
    DoIs(v);
    turns := first + [Calm(CmdDrop("tux"))];
    Extend(turns, v, CmdDo("mp2"), Perform(v, CmdDo("mp2"), false).world);
    turns := turns + [Calm(CmdDo("mp2"))];
  }

  lemma Begin()
    ensures Reached(Nothing())
  {
    StartOk();
    forall o | IsObject(o)
      ensures Start().s.loc[o] == StartRoom(o)
    {
      BuiltAt(N_OBJECTS, o);
    }
    BuiltAt(N_OBJECTS, 0);
    assert Places(Nothing()) == Start().s.loc;
    assert Play(Start(), []) == Start();
    assert Shows(Play(Start(), []), Nothing());
  }

  lemma Shift(t: Trip, d: Deed)
    requires Reached(t) && Can(t, d) && (d.GoTo? || d.OpenDoor? || d.DriveTo? || d.TakeOff? || d.LeaveCockpit?)
    ensures Reached(Did(t, d))
  {
    match d {
      case GoTo(room) => var u := Walk(t, room);
      case OpenDoor(room) => var u := Unlock(t, room);
      case DriveTo(room) => var u := Drive(t, if room == R_ALLERTON then "allerton" else if room == R_WILLARD then "willard" else "campus", room);
      case TakeOff => var u := TakeOff(t);
      case LeaveCockpit => var u := LeaveCockpit(t);
    }
  }

  /** Every deed of the itinerary is a command, or two, of the game. */
  lemma DeedsPlay(t: Trip, d: Deed)
    requires Reached(t) && Can(t, d)
    ensures Reached(Did(t, d))
  {
    match d {
      case PickUp(o) => var u := Take(t, o);
      case WearSuit => var u := WearSuit(t);
      case EatYogurt => var u := EatYogurt(t);
      case BorrowBook => var u := BorrowBook(t);
      case RaidCar => var u := RaidCar(t);
      case FlashRobot => var u := FlashRobot(t);
      case ChargeBattery => var u := ChargeBattery(t);
      case FixGps => var u := FixGps(t);
      case InstallBatteryInCar => var u := InstallBatteryInCar(t);
      case InstallMimo => var u := InstallMimo(t);
      case LureTux => var u := LureTux(t);
      case _ => Shift(t, d);
    }
  }

  /** The points some game reaches are closed under the deeds. */
  lemma DeedsClosed() returns (R: Trip -> bool)
    ensures Closed(R) && R(Nothing()) && forall t :: R(t) ==> Reached(t)
  {
    Begin();
    R := (t: Trip) => Reached(t);
    forall t, d | R(t) && Can(t, d)
      ensures R(Did(t, d))
    {
      DeedsPlay(t, d);
    }
  }

  /** The game can be won from the start. */
  lemma Winnable()
    ensures exists turns :: Play(Start(), turns).s.where == NONE
  {
    var R := DeedsClosed();
    var t := Plan(R);
    var turns := Finish(t);
  }
}

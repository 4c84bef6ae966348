/** Games that can no longer be won: the Icard locks its own rooms. */
module WorldLost {
  import opened WorldMap
  import opened WorldGame
  import opened WorldProofs
  import opened WorldWin
  import Itinerary

  /** The rooms behind a door that only a carried Icard opens. */
  predicate Behind(r: int) { r == R_CSL_LOBBY || r == R_CSL_UPPER || r == R_CSLLOUNGE || r == R_IN_395LAB }

  lemma NoOtherWayIn(r: int)
    requires !Behind(r)
    ensures !Behind(LeftOf(r)) && !Behind(RightOf(r)) && !Behind(EnterOf(r))
  {
  }

  /** The Icard lies behind its own doors and the player is outside. */
  predicate Shut(s: Status) { |s.loc| == N_OBJECTS && !Behind(Standing(s)) && Behind(s.loc[O_ICARD]) }

  predicate Stays(s: Status, u: Status, o: int)
    requires |s.loc| == |u.loc| == N_OBJECTS && IsObject(o)
  {
    Behind(s.loc[o]) ==> u.loc[o] == s.loc[o]
  }

  /** The card itself, and the two things that must be carried to win: behind the doors they are where they were. */
  predicate StillThere(s: Status, u: Status)
    requires |s.loc| == |u.loc| == N_OBJECTS
  {
    Stays(s, u, O_ICARD) && Stays(s, u, O_MP2) && Stays(s, u, O_BOOK_C)
  }

  lemma ShutMove(s: Status, d: int, coin: bool)
    requires Shut(s) && !Behind(d) && d != R_INVENTORY
    ensures Shut(Arrive(s, d, coin)) && Arrive(s, d, coin).loc == s.loc
  {
  }

  lemma ShutDoor(s: Status, coin: bool)
    requires Shut(s) && Logic(s) && s.where != NONE && DoorOf(s, s.where) != NONE
    ensures Shut(Arrive(s, DoorOf(s, s.where), coin)) && Arrive(s, DoorOf(s, s.where), coin).loc == s.loc
  {
    var d := DoorOf(s, s.where);
    EnterIsEasy(s.where);
    if s.where != R_INVENTORY && s.where != R_COCKPIT {
      NoOtherWayIn(s.where);
    }
    ShutMove(s, d, coin);
  }

  lemma ShutSides(s: Status, coin: bool)
    requires Shut(s) && Logic(s) && s.where != NONE
    ensures LeftOf(s.where) != NONE ==> Shut(Arrive(s, LeftOf(s.where), coin)) && Arrive(s, LeftOf(s.where), coin).loc == s.loc
    ensures RightOf(s.where) != NONE ==> Shut(Arrive(s, RightOf(s.where), coin)) && Arrive(s, RightOf(s.where), coin).loc == s.loc
  {
    NoSideExits();
    LeftIsEasy(s.where);
    RightIsEasy(s.where);
    if s.where != R_INVENTORY {
      NoOtherWayIn(s.where);
    }
    if LeftOf(s.where) != NONE {
      ShutMove(s, LeftOf(s.where), coin);
    }
    if RightOf(s.where) != NONE {
      ShutMove(s, RightOf(s.where), coin);
    }
  }

  /** Only doing the assignment with book and write-up at hand ends the game. */
  predicate EndsRightly(s: Status, u: Status)
    requires |s.loc| == N_OBJECTS
  {
    u.where == NONE ==> s.loc[O_MP2] == R_INVENTORY && s.loc[O_BOOK_C] == R_INVENTORY
  }

  /** The player is still shut out, and nothing has been moved. */
  predicate Strolled(s: Status, u: Status)
    requires |s.loc| == N_OBJECTS
  {
    Shut(u) && u.loc == s.loc && EndsRightly(s, u)
  }

  lemma ShutGo(w: World, arg: string)
    requires Sized(w) && Shut(w.s) && w.s.where != NONE
    ensures Strolled(w.s, Go(w, arg).world.s)
  {
  }

  lemma ShutDo(w: World, arg: string)
    requires Sized(w) && Shut(w.s) && w.s.where != NONE
    ensures Strolled(w.s, Do(w, arg).world.s)
  {
  }

  lemma ShutMoveTo(w: World, d: int)
    requires Sized(w) && Shut(w.s) && !Behind(d) && d != R_INVENTORY && d != NONE
    ensures Strolled(w.s, MoveTo(w, d).world.s)
  {
  }

  lemma ShutDoorOf(w: World, coin: bool)
    requires Sized(w) && Logic(w.s) && Shut(w.s) && w.s.where != NONE && DoorOf(w.s, w.s.where) != NONE
    ensures Strolled(w.s, Goes(w, DoorOf(w.s, w.s.where), coin).world.s)
  {
    ShutDoor(w.s, coin);
  }

  lemma ShutEnter(w: World, coin: bool)
    requires Sized(w) && Logic(w.s) && Shut(w.s) && w.s.where != NONE
    ensures Strolled(w.s, TryEnter(w, coin).world.s)
  {
    if DoorOf(w.s, w.s.where) != NONE {
      ShutDoorOf(w, coin);
    } else {
      ShutMoveTo(w, R_IN_CLEANR);
      ShutMoveTo(w, R_BECKLOBBY);
    }
  }

  lemma ShutLook(w: World)
    requires Sized(w) && Shut(w.s) && Present(w.s)
    ensures Strolled(w.s, LookInside(w).world.s)
  {
  }

  lemma ShutLeft(w: World, coin: bool)
    requires Sized(w) && Shut(w.s) && Logic(w.s) && w.s.where != NONE
    ensures Strolled(w.s, MoveLeft(w, coin).world.s)
  {
    ShutSides(w.s, coin);
  }

  lemma ShutRight(w: World, coin: bool)
    requires Sized(w) && Shut(w.s) && Logic(w.s) && w.s.where != NONE
    ensures Strolled(w.s, MoveRight(w, coin).world.s)
  {
    ShutSides(w.s, coin);
  }

  /** Walking does not lead in, and moves nothing. */
  lemma ShutWalks(w: World, c: Command, coin: bool)
    requires Structure(w) && Logic(w.s) && Shut(w.s) && w.s.where != NONE && Walks(c)
    ensures Strolled(w.s, Perform(w, c, coin).world.s)
  {
    match c {
      case CmdLeft => ShutLeft(w, coin);
      case CmdEnter => ShutEnter(w, coin);
      case CmdRight => ShutRight(w, coin);
      case CmdDo(arg) => ShutDo(w, arg);
      case CmdGo(arg) => ShutGo(w, arg);
      case CmdInventory => ShutLook(w);
      case CmdSigh =>
    }
  }

  /** The player stays, and what lies behind the doors is not touched. */
  predicate Untouched(s: Status, u: Status)
    requires |s.loc| == N_OBJECTS
  {
    |u.loc| == N_OBJECTS && u.where == s.where && u.backpack == s.backpack && StillThere(s, u)
  }

  // Commands that move none of the three.

  lemma BuyLeaves(w: World, arg: string)
    requires Sized(w)
    ensures Untouched(w.s, Buy(w, arg).world.s)
  {
  }

  lemma DrinkLeaves(w: World, arg: string)
    requires Sized(w)
    ensures Untouched(w.s, Drink(w, arg).world.s)
  {
  }

  lemma WearLeaves(w: World, arg: string)
    requires Sized(w)
    ensures Untouched(w.s, Wear(w, arg).world.s)
  {
  }

  lemma ChargeLeaves(w: World, arg: string)
    requires Sized(w)
    ensures Untouched(w.s, Charge(w, arg).world.s)
  {
  }

  lemma FixLeaves(w: World, arg: string)
    requires Sized(w)
    ensures Untouched(w.s, Fix(w, arg).world.s)
  {
  }

  lemma FlashLeaves(w: World, arg: string)
    requires Sized(w)
    ensures Untouched(w.s, Flash(w, arg).world.s)
  {
  }

  lemma BatteryLeaves(w: World)
    requires Sized(w)
    ensures Untouched(w.s, InstallBattery(w).world.s)
  {
  }

  lemma CardLeaves(w: World)
    requires Sized(w)
    ensures Untouched(w.s, InstallCard(w).world.s)
  {
  }

  lemma CarLeaves(w: World)
    requires Sized(w)
    ensures Untouched(w.s, UseCar(w).world.s)
  {
  }

  lemma FishLeaves(w: World)
    requires Sized(w)
    ensures Untouched(w.s, UseFish(w).world.s)
  {
  }

  // Commands that move what lies at the player's feet or in the backpack.

  lemma DropLeaves(w: World, arg: string)
    requires Sized(w) && Shut(w.s) && Present(w.s)
    requires var o := FindIn(w.lists[R_INVENTORY], arg); o != NONE ==> IsObject(o) && w.s.loc[o] == R_INVENTORY
    ensures Untouched(w.s, Drop(w, arg).world.s)
  {
  }

  lemma CarryLeaves(w: World, o: int)
    requires Sized(w) && IsObject(o) && !Behind(w.s.loc[o])
    ensures Untouched(w.s, Carry(w, o).s)
  {
  }

  lemma BatteryOutLeaves(w: World)
    requires Sized(w)
    ensures Untouched(w.s, Carry(Remove(w, O_BATT_CAR), O_BATT_EMPTY).s)
  {
  }

  lemma GetLeaves(w: World, arg: string)
    requires Sized(w) && Shut(w.s) && Present(w.s)
    requires var o := FindIn(w.lists[Standing(w.s)], arg); o != NONE ==> IsObject(o) && w.s.loc[o] == Standing(w.s)
    ensures Untouched(w.s, Get(w, arg).world.s)
  {
    var src := Standing(w.s);
    var o := FindIn(w.lists[src], arg);
    if DeskBook(w.s, src, arg) != NONE {
      CarryLeaves(w, DeskBook(w.s, src, arg));
    } else if TakesBattery(w.s, src) {
      BatteryOutLeaves(w);
    } else if o != NONE {
      CarryLeaves(w, o);
    }
  }

  lemma ShutHandles(w: World, c: Command, coin: bool)
    requires Structure(w) && Shut(w.s) && Present(w.s) && Handles(c)
    ensures Untouched(w.s, Perform(w, c, coin).world.s)
  {
    match c {
      case CmdBuy(arg) => BuyLeaves(w, arg);
      case CmdDrink(arg) => DrinkLeaves(w, arg);
      case CmdDrop(arg) =>
        FoundExists(w, R_INVENTORY, arg);
        DropLeaves(w, arg);
      case CmdGet(arg) =>
        FoundExists(w, Standing(w.s), arg);
        GetLeaves(w, arg);
      case CmdWear(arg) => WearLeaves(w, arg);
    }
  }

  lemma ShutWorks(w: World, c: Command, coin: bool)
    requires Structure(w) && Present(w.s) && !Walks(c) && !Handles(c)
    ensures Untouched(w.s, Perform(w, c, coin).world.s)
  {
    match c {
      case CmdCharge(arg) => ChargeLeaves(w, arg);
      case CmdFix(arg) => FixLeaves(w, arg);
      case CmdFlash(arg) => FlashLeaves(w, arg);
      case CmdInstall(arg) =>
        BatteryLeaves(w);
        CardLeaves(w);
      case CmdUse(arg) =>
        CarLeaves(w);
        FishLeaves(w);
    }
  }

  /** Once shut out, no command opens the doors again or brings out what lies behind them. */
  lemma ShutKept(w: World, c: Command, coin: bool)
    requires Structure(w) && Logic(w.s) && Shut(w.s) && w.s.where != NONE
    ensures var u := Perform(w, c, coin).world.s; Shut(u) && StillThere(w.s, u) && EndsRightly(w.s, u)
  {
    if Walks(c) {
      ShutWalks(w, c, coin);
    } else if Handles(c) {
      ShutHandles(w, c, coin);
    } else {
      ShutWorks(w, c, coin);
    }
  }

  /** Shut out from something that winning takes. */
  predicate Hopeless(s: Status) { Shut(s) && (Behind(s.loc[O_MP2]) || Behind(s.loc[O_BOOK_C])) }

  /** A hopeless game stays hopeless and is never won, whatever the player does. */
  lemma {:induction false} NeverWon(w: World, turns: seq<Turn>)
    requires Structure(w) && Logic(w.s) && w.s.where != NONE && Hopeless(w.s)
    ensures Play(w, turns).s.where != NONE && Hopeless(Play(w, turns).s)
    decreases |turns|
  {
    if turns != [] {
      var v := Perform(w, turns[0].command, turns[0].coin).world;
      LogicKept(w, turns[0].command, turns[0].coin);
      StructureKept(w, turns[0].command, turns[0].coin);
      ShutKept(w, turns[0].command, turns[0].coin);
      NeverWon(v, turns[1..]);
    }
  }

  // ------------------------------------------------------------ such a game

  lemma LobbyPlaces()
    ensures var loc := Places(Itinerary.InLobby());
            loc[O_ICARD] == R_INVENTORY && loc[O_MP2] == R_CSLLOUNGE && forall o :: IsObject(o) && o != O_ICARD ==> loc[o] != R_INVENTORY
  {
  }

  lemma DropCard(w: World)
    requires Structure(w) && w.s.where == R_CSL_LOBBY && w.s.loc[O_ICARD] == R_INVENTORY
    requires forall o :: IsObject(o) && o != O_ICARD ==> w.s.loc[o] != R_INVENTORY
    ensures Perform(w, CmdDrop("icard"), false).world == Insert(w, O_ICARD, R_CSL_LOBBY)
  {
    assert ListOk(w.lists[R_INVENTORY], w.s.loc, R_INVENTORY);
    FindOnly(w.lists[R_INVENTORY], "icard", O_ICARD);
  }

  lemma LobbyExit()
    ensures EnterOf(R_CSL_LOBBY) == R_CSL_DOOR
  {
  }

  /** Dropping the card in the lobby and walking out. */
  lemma LockedOut() returns (turns: seq<Turn>)
    ensures Hopeless(Play(Start(), turns).s) && Play(Start(), turns).s.where != NONE
  {
    var R := DeedsClosed();
    Itinerary.Intrude(R);
    var first, w := Now(Itinerary.InLobby());
    LobbyPlaces();
    DropCard(w);
    var v := Insert(w, O_ICARD, R_CSL_LOBBY);
    Extend(first, w, CmdDrop("icard"), v);
    turns := first + [Calm(CmdDrop("icard"))];
    LobbyExit();
    EnterIs(v, R_CSL_DOOR);
    Extend(turns, v, CmdEnter, v.(s := v.s.(where := R_CSL_DOOR)));
    turns := turns + [Calm(CmdEnter)];
  }

  /** Some game, though not yet over, is lost: no continuation wins it. */
  lemma Losable() returns (turns: seq<Turn>)
    ensures Play(Start(), turns).s.where != NONE
    ensures forall more :: Play(Start(), turns + more).s.where != NONE
  {
    turns := LockedOut();
    EveryGame(turns);
    forall more
      ensures Play(Start(), turns + more).s.where != NONE
    {
      PlayAppend(Start(), turns, more);
      NeverWon(Play(Start(), turns), more);
    }
  }
}

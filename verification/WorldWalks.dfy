/** Getting around: the map row by row, the ways open to a player, and what taking them changes. */
module WorldWalks {
  import opened WorldMap
  import opened WorldGame
  import opened WorldProofs

  // ------------------------------------------------------------ the tables

  predicate Row(r: int, left: int, enter: int, right: int) { LeftOf(r) == left && EnterOf(r) == enter && RightOf(r) == right }

  /** Backpack, Everitt and Green Street. */
  lemma EverittRows()
    ensures Row(R_INVENTORY, NONE, NONE, NONE)
    ensures Row(R_IN_391LAB, NONE, R_BY_391LAB, NONE)
    ensures Row(R_BY_391LAB, R_BY_ZAS, R_IN_391LAB, R_BY_IEEE)
    ensures Row(R_IN_IEEE, NONE, R_BY_IEEE, NONE)
    ensures Row(R_BY_IEEE, R_BY_391LAB, R_IN_IEEE, R_BY_395LAB)
    ensures Row(R_IN_395LAB, NONE, R_BY_395LAB, NONE)
    ensures Row(R_BY_395LAB, R_BY_IEEE, NONE, R_EVT_STAIR)
    ensures Row(R_EVT_STAIR, R_BY_395LAB, R_EAST_EVRT, R_BY_CLEANR)
    ensures Row(R_IN_CLEANR, NONE, R_BY_CLEANR, NONE)
    ensures Row(R_BY_CLEANR, R_EVT_STAIR, NONE, R_EVRT_VEND)
    ensures Row(R_EVRT_VEND, R_BY_CLEANR, R_EVRT_BSMT, NONE)
    ensures Row(R_ALMAMATER, R_EAST_EVRT, R_EAST_EVRT, R_BY_COCOMR)
    ensures Row(R_IN_COCOMR, NONE, R_BY_COCOMR, NONE)
    ensures Row(R_BY_COCOMR, R_ALMAMATER, R_IN_COCOMR, R_BY_ZAS)
    ensures Row(R_BY_ZAS, R_BY_COCOMR, NONE, NONE)
    ensures Row(R_EAST_EVRT, R_ALMAMATER, R_EVT_STAIR, R_EVRT_BSMT)
    ensures Row(R_EVRT_BSMT, R_EAST_EVRT, R_EVRT_VEND, R_CIRCLE_SW)
  {
  }

  /** Bardeen Quad and around. */
  lemma QuadRows()
    ensures Row(R_WEST_BONE, R_CIRCLE_SW, NONE, R_CIRCLE_N)
    ensures Row(R_CIRCLE_N, R_WEST_BONE, R_TALBOT_NW, R_EAST_BONE)
    ensures Row(R_CIRCLE_SW, R_EAST_BONE, R_EVRT_BSMT, R_CIRCLE_N)
    ensures Row(R_EAST_BONE, R_CIRCLE_N, NONE, R_CIRCLE_SW)
    ensures Row(R_BARDEEN, R_LIB_BACK, R_EAST_BONE, R_TALBOT_SW)
    ensures Row(R_LIB_BACK, R_DCL, R_RESERVE, R_BARDEEN)
    ensures Row(R_RESERVE, NONE, R_LIB_BACK, R_LIB_FRONT)
    ensures Row(R_TALBOT_NW, R_CIRCLE_SW, R_TALBOT, R_TALBOT_SW)
    ensures Row(R_TALBOT_SW, R_TALBOT_NW, R_TALBOT, R_SPRINGFLD)
    ensures Row(R_TALBOT, NONE, R_TALBOT_NW, NONE)
    ensures Row(R_SPRINGFLD, R_TALBOT_SW, R_CARIBOU, R_KENNEY)
    ensures Row(R_CARIBOU, NONE, R_SPRINGFLD, NONE)
    ensures Row(R_KENNEY, R_SPRINGFLD, NONE, R_DCL)
    ensures Row(R_DCL, R_KENNEY, R_KENNEY_E, R_LIB_FRONT)
    ensures Row(R_LIB_FRONT, R_DCL, R_RESERVE, R_TALBOT_SW)
  {
  }

  /** CSL and around. */
  lemma NorthRows()
    ensures Row(R_KENNEY_E, R_DCL, R_DCL, R_NEWMARK)
    ensures Row(R_NEWMARK, R_MNTL_NW, NONE, R_KENNEY_E)
    ensures Row(R_MNTL_NW, R_NEWMARK, R_MNTLLOBBY, R_CSL_VIEW)
    ensures Row(R_MNTL_SW, R_MNTL_NW, R_MNTLLOBBY, R_BECKMAN)
    ensures Row(R_MNTLLOBBY, R_MNTL_LAB1, R_MNTL_SW, R_MNTL_LAB2)
    ensures Row(R_MNTL_LAB1, NONE, NONE, R_MNTLLOBBY)
    ensures Row(R_MNTL_LAB2, R_MNTLLOBBY, R_MNTL_LAB3, NONE)
    ensures Row(R_MNTL_LAB3, NONE, R_MNTL_LAB2, NONE)
    ensures Row(R_CSL_VIEW, R_BECK_LOT, R_CSL_DOOR, R_MNTL_NW)
    ensures Row(R_CSL_DOOR, R_BECK_LOT, NONE, R_MNTL_NW)
    ensures Row(R_CSL_LOBBY, R_CSL_UPPER, R_CSL_DOOR, NONE)
    ensures Row(R_CSL_UPPER, NONE, R_CSLLOUNGE, R_CSL_LOBBY)
    ensures Row(R_CSLLOUNGE, NONE, R_CSL_UPPER, NONE)
    ensures Row(R_BECK_LOT, R_BECKMAN, R_GARAGE, R_CSL_VIEW)
    ensures Row(R_BECKMAN, R_MNTL_SW, R_BECK_DOOR, R_BECK_LOT)
    ensures Row(R_BECK_DOOR, R_MNTL_SW, NONE, R_BECK_LOT)
    ensures Row(R_BECKLOBBY, NONE, R_BECK_MRI, R_BECK_DOOR)
    ensures Row(R_BECK_MRI, NONE, R_BECKLOBBY, NONE)
  {
  }

  /** The rest of the world. */
  lemma FarRows()
    ensures Row(R_GARAGE, R_BECK_LOT, R_CAR_SITE, NONE)
    ensures Row(R_CAR_SITE, NONE, R_GARAGE, NONE)
    ensures Row(R_ALLERTON, R_FU_DOGS, NONE, R_SUNSINGER)
    ensures Row(R_FU_DOGS, NONE, R_STATUE, R_ALLERTON)
    ensures Row(R_STATUE, NONE, R_FU_DOGS, NONE)
    ensures Row(R_SUNSINGER, R_ALLERTON, NONE, NONE)
    ensures Row(R_WILLARD, NONE, R_WILL_SIDE, NONE)
    ensures Row(R_WILL_SIDE, R_REM_PLANE, NONE, R_WILLARD)
    ensures Row(R_REM_PLANE, R_COCKPIT, NONE, R_WILL_SIDE)
    ensures Row(R_COCKPIT, NONE, NONE, R_REM_PLANE)
    ensures Row(R_OVER_WILL, NONE, R_COCKPIT, R_AIR_RIO)
    ensures Row(R_AIR_RIO, R_OVER_WILL, NONE, R_REM_ICE)
    ensures Row(R_REM_ICE, R_AIR_RIO, R_REM_LAB, NONE)
    ensures Row(R_REM_LAB, NONE, R_REM_ICE, NONE)
  {
  }

  predicate Item(o: int, name: string, room: int, x: int, y: int) {
    Name(o) == name && StartRoom(o) == room && StartX(o) == x && StartY(o) == y
  }

  lemma ItemRows()
    ensures Item(O_BOARD, "board", R_IN_IEEE, -1, -1) && Item(O_JETPACK, "jetpack", R_TALBOT, -1, -1)
    ensures Item(O_TUX, "tux", R_REM_LAB, 250, 100) && Item(O_MP2, "mp2", R_CSLLOUNGE, -1, -1)
    ensures Item(O_BOOK_C, "book", NONE, -1, -1) && Item(O_BOOK_WODE, "book", NONE, -1, -1)
    ensures Item(O_GPS_BAD, "gps", R_TALBOT, -1, -1) && Item(O_GPS_GOOD, "gps", NONE, -1, -1)
    ensures Item(O_GPS_SPEC, "spec", R_CSL_UPPER, -1, -1) && Item(O_BUNNYSUIT, "bunnysuit", R_ALMAMATER, 230, 250)
    ensures Item(O_BATT_EMPTY, "battery", NONE, -1, -1) && Item(O_BATT_FULL, "battery", NONE, -1, -1)
    ensures Item(O_BATT_CAR, "battery", NONE, -1, -1) && Item(O_MTN_DEW, "dew", NONE, -1, -1)
    ensures Item(O_FISH, "fish", R_EAST_BONE, 80, 260) && Item(O_ICARD, "Icard", R_BARDEEN, -1, -1)
    ensures Item(O_CAR_KEY, "key", R_CARIBOU, -1, -1) && Item(O_ROBOT_DEAD, "robot", R_MNTL_LAB3, -1, -1)
    ensures Item(O_ROBOT_LIVE, "robot", NONE, -1, -1) && Item(O_MIMO_CARD, "mimo", R_STATUE, -1, -1)
  {
  }

  // ------------------------------------------------------------ ways

  /** Doors that open to who has earned it. */
  predicate Unlocked(s: Status, d: int) {
    |s.loc| == N_OBJECTS &&
    (|| (s.where == R_BY_CLEANR && d == R_IN_CLEANR && s.suit)
     || (s.where == R_BY_395LAB && d == R_IN_395LAB && s.loc[O_ICARD] == R_INVENTORY)
     || (s.where == R_CSL_DOOR && d == R_CSL_LOBBY && s.loc[O_ICARD] == R_INVENTORY)
     || (s.where == R_BECK_DOOR && d == R_BECKLOBBY && s.loc[O_ROBOT_LIVE] == R_INVENTORY))
  }

  /** Drives; out of town only with the car fixed, to Allerton only with a working GPS. */
  predicate Drives(s: Status, arg: string, d: int) {
    && |s.loc| == N_OBJECTS && {s.where, d} <= {R_CAR_SITE, R_ALLERTON, R_WILLARD} && s.where != d
    && (d != R_CAR_SITE ==> s.fixed) && (d == R_ALLERTON ==> s.loc[O_GPS_GOOD] == R_INVENTORY)
    && (if d == R_ALLERTON then Same("allerton", arg)
        else if d == R_WILLARD then Same("willard", arg) || Same("airport", arg) else Same("campus", arg))
  }

  /** The ways a command can take a player; NONE is the way out of a won game. */
  predicate Way(s: Status, c: Command, d: int) {
    match c
    case CmdLeft => d == LeftOf(s.where) && d != NONE
    case CmdRight => d == RightOf(s.where) && d != NONE
    case CmdEnter =>
      || (d == EnterOf(s.where) && d != NONE) || (s.where == R_INVENTORY && d == s.backpack)
      || (s.where == R_COCKPIT && d == s.cockpit && d != NONE) || Unlocked(s, d)
    case CmdGo(arg) => Drives(s, arg, d)
    case CmdInventory => if s.where == R_INVENTORY then d == s.backpack else d == R_INVENTORY
    case CmdDo(arg) =>
      && d == NONE && |s.loc| == N_OBJECTS && (Same("391", arg) || Same("mp2", arg)) && s.where == R_IN_391LAB
      && s.loc[O_BOOK_C] == R_INVENTORY && s.loc[O_MP2] == R_INVENTORY && s.loc[O_TUX] == R_IN_391LAB
    case _ => false
  }

  /** The player is in d; opening the backpack remembers the room left, and a coin may swap the bridge's photos. */
  predicate Walked(w: World, r: Outcome, c: Command, d: int, coin: bool) {
    var swap := (c.CmdLeft? || c.CmdRight? || c.CmdEnter?) && d == R_CIRCLE_N && coin;
    && r.action == ChangeRoom && r.world.lists == w.lists
    && r.world.s == w.s.(where := d,
                         backpack := if c.CmdInventory? && w.s.where != R_INVENTORY then w.s.where else w.s.backpack,
                         circleView := if swap then w.s.circleSwap else w.s.circleView,
                         circleSwap := if swap then w.s.circleView else w.s.circleSwap)
  }

  lemma NoPlainDoor(r: int)
    requires r in {R_INVENTORY, R_COCKPIT, R_BY_CLEANR, R_BY_395LAB, R_CSL_DOOR, R_BECK_DOOR}
    ensures EnterOf(r) == NONE
  {
  }

  lemma EnterWay(w: World, coin: bool, d: int)
    requires Structure(w) && Present(w.s) && Way(w.s, CmdEnter, d)
    ensures Walked(w, TryEnter(w, coin), CmdEnter, d, coin)
  {
    if w.s.where in {R_INVENTORY, R_COCKPIT, R_BY_CLEANR, R_BY_395LAB, R_CSL_DOOR, R_BECK_DOOR} {
      NoPlainDoor(w.s.where);
    }
  }

  lemma GoWay(w: World, arg: string, coin: bool, d: int)
    requires Structure(w) && Drives(w.s, arg, d)
    ensures Walked(w, Go(w, arg), CmdGo(arg), d, coin)
  {
    assert {w.s.where, d} <= {R_CAR_SITE, R_ALLERTON, R_WILLARD};
    assert w.s.where in {w.s.where, d} && d in {w.s.where, d};
  }

  /** A way that is open is taken, and nothing but the player's place changes. */
  lemma WayTaken(w: World, c: Command, coin: bool, d: int)
    requires Structure(w) && Present(w.s) && Way(w.s, c, d)
    ensures Walked(w, Perform(w, c, coin), c, d, coin)
  {
    if c.CmdEnter? {
      EnterWay(w, coin, d);
    } else if c.CmdGo? {
      GoWay(w, c.arg, coin, d);
    }
  }

  /** A command that asks for a way where none is open changes nothing, but for the appetite of who sighs at the ruins. */
  lemma NoWay(w: World, c: Command, coin: bool)
    requires Structure(w) && Present(w.s) && Walks(c) && forall d :: !Way(w.s, c, d)
    ensures var r := Perform(w, c, coin);
            && (r.action == AllowEdit || r.action == DiscardText)
            && r.world == w.(s := w.s.(eaten := w.s.eaten || (c.CmdSigh? && w.s.where == R_BY_ZAS)))
  {
    assert Way(w.s, CmdInventory, if w.s.where == R_INVENTORY then w.s.backpack else R_INVENTORY);
    match c {
      case CmdLeft => assert !Way(w.s, c, LeftOf(w.s.where));
      case CmdRight => assert !Way(w.s, c, RightOf(w.s.where));
      case CmdEnter => NoDoor(w, coin);
      case CmdDo(arg) => assert !Way(w.s, c, NONE);
      case CmdGo(arg) => NoDrive(w, arg);
      case CmdInventory =>
      case CmdSigh =>
    }
  }

  lemma NoDoor(w: World, coin: bool)
    requires Structure(w) && Present(w.s) && forall d :: !Way(w.s, CmdEnter, d)
    ensures TryEnter(w, coin) == Outcome(w, AllowEdit)
  {
    var s := w.s;
    assert !Way(s, CmdEnter, EnterOf(s.where)) && !Way(s, CmdEnter, s.backpack) && !Way(s, CmdEnter, s.cockpit);
    assert !Way(s, CmdEnter, R_IN_CLEANR) && !Way(s, CmdEnter, R_IN_395LAB);
    assert !Way(s, CmdEnter, R_CSL_LOBBY) && !Way(s, CmdEnter, R_BECKLOBBY);
  }

  lemma NoDrive(w: World, arg: string)
    requires Structure(w) && forall d :: !Way(w.s, CmdGo(arg), d)
    ensures Go(w, arg).world == w && Go(w, arg).action != ChangeRoom && Go(w, arg).action != RedrawRoom
  {
    var s := w.s;
    assert !Way(s, CmdGo(arg), R_ALLERTON) && !Way(s, CmdGo(arg), R_WILLARD) && !Way(s, CmdGo(arg), R_CAR_SITE);
    assert !Drives(s, arg, R_ALLERTON) && !Drives(s, arg, R_WILLARD) && !Drives(s, arg, R_CAR_SITE);
  }

  /** Opening the backpack and closing it again gives back the world, but for the door remembered. */
  lemma LookTwice(w: World, coin: bool, again: bool)
    requires Structure(w) && Present(w.s) && w.s.where != R_INVENTORY
    ensures var v := Perform(w, CmdInventory, coin).world;
            && Structure(v) && Present(v.s)
            && Perform(v, CmdInventory, again).world == w.(s := w.s.(backpack := w.s.where))
  {
    StructureKept(w, CmdInventory, coin);
  }
}

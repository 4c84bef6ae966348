/** A walkthrough of the adventure as a chain of deeds, each allowed by what has been done before. */
module Itinerary {
  import opened WorldMap

  /** A point of the walkthrough: where the player is, what is carried, what is used up, what is done. */
  datatype Trip = Trip(at: int, carried: set<int>, gone: set<int>,
                       eaten: bool, suit: bool, open: bool, fixed: bool, lured: bool, flown: bool)

  predicate Outdoors(t: Trip) { 0 < t.at < N_ROOMS }

  predicate Exit(a: int, b: int) { b != NONE && (LeftOf(a) == b || RightOf(a) == b || EnterOf(a) == b) }

  function Raided(t: Trip): Trip {
    t.(carried := t.carried - {O_CAR_KEY} + {O_BATT_EMPTY}, gone := t.gone + {O_CAR_KEY}, open := true)
  }

  /** One carried object is used up and another comes. */
  function Traded(t: Trip, gone: int, come: int): Trip {
    t.(carried := t.carried - {gone} + {come}, gone := t.gone + {gone})
  }

  function Repaired(t: Trip): Trip {
    t.(carried := t.carried - {O_GPS_BAD, O_GPS_SPEC} + {O_GPS_GOOD}, gone := t.gone + {O_GPS_BAD, O_GPS_SPEC})
  }

  /** The locked doors and what opens them. */
  predicate Opens(t: Trip, d: int) {
    || (t.at == R_BY_CLEANR && t.suit && d == R_IN_CLEANR)
    || (t.at == R_BY_395LAB && O_ICARD in t.carried && d == R_IN_395LAB)
    || (t.at == R_CSL_DOOR && O_ICARD in t.carried && d == R_CSL_LOBBY)
    || (t.at == R_BECK_DOOR && O_ROBOT_LIVE in t.carried && d == R_BECKLOBBY)
  }

  datatype Deed =
    | GoTo(room: int)
    | OpenDoor(room: int)
    | DriveTo(room: int)
    | PickUp(object: int)
    | WearSuit
    | EatYogurt
    | BorrowBook
    | RaidCar
    | FlashRobot
    | ChargeBattery
    | FixGps
    | InstallBatteryInCar
    | InstallMimo
    | TakeOff
    | LeaveCockpit
    | LureTux

  predicate Untouched(t: Trip, o: int) { o !in t.carried && o !in t.gone }

  predicate Drives(t: Trip, d: int) {
    || (d == R_ALLERTON && t.at == R_CAR_SITE && t.fixed && O_GPS_GOOD in t.carried)
    || (d == R_WILLARD && t.at == R_ALLERTON && t.fixed)
    || (d == R_CAR_SITE && t.at == R_WILLARD)
  }

  predicate Can(t: Trip, d: Deed) {
    Outdoors(t) &&
    match d
    case GoTo(room) => t.at != R_COCKPIT && Exit(t.at, room)
    case OpenDoor(room) => Opens(t, room)
    case DriveTo(room) => Drives(t, room)
    case PickUp(o) =>
      IsObject(o) && o != O_TUX && StartRoom(o) == t.at && t.at != R_CAR_SITE && t.at != R_RESERVE && Untouched(t, o)
    case WearSuit => O_BUNNYSUIT in t.carried
    case EatYogurt => t.at == R_IN_COCOMR
    case BorrowBook => t.at == R_RESERVE && t.eaten && O_BOOK_C !in t.carried
    case RaidCar => t.at == R_CAR_SITE && O_CAR_KEY in t.carried && !t.open && !t.fixed && O_BATT_CAR !in t.carried
    case FlashRobot => t.at == R_IN_395LAB && O_ROBOT_DEAD in t.carried && O_ROBOT_LIVE !in t.carried
    case ChargeBattery => t.at == R_BECK_MRI && O_BATT_EMPTY in t.carried && O_BATT_FULL !in t.carried
    case FixGps => t.at == R_IN_CLEANR && O_GPS_BAD in t.carried && O_GPS_SPEC in t.carried && O_GPS_GOOD !in t.carried
    case InstallBatteryInCar =>
      t.at == R_CAR_SITE && O_BATT_FULL in t.carried && O_BATT_EMPTY in t.gone && O_BATT_EMPTY !in t.carried && t.open && !t.fixed
    case InstallMimo => t.at == R_COCKPIT && O_MIMO_CARD in t.carried
    case TakeOff => t.at == R_COCKPIT && t.flown
    case LeaveCockpit => t.at == R_COCKPIT
    case LureTux => t.at == R_REM_LAB && O_FISH in t.carried && O_TUX !in t.carried
  }

  function Did(t: Trip, d: Deed): Trip {
    match d
    case GoTo(room) => t.(at := room)
    case OpenDoor(room) => t.(at := room)
    case DriveTo(room) => t.(at := room)
    case PickUp(o) => t.(carried := t.carried + {o})
    case WearSuit => t.(carried := t.carried - {O_BUNNYSUIT}, gone := t.gone + {O_BUNNYSUIT}, suit := true)
    case EatYogurt => t.(eaten := true)
    case BorrowBook => t.(carried := t.carried + {O_BOOK_C})
    case RaidCar => Raided(t)
    case FlashRobot => Traded(t, O_ROBOT_DEAD, O_ROBOT_LIVE)
    case ChargeBattery => Traded(t, O_BATT_EMPTY, O_BATT_FULL)
    case FixGps => Repaired(t)
    case InstallBatteryInCar => t.(carried := t.carried - {O_BATT_FULL}, gone := t.gone + {O_BATT_FULL}, fixed := true)
    case InstallMimo => t.(carried := t.carried - {O_MIMO_CARD}, gone := t.gone + {O_MIMO_CARD}, flown := true)
    case TakeOff => t.(at := R_OVER_WILL)
    case LeaveCockpit => t.(at := R_REM_PLANE)
    case LureTux => Traded(t, O_FISH, O_TUX).(lured := true)
  }

  /** R holds along every deed. */
  ghost predicate Closed(R: Trip -> bool) { forall t, d {:trigger Can(t, d)} :: R(t) && Can(t, d) ==> R(Did(t, d)) }

  lemma Step(R: Trip -> bool, t: Trip, d: Deed) returns (u: Trip)
    requires Closed(R) && R(t) && Can(t, d)
    ensures u == Did(t, d) && R(u)
  {
    u := Did(t, d);
  }

  /** Rooms joined by plain exits. */
  ghost predicate Path(p: seq<int>) {
    forall i :: 0 <= i < |p| - 1 ==> 0 < p[i] < N_ROOMS && p[i] != R_COCKPIT && Exit(p[i], p[i + 1])
  }

  ghost predicate Joins(p: seq<int>, a: int, b: int) { Path(p) && p != [] && p[0] == a && p[|p| - 1] == b }

  lemma {:induction false} Journey(R: Trip -> bool, t: Trip, p: seq<int>, b: int) returns (u: Trip)
    requires Closed(R) && R(t) && Joins(p, t.at, b)
    ensures u == t.(at := b) && R(u)
    decreases |p|
  {
    u := t;
    if |p| > 1 {
      assert Exit(p[0], p[0 + 1]);
      u := Step(R, t, GoTo(p[1]));
      var rest := p[1..];
      forall i | 0 <= i < |rest| - 1
        ensures 0 < rest[i] < N_ROOMS && rest[i] != R_COCKPIT && Exit(rest[i], rest[i + 1])
      {
        assert Exit(p[i + 1], p[i + 1 + 1]);
      }
      u := Journey(R, u, rest, b);
    }
  }

  function Nothing(): Trip { Trip(R_EAST_EVRT, {}, {}, false, false, false, false, false, false) }

  // ------------------------------------------------------------ legs

  /** Suit, yogurt and fish. */
  lemma Dress(R: Trip -> bool, t: Trip) returns (u: Trip)
    requires Closed(R) && R(t) && t.at == R_EAST_EVRT
    requires {O_BUNNYSUIT} !! t.carried + t.gone
    ensures u == t.(at := R_EAST_EVRT, carried := u.carried, gone := t.gone + {O_BUNNYSUIT}, eaten := true, suit := true) && R(u)
    ensures u.carried == t.carried
  {
    u := t;
    u := Journey(R, u, [R_EAST_EVRT, R_ALMAMATER], R_ALMAMATER);
    u := Step(R, u, PickUp(O_BUNNYSUIT));
    u := Step(R, u, Deed.WearSuit);
    u := Journey(R, u, [R_ALMAMATER, R_BY_COCOMR, R_IN_COCOMR], R_IN_COCOMR);
    u := Step(R, u, Deed.EatYogurt);
    u := Journey(R, u, [R_IN_COCOMR, R_BY_COCOMR, R_ALMAMATER, R_EAST_EVRT], R_EAST_EVRT);
  }

  /** Along the Boneyard to Talbot. */
  lemma Fishing(R: Trip -> bool, t: Trip) returns (u: Trip)
    requires Closed(R) && R(t) && t.at == R_EAST_EVRT
    requires {O_FISH, O_GPS_BAD} !! t.carried + t.gone
    ensures u == t.(at := R_TALBOT, carried := t.carried + {O_FISH} + {O_GPS_BAD}) && R(u)
  {
    u := t;
    u := Journey(R, u, [R_EAST_EVRT, R_EVRT_BSMT, R_CIRCLE_SW, R_EAST_BONE], R_EAST_BONE);
    u := Step(R, u, PickUp(O_FISH));
    u := Journey(R, u, [R_EAST_BONE, R_CIRCLE_N, R_TALBOT_NW, R_TALBOT], R_TALBOT);
    u := Step(R, u, PickUp(O_GPS_BAD));
  }

  /** The car key from the ruins of Caribou. */
  lemma Digging(R: Trip -> bool, t: Trip) returns (u: Trip)
    requires Closed(R) && R(t) && t.at == R_TALBOT && Untouched(t, O_CAR_KEY)
    ensures u == t.(at := R_RESERVE, carried := t.carried + {O_CAR_KEY}) && R(u)
  {
    u := Journey(R, t, [R_TALBOT, R_TALBOT_NW, R_TALBOT_SW, R_SPRINGFLD, R_CARIBOU], R_CARIBOU);
    u := Step(R, u, PickUp(O_CAR_KEY));
    u := Journey(R, u, [R_CARIBOU, R_SPRINGFLD, R_KENNEY, R_DCL, R_LIB_FRONT, R_RESERVE], R_RESERVE);
  }

  /** The book and the card. */
  lemma Reading(R: Trip -> bool, t: Trip) returns (u: Trip)
    requires Closed(R) && R(t) && t.at == R_RESERVE && t.eaten && O_BOOK_C !in t.carried && Untouched(t, O_ICARD)
    ensures u == t.(at := R_BARDEEN, carried := t.carried + {O_BOOK_C} + {O_ICARD}) && R(u)
  {
    u := Step(R, t, Deed.BorrowBook);
    u := Journey(R, u, [R_RESERVE, R_LIB_BACK, R_BARDEEN], R_BARDEEN);
    u := Step(R, u, PickUp(O_ICARD));
  }

  /** The robot from the laser lab. */
  lemma Robotics(R: Trip -> bool, t: Trip) returns (u: Trip)
    requires Closed(R) && R(t) && t.at == R_BARDEEN
    requires {O_ROBOT_DEAD} !! t.carried + t.gone
    ensures u == t.(at := R_CSL_DOOR, carried := t.carried + {O_ROBOT_DEAD}) && R(u)
  {
    u := t;
    u := Journey(R, u, [R_BARDEEN, R_LIB_BACK, R_DCL, R_KENNEY_E, R_NEWMARK, R_MNTL_NW, R_MNTLLOBBY, R_MNTL_LAB2,
                        R_MNTL_LAB3], R_MNTL_LAB3);
    u := Step(R, u, PickUp(O_ROBOT_DEAD));
    u := Journey(R, u, [R_MNTL_LAB3, R_MNTL_LAB2, R_MNTLLOBBY, R_MNTL_SW, R_MNTL_NW, R_CSL_VIEW, R_CSL_DOOR], R_CSL_DOOR);
  }

  /** The data sheet from CSL. */
  lemma Upstairs(R: Trip -> bool, t: Trip) returns (u: Trip)
    requires Closed(R) && R(t) && t.at == R_CSL_DOOR && O_ICARD in t.carried && Untouched(t, O_GPS_SPEC)
    ensures u == t.(at := R_CSL_UPPER, carried := t.carried + {O_GPS_SPEC}) && R(u)
  {
    u := Step(R, t, OpenDoor(R_CSL_LOBBY));
    u := Journey(R, u, [R_CSL_LOBBY, R_CSL_UPPER], R_CSL_UPPER);
    u := Step(R, u, PickUp(O_GPS_SPEC));
  }

  /** The assignment, and out again. */
  lemma Lounging(R: Trip -> bool, t: Trip) returns (u: Trip)
    requires Closed(R) && R(t) && t.at == R_CSL_UPPER && Untouched(t, O_MP2)
    ensures u == t.(at := R_BECK_LOT, carried := t.carried + {O_MP2}) && R(u)
  {
    u := Journey(R, t, [R_CSL_UPPER, R_CSLLOUNGE], R_CSLLOUNGE);
    u := Step(R, u, PickUp(O_MP2));
    u := Journey(R, u, [R_CSLLOUNGE, R_CSL_UPPER, R_CSL_LOBBY, R_CSL_DOOR, R_BECK_LOT], R_BECK_LOT);
  }

  /** The battery out of the car. */
  lemma Parking(R: Trip -> bool, t: Trip) returns (u: Trip)
    requires Closed(R) && R(t) && t.at == R_BECK_LOT && !t.open && !t.fixed
    requires {O_CAR_KEY} <= t.carried
    requires {O_BATT_CAR} !! t.carried + t.gone
    ensures u == Raided(t) && R(u)
  {
    u := t;
    u := Journey(R, u, [R_BECK_LOT, R_GARAGE, R_CAR_SITE], R_CAR_SITE);
    u := Step(R, u, Deed.RaidCar);
    u := Journey(R, u, [R_CAR_SITE, R_GARAGE, R_BECK_LOT], R_BECK_LOT);
  }

  /** From the Beckman lot back to Everitt. */
  lemma Homeward(R: Trip -> bool, t: Trip) returns (u: Trip)
    requires Closed(R) && R(t) && t.at == R_BECK_LOT
    ensures u == t.(at := R_BY_395LAB) && R(u)
  {
    u := t;
    u := Journey(R, u, [R_BECK_LOT, R_CSL_VIEW, R_MNTL_NW, R_NEWMARK, R_KENNEY_E, R_DCL, R_LIB_FRONT, R_TALBOT_SW,
                        R_TALBOT_NW, R_CIRCLE_SW, R_EVRT_BSMT, R_EAST_EVRT, R_EVT_STAIR, R_BY_395LAB], R_BY_395LAB);
  }

  /** The robot is flashed and the GPS repaired. */
  lemma Tinkering(R: Trip -> bool, t: Trip) returns (u: Trip)
    requires Closed(R) && R(t) && t.at == R_BY_395LAB && t.suit
    requires {O_ICARD, O_ROBOT_DEAD, O_GPS_BAD, O_GPS_SPEC} <= t.carried
    requires {O_ROBOT_LIVE, O_GPS_GOOD} !! t.carried + t.gone
    ensures u == Repaired(Traded(t, O_ROBOT_DEAD, O_ROBOT_LIVE)).(at := R_EAST_EVRT) && R(u)
  {
    u := t;
    u := Step(R, u, OpenDoor(R_IN_395LAB));
    u := Step(R, u, Deed.FlashRobot);
    u := Journey(R, u, [R_IN_395LAB, R_BY_395LAB, R_EVT_STAIR, R_BY_CLEANR], R_BY_CLEANR);
    u := Step(R, u, OpenDoor(R_IN_CLEANR));
    u := Step(R, u, Deed.FixGps);
    u := Journey(R, u, [R_IN_CLEANR, R_BY_CLEANR, R_EVT_STAIR, R_EAST_EVRT], R_EAST_EVRT);
  }

  /** From Everitt to the Beckman door. */
  lemma Outward(R: Trip -> bool, t: Trip) returns (u: Trip)
    requires Closed(R) && R(t) && t.at == R_EAST_EVRT
    ensures u == t.(at := R_BECK_DOOR) && R(u)
  {
    u := t;
    u := Journey(R, u, [R_EAST_EVRT, R_EVRT_BSMT, R_CIRCLE_SW, R_CIRCLE_N, R_TALBOT_NW, R_TALBOT_SW, R_SPRINGFLD,
                        R_KENNEY, R_DCL, R_KENNEY_E, R_NEWMARK, R_MNTL_NW, R_CSL_VIEW, R_BECK_LOT, R_BECKMAN,
                        R_BECK_DOOR], R_BECK_DOOR);
  }

  /** The magnet charges the battery, the battery fixes the car. */
  lemma Charging(R: Trip -> bool, t: Trip) returns (u: Trip)
    requires Closed(R) && R(t) && t.at == R_BECK_DOOR && t.open && !t.fixed
    requires {O_ROBOT_LIVE, O_BATT_EMPTY} <= t.carried
    requires {O_BATT_FULL} !! t.carried + t.gone
    ensures u == Traded(t, O_BATT_EMPTY, O_BATT_FULL).(at := R_CAR_SITE, carried := t.carried - {O_BATT_EMPTY} + {O_BATT_FULL} - {O_BATT_FULL},
                                                       gone := t.gone + {O_BATT_EMPTY} + {O_BATT_FULL}, fixed := true)
    ensures R(u)
  {
    u := t;
    u := Step(R, u, OpenDoor(R_BECKLOBBY));
    u := Journey(R, u, [R_BECKLOBBY, R_BECK_MRI], R_BECK_MRI);
    u := Step(R, u, Deed.ChargeBattery);
    u := Journey(R, u, [R_BECK_MRI, R_BECKLOBBY, R_BECK_DOOR, R_BECK_LOT, R_GARAGE, R_CAR_SITE], R_CAR_SITE);
    u := Step(R, u, Deed.InstallBatteryInCar);
  }

  /** Allerton for the card. */
  lemma Driving(R: Trip -> bool, t: Trip) returns (u: Trip)
    requires Closed(R) && R(t) && t.at == R_CAR_SITE && t.fixed && O_GPS_GOOD in t.carried && Untouched(t, O_MIMO_CARD)
    ensures u == t.(at := R_ALLERTON, carried := t.carried + {O_MIMO_CARD}) && R(u)
  {
    u := Step(R, t, DriveTo(R_ALLERTON));
    u := Journey(R, u, [R_ALLERTON, R_FU_DOGS, R_STATUE], R_STATUE);
    u := Step(R, u, PickUp(O_MIMO_CARD));
    u := Journey(R, u, [R_STATUE, R_FU_DOGS, R_ALLERTON], R_ALLERTON);
  }

  /** The airport, and off. */
  lemma Boarding(R: Trip -> bool, t: Trip) returns (u: Trip)
    requires Closed(R) && R(t) && t.at == R_ALLERTON && t.fixed && O_MIMO_CARD in t.carried
    ensures u == t.(at := R_OVER_WILL, carried := t.carried - {O_MIMO_CARD}, gone := t.gone + {O_MIMO_CARD}, flown := true)
    ensures R(u)
  {
    u := Step(R, t, DriveTo(R_WILLARD));
    u := Journey(R, u, [R_WILLARD, R_WILL_SIDE, R_REM_PLANE, R_COCKPIT], R_COCKPIT);
    u := Step(R, u, Deed.InstallMimo);
    u := Step(R, u, Deed.TakeOff);
  }

  /** Over the ice to Tux and back. */
  lemma Flying(R: Trip -> bool, t: Trip) returns (u: Trip)
    requires Closed(R) && R(t) && t.at == R_OVER_WILL && O_FISH in t.carried && O_TUX !in t.carried
    ensures u == Traded(t, O_FISH, O_TUX).(at := R_COCKPIT, lured := true) && R(u)
  {
    u := Journey(R, t, [R_OVER_WILL, R_AIR_RIO, R_REM_ICE, R_REM_LAB], R_REM_LAB);
    u := Step(R, u, Deed.LureTux);
    u := Journey(R, u, [R_REM_LAB, R_REM_ICE, R_AIR_RIO, R_OVER_WILL, R_COCKPIT], R_COCKPIT);
  }

  /** From the plane back to campus. */
  lemma Landing(R: Trip -> bool, t: Trip) returns (u: Trip)
    requires Closed(R) && R(t) && t.at == R_COCKPIT
    ensures u == t.(at := R_BECK_LOT) && R(u)
  {
    u := Step(R, t, Deed.LeaveCockpit);
    u := Journey(R, u, [R_REM_PLANE, R_WILL_SIDE, R_WILLARD], R_WILLARD);
    u := Step(R, u, DriveTo(R_CAR_SITE));
    u := Journey(R, u, [R_CAR_SITE, R_GARAGE, R_BECK_LOT], R_BECK_LOT);
  }

  function Gathered(): Trip {
    Trip(R_BECK_LOT, {O_FISH, O_GPS_BAD, O_CAR_KEY, O_BOOK_C, O_ICARD, O_ROBOT_DEAD, O_GPS_SPEC, O_MP2}, {O_BUNNYSUIT},
         true, true, false, false, false, false)
  }

  /** Collecting what lies around on campus. */
  lemma Gather(R: Trip -> bool)
    requires Closed(R) && R(Nothing())
    ensures R(Gathered())
  {
    var t := Dress(R, Nothing());
    t := Fishing(R, t);
    t := Digging(R, t);
    t := Reading(R, t);
    t := Robotics(R, t);
    t := Upstairs(R, t);
    t := Lounging(R, t);
    assert t == Gathered();
  }

  function Equipped(): Trip {
    Trip(R_EAST_EVRT, {O_FISH, O_BOOK_C, O_ICARD, O_MP2, O_BATT_EMPTY, O_ROBOT_LIVE, O_GPS_GOOD},
         {O_BUNNYSUIT, O_CAR_KEY, O_ROBOT_DEAD, O_GPS_BAD, O_GPS_SPEC}, true, true, true, false, false, false)
  }

  /** Making the robot and the GPS work. */
  lemma Equip(R: Trip -> bool)
    requires Closed(R) && R(Gathered())
    ensures R(Equipped())
  {
    var t := Parking(R, Gathered());
    t := Homeward(R, t);
    t := Tinkering(R, t);
    assert t == Equipped();
  }

  function Mobile(): Trip {
    Trip(R_CAR_SITE, {O_FISH, O_BOOK_C, O_ICARD, O_MP2, O_ROBOT_LIVE, O_GPS_GOOD},
         {O_BUNNYSUIT, O_CAR_KEY, O_ROBOT_DEAD, O_GPS_BAD, O_GPS_SPEC, O_BATT_EMPTY, O_BATT_FULL},
         true, true, true, true, false, false)
  }

  lemma Mobilise(R: Trip -> bool)
    requires Closed(R) && R(Equipped())
    ensures R(Mobile())
  {
    var t := Outward(R, Equipped());
    t := Charging(R, t);
    assert t == Mobile();
  }

  /** Everything reachable by deeds includes the laboratory with Tux, the book and the assignment. */
  lemma Plan(R: Trip -> bool) returns (t: Trip)
    requires Closed(R) && R(Nothing())
    ensures R(t) && t.at == R_IN_391LAB && O_TUX in t.carried && O_BOOK_C in t.carried && O_MP2 in t.carried
  {
    Gather(R);
    Equip(R);
    Mobilise(R);
    t := Driving(R, Mobile());
    t := Boarding(R, t);
    t := Flying(R, t);
    t := Landing(R, t);
    t := Homeward(R, t);
    t := Journey(R, t, [R_BY_395LAB, R_BY_IEEE, R_BY_391LAB, R_IN_391LAB], R_IN_391LAB);
  }

  function InLobby(): Trip { Nothing().(at := R_CSL_LOBBY, carried := {O_ICARD}) }

  /** Another way to begin: straight for the Icard and into CSL. */
  lemma Intrude(R: Trip -> bool)
    requires Closed(R) && R(Nothing())
    ensures R(InLobby())
  {
    var t := Fetch(R, Nothing());
    t := Journey(R, t, [R_BARDEEN, R_LIB_BACK, R_DCL, R_KENNEY_E, R_NEWMARK, R_MNTL_NW, R_CSL_VIEW, R_CSL_DOOR], R_CSL_DOOR);
    t := Step(R, t, OpenDoor(R_CSL_LOBBY));
    assert t == InLobby();
  }

  lemma Fetch(R: Trip -> bool, t: Trip) returns (u: Trip)
    requires Closed(R) && R(t) && t.at == R_EAST_EVRT && Untouched(t, O_ICARD)
    ensures u == t.(at := R_BARDEEN, carried := t.carried + {O_ICARD}) && R(u)
  {
    u := Journey(R, t, [R_EAST_EVRT, R_EVRT_BSMT, R_CIRCLE_SW, R_CIRCLE_N, R_TALBOT_NW, R_TALBOT_SW, R_SPRINGFLD, R_KENNEY,
                        R_DCL, R_LIB_FRONT, R_RESERVE, R_LIB_BACK, R_BARDEEN], R_BARDEEN);
    u := Step(R, u, PickUp(O_ICARD));
  }
}

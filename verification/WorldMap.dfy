/** The map of the adventure: rooms, exits, objects and where they start. */
module WorldMap {
  const NONE := -1

  // rooms
  const R_INVENTORY := 0
  const R_IN_391LAB := 1
  const R_BY_391LAB := 2
  const R_IN_IEEE := 3
  const R_BY_IEEE := 4
  const R_IN_395LAB := 5
  const R_BY_395LAB := 6
  const R_EVT_STAIR := 7
  const R_IN_CLEANR := 8
  const R_BY_CLEANR := 9
  const R_EVRT_VEND := 10
  const R_ALMAMATER := 11
  const R_IN_COCOMR := 12
  const R_BY_COCOMR := 13
  const R_BY_ZAS := 14
  const R_EAST_EVRT := 15
  const R_EVRT_BSMT := 16
  const R_WEST_BONE := 17
  const R_CIRCLE_N := 18
  const R_CIRCLE_SW := 19
  const R_EAST_BONE := 20
  const R_BARDEEN := 21
  const R_LIB_BACK := 22
  const R_RESERVE := 23
  const R_TALBOT_NW := 24
  const R_TALBOT_SW := 25
  const R_TALBOT := 26
  const R_SPRINGFLD := 27
  const R_CARIBOU := 28
  const R_KENNEY := 29
  const R_DCL := 30
  const R_LIB_FRONT := 31
  const R_KENNEY_E := 32
  const R_NEWMARK := 33
  const R_MNTL_NW := 34
  const R_MNTL_SW := 35
  const R_MNTLLOBBY := 36
  const R_MNTL_LAB1 := 37
  const R_MNTL_LAB2 := 38
  const R_MNTL_LAB3 := 39
  const R_CSL_VIEW := 40
  const R_CSL_DOOR := 41
  const R_CSL_LOBBY := 42
  const R_CSL_UPPER := 43
  const R_CSLLOUNGE := 44
  const R_BECK_LOT := 45
  const R_BECKMAN := 46
  const R_BECK_DOOR := 47
  const R_BECKLOBBY := 48
  const R_BECK_MRI := 49
  const R_GARAGE := 50
  const R_CAR_SITE := 51
  const R_ALLERTON := 52
  const R_FU_DOGS := 53
  const R_STATUE := 54
  const R_SUNSINGER := 55
  const R_WILLARD := 56
  const R_WILL_SIDE := 57
  const R_REM_PLANE := 58
  const R_COCKPIT := 59
  const R_OVER_WILL := 60
  const R_AIR_RIO := 61
  const R_REM_ICE := 62
  const R_REM_LAB := 63
  const N_ROOMS := 64

  // objects
  const O_BOARD := 0
  const O_JETPACK := 1
  const O_TUX := 2
  const O_MP2 := 3
  const O_BOOK_C := 4
  const O_BOOK_WODE := 5
  const O_GPS_BAD := 6
  const O_GPS_GOOD := 7
  const O_GPS_SPEC := 8
  const O_BUNNYSUIT := 9
  const O_BATT_EMPTY := 10
  const O_BATT_FULL := 11
  const O_BATT_CAR := 12
  const O_MTN_DEW := 13
  const O_FISH := 14
  const O_ICARD := 15
  const O_CAR_KEY := 16
  const O_ROBOT_DEAD := 17
  const O_ROBOT_LIVE := 18
  const O_MIMO_CARD := 19
  const N_OBJECTS := 20

  predicate IsRoom(r: int) { 0 <= r < N_ROOMS }

  predicate IsObject(o: int) { 0 <= o < N_OBJECTS }

  /** The room to the left, or NONE. */
  function LeftOf(r: int): int {
    if r < R_EVRT_BSMT then
      (if r == R_BY_391LAB then R_BY_ZAS
       else if r == R_BY_IEEE then R_BY_391LAB
       else if r == R_BY_395LAB then R_BY_IEEE
       else if r == R_EVT_STAIR then R_BY_395LAB
       else if r == R_BY_CLEANR then R_EVT_STAIR
       else if r == R_EVRT_VEND then R_BY_CLEANR
       else if r == R_ALMAMATER then R_EAST_EVRT
       else if r == R_BY_COCOMR then R_ALMAMATER
       else if r == R_BY_ZAS then R_BY_COCOMR
       else if r == R_EAST_EVRT then R_ALMAMATER
       else NONE)
    else if r < R_KENNEY_E then
      (if r == R_EVRT_BSMT then R_EAST_EVRT
       else if r == R_WEST_BONE then R_CIRCLE_SW
       else if r == R_CIRCLE_N then R_WEST_BONE
       else if r == R_CIRCLE_SW then R_EAST_BONE
       else if r == R_EAST_BONE then R_CIRCLE_N
       else if r == R_BARDEEN then R_LIB_BACK
       else if r == R_LIB_BACK then R_DCL
       else if r == R_TALBOT_NW then R_CIRCLE_SW
       else if r == R_TALBOT_SW then R_TALBOT_NW
       else if r == R_SPRINGFLD then R_TALBOT_SW
       else if r == R_KENNEY then R_SPRINGFLD
       else if r == R_DCL then R_KENNEY
       else if r == R_LIB_FRONT then R_DCL
       else NONE)
    else if r < R_BECKLOBBY then
      (if r == R_KENNEY_E then R_DCL
       else if r == R_NEWMARK then R_MNTL_NW
       else if r == R_MNTL_NW then R_NEWMARK
       else if r == R_MNTL_SW then R_MNTL_NW
       else if r == R_MNTLLOBBY then R_MNTL_LAB1
       else if r == R_MNTL_LAB2 then R_MNTLLOBBY
       else if r == R_CSL_VIEW then R_BECK_LOT
       else if r == R_CSL_DOOR then R_BECK_LOT
       else if r == R_CSL_LOBBY then R_CSL_UPPER
       else if r == R_BECK_LOT then R_BECKMAN
       else if r == R_BECKMAN then R_MNTL_SW
       else if r == R_BECK_DOOR then R_MNTL_SW
       else NONE)
    else
      (if r == R_GARAGE then R_BECK_LOT
       else if r == R_ALLERTON then R_FU_DOGS
       else if r == R_SUNSINGER then R_ALLERTON
       else if r == R_WILL_SIDE then R_REM_PLANE
       else if r == R_REM_PLANE then R_COCKPIT
       else if r == R_AIR_RIO then R_OVER_WILL
       else if r == R_REM_ICE then R_AIR_RIO
       else NONE)
  }

  /** The room a door leads to when nothing changes it, or NONE. */
  function EnterOf(r: int): int {
    if r < R_EVRT_BSMT then
      (if r == R_IN_391LAB then R_BY_391LAB
       else if r == R_BY_391LAB then R_IN_391LAB
       else if r == R_IN_IEEE then R_BY_IEEE
       else if r == R_BY_IEEE then R_IN_IEEE
       else if r == R_IN_395LAB then R_BY_395LAB
       else if r == R_EVT_STAIR then R_EAST_EVRT
       else if r == R_IN_CLEANR then R_BY_CLEANR
       else if r == R_EVRT_VEND then R_EVRT_BSMT
       else if r == R_ALMAMATER then R_EAST_EVRT
       else if r == R_IN_COCOMR then R_BY_COCOMR
       else if r == R_BY_COCOMR then R_IN_COCOMR
       else if r == R_EAST_EVRT then R_EVT_STAIR
       else NONE)
    else if r < R_KENNEY_E then
      (if r == R_EVRT_BSMT then R_EVRT_VEND
       else if r == R_CIRCLE_N then R_TALBOT_NW
       else if r == R_CIRCLE_SW then R_EVRT_BSMT
       else if r == R_BARDEEN then R_EAST_BONE
       else if r == R_LIB_BACK then R_RESERVE
       else if r == R_RESERVE then R_LIB_BACK
       else if r == R_TALBOT_NW then R_TALBOT
       else if r == R_TALBOT_SW then R_TALBOT
       else if r == R_TALBOT then R_TALBOT_NW
       else if r == R_SPRINGFLD then R_CARIBOU
       else if r == R_CARIBOU then R_SPRINGFLD
       else if r == R_DCL then R_KENNEY_E
       else if r == R_LIB_FRONT then R_RESERVE
       else NONE)
    else if r < R_BECKLOBBY then
      (if r == R_KENNEY_E then R_DCL
       else if r == R_MNTL_NW then R_MNTLLOBBY
       else if r == R_MNTL_SW then R_MNTLLOBBY
       else if r == R_MNTLLOBBY then R_MNTL_SW
       else if r == R_MNTL_LAB2 then R_MNTL_LAB3
       else if r == R_MNTL_LAB3 then R_MNTL_LAB2
       else if r == R_CSL_VIEW then R_CSL_DOOR
       else if r == R_CSL_LOBBY then R_CSL_DOOR
       else if r == R_CSL_UPPER then R_CSLLOUNGE
       else if r == R_CSLLOUNGE then R_CSL_UPPER
       else if r == R_BECK_LOT then R_GARAGE
       else if r == R_BECKMAN then R_BECK_DOOR
       else NONE)
    else
      (if r == R_BECKLOBBY then R_BECK_MRI
       else if r == R_BECK_MRI then R_BECKLOBBY
       else if r == R_GARAGE then R_CAR_SITE
       else if r == R_CAR_SITE then R_GARAGE
       else if r == R_FU_DOGS then R_STATUE
       else if r == R_STATUE then R_FU_DOGS
       else if r == R_WILLARD then R_WILL_SIDE
       else if r == R_OVER_WILL then R_COCKPIT
       else if r == R_REM_ICE then R_REM_LAB
       else if r == R_REM_LAB then R_REM_ICE
       else NONE)
  }

  /** The room to the right, or NONE. */
  function RightOf(r: int): int {
    if r < R_EVRT_BSMT then
      (if r == R_BY_391LAB then R_BY_IEEE
       else if r == R_BY_IEEE then R_BY_395LAB
       else if r == R_BY_395LAB then R_EVT_STAIR
       else if r == R_EVT_STAIR then R_BY_CLEANR
       else if r == R_BY_CLEANR then R_EVRT_VEND
       else if r == R_ALMAMATER then R_BY_COCOMR
       else if r == R_BY_COCOMR then R_BY_ZAS
       else if r == R_EAST_EVRT then R_EVRT_BSMT
       else NONE)
    else if r < R_KENNEY_E then
      (if r == R_EVRT_BSMT then R_CIRCLE_SW
       else if r == R_WEST_BONE then R_CIRCLE_N
       else if r == R_CIRCLE_N then R_EAST_BONE
       else if r == R_CIRCLE_SW then R_CIRCLE_N
       else if r == R_EAST_BONE then R_CIRCLE_SW
       else if r == R_BARDEEN then R_TALBOT_SW
       else if r == R_LIB_BACK then R_BARDEEN
       else if r == R_RESERVE then R_LIB_FRONT
       else if r == R_TALBOT_NW then R_TALBOT_SW
       else if r == R_TALBOT_SW then R_SPRINGFLD
       else if r == R_SPRINGFLD then R_KENNEY
       else if r == R_KENNEY then R_DCL
       else if r == R_DCL then R_LIB_FRONT
       else if r == R_LIB_FRONT then R_TALBOT_SW
       else NONE)
    else if r < R_BECKLOBBY then
      (if r == R_KENNEY_E then R_NEWMARK
       else if r == R_NEWMARK then R_KENNEY_E
       else if r == R_MNTL_NW then R_CSL_VIEW
       else if r == R_MNTL_SW then R_BECKMAN
       else if r == R_MNTLLOBBY then R_MNTL_LAB2
       else if r == R_MNTL_LAB1 then R_MNTLLOBBY
       else if r == R_CSL_VIEW then R_MNTL_NW
       else if r == R_CSL_DOOR then R_MNTL_NW
       else if r == R_CSL_UPPER then R_CSL_LOBBY
       else if r == R_BECK_LOT then R_CSL_VIEW
       else if r == R_BECKMAN then R_BECK_LOT
       else if r == R_BECK_DOOR then R_BECK_LOT
       else NONE)
    else
      (if r == R_BECKLOBBY then R_BECK_DOOR
       else if r == R_ALLERTON then R_SUNSINGER
       else if r == R_FU_DOGS then R_ALLERTON
       else if r == R_WILL_SIDE then R_WILLARD
       else if r == R_REM_PLANE then R_WILL_SIDE
       else if r == R_COCKPIT then R_REM_PLANE
       else if r == R_OVER_WILL then R_AIR_RIO
       else if r == R_AIR_RIO then R_REM_ICE
       else NONE)
  }

  function Name(o: int): string {
    if o == O_BOARD then "board"
    else if o == O_JETPACK then "jetpack"
    else if o == O_TUX then "tux"
    else if o == O_MP2 then "mp2"
    else if o == O_BOOK_C then "book"
    else if o == O_BOOK_WODE then "book"
    else if o == O_GPS_BAD then "gps"
    else if o == O_GPS_GOOD then "gps"
    else if o == O_GPS_SPEC then "spec"
    else if o == O_BUNNYSUIT then "bunnysuit"
    else if o == O_BATT_EMPTY then "battery"
    else if o == O_BATT_FULL then "battery"
    else if o == O_BATT_CAR then "battery"
    else if o == O_MTN_DEW then "dew"
    else if o == O_FISH then "fish"
    else if o == O_ICARD then "Icard"
    else if o == O_CAR_KEY then "key"
    else if o == O_ROBOT_DEAD then "robot"
    else if o == O_ROBOT_LIVE then "robot"
    else if o == O_MIMO_CARD then "mimo"
    else ""
  }

  /** Where an object starts, or NONE. */
  function StartRoom(o: int): int {
    if o == O_BOARD then R_IN_IEEE
    else if o == O_JETPACK then R_TALBOT
    else if o == O_TUX then R_REM_LAB
    else if o == O_MP2 then R_CSLLOUNGE
    else if o == O_GPS_BAD then R_TALBOT
    else if o == O_GPS_SPEC then R_CSL_UPPER
    else if o == O_BUNNYSUIT then R_ALMAMATER
    else if o == O_FISH then R_EAST_BONE
    else if o == O_ICARD then R_BARDEEN
    else if o == O_CAR_KEY then R_CARIBOU
    else if o == O_ROBOT_DEAD then R_MNTL_LAB3
    else if o == O_MIMO_CARD then R_STATUE
    else NONE
  }
  /** The starting position in the room's photo, or NONE for a random one. */
  function StartX(o: int): int { if o == O_TUX then 250 else if o == O_BUNNYSUIT then 230 else if o == O_FISH then 80 else NONE }

  function StartY(o: int): int { if o == O_TUX then 100 else if o == O_BUNNYSUIT then 250 else if o == O_FISH then 260 else NONE }

  // ------------------------------------------------------------ regions that are hard to get into

  const CAMPUS := 0
  const CLEAN := 1
  const BECKMAN := 2
  const ALLERTON := 3
  const WILLARD := 4
  const FAR := 5

  function Zone(r: int): int {
    if r == R_IN_CLEANR then CLEAN
    else if r == R_BECKLOBBY || r == R_BECK_MRI then BECKMAN
    else if r == R_ALLERTON || r == R_FU_DOGS || r == R_STATUE || r == R_SUNSINGER then ALLERTON
    else if r == R_WILLARD || r == R_WILL_SIDE || r == R_REM_PLANE || r == R_COCKPIT then WILLARD
    else if r == R_OVER_WILL || r == R_AIR_RIO || r == R_REM_ICE || r == R_REM_LAB then FAR
    else CAMPUS
  }

  /** An exit leads to a real room and never into a harder region than the one left. */
  predicate EasyExit(r: int, d: int) {
    d != NONE ==>
      IsRoom(d) && d != R_INVENTORY &&
      (Zone(d) == Zone(r) || Zone(d) == CAMPUS || (Zone(r) == FAR && Zone(d) == WILLARD))
  }

  lemma LeftIsEasy(r: int)
    ensures EasyExit(r, LeftOf(r))
  {
  }

  lemma RightIsEasy(r: int)
    ensures EasyExit(r, RightOf(r))
  {
  }

  lemma EnterIsEasy(r: int)
    ensures EasyExit(r, EnterOf(r))
  {
  }
}

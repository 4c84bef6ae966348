/** The adventure's rules on values: contents lists, locations, accomplishments and every command. */
module WorldGame {
  import opened WorldMap

  const CAR_CLOSED := 0
  const CAR_OPENED := 1

  /** Everything but the order of the contents lists. loc is indexed by object; backpack and cockpit are the doors that change. */
  datatype Status = Status(
    loc: seq<int>, eaten: bool, suit: bool, open: bool, fixed: bool, lured: bool,
    where: int, backpack: int, cockpit: int, carView: int, carSwap: int, circleView: int, circleSwap: int)

  /** lists gives the contents of each room in order. */
  datatype World = World(lists: seq<seq<int>>, s: Status)

  datatype Action = AllowEdit | DiscardText | RedrawRoom | ChangeRoom

  datatype Outcome = Outcome(world: World, action: Action)

  // ------------------------------------------------------------ words

  function Lower(c: char): char { if 'A' <= c <= 'Z' then c + (32 as char) else c }

  /** Equality that ignores case. */
  predicate Same(a: string, b: string) { |a| == |b| && forall i :: 0 <= i < |a| ==> Lower(a[i]) == Lower(b[i]) }

  // ------------------------------------------------------------ contents lists

  function Without(l: seq<int>, o: int): seq<int> {
    if l == [] then [] else if l[0] == o then l[1..] else [l[0]] + Without(l[1..], o)
  }

  ghost predicate NoDup(l: seq<int>) { forall i, j :: 0 <= i < j < |l| ==> l[i] != l[j] }

  /** Each list is duplicate-free and holds exactly the objects located in its room. */
  ghost predicate ListOk(l: seq<int>, loc: seq<int>, r: int) {
    && NoDup(l)
    && (forall o :: o in l <==> 0 <= o < |loc| && loc[o] == r)
  }

  ghost predicate ListsOk(lists: seq<seq<int>>, loc: seq<int>) {
    && |lists| == N_ROOMS && |loc| == N_OBJECTS
    && (forall o :: IsObject(o) ==> loc[o] == NONE || IsRoom(loc[o]))
    && (forall r :: IsRoom(r) ==> ListOk(lists[r], loc, r))
  }

  ghost predicate Structure(w: World) { ListsOk(w.lists, w.s.loc) }

  ghost predicate Sized(w: World) {
    && |w.lists| == N_ROOMS && |w.s.loc| == N_OBJECTS
    && forall o :: IsObject(o) ==> w.s.loc[o] == NONE || IsRoom(w.s.loc[o])
  }

  /** Takes an object out of its room, leaving it in limbo. */
  function Remove(w: World, o: int): (v: World)
    requires Sized(w) && IsObject(o)
    ensures Sized(v) && v.s == w.s.(loc := w.s.loc[o := NONE])
  {
    var r := w.s.loc[o];
    if r == NONE then assert w.s.loc[o := NONE] == w.s.loc; w
    else World(w.lists[r := Without(w.lists[r], o)], w.s.(loc := w.s.loc[o := NONE]))
  }

  /** Puts an object first in a room's list. */
  function Insert(w: World, o: int, r: int): (v: World)
    requires Sized(w) && IsObject(o) && IsRoom(r)
    ensures Sized(v) && v.s == w.s.(loc := w.s.loc[o := r])
  {
    var u := Remove(w, o);
    assert w.s.loc[o := NONE][o := r] == w.s.loc[o := r];
    World(u.lists[r := [o] + u.lists[r]], u.s.(loc := u.s.loc[o := r]))
  }

  /** The first object of that name in a list, or NONE. */
  function FindIn(l: seq<int>, arg: string): (o: int)
    ensures o == NONE || o in l
  {
    if l == [] then NONE else if Same(arg, Name(l[0])) then l[0] else FindIn(l[1..], arg)
  }

  // ------------------------------------------------------------ moves

  function SwapCar(s: Status): Status { s.(carView := s.carSwap, carSwap := s.carView) }

  function DoorOf(s: Status, r: int): int {
    if r == R_INVENTORY then s.backpack else if r == R_COCKPIT then s.cockpit else EnterOf(r)
  }

  /** Arriving at the Boneyard bridge may swap its photo. */
  function Arrive(s: Status, d: int, coin: bool): Status {
    if d == R_CIRCLE_N && coin then s.(where := d, circleView := s.circleSwap, circleSwap := s.circleView)
    else s.(where := d)
  }

  function Goes(w: World, d: int, coin: bool): Outcome { Outcome(w.(s := Arrive(w.s, d, coin)), ChangeRoom) }

  function MoveLeft(w: World, coin: bool): Outcome {
    if LeftOf(w.s.where) != NONE then Goes(w, LeftOf(w.s.where), coin) else Outcome(w, AllowEdit)
  }

  function MoveRight(w: World, coin: bool): Outcome {
    if RightOf(w.s.where) != NONE then Goes(w, RightOf(w.s.where), coin) else Outcome(w, AllowEdit)
  }

  function MoveTo(w: World, d: int): Outcome { Outcome(w.(s := w.s.(where := d)), ChangeRoom) }

  function TryEnter(w: World, coin: bool): Outcome
    requires Sized(w)
  {
    var r, loc := w.s.where, w.s.loc;
    if DoorOf(w.s, r) != NONE then Goes(w, DoorOf(w.s, r), coin)
    else if r == R_BY_CLEANR && w.s.suit then MoveTo(w, R_IN_CLEANR)
    else if r == R_BY_395LAB && loc[O_ICARD] == R_INVENTORY then MoveTo(w, R_IN_395LAB)
    else if r == R_CSL_DOOR && loc[O_ICARD] == R_INVENTORY then MoveTo(w, R_CSL_LOBBY)
    else if r == R_BECK_DOOR && loc[O_ROBOT_LIVE] == R_INVENTORY then MoveTo(w, R_BECKLOBBY)
    else Outcome(w, AllowEdit)
  }

  // ------------------------------------------------------------ typed commands

  /** Carried, or in the room shown. */
  predicate Near(s: Status, o: int)
    requires |s.loc| == N_OBJECTS && IsObject(o)
  {
    s.loc[o] == R_INVENTORY || s.loc[o] == s.where
  }

  /** The room the player stands in while looking at the backpack or around. */
  function Standing(s: Status): int { if s.where == R_INVENTORY then s.backpack else s.where }

  function Carry(w: World, o: int): World
    requires Sized(w) && IsObject(o)
  {
    Insert(w, o, R_INVENTORY)
  }

  function Buy(w: World, arg: string): Outcome
    requires Sized(w)
  {
    if Same("dew", arg) then
      if w.s.where != R_EVRT_VEND || Near(w.s, O_MTN_DEW) then Outcome(w, DiscardText)
      else Outcome(Carry(w, O_MTN_DEW), RedrawRoom)
    else if Same("yogurt", arg) then
      Outcome(if w.s.where == R_IN_COCOMR then w.(s := w.s.(eaten := true)) else w, DiscardText)
    else Outcome(w, AllowEdit)
  }

  function Charge(w: World, arg: string): Outcome
    requires Sized(w)
  {
    if !Same("battery", arg) then Outcome(w, AllowEdit)
    else if (!Near(w.s, O_BATT_EMPTY) && !Near(w.s, O_BATT_FULL)) || w.s.where != R_BECK_MRI || Near(w.s, O_BATT_FULL) then
      Outcome(w, DiscardText)
    else Outcome(Carry(Remove(w, O_BATT_EMPTY), O_BATT_FULL), RedrawRoom)
  }

  function Do(w: World, arg: string): Outcome
    requires Sized(w)
  {
    if w.s.where != R_IN_391LAB || (!Same("391", arg) && !Same("mp2", arg)) then Outcome(w, AllowEdit)
    else if w.s.loc[O_BOOK_C] != R_INVENTORY || w.s.loc[O_MP2] != R_INVENTORY || w.s.loc[O_TUX] != R_IN_391LAB then
      Outcome(w, DiscardText)
    else MoveTo(w, NONE)
  }

  function Drink(w: World, arg: string): Outcome
    requires Sized(w)
  {
    if !Same("dew", arg) then Outcome(w, AllowEdit)
    else if !Near(w.s, O_MTN_DEW) then Outcome(w, DiscardText)
    else Outcome(Remove(w, O_MTN_DEW), RedrawRoom)
  }

  function Drop(w: World, arg: string): Outcome
    requires Sized(w) && (FindIn(w.lists[R_INVENTORY], arg) != NONE ==>
                            IsObject(FindIn(w.lists[R_INVENTORY], arg)) && IsRoom(Standing(w.s)))
  {
    var o := FindIn(w.lists[R_INVENTORY], arg);
    if o == NONE then Outcome(w, AllowEdit) else Outcome(Insert(w, o, Standing(w.s)), RedrawRoom)
  }

  function Fix(w: World, arg: string): Outcome
    requires Sized(w)
  {
    if !Same("gps", arg) then Outcome(w, AllowEdit)
    else if Near(w.s, O_GPS_GOOD) || !Near(w.s, O_GPS_BAD) || w.s.where != R_IN_CLEANR || !Near(w.s, O_GPS_SPEC) then
      Outcome(w, DiscardText)
    else Outcome(Carry(Remove(Remove(w, O_GPS_BAD), O_GPS_SPEC), O_GPS_GOOD), ChangeRoom)
  }

  function Flash(w: World, arg: string): Outcome
    requires Sized(w)
  {
    if !Same("robot", arg) then Outcome(w, AllowEdit)
    else if (!Near(w.s, O_ROBOT_DEAD) && !Near(w.s, O_ROBOT_LIVE)) || w.s.where != R_IN_395LAB || Near(w.s, O_ROBOT_LIVE) then
      Outcome(w, DiscardText)
    else Outcome(Carry(Remove(w, O_ROBOT_DEAD), O_ROBOT_LIVE), RedrawRoom)
  }

  /** The reserve desk's book, or NONE. */
  function DeskBook(s: Status, r: int, arg: string): int
    requires |s.loc| == N_OBJECTS
  {
    if r != R_RESERVE || !Same("book", arg) then NONE
    else if s.eaten then (if s.loc[O_BOOK_C] == NONE then O_BOOK_C else NONE)
    else if s.loc[O_BOOK_WODE] == NONE then O_BOOK_WODE else NONE
  }

  /** Whether a get takes the battery out of the car. */
  predicate TakesBattery(s: Status, r: int)
    requires |s.loc| == N_OBJECTS
  {
    r == R_CAR_SITE && s.loc[O_BATT_CAR] == r
  }

  function Get(w: World, arg: string): Outcome
    requires Sized(w) && IsRoom(Standing(w.s))
    requires FindIn(w.lists[Standing(w.s)], arg) != NONE ==> IsObject(FindIn(w.lists[Standing(w.s)], arg))
  {
    var src := Standing(w.s);
    if DeskBook(w.s, src, arg) != NONE then Outcome(Carry(w, DeskBook(w.s, src, arg)), RedrawRoom)
    else if TakesBattery(w.s, src) then Outcome(Carry(Remove(w, O_BATT_CAR), O_BATT_EMPTY), RedrawRoom)
    else
      var o := FindIn(w.lists[src], arg);
      if o == NONE then Outcome(w, AllowEdit)
      else if o == O_TUX && !w.s.lured then Outcome(w, DiscardText)
      else Outcome(Carry(w, o), RedrawRoom)
  }

  function Go(w: World, arg: string): Outcome
    requires Sized(w)
  {
    var r := w.s.where;
    if Same("allerton", arg) then
      if (r == R_WILLARD || r == R_CAR_SITE) && w.s.fixed && w.s.loc[O_GPS_GOOD] == R_INVENTORY then MoveTo(w, R_ALLERTON)
      else Outcome(w, DiscardText)
    else if Same("willard", arg) || Same("airport", arg) then
      if (r == R_ALLERTON || r == R_CAR_SITE) && w.s.fixed then MoveTo(w, R_WILLARD) else Outcome(w, DiscardText)
    else if Same("campus", arg) then
      if r == R_ALLERTON || r == R_WILLARD then MoveTo(w, R_CAR_SITE) else Outcome(w, DiscardText)
    else Outcome(w, AllowEdit)
  }

  function InstallBattery(w: World): Outcome
    requires Sized(w)
  {
    if (!Near(w.s, O_BATT_EMPTY) && !Near(w.s, O_BATT_FULL)) || w.s.where != R_CAR_SITE || Near(w.s, O_BATT_EMPTY) then
      Outcome(w, DiscardText)
    else
      var v := Remove(w, O_BATT_FULL);
      Outcome(v.(s := SwapCar(v.s.(fixed := true))), ChangeRoom)
  }

  function InstallCard(w: World): Outcome
    requires Sized(w)
  {
    if !Near(w.s, O_MIMO_CARD) || w.s.where != R_COCKPIT then Outcome(w, DiscardText)
    else
      var v := Remove(w, O_MIMO_CARD);
      Outcome(v.(s := v.s.(cockpit := R_OVER_WILL)), RedrawRoom)
  }

  function Install(w: World, arg: string): Outcome
    requires Sized(w)
  {
    if Same("battery", arg) then InstallBattery(w)
    else if Same("mimo", arg) || Same("card", arg) || Same("transmitter", arg) then InstallCard(w)
    else Outcome(w, AllowEdit)
  }

  function LookInside(w: World): Outcome {
    if w.s.where == R_INVENTORY then MoveTo(w, w.s.backpack)
    else Outcome(w.(s := w.s.(backpack := w.s.where, where := R_INVENTORY)), ChangeRoom)
  }

  function Sigh(w: World): Outcome {
    Outcome(if w.s.where == R_BY_ZAS then w.(s := w.s.(eaten := true)) else w, DiscardText)
  }

  function UseCar(w: World): Outcome
    requires Sized(w)
  {
    if w.s.where != R_CAR_SITE || w.s.fixed || w.s.open || w.s.loc[O_CAR_KEY] != R_INVENTORY then Outcome(w, DiscardText)
    else
      var v := Insert(Remove(w.(s := SwapCar(w.s)), O_CAR_KEY), O_BATT_CAR, R_CAR_SITE);
      Outcome(v.(s := v.s.(open := true)), ChangeRoom)
  }

  function UseFish(w: World): Outcome
    requires Sized(w)
  {
    if !Near(w.s, O_FISH) || w.s.where != R_REM_LAB then Outcome(w, DiscardText)
    else
      var v := Carry(Remove(w, O_FISH), O_TUX);
      Outcome(v.(s := v.s.(lured := true)), RedrawRoom)
  }

  function Use(w: World, arg: string): Outcome
    requires Sized(w)
  {
    if Same("car", arg) then UseCar(w) else if Same("fish", arg) then UseFish(w) else Outcome(w, AllowEdit)
  }

  function Wear(w: World, arg: string): Outcome
    requires Sized(w)
  {
    if !Same("bunnysuit", arg) then Outcome(w, AllowEdit)
    else if !Near(w.s, O_BUNNYSUIT) then Outcome(w, DiscardText)
    else
      var v := Remove(w, O_BUNNYSUIT);
      Outcome(v.(s := v.s.(suit := true)), RedrawRoom)
  }

  // ------------------------------------------------------------ a command

  datatype Command =
    | CmdLeft
    | CmdEnter
    | CmdRight
    | CmdBuy(arg: string)
    | CmdCharge(arg: string)
    | CmdDo(arg: string)
    | CmdDrink(arg: string)
    | CmdDrop(arg: string)
    | CmdFix(arg: string)
    | CmdFlash(arg: string)
    | CmdGet(arg: string)
    | CmdGo(arg: string)
    | CmdInstall(arg: string)
    | CmdInventory
    | CmdSigh
    | CmdUse(arg: string)
    | CmdWear(arg: string)

  /** The player is in a room and, while looking into the backpack, has a real room to return to. */
  predicate Present(s: Status) {
    IsRoom(s.where) && (s.where == R_INVENTORY ==> 0 < s.backpack < N_ROOMS)
  }

  /** Objects in a structured list exist. */
  lemma FoundExists(w: World, r: int, arg: string)
    requires Structure(w) && IsRoom(r)
    ensures var o := FindIn(w.lists[r], arg); o == NONE || (IsObject(o) && w.s.loc[o] == r)
  {
    assert ListOk(w.lists[r], w.s.loc, r);
  }

  function Perform(w: World, c: Command, coin: bool): Outcome
    requires Structure(w) && Present(w.s)
  {
    match c
    case CmdLeft => MoveLeft(w, coin)
    case CmdEnter => TryEnter(w, coin)
    case CmdRight => MoveRight(w, coin)
    case CmdBuy(arg) => Buy(w, arg)
    case CmdCharge(arg) => Charge(w, arg)
    case CmdDo(arg) => Do(w, arg)
    case CmdDrink(arg) => Drink(w, arg)
    case CmdDrop(arg) => FoundExists(w, R_INVENTORY, arg); Drop(w, arg)
    case CmdFix(arg) => Fix(w, arg)
    case CmdFlash(arg) => Flash(w, arg)
    case CmdGet(arg) => FoundExists(w, Standing(w.s), arg); Get(w, arg)
    case CmdGo(arg) => Go(w, arg)
    case CmdInstall(arg) => Install(w, arg)
    case CmdInventory => LookInside(w)
    case CmdSigh => Sigh(w)
    case CmdUse(arg) => Use(w, arg)
    case CmdWear(arg) => Wear(w, arg)
  }
}

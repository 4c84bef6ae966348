/** What every command keeps: the structure of the contents lists, and the rules of progress. */
module WorldProofs {
  import opened WorldMap
  import opened WorldGame

  // ------------------------------------------------------------ lists

  lemma {:induction false} WithoutIs(l: seq<int>, o: int)
    requires NoDup(l)
    ensures NoDup(Without(l, o)) && forall x :: x in Without(l, o) <==> x in l && x != o
  {
    if l != [] {
      assert NoDup(l[1..]);
      WithoutIs(l[1..], o);
      assert l[0] !in l[1..];
    }
  }

  /** Removing from a list keeps the order of the others. */
  lemma {:induction false} WithoutSplit(a: seq<int>, o: int, b: seq<int>)
    requires o !in a
    ensures Without(a + [o] + b, o) == a + b
  {
    var l := a + [o] + b;
    if a == [] {
      assert l[1..] == b && a + b == b;
    } else {
      WithoutSplit(a[1..], o, b);
      assert l[1..] == a[1..] + [o] + b;
      assert [a[0]] + (a[1..] + b) == a + b;
    }
  }

  lemma RemoveList(w: World, o: int)
    requires Structure(w) && IsObject(o) && w.s.loc[o] != NONE
    ensures ListOk(Without(w.lists[w.s.loc[o]], o), w.s.loc[o := NONE], w.s.loc[o])
  {
    var r := w.s.loc[o];
    assert ListOk(w.lists[r], w.s.loc, r);
    WithoutIs(w.lists[r], o);
  }

  lemma RemoveKeeps(w: World, o: int)
    requires Structure(w) && IsObject(o)
    ensures Structure(Remove(w, o))
    ensures forall r :: IsRoom(r) && r != w.s.loc[o] ==> Remove(w, o).lists[r] == w.lists[r]
  {
    var v := Remove(w, o);
    if w.s.loc[o] != NONE {
      RemoveList(w, o);
      forall r | IsRoom(r)
        ensures ListOk(v.lists[r], v.s.loc, r)
      {
        if r != w.s.loc[o] {
          assert ListOk(w.lists[r], w.s.loc, r);
        }
      }
    }
  }

  lemma InsertList(l: seq<int>, loc: seq<int>, o: int, r: int)
    requires ListOk(l, loc, r) && 0 <= o < |loc| && loc[o] == NONE && r != NONE
    ensures ListOk([o] + l, loc[o := r], r)
  {
  }

  /** Inserting puts the object first and leaves every other room's list as it was. */
  lemma InsertKeeps(w: World, o: int, r: int)
    requires Structure(w) && IsObject(o) && IsRoom(r)
    ensures Structure(Insert(w, o, r))
    ensures Insert(w, o, r).lists[r] == [o] + Without(w.lists[r], o)
    ensures forall q :: IsRoom(q) && q != r && q != w.s.loc[o] ==> Insert(w, o, r).lists[q] == w.lists[q]
  {
    RemoveKeeps(w, o);
    var u, v := Remove(w, o), Insert(w, o, r);
    assert ListOk(u.lists[r], u.s.loc, r);
    InsertList(u.lists[r], u.s.loc, o, r);
    forall q | IsRoom(q)
      ensures ListOk(v.lists[q], v.s.loc, q)
    {
      if q != r {
        assert ListOk(u.lists[q], u.s.loc, q);
      }
    }
    if w.s.loc[o] != r {
      assert ListOk(w.lists[r], w.s.loc, r);
      NotHeld(w.lists[r], o);
    }
  }

  lemma {:induction false} NotHeld(l: seq<int>, o: int)
    requires o !in l
    ensures Without(l, o) == l
  {
    if l != [] {
      NotHeld(l[1..], o);
    }
  }

  // ------------------------------------------------------------ the rules of progress

  predicate Placed(s: Status, o: int)
    requires |s.loc| == N_OBJECTS && IsObject(o)
  {
    s.loc[o] != NONE
  }

  /** What a player standing in a region has earned. */
  predicate Earned(s: Status, zone: int)
    requires |s.loc| == N_OBJECTS
  {
    && (zone == CLEAN ==> s.suit)
    && (zone == BECKMAN ==> Placed(s, O_ROBOT_LIVE))
    && (zone == ALLERTON ==> s.fixed && Placed(s, O_GPS_GOOD))
    && (zone == WILLARD ==> s.fixed)
    && (zone == FAR ==> s.fixed && s.cockpit == R_OVER_WILL)
  }

  /** No battery before the car is open, exactly one form until it is fixed, none afterwards. */
  predicate BatteryPhase(s: Status)
    requires |s.loc| == N_OBJECTS
  {
    var car, empty, full := Placed(s, O_BATT_CAR), Placed(s, O_BATT_EMPTY), Placed(s, O_BATT_FULL);
    && (s.fixed ==> s.open)
    && (if s.open && !s.fixed then (car && !empty && !full) || (!car && empty && !full) || (!car && !empty && full)
        else !car && !empty && !full)
    && (car ==> s.loc[O_BATT_CAR] == R_CAR_SITE)
  }

  /** The car photo shows the open hood exactly between opening and fixing. */
  predicate CarPhoto(s: Status) {
    && s.carView == (if s.open && !s.fixed then CAR_OPENED else CAR_CLOSED)
    && s.carSwap == (if s.open && !s.fixed then CAR_CLOSED else CAR_OPENED)
  }

  predicate OneForm(s: Status, bad: int, good: int)
    requires |s.loc| == N_OBJECTS && IsObject(bad) && IsObject(good)
  {
    Placed(s, bad) != Placed(s, good)
  }

  /** Each gain depends on an earlier one. */
  predicate Progress(s: Status)
    requires |s.loc| == N_OBJECTS
  {
    && (Placed(s, O_BOOK_C) ==> s.eaten)
    && (s.loc[O_TUX] != R_REM_LAB ==> s.lured)
    && (s.lured ==> s.cockpit == R_OVER_WILL && !Placed(s, O_FISH))
    && (s.cockpit == R_OVER_WILL || s.cockpit == NONE)
    && (s.cockpit == R_OVER_WILL || s.loc[O_MIMO_CARD] != R_STATUE ==> s.fixed && Placed(s, O_GPS_GOOD))
    && (Placed(s, O_GPS_GOOD) ==> s.suit)
    && (Placed(s, O_BATT_FULL) || s.fixed ==> Placed(s, O_ROBOT_LIVE))
  }

  predicate InRoom(s: Status)
    requires |s.loc| == N_OBJECTS
  {
    if s.where == NONE then s.eaten && s.lured else Present(s) && Earned(s, Zone(Standing(s)))
  }

  predicate Logic(s: Status) {
    && |s.loc| == N_OBJECTS && InRoom(s) && Progress(s) && BatteryPhase(s) && CarPhoto(s)
    && OneForm(s, O_GPS_BAD, O_GPS_GOOD) && OneForm(s, O_ROBOT_DEAD, O_ROBOT_LIVE)
  }

  // ------------------------------------------------------------ moves keep them

  /** Moving to a room whose region has been earned. */
  lemma MoveKeeps(s: Status, d: int)
    requires Logic(s) && IsRoom(d) && d != R_INVENTORY && Earned(s, Zone(d))
    ensures Logic(s.(where := d))
  {
  }

  lemma ArriveKeeps(s: Status, d: int, coin: bool)
    requires Logic(s) && IsRoom(d) && d != R_INVENTORY && Earned(s, Zone(d))
    ensures Logic(Arrive(s, d, coin))
  {
    MoveKeeps(s, d);
  }

  lemma ExitKeeps(s: Status, d: int, coin: bool)
    requires Logic(s) && s.where != NONE && s.where != R_INVENTORY && d != NONE && EasyExit(s.where, d)
    ensures Logic(Arrive(s, d, coin))
  {
    ArriveKeeps(s, d, coin);
  }

  lemma NoSideExits()
    ensures LeftOf(R_INVENTORY) == NONE && RightOf(R_INVENTORY) == NONE
  {
  }

  lemma SideKeeps(s: Status, coin: bool)
    requires Logic(s) && s.where != NONE
    ensures LeftOf(s.where) != NONE ==> Logic(Arrive(s, LeftOf(s.where), coin))
    ensures RightOf(s.where) != NONE ==> Logic(Arrive(s, RightOf(s.where), coin))
  {
    NoSideExits();
    LeftIsEasy(s.where);
    RightIsEasy(s.where);
    if LeftOf(s.where) != NONE {
      ExitKeeps(s, LeftOf(s.where), coin);
    }
    if RightOf(s.where) != NONE {
      ExitKeeps(s, RightOf(s.where), coin);
    }
  }

  lemma DoorKeeps(s: Status, coin: bool)
    requires Logic(s) && s.where != NONE && DoorOf(s, s.where) != NONE
    ensures Logic(Arrive(s, DoorOf(s, s.where), coin))
  {
    EnterIsEasy(s.where);
    if s.where == R_INVENTORY {
      ArriveKeeps(s, s.backpack, coin);
    } else if s.where == R_COCKPIT {
      assert Zone(R_OVER_WILL) == FAR && Zone(R_COCKPIT) == WILLARD;
      ArriveKeeps(s, s.cockpit, coin);
    } else {
      ExitKeeps(s, EnterOf(s.where), coin);
    }
  }

  lemma EnterKeeps(w: World, coin: bool)
    requires Sized(w) && Logic(w.s) && w.s.where != NONE
    ensures Logic(TryEnter(w, coin).world.s)
  {
    if DoorOf(w.s, w.s.where) != NONE {
      DoorKeeps(w.s, coin);
    } else if w.s.where == R_BY_CLEANR && w.s.suit {
      MoveKeeps(w.s, R_IN_CLEANR);
    } else if w.s.where == R_BY_395LAB {
      MoveKeeps(w.s, R_IN_395LAB);
    } else if w.s.where == R_CSL_DOOR {
      MoveKeeps(w.s, R_CSL_LOBBY);
    } else if w.s.where == R_BECK_DOOR && w.s.loc[O_ROBOT_LIVE] == R_INVENTORY {
      MoveKeeps(w.s, R_BECKLOBBY);
    }
  }

  lemma GoKeeps(w: World, arg: string)
    requires Sized(w) && Logic(w.s) && w.s.where != NONE
    ensures Logic(Go(w, arg).world.s)
  {
    if w.s.fixed && Placed(w.s, O_GPS_GOOD) {
      MoveKeeps(w.s, R_ALLERTON);
    }
    if w.s.fixed {
      MoveKeeps(w.s, R_WILLARD);
    }
    MoveKeeps(w.s, R_CAR_SITE);
  }

  lemma LookKeeps(w: World)
    requires Sized(w) && Logic(w.s) && w.s.where != NONE
    ensures Logic(LookInside(w).world.s)
  {
    if w.s.where == R_INVENTORY {
      MoveKeeps(w.s, w.s.backpack);
    }
  }

  /** Winning takes the book, the write-up and Tux to the laboratory. */
  lemma DoKeeps(w: World, arg: string)
    requires Sized(w) && Logic(w.s) && w.s.where != NONE
    ensures Logic(Do(w, arg).world.s)
  {
  }

  // ------------------------------------------------------------ moving objects keeps them

  /** Objects no rule speaks about. */
  predicate Plain(o: int) {
    o in {O_BOARD, O_JETPACK, O_MP2, O_BOOK_WODE, O_GPS_SPEC, O_BUNNYSUIT, O_MTN_DEW, O_ICARD, O_CAR_KEY}
  }

  lemma PlainKeeps(s: Status, o: int, r: int)
    requires Logic(s) && Plain(o)
    ensures Logic(s.(loc := s.loc[o := r]))
  {
  }

  /** A placed object moves to another room. */
  lemma RelocateKeeps(s: Status, o: int, r: int)
    requires Logic(s) && IsObject(o) && Placed(s, o) && r != NONE && o != O_BATT_CAR
    requires o == O_TUX ==> s.lured
    requires o == O_MIMO_CARD ==> s.fixed && Placed(s, O_GPS_GOOD)
    ensures Logic(s.(loc := s.loc[o := r]))
  {
  }

  lemma DropKeeps(w: World, arg: string)
    requires Sized(w) && Logic(w.s) && w.s.where != NONE
    requires var o := FindIn(w.lists[R_INVENTORY], arg); o != NONE ==> IsObject(o) && w.s.loc[o] == R_INVENTORY
    ensures Logic(Drop(w, arg).world.s)
  {
    var o := FindIn(w.lists[R_INVENTORY], arg);
    if o != NONE {
      RelocateKeeps(w.s, o, Standing(w.s));
    }
  }

  lemma TakeBatteryKeeps(s: Status)
    requires Logic(s) && s.loc[O_BATT_CAR] == R_CAR_SITE
    ensures Logic(s.(loc := s.loc[O_BATT_CAR := NONE][O_BATT_EMPTY := R_INVENTORY]))
  {
  }

  lemma BookKeeps(s: Status)
    requires Logic(s) && s.eaten
    ensures Logic(s.(loc := s.loc[O_BOOK_C := R_INVENTORY]))
  {
  }

  lemma GetKeeps(w: World, arg: string)
    requires Sized(w) && Logic(w.s) && w.s.where != NONE
    requires var o := FindIn(w.lists[Standing(w.s)], arg); o != NONE ==> IsObject(o) && w.s.loc[o] == Standing(w.s)
    ensures Logic(Get(w, arg).world.s)
  {
    var src := Standing(w.s);
    var o := FindIn(w.lists[src], arg);
    if DeskBook(w.s, src, arg) == O_BOOK_C {
      BookKeeps(w.s);
    } else if DeskBook(w.s, src, arg) == O_BOOK_WODE {
      PlainKeeps(w.s, O_BOOK_WODE, R_INVENTORY);
    } else if TakesBattery(w.s, src) {
      TakeBatteryKeeps(w.s);
    } else if o != NONE && (o != O_TUX || w.s.lured) {
      RelocateKeeps(w.s, o, R_INVENTORY);
    }
  }

  lemma BuyKeeps(w: World, arg: string)
    requires Sized(w) && Logic(w.s) && w.s.where != NONE
    ensures Logic(Buy(w, arg).world.s)
  {
    PlainKeeps(w.s, O_MTN_DEW, R_INVENTORY);
  }

  lemma DrinkKeeps(w: World, arg: string)
    requires Sized(w) && Logic(w.s) && w.s.where != NONE
    ensures Logic(Drink(w, arg).world.s)
  {
    PlainKeeps(w.s, O_MTN_DEW, NONE);
  }

  lemma WearKeeps(w: World, arg: string)
    requires Sized(w) && Logic(w.s) && w.s.where != NONE
    ensures Logic(Wear(w, arg).world.s)
  {
    PlainKeeps(w.s, O_BUNNYSUIT, NONE);
  }

  lemma ChargeKeeps(w: World, arg: string)
    requires Sized(w) && Logic(w.s) && w.s.where != NONE
    ensures Logic(Charge(w, arg).world.s)
  {
  }

  lemma FixKeeps(w: World, arg: string)
    requires Sized(w) && Logic(w.s) && w.s.where != NONE
    ensures Logic(Fix(w, arg).world.s)
  {
  }

  lemma FlashKeeps(w: World, arg: string)
    requires Sized(w) && Logic(w.s) && w.s.where != NONE
    ensures Logic(Flash(w, arg).world.s)
  {
  }

  lemma InstallKeeps(w: World, arg: string)
    requires Sized(w) && Logic(w.s) && w.s.where != NONE
    ensures Logic(Install(w, arg).world.s)
  {
    InstallBatteryKeeps(w);
    InstallCardKeeps(w);
  }

  lemma InstallBatteryKeeps(w: World)
    requires Sized(w) && Logic(w.s) && w.s.where != NONE
    ensures Logic(InstallBattery(w).world.s)
  {
  }

  lemma InstallCardKeeps(w: World)
    requires Sized(w) && Logic(w.s) && w.s.where != NONE
    ensures Logic(InstallCard(w).world.s)
  {
  }

  lemma UseCarKeeps(w: World)
    requires Sized(w) && Logic(w.s) && w.s.where != NONE
    ensures Logic(UseCar(w).world.s)
  {
  }

  lemma UseFishKeeps(w: World)
    requires Sized(w) && Logic(w.s) && w.s.where != NONE
    ensures Logic(UseFish(w).world.s)
  {
  }

  // ------------------------------------------------------------ every command keeps everything

  lemma UseKeeps(w: World, arg: string)
    requires Sized(w) && Logic(w.s) && w.s.where != NONE
    ensures Logic(Use(w, arg).world.s)
  {
    UseCarKeeps(w);
    UseFishKeeps(w);
  }

  predicate Walks(c: Command) {
    c.CmdLeft? || c.CmdEnter? || c.CmdRight? || c.CmdDo? || c.CmdGo? || c.CmdInventory? || c.CmdSigh?
  }

  predicate Handles(c: Command) { c.CmdBuy? || c.CmdDrink? || c.CmdDrop? || c.CmdGet? || c.CmdWear? }

  lemma WalkLogic(w: World, c: Command, coin: bool)
    requires Structure(w) && Logic(w.s) && w.s.where != NONE && Walks(c)
    ensures Logic(Perform(w, c, coin).world.s)
  {
    match c {
      case CmdLeft => SideKeeps(w.s, coin);
      case CmdEnter => EnterKeeps(w, coin);
      case CmdRight => SideKeeps(w.s, coin);
      case CmdDo(arg) => DoKeeps(w, arg);
      case CmdGo(arg) => GoKeeps(w, arg);
      case CmdInventory => LookKeeps(w);
      case CmdSigh =>
    }
  }

  lemma HandleLogic(w: World, c: Command, coin: bool)
    requires Structure(w) && Logic(w.s) && w.s.where != NONE && Handles(c)
    ensures Logic(Perform(w, c, coin).world.s)
  {
    match c {
      case CmdBuy(arg) => BuyKeeps(w, arg);
      case CmdDrink(arg) => DrinkKeeps(w, arg);
      case CmdDrop(arg) =>
        FoundExists(w, R_INVENTORY, arg);
        DropKeeps(w, arg);
      case CmdGet(arg) =>
        FoundExists(w, Standing(w.s), arg);
        GetKeeps(w, arg);
      case CmdWear(arg) => WearKeeps(w, arg);
    }
  }

  lemma WorkLogic(w: World, c: Command, coin: bool)
    requires Structure(w) && Logic(w.s) && w.s.where != NONE && !Walks(c) && !Handles(c)
    ensures Logic(Perform(w, c, coin).world.s)
  {
    match c {
      case CmdCharge(arg) => ChargeKeeps(w, arg);
      case CmdFix(arg) => FixKeeps(w, arg);
      case CmdFlash(arg) => FlashKeeps(w, arg);
      case CmdInstall(arg) => InstallKeeps(w, arg);
      case CmdUse(arg) => UseKeeps(w, arg);
    }
  }

  lemma LogicKept(w: World, c: Command, coin: bool)
    requires Structure(w) && Logic(w.s) && w.s.where != NONE
    ensures Logic(Perform(w, c, coin).world.s)
  {
    if Walks(c) {
      WalkLogic(w, c, coin);
    } else if Handles(c) {
      HandleLogic(w, c, coin);
    } else {
      WorkLogic(w, c, coin);
    }
  }

  /** A new status with the same locations. */
  lemma StatusOnly(w: World, v: World)
    requires Structure(w) && v.lists == w.lists && v.s.loc == w.s.loc
    ensures Structure(v)
  {
    forall r | IsRoom(r)
      ensures ListOk(v.lists[r], v.s.loc, r)
    {
      assert ListOk(w.lists[r], w.s.loc, r);
    }
  }

  /** One object out, another into a room. */
  lemma TradeKeeps(w: World, gone: int, come: int, r: int)
    requires Structure(w) && IsObject(gone) && IsObject(come) && IsRoom(r)
    ensures Structure(Insert(Remove(w, gone), come, r))
  {
    RemoveKeeps(w, gone);
    InsertKeeps(Remove(w, gone), come, r);
  }

  lemma FixStructure(w: World, arg: string)
    requires Structure(w)
    ensures Structure(Fix(w, arg).world)
  {
    RemoveKeeps(w, O_GPS_BAD);
    TradeKeeps(Remove(w, O_GPS_BAD), O_GPS_SPEC, O_GPS_GOOD, R_INVENTORY);
  }

  lemma UseCarStructure(w: World)
    requires Structure(w)
    ensures Structure(UseCar(w).world)
  {
    if UseCar(w).action == ChangeRoom {
      var u := w.(s := SwapCar(w.s));
      StatusOnly(w, u);
      TradeKeeps(u, O_CAR_KEY, O_BATT_CAR, R_CAR_SITE);
      StatusOnly(Insert(Remove(u, O_CAR_KEY), O_BATT_CAR, R_CAR_SITE), UseCar(w).world);
    }
  }

  lemma UseFishStructure(w: World)
    requires Structure(w)
    ensures Structure(UseFish(w).world)
  {
    if UseFish(w).action == RedrawRoom {
      TradeKeeps(w, O_FISH, O_TUX, R_INVENTORY);
      StatusOnly(Insert(Remove(w, O_FISH), O_TUX, R_INVENTORY), UseFish(w).world);
    }
  }

  lemma InstallBatteryStructure(w: World)
    requires Structure(w)
    ensures Structure(InstallBattery(w).world)
  {
    if InstallBattery(w).action == ChangeRoom {
      RemoveKeeps(w, O_BATT_FULL);
      StatusOnly(Remove(w, O_BATT_FULL), InstallBattery(w).world);
    }
  }

  lemma InstallCardStructure(w: World)
    requires Structure(w)
    ensures Structure(InstallCard(w).world)
  {
    if InstallCard(w).action == RedrawRoom {
      RemoveKeeps(w, O_MIMO_CARD);
      StatusOnly(Remove(w, O_MIMO_CARD), InstallCard(w).world);
    }
  }

  lemma WearStructure(w: World, arg: string)
    requires Structure(w)
    ensures Structure(Wear(w, arg).world)
  {
    if Wear(w, arg).action == RedrawRoom {
      RemoveKeeps(w, O_BUNNYSUIT);
      StatusOnly(Remove(w, O_BUNNYSUIT), Wear(w, arg).world);
    }
  }

  lemma BuyStructure(w: World, arg: string)
    requires Structure(w)
    ensures Structure(Buy(w, arg).world)
  {
    if Buy(w, arg).action == RedrawRoom {
      InsertKeeps(w, O_MTN_DEW, R_INVENTORY);
    } else {
      StatusOnly(w, Buy(w, arg).world);
    }
  }

  lemma GetStructure(w: World, arg: string)
    requires Structure(w) && Present(w.s)
    requires var o := FindIn(w.lists[Standing(w.s)], arg); o != NONE ==> IsObject(o)
    ensures Structure(Get(w, arg).world)
  {
    var src := Standing(w.s);
    var o := FindIn(w.lists[src], arg);
    if DeskBook(w.s, src, arg) != NONE {
      InsertKeeps(w, DeskBook(w.s, src, arg), R_INVENTORY);
    } else if TakesBattery(w.s, src) {
      TradeKeeps(w, O_BATT_CAR, O_BATT_EMPTY, R_INVENTORY);
    } else if o != NONE {
      InsertKeeps(w, o, R_INVENTORY);
    }
  }

  lemma DropStructure(w: World, arg: string)
    requires Structure(w) && Present(w.s)
    requires var o := FindIn(w.lists[R_INVENTORY], arg); o != NONE ==> IsObject(o)
    ensures Structure(Drop(w, arg).world)
  {
    var o := FindIn(w.lists[R_INVENTORY], arg);
    if o != NONE {
      InsertKeeps(w, o, Standing(w.s));
    }
  }

  lemma GoesStructure(w: World, d: int, coin: bool)
    requires Structure(w)
    ensures Structure(Goes(w, d, coin).world)
  {
    StatusOnly(w, Goes(w, d, coin).world);
  }

  lemma MoveToStructure(w: World, d: int)
    requires Structure(w)
    ensures Structure(MoveTo(w, d).world)
  {
    StatusOnly(w, MoveTo(w, d).world);
  }

  lemma LeftStructure(w: World, coin: bool)
    requires Structure(w)
    ensures Structure(MoveLeft(w, coin).world)
  {
    GoesStructure(w, LeftOf(w.s.where), coin);
  }

  lemma RightStructure(w: World, coin: bool)
    requires Structure(w)
    ensures Structure(MoveRight(w, coin).world)
  {
    GoesStructure(w, RightOf(w.s.where), coin);
  }

  lemma EnterStructure(w: World, coin: bool)
    requires Structure(w)
    ensures Structure(TryEnter(w, coin).world)
  {
    GoesStructure(w, DoorOf(w.s, w.s.where), coin);
    MoveToStructure(w, R_IN_CLEANR);
    MoveToStructure(w, R_IN_395LAB);
    MoveToStructure(w, R_CSL_LOBBY);
    MoveToStructure(w, R_BECKLOBBY);
  }

  lemma GoStructure(w: World, arg: string)
    requires Structure(w)
    ensures Structure(Go(w, arg).world)
  {
    MoveToStructure(w, R_ALLERTON);
    MoveToStructure(w, R_WILLARD);
    MoveToStructure(w, R_CAR_SITE);
  }

  lemma WalkStructure(w: World, c: Command, coin: bool)
    requires Structure(w) && Present(w.s) && Walks(c)
    ensures Structure(Perform(w, c, coin).world)
  {
    match c {
      case CmdLeft => LeftStructure(w, coin);
      case CmdEnter => EnterStructure(w, coin);
      case CmdRight => RightStructure(w, coin);
      case CmdDo(arg) => MoveToStructure(w, NONE);
      case CmdGo(arg) => GoStructure(w, arg);
      case CmdInventory => StatusOnly(w, LookInside(w).world);
      case CmdSigh => StatusOnly(w, Sigh(w).world);
    }
  }

  lemma HandleStructure(w: World, c: Command, coin: bool)
    requires Structure(w) && Present(w.s) && Handles(c)
    ensures Structure(Perform(w, c, coin).world)
  {
    match c {
      case CmdBuy(arg) => BuyStructure(w, arg);
      case CmdDrink(arg) => RemoveKeeps(w, O_MTN_DEW);
      case CmdDrop(arg) =>
        FoundExists(w, R_INVENTORY, arg);
        DropStructure(w, arg);
      case CmdGet(arg) =>
        FoundExists(w, Standing(w.s), arg);
        GetStructure(w, arg);
      case CmdWear(arg) => WearStructure(w, arg);
    }
  }

  lemma WorkStructure(w: World, c: Command, coin: bool)
    requires Structure(w) && Present(w.s) && !Walks(c) && !Handles(c)
    ensures Structure(Perform(w, c, coin).world)
  {
    match c {
      case CmdCharge(arg) => TradeKeeps(w, O_BATT_EMPTY, O_BATT_FULL, R_INVENTORY);
      case CmdFix(arg) => FixStructure(w, arg);
      case CmdFlash(arg) => TradeKeeps(w, O_ROBOT_DEAD, O_ROBOT_LIVE, R_INVENTORY);
      case CmdInstall(arg) =>
        InstallBatteryStructure(w);
        InstallCardStructure(w);
      case CmdUse(arg) =>
        UseCarStructure(w);
        UseFishStructure(w);
    }
  }

  lemma StructureKept(w: World, c: Command, coin: bool)
    requires Structure(w) && Present(w.s)
    ensures Structure(Perform(w, c, coin).world)
  {
    if Walks(c) {
      WalkStructure(w, c, coin);
    } else if Handles(c) {
      HandleStructure(w, c, coin);
    } else {
      WorkStructure(w, c, coin);
    }
  }

  // ------------------------------------------------------------ what a command may leave undrawn

  /** The player sees the same room, with the same contents and the same photo. */
  predicate SameSight(w: World, v: World) {
    && v.lists == w.lists && v.s.where == w.s.where
    && v.s.carView == w.s.carView && v.s.circleView == w.s.circleView
  }

  predicate Quiet(r: Outcome) { r.action == AllowEdit || r.action == DiscardText }

  lemma SideQuiet(w: World, coin: bool)
    ensures Quiet(MoveLeft(w, coin)) ==> MoveLeft(w, coin).world == w
    ensures Quiet(MoveRight(w, coin)) ==> MoveRight(w, coin).world == w
  {
  }

  lemma EnterQuiet(w: World, coin: bool)
    requires Sized(w)
    ensures Quiet(TryEnter(w, coin)) ==> TryEnter(w, coin).world == w
  {
  }

  lemma WalkQuiet(w: World, c: Command, coin: bool)
    requires Structure(w) && Present(w.s) && Walks(c)
    ensures Quiet(Perform(w, c, coin)) ==> SameSight(w, Perform(w, c, coin).world)
  {
    match c {
      case CmdLeft => SideQuiet(w, coin);
      case CmdEnter => EnterQuiet(w, coin);
      case CmdRight => SideQuiet(w, coin);
      case CmdDo(arg) =>
      case CmdGo(arg) =>
      case CmdInventory =>
      case CmdSigh =>
    }
  }

  lemma GetQuiet(w: World, arg: string)
    requires Sized(w) && IsRoom(Standing(w.s))
    requires FindIn(w.lists[Standing(w.s)], arg) != NONE ==> IsObject(FindIn(w.lists[Standing(w.s)], arg))
    ensures Quiet(Get(w, arg)) ==> Get(w, arg).world == w
  {
  }

  lemma HandleQuiet(w: World, c: Command, coin: bool)
    requires Structure(w) && Present(w.s) && Handles(c)
    ensures Quiet(Perform(w, c, coin)) ==> SameSight(w, Perform(w, c, coin).world)
  {
    match c {
      case CmdBuy(arg) =>
      case CmdDrink(arg) =>
      case CmdDrop(arg) => FoundExists(w, R_INVENTORY, arg);
      case CmdGet(arg) =>
        FoundExists(w, Standing(w.s), arg);
        GetQuiet(w, arg);
      case CmdWear(arg) =>
    }
  }

  lemma WorkQuiet(w: World, c: Command, coin: bool)
    requires Structure(w) && Present(w.s) && !Walks(c) && !Handles(c)
    ensures Quiet(Perform(w, c, coin)) ==> SameSight(w, Perform(w, c, coin).world)
  {
    match c {
      case CmdCharge(arg) =>
      case CmdFix(arg) =>
      case CmdFlash(arg) =>
      case CmdInstall(arg) =>
      case CmdUse(arg) =>
    }
  }

  /** A command after which the game loop does not redraw has changed nothing the player sees. */
  lemma QuietChangesNothing(w: World, c: Command, coin: bool)
    requires Structure(w) && Present(w.s)
    ensures Quiet(Perform(w, c, coin)) ==> SameSight(w, Perform(w, c, coin).world)
  {
    if Walks(c) {
      WalkQuiet(w, c, coin);
    } else if Handles(c) {
      HandleQuiet(w, c, coin);
    } else {
      WorkQuiet(w, c, coin);
    }
  }

  // ------------------------------------------------------------ whole games

  function NoObjects(): World {
    World(seq(N_ROOMS, _ => []),
          Status(seq(N_OBJECTS, _ => NONE), false, false, false, false, false,
                 R_EAST_EVRT, NONE, NONE, CAR_CLOSED, CAR_OPENED, 0, 1))
  }

  /** The world with the first n objects placed. */
  function Built(n: nat): (w: World)
    requires n <= N_OBJECTS
    ensures Sized(w)
  {
    if n == 0 then NoObjects()
    else if StartRoom(n - 1) == NONE then Built(n - 1)
    else Insert(Built(n - 1), n - 1, StartRoom(n - 1))
  }

  function Start(): World { Built(N_OBJECTS) }

  lemma StartRoomIs(o: int)
    ensures StartRoom(o) == NONE || IsRoom(StartRoom(o))
  {
  }

  lemma {:induction false} BuiltStructure(n: nat)
    requires n <= N_OBJECTS
    ensures Structure(Built(n))
  {
    if n == 0 {
      assert NoObjects().lists == seq(N_ROOMS, _ => []);
    } else {
      BuiltStructure(n - 1);
      StartRoomIs(n - 1);
      if StartRoom(n - 1) != NONE {
        InsertKeeps(Built(n - 1), n - 1, StartRoom(n - 1));
      }
    }
  }

  lemma {:induction false} BuiltAt(n: nat, o: int)
    requires n <= N_OBJECTS && IsObject(o)
    ensures Built(n).s == NoObjects().s.(loc := Built(n).s.loc)
    ensures Built(n).s.loc[o] == if o < n then StartRoom(o) else NONE
  {
    if n > 0 {
      BuiltAt(n - 1, o);
    }
  }

  /** The starting places the rules speak about. */
  predicate StartPlaces(loc: seq<int>) {
    && |loc| == N_OBJECTS
    && loc[O_TUX] == R_REM_LAB && loc[O_MIMO_CARD] == R_STATUE && loc[O_BOOK_C] == NONE
    && loc[O_GPS_BAD] == R_TALBOT && loc[O_GPS_GOOD] == NONE
    && loc[O_ROBOT_DEAD] == R_MNTL_LAB3 && loc[O_ROBOT_LIVE] == NONE
    && loc[O_BATT_CAR] == NONE && loc[O_BATT_EMPTY] == NONE && loc[O_BATT_FULL] == NONE
  }

  lemma StartLogic(loc: seq<int>)
    requires StartPlaces(loc)
    ensures Logic(NoObjects().s.(loc := loc))
  {
  }

  lemma StartAt(loc: seq<int>)
    requires |loc| == N_OBJECTS && forall o :: IsObject(o) ==> loc[o] == StartRoom(o)
    ensures StartPlaces(loc)
  {
  }

  lemma StartOk()
    ensures Structure(Start()) && Logic(Start().s)
  {
    BuiltStructure(N_OBJECTS);
    forall o | IsObject(o)
      ensures Start().s.loc[o] == StartRoom(o) && Start().s == NoObjects().s.(loc := Start().s.loc)
    {
      BuiltAt(N_OBJECTS, o);
    }
    StartAt(Start().s.loc);
    StartLogic(Start().s.loc);
    BuiltAt(N_OBJECTS, 0);
  }

  /** Where an object is drawn in a photo. */
  datatype Place = Place(x: int, y: int)

  /** A player's command with the chances it may use: a coin toss, and a place for an object put down anywhere. */
  datatype Turn = Turn(command: Command, coin: bool, at: Place)

  /** The world after the commands; winning, or a world that makes no sense, ends the game. */
  ghost function Play(w: World, turns: seq<Turn>): World
    decreases |turns|
  {
    if turns == [] || !Structure(w) || !Present(w.s) then w
    else Play(Perform(w, turns[0].command, turns[0].coin).world, turns[1..])
  }

  lemma {:induction false} PlayKeeps(w: World, turns: seq<Turn>)
    requires Structure(w) && Logic(w.s)
    ensures Structure(Play(w, turns)) && Logic(Play(w, turns).s)
    decreases |turns|
  {
    if turns != [] && w.s.where != NONE {
      LogicKept(w, turns[0].command, turns[0].coin);
      StructureKept(w, turns[0].command, turns[0].coin);
      PlayKeeps(Perform(w, turns[0].command, turns[0].coin).world, turns[1..]);
    }
  }

  lemma {:induction false} PlayAppend(w: World, a: seq<Turn>, b: seq<Turn>)
    ensures Play(w, a + b) == Play(Play(w, a), b)
    decreases |a|
  {
    if a == [] {
      assert a + b == b;
    } else if Structure(w) && Present(w.s) {
      assert (a + b)[0] == a[0] && (a + b)[1..] == a[1..] + b;
      PlayAppend(Perform(w, a[0].command, a[0].coin).world, a[1..], b);
    }
  }

  lemma PlayOne(w: World, turn: Turn)
    requires Structure(w) && Present(w.s)
    ensures Play(w, [turn]) == Perform(w, turn.command, turn.coin).world
  {
    var v := Perform(w, turn.command, turn.coin).world;
    assert Play(v, []) == v;
    assert [turn][1..] == [];
  }

  /** In every state of every game the lists are sound, the player is somewhere or has won, and the rules hold. */
  lemma EveryGame(turns: seq<Turn>)
    ensures var w := Play(Start(), turns);
            Structure(w) && Logic(w.s) && (w.s.where == NONE || Present(w.s))
  {
    StartOk();
    PlayKeeps(Start(), turns);
  }

  predicate AllFlags(s: Status) { s.eaten && s.suit && s.open && s.fixed && s.lured }

  /** Every won game has all five accomplishments, the repaired GPS and the flashed robot. */
  lemma EveryWin(turns: seq<Turn>)
    ensures var s := Play(Start(), turns).s;
            s.where == NONE ==>
              && |s.loc| == N_OBJECTS && AllFlags(s)
              && Placed(s, O_GPS_GOOD) && Placed(s, O_ROBOT_LIVE) && s.cockpit == R_OVER_WILL
  {
    EveryGame(turns);
  }
}

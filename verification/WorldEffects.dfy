/**
 * What each command does to a player's world, told by locations and accomplishments: which object goes where, what
 * is gained, and that nothing else changes.
 */
module WorldEffects {
  import opened WorldMap
  import opened WorldGame
  import opened WorldProofs

  // ------------------------------------------------------------ words and searches

  const UPPER := "ABCDEFGHIJKLMNOPQRSTUVWXYZ"
  const LOWER := "abcdefghijklmnopqrstuvwxyz"

  /** The two characters are the same, or the two cases of one letter. */
  ghost predicate OneLetter(c: char, d: char) {
    c == d || exists k :: 0 <= k < 26 && ((c == UPPER[k] && d == LOWER[k]) || (c == LOWER[k] && d == UPPER[k]))
  }

  lemma AlphabetIs(k: nat)
    requires k < 26
    ensures UPPER[k] as int == 65 + k && LOWER[k] as int == 97 + k
  {
  }

  lemma Lowered(k: nat)
    requires k < 26
    ensures Lower(UPPER[k]) == LOWER[k] && Lower(LOWER[k]) == LOWER[k]
  {
    AlphabetIs(k);
  }

  /** A capital letter and what it is lowered to are the two cases of one letter. */
  lemma TwoCases(c: char, d: char)
    requires 'A' <= c <= 'Z' && d == Lower(c)
    ensures OneLetter(c, d) && OneLetter(d, c)
  {
    var k := c as int - 65;
    AlphabetIs(k);
    assert c == UPPER[k] && d == LOWER[k];
  }

  lemma LowerIs(c: char, d: char)
    ensures Lower(c) == Lower(d) <==> OneLetter(c, d)
  {
    if c != d && Lower(c) == Lower(d) {
      if 'A' <= c <= 'Z' {
        TwoCases(c, d);
      } else {
        TwoCases(d, c);
      }
    } else if c != d && OneLetter(c, d) {
      var k :| 0 <= k < 26 && ((c == UPPER[k] && d == LOWER[k]) || (c == LOWER[k] && d == UPPER[k]));
      Lowered(k);
    }
  }

  /** Words are compared letter by letter, upper and lower case alike. */
  lemma SameExactly(a: string, b: string)
    ensures Same(a, b) <==> |a| == |b| && forall i :: 0 <= i < |a| ==> OneLetter(a[i], b[i])
  {
    if |a| == |b| {
      forall i | 0 <= i < |a|
        ensures Lower(a[i]) == Lower(b[i]) <==> OneLetter(a[i], b[i])
      {
        LowerIs(a[i], b[i]);
      }
    }
  }

  /** The search finds the first object of that name, and fails only if there is none. */
  lemma {:induction false} FindsFirst(l: seq<int>, arg: string) returns (i: nat)
    requires forall k :: 0 <= k < |l| ==> l[k] != NONE
    ensures i <= |l| && (forall k :: 0 <= k < i ==> !Same(arg, Name(l[k])))
    ensures if i == |l| then FindIn(l, arg) == NONE else FindIn(l, arg) == l[i] && Same(arg, Name(l[i]))
  {
    if l == [] || Same(arg, Name(l[0])) {
      i := 0;
    } else {
      var rest := l[1..];
      assert forall k :: 1 <= k < |l| ==> l[k] == rest[k - 1];
      var j := FindsFirst(rest, arg);
      i := j + 1;
    }
  }

  /** In a room's list the search finds an object there by that name whenever one is there. */
  lemma FindsThere(w: World, r: int, arg: string)
    requires Structure(w) && IsRoom(r)
    ensures var o := FindIn(w.lists[r], arg);
            if o == NONE then forall p :: IsObject(p) && w.s.loc[p] == r ==> !Same(arg, Name(p))
            else IsObject(o) && w.s.loc[o] == r && Same(arg, Name(o))
  {
    var l := w.lists[r];
    assert ListOk(l, w.s.loc, r);
    assert forall k :: 0 <= k < |l| ==> l[k] in l;
    var i := FindsFirst(l, arg);
    forall p | IsObject(p) && w.s.loc[p] == r && i == |l|
      ensures !Same(arg, Name(p))
    {
      var k :| 0 <= k < |l| && l[k] == p;
    }
  }

  // ------------------------------------------------------------ dropping and getting

  /** Exactly object o has a new location, r; nothing else of the world's status is different. */
  ghost predicate Only(s: Status, t: Status, o: int, r: int) {
    && |s.loc| == |t.loc| == N_OBJECTS && t == s.(loc := t.loc)
    && IsObject(o) && t.loc[o] == r && forall p :: IsObject(p) && p != o ==> t.loc[p] == s.loc[p]
  }

  /**
   * A carried object of that name goes to the room the player stands in, which is the one the backpack view goes
   * back to while that view is open; without one nothing happens.
   */
  lemma DropEffect(w: World, arg: string, coin: bool) returns (o: int)
    requires Structure(w) && Present(w.s)
    ensures var r, here := Perform(w, CmdDrop(arg), coin), if w.s.where == R_INVENTORY then w.s.backpack else w.s.where;
            if exists p :: IsObject(p) && w.s.loc[p] == R_INVENTORY && Same(arg, Name(p)) then
              && Only(w.s, r.world.s, o, here) && w.s.loc[o] == R_INVENTORY && Same(arg, Name(o)) && here != R_INVENTORY
              && r.world.lists[here][0] == o && r.action == RedrawRoom
            else r == Outcome(w, AllowEdit)
  {
    FindsThere(w, R_INVENTORY, arg);
    FoundExists(w, R_INVENTORY, arg);
    o := FindIn(w.lists[R_INVENTORY], arg);
  }

  /** What the desk hands out: the C book to the fed, the other one to the hungry, while it has it. */
  predicate HandsOut(s: Status, book: int) {
    |s.loc| == N_OBJECTS && (book == O_BOOK_C || book == O_BOOK_WODE) && s.loc[book] == NONE && (book == O_BOOK_C <==> s.eaten)
  }

  /** Where the player stands. */
  predicate StandsIn(s: Status, r: int) { (s.where == r && r != R_INVENTORY) || (s.where == R_INVENTORY && s.backpack == r) }

  /** At the reserve desk a book is handed out. */
  lemma GetBookEffect(w: World, arg: string, coin: bool, book: int)
    requires Structure(w) && Present(w.s) && StandsIn(w.s, R_RESERVE) && Same("book", arg) && HandsOut(w.s, book)
    ensures var r := Perform(w, CmdGet(arg), coin); Only(w.s, r.world.s, book, R_INVENTORY) && r.action == RedrawRoom
  {
    FoundExists(w, R_RESERVE, arg);
  }

  /** At the open car any get takes its battery, which then is an empty one, whatever was asked for. */
  lemma GetBatteryEffect(w: World, arg: string, coin: bool)
    requires Structure(w) && Present(w.s) && StandsIn(w.s, R_CAR_SITE) && w.s.loc[O_BATT_CAR] == R_CAR_SITE
    ensures var r := Perform(w, CmdGet(arg), coin);
            && r.world.s == w.s.(loc := r.world.s.loc) && r.action == RedrawRoom && |r.world.s.loc| == N_OBJECTS
            && r.world.s.loc[O_BATT_CAR] == NONE && r.world.s.loc[O_BATT_EMPTY] == R_INVENTORY
            && forall p :: IsObject(p) && p != O_BATT_CAR && p != O_BATT_EMPTY ==> r.world.s.loc[p] == w.s.loc[p]
  {
    FoundExists(w, R_CAR_SITE, arg);
  }

  /** Neither the desk nor the car has a say. */
  predicate Ordinary(s: Status, r: int, arg: string) {
    && |s.loc| == N_OBJECTS && !(r == R_CAR_SITE && s.loc[O_BATT_CAR] == R_CAR_SITE)
    && !(r == R_RESERVE && Same("book", arg) && (HandsOut(s, O_BOOK_C) || HandsOut(s, O_BOOK_WODE)))
  }

  /** Elsewhere the object of that name put last into the room is carried, unless it is Tux, not yet lured. */
  lemma GetEffect(w: World, arg: string, coin: bool, src: int) returns (o: int)
    requires Structure(w) && Present(w.s) && StandsIn(w.s, src) && Ordinary(w.s, src, arg)
    ensures var r := Perform(w, CmdGet(arg), coin);
            if exists p :: IsObject(p) && w.s.loc[p] == src && Same(arg, Name(p)) then
              && IsObject(o) && w.s.loc[o] == src && Same(arg, Name(o)) && o == FindIn(w.lists[src], arg)
              && if o == O_TUX && !w.s.lured then r == Outcome(w, DiscardText)
                 else Only(w.s, r.world.s, o, R_INVENTORY) && r.action == RedrawRoom
            else r == Outcome(w, AllowEdit)
  {
    FindsThere(w, src, arg);
    FoundExists(w, src, arg);
    o := FindIn(w.lists[src], arg);
  }

  /** Some object of that name that was not carried before is carried afterwards. */
  ghost predicate GetsNamed(s: Status, t: Status, arg: string) {
    && |s.loc| == |t.loc| == N_OBJECTS
    && exists p :: IsObject(p) && Same(arg, Name(p)) && s.loc[p] != R_INVENTORY && t.loc[p] == R_INVENTORY
  }

  /** The player stands at the open car with its battery in it. */
  predicate AtOpenCar(s: Status) { StandsIn(s, R_CAR_SITE) && |s.loc| == N_OBJECTS && s.loc[O_BATT_CAR] == R_CAR_SITE }

  lemma SameTurned(a: string, b: string)
    ensures Same(a, b) <==> Same(b, a)
  {
  }

  lemma Batteries(s: Status)
    requires Logic(s) && s.loc[O_BATT_CAR] != NONE
    ensures s.loc[O_BATT_EMPTY] == NONE && s.loc[O_BATT_CAR] == R_CAR_SITE
  {
  }

  lemma LuredIfCarried(s: Status)
    requires Logic(s) && s.loc[O_TUX] == R_INVENTORY
    ensures s.lured
  {
  }

  /** The first object of a list is found by its name. */
  lemma FindsHead(l: seq<int>, arg: string)
    requires l != [] && Same(arg, Name(l[0]))
    ensures FindIn(l, arg) == l[0]
  {
  }

  /** At the open car a get brings the battery, so only the word battery brings what it says. */
  lemma GetBackAtCar(w: World, arg: string, coin: bool)
    requires Structure(w) && Present(w.s) && Logic(w.s) && AtOpenCar(w.s)
    ensures GetsNamed(w.s, Perform(w, CmdGet(arg), coin).world.s, arg) <==> Same("battery", arg)
  {
    GetBatteryEffect(w, arg, coin);
    Batteries(w.s);
    SameTurned("battery", arg);
    var t := Perform(w, CmdGet(arg), coin).world.s;
    assert Name(O_BATT_EMPTY) == "battery";
    if Same("battery", arg) {
      assert t.loc[O_BATT_EMPTY] == R_INVENTORY;
    }
  }

  lemma GetBackElsewhere(w: World, arg: string, coin: bool, o: int, here: int)
    requires Structure(w) && Present(w.s) && StandsIn(w.s, here) && !AtOpenCar(w.s)
    requires IsObject(o) && w.s.loc[o] == here && Same(arg, Name(o)) && (o == O_TUX ==> w.s.lured)
    requires w.lists[here] != [] && w.lists[here][0] == o
    ensures GetsNamed(w.s, Perform(w, CmdGet(arg), coin).world.s, arg)
  {
    var t := Perform(w, CmdGet(arg), coin).world.s;
    if Ordinary(w.s, here, arg) {
      FindsHead(w.lists[here], arg);
      var p := GetEffect(w, arg, coin, here);
      assert t.loc[p] == R_INVENTORY;
    } else {
      var book := if w.s.eaten then O_BOOK_C else O_BOOK_WODE;
      GetBookEffect(w, arg, coin, book);
      SameTurned("book", arg);
      assert t.loc[book] == R_INVENTORY && Name(book) == "book";
    }
  }

  /**
   * After dropping an object, getting that name again from the same spot carries an object of that name, in every
   * world the rules allow, exactly unless the player stands at the open car and asks for something else than its battery.
   */
  lemma GetBackExactly(w: World, arg: string, coin: bool, again: bool)
    requires Structure(w) && Logic(w.s) && w.s.where != NONE
    requires exists p :: IsObject(p) && w.s.loc[p] == R_INVENTORY && Same(arg, Name(p))
    ensures var v := Perform(w, CmdDrop(arg), coin).world;
            && Structure(v) && Present(v.s)
            && (GetsNamed(v.s, Perform(v, CmdGet(arg), again).world.s, arg) <==> !AtOpenCar(w.s) || Same("battery", arg))
  {
    var o := DropEffect(w, arg, coin);
    var v := Perform(w, CmdDrop(arg), coin).world;
    StructureKept(w, CmdDrop(arg), coin);
    LogicKept(w, CmdDrop(arg), coin);
    CarNotCarried(w.s);
    if AtOpenCar(w.s) {
      GetBackAtCar(v, arg, again);
    } else {
      var here := if w.s.where == R_INVENTORY then w.s.backpack else w.s.where;
      if o == O_TUX {
        LuredIfCarried(w.s);
      }
      assert ListOk(v.lists[here], v.s.loc, here);
      GetBackElsewhere(v, arg, again, o, here);
    }
  }

  lemma CarNotCarried(s: Status)
    requires Logic(s)
    ensures s.loc[O_BATT_CAR] != R_INVENTORY
  {
  }

  /** Closing the backpack view before or after dropping makes no difference. */
  lemma DropThroughBackpack(w: World, arg: string, coin: bool)
    requires Structure(w) && Present(w.s) && w.s.where == R_INVENTORY
    ensures var v, u := Perform(w, CmdDrop(arg), coin).world, Perform(w, CmdInventory, coin).world;
            && Structure(v) && Present(v.s) && Structure(u) && Present(u.s)
            && Perform(v, CmdInventory, coin).world == Perform(u, CmdDrop(arg), coin).world
  {
    StructureKept(w, CmdDrop(arg), coin);
    StructureKept(w, CmdInventory, coin);
    FoundExists(w, R_INVENTORY, arg);
    var o := FindIn(w.lists[R_INVENTORY], arg);
    var u := Perform(w, CmdInventory, coin).world;
    assert u.lists == w.lists && u.s.loc == w.s.loc;
  }

  /** The same for getting. */
  lemma GetThroughBackpack(w: World, arg: string, coin: bool)
    requires Structure(w) && Present(w.s) && w.s.where == R_INVENTORY
    ensures var v, u := Perform(w, CmdGet(arg), coin).world, Perform(w, CmdInventory, coin).world;
            && Structure(v) && Present(v.s) && Structure(u) && Present(u.s)
            && Perform(v, CmdInventory, coin).world == Perform(u, CmdGet(arg), coin).world
  {
    StructureKept(w, CmdGet(arg), coin);
    FoundExists(w, w.s.backpack, arg);
    var v := Perform(w, CmdGet(arg), coin).world;
    GetStaysInside(w, arg);
    LeavesBackpack(v, coin);
    LeavesBackpack(w, coin);
    FoundExists(Seen(w, w.s.backpack), w.s.backpack, arg);
    GetShown(w, arg, w.s.backpack);
  }

  /** The world with another room shown. */
  function Seen(w: World, d: int): World { w.(s := w.s.(where := d)) }

  lemma LeavesBackpack(w: World, coin: bool)
    requires Structure(w) && Present(w.s) && w.s.where == R_INVENTORY
    ensures Perform(w, CmdInventory, coin).world == Seen(w, w.s.backpack)
    ensures Structure(Seen(w, w.s.backpack)) && Present(Seen(w, w.s.backpack).s)
  {
    StructureKept(w, CmdInventory, coin);
  }

  lemma GetStaysInside(w: World, arg: string)
    requires Sized(w) && IsRoom(Standing(w.s))
    requires FindIn(w.lists[Standing(w.s)], arg) != NONE ==> IsObject(FindIn(w.lists[Standing(w.s)], arg))
    ensures var s := Get(w, arg).world.s; s.where == w.s.where && s.backpack == w.s.backpack
  {
  }

  /** Taking an object does not depend on the room shown. */
  lemma CarryShown(w: World, o: int, d: int)
    requires Sized(w) && IsObject(o)
    ensures Sized(Seen(w, d)) && Carry(Seen(w, d), o) == Seen(Carry(w, o), d) && Remove(Seen(w, d), o) == Seen(Remove(w, o), d)
  {
  }

  predicate Searchable(w: World, arg: string, d: int) {
    && |w.lists| == N_ROOMS && w.s.where == R_INVENTORY && w.s.backpack == d && 0 < d < N_ROOMS
    && (FindIn(w.lists[d], arg) != NONE ==> IsObject(FindIn(w.lists[d], arg)))
  }

  lemma GetShown(w: World, arg: string, d: int)
    requires Sized(w) && Searchable(w, arg, d)
    ensures Get(Seen(w, d), arg) == Outcome(Seen(Get(w, arg).world, d), Get(w, arg).action)
  {
    var book := DeskBook(w.s, d, arg);
    if book != NONE {
      CarryShown(w, book, d);
    } else if TakesBattery(w.s, d) {
      GetShownBattery(w, arg, d);
    } else {
      GetShownFound(w, arg, d);
    }
  }

  lemma GetShownBattery(w: World, arg: string, d: int)
    requires Sized(w) && Searchable(w, arg, d) && DeskBook(w.s, d, arg) == NONE && TakesBattery(w.s, d)
    ensures Get(Seen(w, d), arg) == Outcome(Seen(Get(w, arg).world, d), Get(w, arg).action)
  {
    CarryShown(w, O_BATT_CAR, d);
    CarryShown(Remove(w, O_BATT_CAR), O_BATT_EMPTY, d);
  }

  lemma GetShownFound(w: World, arg: string, d: int)
    requires Sized(w) && Searchable(w, arg, d) && DeskBook(w.s, d, arg) == NONE && !TakesBattery(w.s, d)
    ensures Get(Seen(w, d), arg) == Outcome(Seen(Get(w, arg).world, d), Get(w, arg).action)
  {
    var o := FindIn(w.lists[d], arg);
    if o != NONE {
      CarryShown(w, o, d);
    }
  }
}

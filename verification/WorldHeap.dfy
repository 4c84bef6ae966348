/** The world as the program keeps it: intrusive contents lists threaded through the objects. */
module WorldHeap {
  import opened WorldMap
  import opened WorldGame
  import opened WorldProofs
  import opened WorldPlaces

  /** The object at place i of a list, or the null object past its end. */
  function At(l: seq<int>, i: nat): int { if i < |l| then l[i] else NONE }

  /** From head on, the next links run through exactly the list, in order, to the null object. */
  ghost predicate Chain(next: seq<int>, l: seq<int>, head: int) {
    && |next| == N_OBJECTS && head == At(l, 0)
    && forall i :: 0 <= i < |l| ==> IsObject(l[i]) && next[l[i]] == At(l, i + 1)
  }

  /** Chains only depend on the links of their own objects. */
  lemma ChainFrame(n: seq<int>, m: seq<int>, l: seq<int>, head: int, p: int)
    requires Chain(n, l, head) && |m| == |n| && p !in l
    requires forall j :: 0 <= j < |n| && j != p ==> m[j] == n[j]
    ensures Chain(m, l, head)
  {
  }

  /** Bypassing the object at place i. */
  lemma Bypass(n: seq<int>, m: seq<int>, l: seq<int>, i: nat)
    requires Chain(n, l, At(l, 0)) && 0 < i < |l| && NoDup(l) && m == n[l[i - 1] := n[l[i]]]
    ensures Chain(m, l[..i] + l[i + 1..], l[0])
  {
    var k := l[..i] + l[i + 1..];
    forall j | 0 <= j < |k|
      ensures IsObject(k[j]) && m[k[j]] == At(k, j + 1)
    {
      if j < i {
        assert k[j] == l[j];
      } else {
        assert k[j] == l[j + 1] && l[j + 1] != l[i - 1];
      }
    }
  }

  lemma DropHead(n: seq<int>, l: seq<int>)
    requires l != [] && Chain(n, l, l[0])
    ensures Chain(n, l[..0] + l[1..], n[l[0]])
  {
    var k := l[..0] + l[1..];
    assert forall j :: 0 <= j < |k| ==> k[j] == l[j + 1];
  }

  /** The links and list heads represent the contents lists. */
  ghost predicate Threaded(lists: seq<seq<int>>, loc: seq<int>, next: seq<int>, heads: seq<int>) {
    && ListsOk(lists, loc) && |next| == N_OBJECTS && |heads| == N_ROOMS
    && forall r :: IsRoom(r) ==> Chain(next, lists[r], heads[r])
  }

  /** An object that starts in a room is at its own place there, or at the drawn one if it has none. */
  predicate PlacedAt(px: int, py: int, o: int, at: int -> Place)
    requires IsObject(o)
  {
    StartRoom(o) != NONE ==> Place(px, py) == if StartX(o) != NONE then Place(StartX(o), StartY(o)) else at(o)
  }

  predicate AllPlaced(xs: seq<int>, ys: seq<int>, n: nat, at: int -> Place)
    requires |xs| == |ys| == N_OBJECTS && n <= N_OBJECTS
  {
    forall o :: 0 <= o < n ==> PlacedAt(xs[o], ys[o], o, at)
  }

  lemma PlacedFrame(xs: seq<int>, ys: seq<int>, us: seq<int>, vs: seq<int>, n: nat, at: int -> Place)
    requires |xs| == |ys| == |us| == |vs| == N_OBJECTS && n < N_OBJECTS
    requires AllPlaced(xs, ys, n, at) && PlacedAt(us[n], vs[n], n, at)
    requires forall o :: IsObject(o) && o != n ==> us[o] == xs[o] && vs[o] == ys[o]
    ensures AllPlaced(us, vs, n + 1, at)
  {
    forall o | 0 <= o < n + 1
      ensures PlacedAt(us[o], vs[o], o, at)
    {
      if o < n {
        assert PlacedAt(xs[o], ys[o], o, at);
      }
    }
  }

  lemma FindOn(l: seq<int>, i: nat, arg: string)
    requires i < |l| && !Same(arg, Name(l[i]))
    ensures FindIn(l[i..], arg) == FindIn(l[i + 1..], arg)
  {
    assert l[i..][1..] == l[i + 1..];
  }

  lemma FindHere(l: seq<int>, i: nat, arg: string)
    requires i < |l| && Same(arg, Name(l[i]))
    ensures FindIn(l[i..], arg) == l[i]
  {
  }

  lemma NotTaken(l: seq<int>, xs: seq<int>, ys: seq<int>, k: nat)
    requires |xs| == |ys| == N_OBJECTS
    requires forall o :: o in l ==> IsObject(o) && (xs[o] != SlotX(k) || ys[o] != SlotY(k))
    ensures !Taken(l, xs, ys, k)
  {
  }

  lemma TakenTo(l: seq<int>, xs: seq<int>, ys: seq<int>, k: nat, i: int)
    requires TakenBelow(l, xs, ys, k) && SitsAt(l, xs, ys, i, SlotX(k), SlotY(k))
    ensures TakenBelow(l, xs, ys, k + 1)
  {
    assert Taken(l, xs, ys, k);
  }

  /** An object inserted at the first free place of the inventory is put where it is due. */
  lemma CarriedAt(w: World, xs: seq<int>, ys: seq<int>, v: World, us: seq<int>, vs: seq<int>, o: int, at: Place, k: nat)
    requires Structure(w) && IsObject(o) && v == Carry(w, o) && First(v, o) && Unmoved(xs, ys, us, vs, o)
    requires FirstFree(w.lists[R_INVENTORY], xs, ys, at, Place(us[o], vs[o]), k)
    ensures Put(w, xs, ys, v, us, vs, o, at)
  {
    assert ListOk(w.lists[R_INVENTORY], w.s.loc, R_INVENTORY);
    FreeSame(w.lists[R_INVENTORY], w.s.loc, v.s.loc, xs, ys, at, Place(us[o], vs[o]), k);
  }

  lemma CarriedApart(w: World, xs: seq<int>, ys: seq<int>, o: int, at: Place, place: Place, k: nat)
    requires Structure(w) && |xs| == |ys| == N_OBJECTS && FirstFree(w.lists[R_INVENTORY], xs, ys, at, place, k)
    ensures |w.lists[R_INVENTORY]| < SLOTS ==>
              && OnGrid(place.x, place.y)
              && forall p :: p in w.lists[R_INVENTORY] ==> IsObject(p) && (xs[p] != place.x || ys[p] != place.y)
  {
    var l := w.lists[R_INVENTORY];
    assert ListOk(l, w.s.loc, R_INVENTORY);
    if |l| < SLOTS {
      FirstFreeApart(l, xs, ys, at, place, k);
      forall p | p in l
        ensures IsObject(p) && (xs[p] != place.x || ys[p] != place.y)
      {
        var i :| 0 <= i < |l| && l[i] == p;
        assert !SitsAt(l, xs, ys, i, place.x, place.y);
      }
    }
  }

  /** An object put down in a room that is not the backpack. */
  lemma DroppedAt(w: World, xs: seq<int>, ys: seq<int>, v: World, us: seq<int>, vs: seq<int>, o: int, r: int, at: Place)
    requires Structure(w) && IsObject(o) && IsRoom(r) && r != R_INVENTORY && v == Insert(w, o, r) && First(v, o)
    requires Unmoved(xs, ys, us, vs, o)
    requires || (Place(us[o], vs[o]) == at && (w.s.loc[o] == R_INVENTORY || o != O_BATT_CAR))
             || (Place(us[o], vs[o]) == Place(265, 122) && o == O_BATT_CAR)
    ensures Put(w, xs, ys, v, us, vs, o, at)
  {
  }

  /** What get takes: the desk's book, the car's battery, or what is found in the room; u is the world it is taken in. */
  ghost predicate Takes(w: World, arg: string, u: World, o: int)
    requires Structure(w) && Present(w.s)
  {
    var src := Standing(w.s);
    if DeskBook(w.s, src, arg) != NONE then o == DeskBook(w.s, src, arg) && u == w
    else if TakesBattery(w.s, src) then o == O_BATT_EMPTY && u == Remove(w, O_BATT_CAR)
    else o == FindIn(w.lists[src], arg) && u == w
  }

  /** What is taken was not carried. */
  lemma TakesNew(w: World, arg: string, u: World, o: int)
    requires Structure(w) && Present(w.s) && Takes(w, arg, u, o) && o != NONE
    ensures IsObject(o) && (Logic(w.s) ==> w.s.loc[o] != R_INVENTORY)
    ensures u != w ==> u == Remove(w, O_BATT_CAR) && o != O_BATT_CAR
  {
    FoundExists(w, Standing(w.s), arg);
  }

  lemma TakenTurned(w: World, arg: string, u: World, xs: seq<int>, ys: seq<int>, v: World, us: seq<int>, vs: seq<int>, o: int, at: Place)
    requires Structure(w) && Present(w.s) && Takes(w, arg, u, o) && IsObject(o) && Sized(u) && v == Carry(u, o)
    requires Put(u, xs, ys, v, us, vs, o, at)
    ensures Turned(w, xs, ys, v, us, vs, o, at, RedrawRoom)
  {
    TakesNew(w, arg, u, o);
    if u != w {
      PutAfter(w, u, xs, ys, v, us, vs, o, O_BATT_CAR, at);
    }
  }

  /** What becomes of the world by what is taken. */
  lemma TakesGets(w: World, arg: string, u: World, o: int)
    requires Structure(w) && Present(w.s) && Takes(w, arg, u, o) && Sized(u)
    ensures (FoundExists(w, Standing(w.s), arg);
             Get(w, arg) == if o == NONE then Outcome(w, AllowEdit)
                            else if o == O_TUX && !w.s.lured then Outcome(w, DiscardText)
                            else (TakesNew(w, arg, u, o); Outcome(Carry(u, o), RedrawRoom)))
  {
    FoundExists(w, Standing(w.s), arg);
  }

  class Heap {
    const next: array<int>
    const loc: array<int>
    const contents: array<int>
    const x: array<int>
    const y: array<int>
    var eaten: bool
    var suit: bool
    var open: bool
    var fixed: bool
    var lured: bool
    var where: int
    var backpack: int
    var cockpit: int
    var carView: int
    var carSwap: int
    var circleView: int
    var circleSwap: int
    ghost var lists: seq<seq<int>>

    ghost function Abstract(): World
      reads this, loc
    {
      World(lists, Status(loc[..], eaten, suit, open, fixed, lured, where, backpack, cockpit,
                          carView, carSwap, circleView, circleSwap))
    }

    ghost predicate Shaped()
      reads this
    {
      && next.Length == loc.Length == x.Length == y.Length == N_OBJECTS && contents.Length == N_ROOMS
      && next != loc && next != contents && next != x && next != y && loc != contents && loc != x && loc != y
      && contents != x && contents != y && x != y
    }

    ghost predicate Valid()
      reads this, next, loc, contents
    {
      Shaped() && Threaded(lists, loc[..], next[..], contents[..])
    }

    /** The rooms without objects. */
    constructor ()
      ensures Valid() && Abstract() == NoObjects()
      ensures fresh(next) && fresh(loc) && fresh(contents) && fresh(x) && fresh(y)
    {
      next := new int[N_OBJECTS](_ => NONE);
      loc := new int[N_OBJECTS](_ => NONE);
      contents := new int[N_ROOMS](_ => NONE);
      x := new int[N_OBJECTS](_ => 0);
      y := new int[N_OBJECTS](_ => 0);
      eaten, suit, open, fixed, lured := false, false, false, false, false;
      where, backpack, cockpit := R_EAST_EVRT, NONE, NONE;
      carView, carSwap, circleView, circleSwap := CAR_CLOSED, CAR_OPENED, 0, 1;
      lists := NoObjects().lists;
      new;
      assert loc[..] == NoObjects().s.loc;
      BuiltStructure(0);
    }

    /** Puts object o where it starts. */
    method PlaceObject(o: nat, at: int -> Place)
      requires Valid() && o < N_OBJECTS && Abstract() == Built(o)
      modifies next, contents, loc, x, y, `lists
      ensures Valid() && Abstract() == Built(o + 1) && PlacedAt(x[o], y[o], o, at)
      ensures forall p :: IsObject(p) && p != o ==> x[p] == old(x[p]) && y[p] == old(y[p])
    {
      var r := StartRoom(o);
      StartRoomIs(o);
      if r != NONE {
        InsertObjectAt(o, r, if StartX(o) != NONE then StartX(o) else at(o).x, if StartX(o) != NONE then StartY(o) else at(o).y);
      }
    }

    /** The same when the objects before o are placed. */
    method PlaceNext(o: nat, at: int -> Place)
      requires Valid() && o < N_OBJECTS && Abstract() == Built(o) && AllPlaced(x[..], y[..], o, at)
      modifies next, contents, loc, x, y, `lists
      ensures Valid() && Abstract() == Built(o + 1) && AllPlaced(x[..], y[..], o + 1, at)
    {
      ghost var xs, ys := x[..], y[..];
      PlaceObject(o, at);
      PlacedFrame(xs, ys, x[..], y[..], o, at);
    }

    /** Places the first n objects, one by one. */
    method PlaceAll(n: nat, at: int -> Place)
      requires Valid() && n <= N_OBJECTS && Abstract() == Built(0)
      modifies next, contents, loc, x, y, `lists
      ensures Valid() && Abstract() == Built(n) && AllPlaced(x[..], y[..], n, at)
    {
      var o := 0;
      while o < n
        invariant 0 <= o <= n && Valid() && Abstract() == Built(o) && AllPlaced(x[..], y[..], o, at)
      {
        PlaceNext(o, at);
        o := o + 1;
      }
    }

    /** Builds the world; at gives the place drawn for each object that has none of its own. */
    method BuildWorld(at: int -> Place)
      requires Valid() && Abstract() == NoObjects()
      modifies next, contents, loc, x, y, `lists
      ensures Valid() && Abstract() == Start() && AllPlaced(x[..], y[..], N_OBJECTS, at)
    {
      PlaceAll(N_OBJECTS, at);
    }

    /** The first object of that name in a room, or NONE. */
    method FindInRoom(r: int, arg: string) returns (o: int)
      requires Valid() && IsRoom(r)
      ensures o == FindIn(lists[r], arg)
    {
      o := contents[r];
      ghost var l, i := lists[r], 0;
      assert Chain(next[..], l, contents[r]);
      assert l[0..] == l;
      while o != NONE
        invariant 0 <= i <= |l| && o == At(l, i)
        invariant FindIn(l, arg) == FindIn(l[i..], arg)
        decreases |l| - i
      {
        assert IsObject(l[i]) && next[..][l[i]] == At(l, i + 1);
        if Same(arg, Name(o)) {
          FindHere(l, i, arg);
          return;
        }
        FindOn(l, i, arg);
        o := next[o];
        i := i + 1;
      }
    }

    /** The objects of a room, in the order of its list. */
    method ContentsOf(r: int) returns (l: seq<int>)
      requires Valid() && IsRoom(r)
      ensures l == lists[r]
    {
      l := [];
      var o := contents[r];
      ghost var all := lists[r];
      assert Chain(next[..], all, contents[r]);
      while o != NONE
        invariant |l| <= |all| && l == all[..|l|] && o == At(all, |l|)
        decreases |all| - |l|
      {
        assert IsObject(all[|l|]) && next[..][all[|l|]] == At(all, |l| + 1);
        l := l + [o];
        o := next[o];
      }
    }

    /** Walks to the link that points at o, place i of room r's list, and makes it point past o. */
    method Unlink(o: int, r: int, ghost l: seq<int>, ghost i: nat)
      requires Shaped() && IsRoom(r) && NoDup(l) && i < |l| && l[i] == o && Chain(next[..], l, contents[r])
      modifies next, contents
      ensures Chain(next[..], l[..i] + l[i + 1..], contents[r])
      ensures forall q :: IsRoom(q) && q != r ==> contents[q] == old(contents[q])
      ensures forall j :: IsObject(j) && j !in l ==> next[j] == old(next[j])
    {
      var prev, cur := NONE, contents[r];
      ghost var k := 0;
      while cur != o
        invariant 0 <= k <= i && cur == l[k] && prev == (if k == 0 then NONE else l[k - 1])
        decreases i - k
      {
        assert IsObject(l[k]) && next[..][l[k]] == At(l, k + 1);
        prev := cur;
        cur := next[cur];
        k := k + 1;
      }
      assert k == i;
      ghost var n := next[..];
      assert IsObject(o);
      if prev == NONE {
        DropHead(n, l);
        contents[r] := next[o];
      } else {
        assert IsObject(l[i - 1]);
        next[prev] := next[o];
        Bypass(n, next[..], l, i);
      }
    }

    /** Takes an object out of its room's list, if it is in one. */
    method RemoveObject(o: int)
      requires Valid() && IsObject(o)
      modifies next, contents, loc, `lists
      ensures Valid() && Abstract() == Remove(old(Abstract()), o)
      ensures loc[o] == NONE
    {
      ghost var w, n, heads := Abstract(), next[..], contents[..];
      if loc[o] == NONE {
        assert Remove(w, o) == w;
        return;
      }
      var r := loc[o];
      ghost var i := PlaceOf(w, o);
      assert Chain(n, w.lists[r], heads[r]);
      Unlink(o, r, w.lists[r], i);
      RemoveThreaded(w, o, i, n, next[..], heads, contents[..]);
      lists := lists[r := Without(lists[r], o)];
      loc[o] := NONE;
      assert loc[..] == w.s.loc[o := NONE];
    }

    /** Puts an object first in a room's list, at a place in the photo. */
    method InsertObjectAt(o: int, r: int, px: int, py: int)
      requires Valid() && IsObject(o) && IsRoom(r)
      modifies next, contents, loc, x, y, `lists
      ensures Valid() && Abstract() == Insert(old(Abstract()), o, r)
      ensures x[o] == px && y[o] == py && First(Abstract(), o)
      ensures forall p :: IsObject(p) && p != o ==> x[p] == old(x[p]) && y[p] == old(y[p])
    {
      RemoveObject(o);
      ghost var u, n, heads := Abstract(), next[..], contents[..];
      x[o] := px;
      y[o] := py;
      loc[o] := r;
      next[o] := contents[r];
      contents[r] := o;
      lists := lists[r := [o] + lists[r]];
      assert loc[..] == u.s.loc[o := r] && next[..] == n[o := heads[r]] && contents[..] == heads[r := o];
      InsertThreaded(u, o, r, n, heads);
    }

    /** The inventory's list can be walked. */
    ghost predicate Walkable()
      reads this, next, contents
    {
      Shaped() && |lists| == N_ROOMS && Chain(next[..], lists[R_INVENTORY], contents[R_INVENTORY])
    }

    /** Nobody in the inventory sits at (px, py). */
    ghost predicate Free(px: int, py: int)
      requires |lists| == N_ROOMS && x.Length == y.Length == N_OBJECTS
      reads this, x, y
    {
      forall o :: o in lists[R_INVENTORY] ==> IsObject(o) && (x[o] != px || y[o] != py)
    }

    /** Whether somebody in the inventory sits at (px, py), and at which place of the list. */
    method Occupied(px: int, py: int) returns (taken: bool, ghost i: nat)
      requires Walkable()
      ensures taken ==> SitsAt(lists[R_INVENTORY], x[..], y[..], i, px, py)
      ensures !taken ==> Free(px, py)
    {
      ghost var l := lists[R_INVENTORY];
      var conf := contents[R_INVENTORY];
      i := 0;
      while conf != NONE
        invariant 0 <= i <= |l| && conf == At(l, i)
        invariant forall j :: 0 <= j < i ==> IsObject(l[j]) && (x[l[j]] != px || y[l[j]] != py)
        decreases |l| - i
      {
        assert IsObject(l[i]) && next[..][l[i]] == At(l, i + 1);
        if px == x[conf] && py == y[conf] {
          return true, i;
        }
        conf := next[conf];
        i := i + 1;
      }
      taken := false;
    }

    /** Scans row py of the grid for the first free place, the rows above it being taken. */
    method FreeInRow(py: int, ghost row: nat) returns (found: bool, px: int, ghost k: nat)
      requires Walkable() && row < 4 && py == 10 + 50 * row && TakenBelow(lists[R_INVENTORY], x[..], y[..], 3 * row)
      ensures TakenBelow(lists[R_INVENTORY], x[..], y[..], k)
      ensures found ==> k < SLOTS && px == SlotX(k) && py == SlotY(k) && !Taken(lists[R_INVENTORY], x[..], y[..], k)
      ensures !found ==> k == 3 * row + 3
    {
      ghost var l, xs, ys := lists[R_INVENTORY], x[..], y[..];
      ghost var col := 0;
      px := 10;
      k := 3 * row;
      while px <= 210
        invariant 0 <= col <= 3 && px == 10 + 100 * col && k == 3 * row + col && TakenBelow(l, xs, ys, k)
      {
        SlotIs(row, col);
        var taken, i := Occupied(px, py);
        if !taken {
          NotTaken(l, xs, ys, k);
          return true, px, k;
        }
        TakenTo(l, xs, ys, k, i);
        px := px + 100;
        col := col + 1;
        k := k + 1;
      }
      found := false;
    }

    /** Looks for the first free place of the grid, row by row; with fewer than twelve objects there is one. */
    method FreeSlot() returns (found: bool, px: int, py: int, ghost k: nat)
      requires Walkable()
      ensures TakenBelow(lists[R_INVENTORY], x[..], y[..], k) && k <= SLOTS && (found <==> k < SLOTS)
      ensures found ==> Place(px, py) == Slot(k) && !Taken(lists[R_INVENTORY], x[..], y[..], k)
      ensures |lists[R_INVENTORY]| < SLOTS ==> found
    {
      ghost var l, xs, ys := lists[R_INVENTORY], x[..], y[..];
      ghost var row := 0;
      py := 10;
      k := 0;
      while py <= 160
        invariant 0 <= row <= 4 && py == 10 + 50 * row && k == 3 * row && TakenBelow(l, xs, ys, k)
      {
        found, px, k := FreeInRow(py, row);
        if found {
          return;
        }
        py := py + 50;
        row := row + 1;
      }
      found, px := false, 0;
      GridFull(l, xs, ys, k);
    }

    /** Moves an object into the inventory, on the first free place of the grid, or the drawn place if none is free. */
    method MoveObjectToInventory(o: int, rx: int, ry: int)
      requires Valid() && IsObject(o)
      modifies next, contents, loc, x, y, `lists
      ensures Valid() && Abstract() == Carry(old(Abstract()), o)
      ensures |old(lists[R_INVENTORY])| < SLOTS ==>
                && OnGrid(x[o], y[o])
                && forall p :: p in old(lists[R_INVENTORY]) ==> IsObject(p) && (old(x[p]) != x[o] || old(y[p]) != y[o])
      ensures Put(old(Abstract()), old(x[..]), old(y[..]), Abstract(), x[..], y[..], o, Place(rx, ry))
    {
      ghost var w, xs, ys := Abstract(), x[..], y[..];
      assert Chain(next[..], lists[R_INVENTORY], contents[..][R_INVENTORY]);
      ghost var k;
      var found, px, py;
      found, px, py, k := FreeSlot();
      px, py := if found then px else rx, if found then py else ry;
      InsertObjectAt(o, R_INVENTORY, px, py);
      CarriedAt(w, xs, ys, Abstract(), x[..], y[..], o, Place(rx, ry), k);
      CarriedApart(w, xs, ys, o, Place(rx, ry), Place(px, py), k);
    }

    /** One object vanishes and another comes into the inventory. */
    method Trade(gone: int, come: int, rx: int, ry: int)
      requires Valid() && IsObject(gone) && IsObject(come) && gone != come
      modifies next, contents, loc, x, y, `lists
      ensures Valid() && Abstract() == Carry(Remove(old(Abstract()), gone), come)
      ensures Put(old(Abstract()), old(x[..]), old(y[..]), Abstract(), x[..], y[..], come, Place(rx, ry))
    {
      ghost var w, xs, ys := Abstract(), x[..], y[..];
      RemoveObject(gone);
      ghost var u := Abstract();
      MoveObjectToInventory(come, rx, ry);
      PutAfter(w, u, xs, ys, Abstract(), x[..], y[..], come, gone, Place(rx, ry));
    }

    /** Swaps the photo of the car's room with the stored one. */
    method SwapCarPhoto()
      requires Valid()
      modifies `carView, `carSwap
      ensures Valid() && Abstract() == old(Abstract()).(s := SwapCar(old(Abstract()).s))
    {
      carView, carSwap := carSwap, carView;
    }

    /** Goes to room d; the coin decides about the photo at the Boneyard bridge. */
    method ArriveAt(d: int, coin: bool)
      requires Valid()
      modifies `where, `circleView, `circleSwap
      ensures Valid() && Abstract() == old(Abstract()).(s := Arrive(old(Abstract()).s, d, coin))
    {
      where := d;
      if d == R_CIRCLE_N && coin {
        circleView, circleSwap := circleSwap, circleView;
      }
    }

    method TryToMoveLeft(coin: bool) returns (a: Action)
      requires Valid()
      modifies `where, `circleView, `circleSwap
      ensures Valid() && Outcome(Abstract(), a) == MoveLeft(old(Abstract()), coin)
    {
      var d := LeftOf(where);
      if d != NONE {
        ArriveAt(d, coin);
        return ChangeRoom;
      }
      a := AllowEdit;
    }

    method TryToMoveRight(coin: bool) returns (a: Action)
      requires Valid()
      modifies `where, `circleView, `circleSwap
      ensures Valid() && Outcome(Abstract(), a) == MoveRight(old(Abstract()), coin)
    {
      var d := RightOf(where);
      if d != NONE {
        ArriveAt(d, coin);
        return ChangeRoom;
      }
      a := AllowEdit;
    }

    method TryToEnter(coin: bool) returns (a: Action)
      requires Valid()
      modifies `where, `circleView, `circleSwap
      ensures Valid() && Outcome(Abstract(), a) == TryEnter(old(Abstract()), coin)
    {
      var r := where;
      var d := if r == R_INVENTORY then backpack else if r == R_COCKPIT then cockpit else EnterOf(r);
      if d != NONE {
        ArriveAt(d, coin);
        return ChangeRoom;
      }
      a := AllowEdit;
      if r == R_BY_CLEANR {
        if suit {
          where := R_IN_CLEANR;
          a := ChangeRoom;
        }
      } else if r == R_BY_395LAB {
        if loc[O_ICARD] == R_INVENTORY {
          where := R_IN_395LAB;
          a := ChangeRoom;
        }
      } else if r == R_CSL_DOOR {
        if loc[O_ICARD] == R_INVENTORY {
          where := R_CSL_LOBBY;
          a := ChangeRoom;
        }
      } else if r == R_BECK_DOOR {
        if loc[O_ROBOT_LIVE] == R_INVENTORY {
          where := R_BECKLOBBY;
          a := ChangeRoom;
        }
      }
    }

    method TypedBuy(arg: string, rx: int, ry: int) returns (a: Action, ghost put: int)
      requires Valid()
      modifies `eaten, next, contents, loc, x, y, `lists
      ensures Valid() && Outcome(Abstract(), a) == Buy(old(Abstract()), arg)
      ensures Turned(old(Abstract()), old(x[..]), old(y[..]), Abstract(), x[..], y[..], put, Place(rx, ry), a)
    {
      if Same("dew", arg) {
        if where != R_EVRT_VEND || loc[O_MTN_DEW] == R_INVENTORY || loc[O_MTN_DEW] == where {
          return DiscardText, NONE;
        }
        MoveObjectToInventory(O_MTN_DEW, rx, ry);
        return RedrawRoom, O_MTN_DEW;
      }
      if Same("yogurt", arg) {
        if where == R_IN_COCOMR && !eaten {
          eaten := true;
        }
        return DiscardText, NONE;
      }
      a, put := AllowEdit, NONE;
    }

    method TypedCharge(arg: string, rx: int, ry: int) returns (a: Action, ghost put: int)
      requires Valid()
      modifies next, contents, loc, x, y, `lists
      ensures Valid() && Outcome(Abstract(), a) == Charge(old(Abstract()), arg)
      ensures Turned(old(Abstract()), old(x[..]), old(y[..]), Abstract(), x[..], y[..], put, Place(rx, ry), a)
    {
      if !Same("battery", arg) {
        return AllowEdit, NONE;
      }
      if loc[O_BATT_EMPTY] != R_INVENTORY && loc[O_BATT_EMPTY] != where &&
         loc[O_BATT_FULL] != R_INVENTORY && loc[O_BATT_FULL] != where {
        return DiscardText, NONE;
      }
      if where != R_BECK_MRI || loc[O_BATT_FULL] == R_INVENTORY || loc[O_BATT_FULL] == where {
        return DiscardText, NONE;
      }
      Trade(O_BATT_EMPTY, O_BATT_FULL, rx, ry);
      a, put := RedrawRoom, O_BATT_FULL;
    }

    method TypedDo(arg: string) returns (a: Action)
      requires Valid()
      modifies `where
      ensures Valid() && Outcome(Abstract(), a) == Do(old(Abstract()), arg)
    {
      if where != R_IN_391LAB || (!Same("391", arg) && !Same("mp2", arg)) {
        return AllowEdit;
      }
      if loc[O_BOOK_C] != R_INVENTORY || loc[O_MP2] != R_INVENTORY || loc[O_TUX] != R_IN_391LAB {
        return DiscardText;
      }
      where := NONE;
      a := ChangeRoom;
    }

    method TypedDrink(arg: string) returns (a: Action)
      requires Valid()
      modifies next, contents, loc, `lists
      ensures Valid() && Outcome(Abstract(), a) == Drink(old(Abstract()), arg)
      ensures OthersStay(old(loc[..]), loc[..], NONE)
    {
      if !Same("dew", arg) {
        return AllowEdit;
      }
      if loc[O_MTN_DEW] != R_INVENTORY && loc[O_MTN_DEW] != where {
        return DiscardText;
      }
      RemoveObject(O_MTN_DEW);
      a := RedrawRoom;
    }

    /** Puts a carried object into a room. */
    method PutDown(o: int, r: int, rx: int, ry: int)
      requires Valid() && IsObject(o) && loc[o] == R_INVENTORY && 0 < r < N_ROOMS
      modifies next, contents, loc, x, y, `lists
      ensures Valid() && Abstract() == Insert(old(Abstract()), o, r)
      ensures Turned(old(Abstract()), old(x[..]), old(y[..]), Abstract(), x[..], y[..], o, Place(rx, ry), RedrawRoom)
    {
      ghost var w, xs, ys := Abstract(), x[..], y[..];
      InsertObjectAt(o, r, rx, ry);
      DroppedAt(w, xs, ys, Abstract(), x[..], y[..], o, r, Place(rx, ry));
    }

    method TypedDrop(arg: string, rx: int, ry: int) returns (a: Action, ghost put: int)
      requires Valid() && Present(Abstract().s)
      modifies next, contents, loc, x, y, `lists
      ensures Valid() && (FoundExists(old(Abstract()), R_INVENTORY, arg); Outcome(Abstract(), a) == Drop(old(Abstract()), arg))
      ensures Turned(old(Abstract()), old(x[..]), old(y[..]), Abstract(), x[..], y[..], put, Place(rx, ry), a)
    {
      var o := FindInRoom(R_INVENTORY, arg);
      FoundExists(Abstract(), R_INVENTORY, arg);
      if o == NONE {
        return AllowEdit, NONE;
      }
      PutDown(o, if where == R_INVENTORY then backpack else where, rx, ry);
      a, put := RedrawRoom, o;
    }

    method TypedFix(arg: string, rx: int, ry: int) returns (a: Action, ghost put: int)
      requires Valid()
      modifies next, contents, loc, x, y, `lists
      ensures Valid() && Outcome(Abstract(), a) == Fix(old(Abstract()), arg)
      ensures Turned(old(Abstract()), old(x[..]), old(y[..]), Abstract(), x[..], y[..], put, Place(rx, ry), a)
    {
      if !Same("gps", arg) {
        return AllowEdit, NONE;
      }
      if loc[O_GPS_GOOD] == R_INVENTORY || loc[O_GPS_GOOD] == where {
        return DiscardText, NONE;
      }
      if loc[O_GPS_BAD] != R_INVENTORY && loc[O_GPS_BAD] != where {
        return DiscardText, NONE;
      }
      if where != R_IN_CLEANR || (loc[O_GPS_SPEC] != R_INVENTORY && loc[O_GPS_SPEC] != where) {
        return DiscardText, NONE;
      }
      Repair(rx, ry);
      a, put := ChangeRoom, O_GPS_GOOD;
    }

    /** The broken GPS and its data sheet go, the working GPS comes. */
    method Repair(rx: int, ry: int)
      requires Valid()
      modifies next, contents, loc, x, y, `lists
      ensures Valid() && Abstract() == Carry(Remove(Remove(old(Abstract()), O_GPS_BAD), O_GPS_SPEC), O_GPS_GOOD)
      ensures Put(old(Abstract()), old(x[..]), old(y[..]), Abstract(), x[..], y[..], O_GPS_GOOD, Place(rx, ry))
    {
      ghost var w, xs, ys := Abstract(), x[..], y[..];
      RemoveObject(O_GPS_BAD);
      ghost var u := Abstract();
      Trade(O_GPS_SPEC, O_GPS_GOOD, rx, ry);
      PutAfter(w, u, xs, ys, Abstract(), x[..], y[..], O_GPS_GOOD, O_GPS_BAD, Place(rx, ry));
    }

    method TypedFlash(arg: string, rx: int, ry: int) returns (a: Action, ghost put: int)
      requires Valid()
      modifies next, contents, loc, x, y, `lists
      ensures Valid() && Outcome(Abstract(), a) == Flash(old(Abstract()), arg)
      ensures Turned(old(Abstract()), old(x[..]), old(y[..]), Abstract(), x[..], y[..], put, Place(rx, ry), a)
    {
      if !Same("robot", arg) {
        return AllowEdit, NONE;
      }
      if loc[O_ROBOT_DEAD] != R_INVENTORY && loc[O_ROBOT_DEAD] != where &&
         loc[O_ROBOT_LIVE] != R_INVENTORY && loc[O_ROBOT_LIVE] != where {
        return DiscardText, NONE;
      }
      if where != R_IN_395LAB || loc[O_ROBOT_LIVE] == R_INVENTORY || loc[O_ROBOT_LIVE] == where {
        return DiscardText, NONE;
      }
      Trade(O_ROBOT_DEAD, O_ROBOT_LIVE, rx, ry);
      a, put := RedrawRoom, O_ROBOT_LIVE;
    }

    /** Objects got that are not in the room's list: the desk's book and the car's battery. */
    method ObjSpecialGet(r: int, arg: string) returns (o: int)
      requires Valid() && IsRoom(r)
      modifies next, contents, loc, `lists
      ensures Valid()
      ensures var s := old(Abstract()).s;
              if DeskBook(s, r, arg) != NONE then o == DeskBook(s, r, arg) && Abstract() == old(Abstract())
              else if TakesBattery(s, r) then o == O_BATT_EMPTY && Abstract() == Remove(old(Abstract()), O_BATT_CAR)
              else o == NONE && Abstract() == old(Abstract())
    {
      if r == R_RESERVE && Same("book", arg) {
        if eaten {
          if loc[O_BOOK_C] == NONE {
            return O_BOOK_C;
          }
        } else {
          if loc[O_BOOK_WODE] == NONE {
            return O_BOOK_WODE;
          }
        }
      }
      if r == R_CAR_SITE && loc[O_BATT_CAR] == r {
        RemoveObject(O_BATT_CAR);
        return O_BATT_EMPTY;
      }
      o := NONE;
    }

    method TypedGet(arg: string, rx: int, ry: int) returns (a: Action, ghost put: int)
      requires Valid() && Present(Abstract().s)
      modifies next, contents, loc, x, y, `lists
      ensures Valid()
      ensures (FoundExists(old(Abstract()), Standing(old(Abstract()).s), arg);
               Outcome(Abstract(), a) == Get(old(Abstract()), arg))
      ensures Turned(old(Abstract()), old(x[..]), old(y[..]), Abstract(), x[..], y[..], put, Place(rx, ry), a)
    {
      ghost var w := Abstract();
      var src := if where == R_INVENTORY then backpack else where;
      FoundExists(w, src, arg);
      var o := ObjSpecialGet(src, arg);
      if o == NONE {
        o := FindInRoom(src, arg);
      }
      TakesGets(w, arg, Abstract(), o);
      if o == NONE {
        return AllowEdit, NONE;
      }
      if o == O_TUX && !lured {
        return DiscardText, NONE;
      }
      Take(o, arg, rx, ry, w);
      a, put := RedrawRoom, o;
    }

    /** Takes what get has found. */
    method Take(o: int, ghost arg: string, rx: int, ry: int, ghost w: World)
      requires Valid() && Structure(w) && Present(w.s) && Takes(w, arg, Abstract(), o) && IsObject(o)
      modifies next, contents, loc, x, y, `lists
      ensures Valid() && Abstract() == Carry(old(Abstract()), o)
      ensures Turned(w, old(x[..]), old(y[..]), Abstract(), x[..], y[..], o, Place(rx, ry), RedrawRoom)
    {
      ghost var u, xs, ys := Abstract(), x[..], y[..];
      MoveObjectToInventory(o, rx, ry);
      TakenTurned(w, arg, u, xs, ys, Abstract(), x[..], y[..], o, Place(rx, ry));
    }

    method TypedGo(arg: string) returns (a: Action)
      requires Valid()
      modifies `where
      ensures Valid() && Outcome(Abstract(), a) == Go(old(Abstract()), arg)
    {
      var r := where;
      if Same("allerton", arg) {
        if r == R_ALLERTON || (r != R_WILLARD && r != R_CAR_SITE) || !fixed || loc[O_GPS_GOOD] != R_INVENTORY {
          return DiscardText;
        }
        where := R_ALLERTON;
        return ChangeRoom;
      }
      if Same("willard", arg) || Same("airport", arg) {
        if r == R_WILLARD || (r != R_ALLERTON && r != R_CAR_SITE) || !fixed {
          return DiscardText;
        }
        where := R_WILLARD;
        return ChangeRoom;
      }
      if Same("campus", arg) {
        if r == R_CAR_SITE || (r != R_ALLERTON && r != R_WILLARD) {
          return DiscardText;
        }
        where := R_CAR_SITE;
        return ChangeRoom;
      }
      a := AllowEdit;
    }

    method TypedInstall(arg: string) returns (a: Action)
      requires Valid()
      modifies next, contents, loc, `lists, `fixed, `carView, `carSwap, `cockpit
      ensures Valid() && Outcome(Abstract(), a) == Install(old(Abstract()), arg)
      ensures OthersStay(old(loc[..]), loc[..], NONE)
    {
      if Same("battery", arg) {
        a := InstallTheBattery();
      } else if Same("mimo", arg) || Same("card", arg) || Same("transmitter", arg) {
        if (loc[O_MIMO_CARD] != R_INVENTORY && loc[O_MIMO_CARD] != where) || where != R_COCKPIT {
          return DiscardText;
        }
        RemoveObject(O_MIMO_CARD);
        cockpit := R_OVER_WILL;
        a := RedrawRoom;
      } else {
        a := AllowEdit;
      }
    }

    /** A charged battery at hand fixes the car. */
    method InstallTheBattery() returns (a: Action)
      requires Valid()
      modifies next, contents, loc, `lists, `fixed, `carView, `carSwap
      ensures Valid() && Outcome(Abstract(), a) == InstallBattery(old(Abstract()))
      ensures OthersStay(old(loc[..]), loc[..], NONE)
    {
      if loc[O_BATT_EMPTY] != R_INVENTORY && loc[O_BATT_EMPTY] != where &&
         loc[O_BATT_FULL] != R_INVENTORY && loc[O_BATT_FULL] != where {
        return DiscardText;
      }
      if where != R_CAR_SITE || loc[O_BATT_EMPTY] == R_INVENTORY || loc[O_BATT_EMPTY] == where {
        return DiscardText;
      }
      RemoveObject(O_BATT_FULL);
      fixed := true;
      SwapCarPhoto();
      a := ChangeRoom;
    }

    method TypedInventory() returns (a: Action)
      requires Valid()
      modifies `where, `backpack
      ensures Valid() && Outcome(Abstract(), a) == LookInside(old(Abstract()))
    {
      if where == R_INVENTORY {
        where := backpack;
      } else {
        backpack := where;
        where := R_INVENTORY;
      }
      a := ChangeRoom;
    }

    method TypedSigh() returns (a: Action)
      requires Valid()
      modifies `eaten
      ensures Valid() && Outcome(Abstract(), a) == Sigh(old(Abstract()))
    {
      if where == R_BY_ZAS {
        eaten := true;
      }
      a := DiscardText;
    }

    method TypedUse(arg: string, rx: int, ry: int) returns (a: Action, ghost put: int)
      requires Valid()
      modifies next, contents, loc, x, y, `lists, `open, `lured, `carView, `carSwap
      ensures Valid() && Outcome(Abstract(), a) == Use(old(Abstract()), arg)
      ensures Turned(old(Abstract()), old(x[..]), old(y[..]), Abstract(), x[..], y[..], put, Place(rx, ry), a)
    {
      if Same("car", arg) {
        a, put := UseTheCar(Place(rx, ry));
      } else if Same("fish", arg) {
        a, put := UseTheFish(rx, ry);
      } else {
        a, put := AllowEdit, NONE;
      }
    }

    /** The key goes into the lock and the battery appears under the hood. */
    method OpenHood(ghost at: Place)
      requires Valid() && where == R_CAR_SITE
      modifies next, contents, loc, x, y, `lists, `carView, `carSwap
      ensures Valid()
      ensures Abstract() == Insert(Remove(old(Abstract()).(s := SwapCar(old(Abstract()).s)), O_CAR_KEY), O_BATT_CAR, R_CAR_SITE)
      ensures Put(old(Abstract()), old(x[..]), old(y[..]), Abstract(), x[..], y[..], O_BATT_CAR, at)
    {
      SwapCarPhoto();
      RemoveObject(O_CAR_KEY);
      InsertObjectAt(O_BATT_CAR, where, 265, 122);
    }

    /** The key opens the car and is gone. */
    method UseTheCar(ghost at: Place) returns (a: Action, ghost put: int)
      requires Valid()
      modifies next, contents, loc, x, y, `lists, `open, `carView, `carSwap
      ensures Valid() && Outcome(Abstract(), a) == UseCar(old(Abstract()))
      ensures Turned(old(Abstract()), old(x[..]), old(y[..]), Abstract(), x[..], y[..], put, at, a)
    {
      if where != R_CAR_SITE || fixed || open || loc[O_CAR_KEY] != R_INVENTORY {
        return DiscardText, NONE;
      }
      ghost var w, xs, ys := Abstract(), x[..], y[..];
      OpenHood(at);
      ghost var v := Abstract();
      open := true;
      a, put := ChangeRoom, O_BATT_CAR;
      PutFlagged(w, xs, ys, v, Abstract(), x[..], y[..], put, at, a);
    }

    /** The fish brings Tux along. */
    method UseTheFish(rx: int, ry: int) returns (a: Action, ghost put: int)
      requires Valid()
      modifies next, contents, loc, x, y, `lists, `lured
      ensures Valid() && Outcome(Abstract(), a) == UseFish(old(Abstract()))
      ensures Turned(old(Abstract()), old(x[..]), old(y[..]), Abstract(), x[..], y[..], put, Place(rx, ry), a)
    {
      if (loc[O_FISH] != R_INVENTORY && loc[O_FISH] != where) || where != R_REM_LAB {
        return DiscardText, NONE;
      }
      Lure(rx, ry);
      a, put := RedrawRoom, O_TUX;
    }

    /** Tux comes for the fish. */
    method Lure(rx: int, ry: int)
      requires Valid() && loc[O_FISH] != NONE
      modifies next, contents, loc, x, y, `lists, `lured
      ensures Valid()
      ensures var v := Carry(Remove(old(Abstract()), O_FISH), O_TUX); Abstract() == v.(s := v.s.(lured := true))
      ensures Turned(old(Abstract()), old(x[..]), old(y[..]), Abstract(), x[..], y[..], O_TUX, Place(rx, ry), RedrawRoom)
    {
      ghost var w, xs, ys := Abstract(), x[..], y[..];
      TuxAtHome(w.s);
      Trade(O_FISH, O_TUX, rx, ry);
      ghost var v := Abstract();
      lured := true;
      PutFlagged(w, xs, ys, v, Abstract(), x[..], y[..], O_TUX, Place(rx, ry), RedrawRoom);
    }

    method TypedWear(arg: string) returns (a: Action)
      requires Valid()
      modifies next, contents, loc, `lists, `suit
      ensures Valid() && Outcome(Abstract(), a) == Wear(old(Abstract()), arg)
      ensures OthersStay(old(loc[..]), loc[..], NONE)
    {
      if !Same("bunnysuit", arg) {
        return AllowEdit;
      }
      if loc[O_BUNNYSUIT] != R_INVENTORY && loc[O_BUNNYSUIT] != where {
        return DiscardText;
      }
      RemoveObject(O_BUNNYSUIT);
      suit := true;
      a := RedrawRoom;
    }

    /** Moves and looking around. */
    method Walk(c: Command, coin: bool) returns (a: Action)
      requires Valid() && Present(Abstract().s) && Walks(c)
      modifies `where, `backpack, `eaten, `circleView, `circleSwap
      ensures Valid() && Outcome(Abstract(), a) == Perform(old(Abstract()), c, coin)
    {
      match c {
        case CmdLeft => a := TryToMoveLeft(coin);
        case CmdEnter => a := TryToEnter(coin);
        case CmdRight => a := TryToMoveRight(coin);
        case CmdDo(arg) => a := TypedDo(arg);
        case CmdGo(arg) => a := TypedGo(arg);
        case CmdInventory => a := TypedInventory();
        case CmdSigh => a := TypedSigh();
      }
    }

    /** Getting and dropping objects. */
    method Shift(c: Command, coin: bool, rx: int, ry: int) returns (a: Action, ghost put: int)
      requires Valid() && Present(Abstract().s) && (c.CmdDrop? || c.CmdGet?)
      modifies next, contents, loc, x, y, `lists
      ensures Valid() && Outcome(Abstract(), a) == Perform(old(Abstract()), c, coin)
      ensures Turned(old(Abstract()), old(x[..]), old(y[..]), Abstract(), x[..], y[..], put, Place(rx, ry), a)
    {
      if c.CmdDrop? {
        a, put := TypedDrop(c.arg, rx, ry);
      } else {
        a, put := TypedGet(c.arg, rx, ry);
      }
    }

    /** Drinking and wearing. */
    method Consume(c: Command, ghost coin: bool) returns (a: Action)
      requires Valid() && Present(Abstract().s) && (c.CmdDrink? || c.CmdWear?)
      modifies `suit, next, contents, loc, `lists
      ensures Valid() && Outcome(Abstract(), a) == Perform(old(Abstract()), c, coin)
      ensures OthersStay(old(loc[..]), loc[..], NONE)
    {
      if c.CmdDrink? {
        a := TypedDrink(c.arg);
      } else {
        a := TypedWear(c.arg);
      }
    }

    /** Getting, dropping and consuming objects. */
    method Handle(c: Command, coin: bool, rx: int, ry: int) returns (a: Action, ghost put: int)
      requires Valid() && Present(Abstract().s) && Handles(c)
      modifies `eaten, `suit, next, contents, loc, x, y, `lists
      ensures Valid() && Outcome(Abstract(), a) == Perform(old(Abstract()), c, coin)
      ensures Turned(old(Abstract()), old(x[..]), old(y[..]), Abstract(), x[..], y[..], put, Place(rx, ry), a)
    {
      if c.CmdDrop? || c.CmdGet? {
        a, put := Shift(c, coin, rx, ry);
      } else if c.CmdBuy? {
        a, put := TypedBuy(c.arg, rx, ry);
      } else {
        put := NONE;
        a := Consume(c, coin);
        NothingPut(old(Abstract()), x[..], y[..], Abstract(), Place(rx, ry), a);
      }
    }

    /** Repairs and installations. */
    method Work(c: Command, coin: bool, rx: int, ry: int) returns (a: Action, ghost put: int)
      requires Valid() && Present(Abstract().s) && !Walks(c) && !Handles(c)
      modifies `open, `fixed, `lured, `cockpit, `carView, `carSwap, next, contents, loc, x, y, `lists
      ensures Valid() && Outcome(Abstract(), a) == Perform(old(Abstract()), c, coin)
      ensures Turned(old(Abstract()), old(x[..]), old(y[..]), Abstract(), x[..], y[..], put, Place(rx, ry), a)
    {
      if c.CmdInstall? {
        put := NONE;
        a := TypedInstall(c.arg);
        NothingPut(old(Abstract()), x[..], y[..], Abstract(), Place(rx, ry), a);
      } else if c.CmdUse? {
        a, put := TypedUse(c.arg, rx, ry);
      } else {
        a, put := Make(c, coin, rx, ry);
      }
    }

    /** Charging, fixing and flashing. */
    method Make(c: Command, ghost coin: bool, rx: int, ry: int) returns (a: Action, ghost put: int)
      requires Valid() && Present(Abstract().s) && (c.CmdCharge? || c.CmdFix? || c.CmdFlash?)
      modifies next, contents, loc, x, y, `lists
      ensures Valid() && Outcome(Abstract(), a) == Perform(old(Abstract()), c, coin)
      ensures Turned(old(Abstract()), old(x[..]), old(y[..]), Abstract(), x[..], y[..], put, Place(rx, ry), a)
    {
      match c {
        case CmdCharge(arg) => a, put := TypedCharge(arg, rx, ry);
        case CmdFix(arg) => a, put := TypedFix(arg, rx, ry);
        case CmdFlash(arg) => a, put := TypedFlash(arg, rx, ry);
      }
    }

    method Dispatch(c: Command, coin: bool, rx: int, ry: int) returns (a: Action, ghost put: int)
      requires Valid() && Present(Abstract().s)
      modifies this, next, contents, loc, x, y
      ensures Valid() && Outcome(Abstract(), a) == Perform(old(Abstract()), c, coin)
      ensures Turned(old(Abstract()), old(x[..]), old(y[..]), Abstract(), x[..], y[..], put, Place(rx, ry), a)
    {
      if Walks(c) {
        put := NONE;
        a := Walk(c, coin);
        NothingPut(old(Abstract()), x[..], y[..], Abstract(), Place(rx, ry), a);
      } else if Handles(c) {
        a, put := Handle(c, coin, rx, ry);
      } else {
        a, put := Work(c, coin, rx, ry);
      }
    }

    /** The commands of a whole game on the linked lists give the world of the rules; winning ends it. */
    method PlayAll(turns: seq<Turn>) returns (won: bool)
      requires Valid() && Logic(Abstract().s)
      modifies this, next, contents, loc, x, y
      ensures Valid() && Abstract() == Play(old(Abstract()), turns) && Logic(Abstract().s)
      ensures won <==> Abstract().s.where == NONE
      decreases |turns|
    {
      if turns == [] || where == NONE {
        return where == NONE;
      }
      LogicKept(Abstract(), turns[0].command, turns[0].coin);
      var a, _ := Dispatch(turns[0].command, turns[0].coin, turns[0].at.x, turns[0].at.y);
      won := PlayAll(turns[1..]);
    }
  }

  /** Linking an object in limbo in front of a list represents its insertion. */
  lemma InsertThreaded(u: World, o: int, r: int, n: seq<int>, heads: seq<int>)
    requires Threaded(u.lists, u.s.loc, n, heads) && IsObject(o) && u.s.loc[o] == NONE && IsRoom(r)
    ensures Insert(u, o, r) == World(u.lists[r := [o] + u.lists[r]], u.s.(loc := u.s.loc[o := r]))
    ensures Threaded(Insert(u, o, r).lists, Insert(u, o, r).s.loc, n[o := heads[r]], heads[r := o])
  {
    InsertKeeps(u, o, r);
    var v := Insert(u, o, r);
    forall q | IsRoom(q)
      ensures Chain(n[o := heads[r]], v.lists[q], heads[r := o][q])
    {
      assert Chain(n, u.lists[q], heads[q]) && ListOk(u.lists[q], u.s.loc, q);
      ChainFrame(n, n[o := heads[r]], u.lists[q], heads[q], o);
      if q == r {
        PushChain(n[o := heads[r]], u.lists[r], heads[r], o);
      }
    }
  }

  lemma PushChain(n: seq<int>, l: seq<int>, head: int, o: int)
    requires Chain(n, l, head) && IsObject(o) && n[o] == head
    ensures Chain(n, [o] + l, o)
  {
    var k := [o] + l;
    assert forall j :: 1 <= j < |k| ==> k[j] == l[j - 1];
  }

  /** A placed object is somewhere in its room's list. */
  lemma PlaceOf(w: World, o: int) returns (i: nat)
    requires Structure(w) && IsObject(o) && w.s.loc[o] != NONE
    ensures var l := w.lists[w.s.loc[o]]; NoDup(l) && i < |l| && l[i] == o && Without(l, o) == l[..i] + l[i + 1..]
  {
    var l := w.lists[w.s.loc[o]];
    assert ListOk(l, w.s.loc, w.s.loc[o]);
    i :| 0 <= i < |l| && l[i] == o;
    assert l == l[..i] + [o] + l[i + 1..] && o !in l[..i];
    WithoutSplit(l[..i], o, l[i + 1..]);
  }

  /** Unlinking an object represents its removal. */
  lemma RemoveThreaded(w: World, o: int, i: nat, n: seq<int>, m: seq<int>, heads: seq<int>, tails: seq<int>)
    requires Threaded(w.lists, w.s.loc, n, heads) && IsObject(o) && w.s.loc[o] != NONE && |m| == N_OBJECTS && |tails| == N_ROOMS
    requires var l := w.lists[w.s.loc[o]]; i < |l| && Without(l, o) == l[..i] + l[i + 1..]
    requires var r := w.s.loc[o]; Chain(m, w.lists[r][..i] + w.lists[r][i + 1..], tails[r])
    requires forall q :: IsRoom(q) && q != w.s.loc[o] ==> tails[q] == heads[q]
    requires forall j :: IsObject(j) && j !in w.lists[w.s.loc[o]] ==> m[j] == n[j]
    ensures Threaded(Remove(w, o).lists, Remove(w, o).s.loc, m, tails)
  {
    RemoveKeeps(w, o);
    OthersChained(w, o, w.s.loc[o], n, m, heads, tails);
  }

  /** Relinking inside room r leaves the chains of the other rooms. */
  lemma OthersChained(w: World, o: int, r: int, n: seq<int>, m: seq<int>, heads: seq<int>, tails: seq<int>)
    requires Structure(w) && IsRoom(r) && |n| == |m| == N_OBJECTS && |heads| == |tails| == N_ROOMS
    requires forall q :: IsRoom(q) ==> Chain(n, w.lists[q], heads[q])
    requires forall q :: IsRoom(q) && q != r ==> tails[q] == heads[q]
    requires forall j :: IsObject(j) && j !in w.lists[r] ==> m[j] == n[j]
    ensures forall q :: IsRoom(q) && q != r ==> Chain(m, w.lists[q], tails[q])
  {
    forall q | IsRoom(q) && q != r
      ensures Chain(m, w.lists[q], tails[q])
    {
      var l := w.lists[q];
      assert ListOk(l, w.s.loc, q) && ListOk(w.lists[r], w.s.loc, r);
      forall i | 0 <= i < |l|
        ensures IsObject(l[i]) && m[l[i]] == At(l, i + 1)
      {
        assert l[i] in l;
      }
    }
  }

  /** A whole game from the start: the linked lists follow the rules, and a win has earned everything. */
  method PlayGame(turns: seq<Turn>, at: int -> Place) returns (h: Heap, won: bool)
    ensures h.Valid() && h.Abstract() == Play(Start(), turns)
    ensures won <==> h.where == NONE
    ensures won ==> h.eaten && h.suit && h.open && h.fixed && h.lured && h.loc[O_GPS_GOOD] != NONE && h.loc[O_ROBOT_LIVE] != NONE
  {
    h := new Heap();
    h.BuildWorld(at);
    StartOk();
    won := h.PlayAll(turns);
    if won {
      EveryWin(turns);
    }
  }
}

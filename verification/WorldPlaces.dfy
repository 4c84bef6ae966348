/** Where objects are drawn: the grid of the backpack, and the place a command gives to the object it puts somewhere. */
module WorldPlaces {
  import opened WorldMap
  import opened WorldGame
  import opened WorldProofs
  import Pigeonhole

  // ------------------------------------------------------------ the grid

  /** The k-th place of the inventory grid, row by row. */
  function SlotX(k: nat): int { 10 + 100 * (k % 3) }

  function SlotY(k: nat): int { 10 + 50 * (k / 3) }

  const SLOTS := 12

  function Slot(k: nat): Place { Place(SlotX(k), SlotY(k)) }

  predicate OnGrid(px: int, py: int) {
    (px == 10 || px == 110 || px == 210) && (py == 10 || py == 60 || py == 110 || py == 160)
  }

  lemma GridPlace(row: nat, col: nat)
    requires row < 4 && col < 3
    ensures OnGrid(10 + 100 * col, 10 + 50 * row)
  {
  }

  lemma SlotIs(row: nat, col: nat)
    requires col < 3
    ensures SlotX(3 * row + col) == 10 + 100 * col && SlotY(3 * row + col) == 10 + 50 * row
  {
  }

  lemma SlotsDiffer(i: nat, j: nat)
    requires i < j
    ensures SlotX(i) != SlotX(j) || SlotY(i) != SlotY(j)
  {
  }

  lemma SlotOnGrid(k: nat)
    requires k < SLOTS
    ensures OnGrid(SlotX(k), SlotY(k))
  {
    SlotIs(k / 3, k % 3);
    GridPlace(k / 3, k % 3);
  }

  /** Place i of list l is an object at (px, py). */
  predicate SitsAt(l: seq<int>, xs: seq<int>, ys: seq<int>, i: int, px: int, py: int) {
    0 <= i < |l| && 0 <= l[i] < |xs| && l[i] < |ys| && xs[l[i]] == px && ys[l[i]] == py
  }

  /** Some object of list l sits on grid place k. */
  ghost predicate Taken(l: seq<int>, xs: seq<int>, ys: seq<int>, k: nat) {
    exists i :: SitsAt(l, xs, ys, i, SlotX(k), SlotY(k))
  }

  ghost predicate TakenBelow(l: seq<int>, xs: seq<int>, ys: seq<int>, n: nat) {
    forall k: nat :: k < n ==> Taken(l, xs, ys, k)
  }

  /** holders[k] is the place in list l of an object on grid place k. */
  ghost predicate Held(l: seq<int>, xs: seq<int>, ys: seq<int>, holders: seq<int>) {
    forall k :: 0 <= k < |holders| ==> SitsAt(l, xs, ys, holders[k], SlotX(k), SlotY(k))
  }

  lemma {:induction false} Holders(l: seq<int>, xs: seq<int>, ys: seq<int>, n: nat) returns (holders: seq<int>)
    requires TakenBelow(l, xs, ys, n)
    ensures |holders| == n && Held(l, xs, ys, holders)
  {
    if n == 0 {
      holders := [];
    } else {
      var before := Holders(l, xs, ys, n - 1);
      assert Taken(l, xs, ys, n - 1);
      var i :| SitsAt(l, xs, ys, i, SlotX(n - 1), SlotY(n - 1));
      holders := before + [i];
    }
  }

  /** Different grid places are taken by different places of the list, so there are no more of them. */
  lemma GridFull(l: seq<int>, xs: seq<int>, ys: seq<int>, n: nat)
    requires TakenBelow(l, xs, ys, n)
    ensures n <= |l|
  {
    var holders := Holders(l, xs, ys, n);
    forall i, j | 0 <= i < j < |holders|
      ensures holders[i] != holders[j]
    {
      SlotsDiffer(i, j);
    }
    forall k | 0 <= k < |holders|
      ensures 0 <= holders[k] < |l|
    {
      assert SitsAt(l, xs, ys, holders[k], SlotX(k), SlotY(k));
    }
    Pigeonhole.AtMost(holders, |l|);
  }

  /** The first grid place that no object of the list takes, row by row; past a full grid, the place drawn. */
  ghost predicate FirstFree(l: seq<int>, xs: seq<int>, ys: seq<int>, at: Place, place: Place, k: nat) {
    && k <= SLOTS && TakenBelow(l, xs, ys, k)
    && if k == SLOTS then place == at else place == Slot(k) && !Taken(l, xs, ys, k)
  }

  /** With fewer than twelve objects the first free place is on the grid, apart from all of them. */
  lemma FirstFreeApart(l: seq<int>, xs: seq<int>, ys: seq<int>, at: Place, place: Place, k: nat)
    requires FirstFree(l, xs, ys, at, place, k) && |l| < SLOTS
    ensures k < SLOTS && OnGrid(place.x, place.y)
    ensures forall i :: 0 <= i < |l| ==> !SitsAt(l, xs, ys, i, place.x, place.y)
  {
    if k == SLOTS {
      GridFull(l, xs, ys, SLOTS);
    } else {
      SlotOnGrid(k);
    }
  }

  // ------------------------------------------------------------ the same by locations

  /** An object carried all along sits on grid place k. */
  predicate TakenBy(before: seq<int>, after: seq<int>, xs: seq<int>, ys: seq<int>, q: int, k: nat) {
    && IsObject(q) && |before| == |after| == |xs| == |ys| == N_OBJECTS
    && before[q] == after[q] == R_INVENTORY && xs[q] == SlotX(k) && ys[q] == SlotY(k)
  }

  ghost predicate TakenAlong(before: seq<int>, after: seq<int>, xs: seq<int>, ys: seq<int>, k: nat) {
    exists q :: TakenBy(before, after, xs, ys, q, k)
  }

  /** The k-th grid place is the first that no object carried all along takes; past a full grid the place drawn is used. */
  ghost predicate FoundFree(before: seq<int>, after: seq<int>, xs: seq<int>, ys: seq<int>, at: Place, place: Place, k: nat) {
    && k <= SLOTS && (forall j: nat :: j < k ==> TakenAlong(before, after, xs, ys, j))
    && if k == SLOTS then place == at else place == Slot(k) && !TakenAlong(before, after, xs, ys, k)
  }

  /** The place of an object put into the backpack. */
  ghost predicate InBackpack(before: seq<int>, after: seq<int>, xs: seq<int>, ys: seq<int>, at: Place, place: Place) {
    exists k: nat :: FoundFree(before, after, xs, ys, at, place, k)
  }

  /** The place of object o, just put. */
  ghost predicate PutAt(before: seq<int>, after: seq<int>, xs: seq<int>, ys: seq<int>, o: int, at: Place, place: Place)
    requires |after| == N_OBJECTS && IsObject(o)
  {
    if after[o] == R_INVENTORY then InBackpack(before, after, xs, ys, at, place)
    else place == if o == O_BATT_CAR then Place(265, 122) else at
  }

  /** List l holds the objects carried all along. */
  ghost predicate Along(l: seq<int>, before: seq<int>, after: seq<int>) {
    |before| == |after| == N_OBJECTS && forall q :: q in l <==> IsObject(q) && before[q] == after[q] == R_INVENTORY
  }

  lemma TakenSame(l: seq<int>, before: seq<int>, after: seq<int>, xs: seq<int>, ys: seq<int>, k: nat)
    requires Along(l, before, after) && |xs| == |ys| == N_OBJECTS
    ensures Taken(l, xs, ys, k) <==> TakenAlong(before, after, xs, ys, k)
  {
    if Taken(l, xs, ys, k) {
      var i :| SitsAt(l, xs, ys, i, SlotX(k), SlotY(k));
      assert l[i] in l;
      assert TakenBy(before, after, xs, ys, l[i], k);
    }
    if TakenAlong(before, after, xs, ys, k) {
      var q :| TakenBy(before, after, xs, ys, q, k);
      var i :| 0 <= i < |l| && l[i] == q;
      assert SitsAt(l, xs, ys, i, SlotX(k), SlotY(k));
    }
  }

  /** Searching the list is searching the carried objects. */
  lemma FreeSame(l: seq<int>, before: seq<int>, after: seq<int>, xs: seq<int>, ys: seq<int>, at: Place, place: Place, k: nat)
    requires Along(l, before, after) && |xs| == |ys| == N_OBJECTS && k <= SLOTS
    ensures FirstFree(l, xs, ys, at, place, k) <==> FoundFree(before, after, xs, ys, at, place, k)
  {
    forall j: nat | j <= k
      ensures Taken(l, xs, ys, j) <==> TakenAlong(before, after, xs, ys, j)
    {
      TakenSame(l, before, after, xs, ys, j);
    }
  }

  // ------------------------------------------------------------ what a command does to the places

  /** Object o was put last in its room: it is first in the list. */
  predicate First(w: World, o: int) {
    0 <= o < |w.s.loc| && 0 <= w.s.loc[o] < |w.lists| && w.lists[w.s.loc[o]] != [] && w.lists[w.s.loc[o]][0] == o
  }

  /** Apart from o, objects stay where they are or vanish. */
  ghost predicate OthersStay(before: seq<int>, after: seq<int>, o: int) {
    |before| == |after| == N_OBJECTS && forall p :: IsObject(p) && p != o ==> after[p] == before[p] || after[p] == NONE
  }

  /** Only the coordinates of o differ. */
  ghost predicate Unmoved(xs: seq<int>, ys: seq<int>, us: seq<int>, vs: seq<int>, o: int) {
    && |xs| == |ys| == |us| == |vs| == N_OBJECTS
    && forall p :: IsObject(p) && p != o ==> us[p] == xs[p] && vs[p] == ys[p]
  }

  /** From world w to v, object o, if any, is put somewhere, first in its room and at its due place, and no other moves. */
  ghost predicate Put(w: World, xs: seq<int>, ys: seq<int>, v: World, us: seq<int>, vs: seq<int>, o: int, at: Place) {
    && Unmoved(xs, ys, us, vs, o) && OthersStay(w.s.loc, v.s.loc, o)
    && (o != NONE ==>
          && IsObject(o) && First(v, o)
          && (PutAt(w.s.loc, v.s.loc, xs, ys, o, at, Place(us[o], vs[o])) || (Loose(w, v, o) && Place(us[o], vs[o]) == at)))
  }

  /** The car battery put down by somebody who carried it, which no game comes to. */
  predicate Loose(w: World, v: World, o: int) {
    o == O_BATT_CAR && |w.s.loc| == |v.s.loc| == N_OBJECTS && w.s.loc[o] == R_INVENTORY != v.s.loc[o]
  }

  /** In every world that the rules allow, the object put comes from somewhere else. */
  predicate Comes(w: World, v: World, o: int) {
    |w.s.loc| == |v.s.loc| == N_OBJECTS && (o != NONE && Logic(w.s) ==> IsObject(o) && v.s.loc[o] != w.s.loc[o])
  }

  /** What a command with result a does to the places: a quiet one puts nothing. */
  ghost predicate Turned(w: World, xs: seq<int>, ys: seq<int>, v: World, us: seq<int>, vs: seq<int>, o: int, at: Place, a: Action) {
    Put(w, xs, ys, v, us, vs, o, at) && Comes(w, v, o) && (a == AllowEdit || a == DiscardText ==> o == NONE)
  }

  /** An object that vanishes before another is put changes nothing about where that one goes. */
  lemma PutAfter(w: World, u: World, xs: seq<int>, ys: seq<int>, v: World, us: seq<int>, vs: seq<int>, o: int, gone: int, at: Place)
    requires |w.s.loc| == N_OBJECTS && IsObject(gone) && gone != o && u.s.loc == w.s.loc[gone := NONE]
    requires Put(u, xs, ys, v, us, vs, o, at) && v.s.loc[gone] == NONE
    ensures Put(w, xs, ys, v, us, vs, o, at)
  {
    forall k: nat
      ensures TakenAlong(w.s.loc, v.s.loc, xs, ys, k) <==> TakenAlong(u.s.loc, v.s.loc, xs, ys, k)
    {
      forall q
        ensures TakenBy(w.s.loc, v.s.loc, xs, ys, q, k) <==> TakenBy(u.s.loc, v.s.loc, xs, ys, q, k)
      {
      }
    }
    if o != NONE && v.s.loc[o] == R_INVENTORY {
      var place := Place(us[o], vs[o]);
      var k: nat :| FoundFree(u.s.loc, v.s.loc, xs, ys, at, place, k);
      assert FoundFree(w.s.loc, v.s.loc, xs, ys, at, place, k);
    }
  }

  /** Flags do not matter for places. */
  lemma PutFlagged(w: World, xs: seq<int>, ys: seq<int>, v: World, u: World, us: seq<int>, vs: seq<int>, o: int, at: Place, a: Action)
    requires Put(w, xs, ys, v, us, vs, o, at) && u.lists == v.lists && u.s.loc == v.s.loc && o != NONE
    requires a == RedrawRoom || a == ChangeRoom
    requires Logic(w.s) ==> v.s.loc[o] != w.s.loc[o]
    ensures Turned(w, xs, ys, u, us, vs, o, at, a)
  {
  }

  /** While there is a fish, Tux is at home. */
  lemma TuxAtHome(s: Status)
    requires |s.loc| == N_OBJECTS && Placed(s, O_FISH)
    ensures Logic(s) ==> s.loc[O_TUX] == R_REM_LAB
  {
  }

  /** Nothing is put. */
  lemma NothingPut(w: World, xs: seq<int>, ys: seq<int>, v: World, at: Place, a: Action)
    requires |xs| == |ys| == N_OBJECTS && OthersStay(w.s.loc, v.s.loc, NONE)
    ensures Turned(w, xs, ys, v, xs, ys, NONE, at, a)
  {
  }

  // ------------------------------------------------------------ the law without naming the object

  /** Object p is somewhere where it was not before. */
  predicate Arrives(before: seq<int>, after: seq<int>, p: int)
    requires |before| == |after| == N_OBJECTS && IsObject(p)
  {
    after[p] != before[p] && after[p] != NONE
  }

  /**
   * At most one object arrives somewhere; the one that arrives in the backpack sits on the first free place of the
   * grid, the car battery under the hood at (265, 122), any other at the place drawn; all others keep their places.
   */
  ghost predicate Arranged(w: World, xs: seq<int>, ys: seq<int>, v: World, us: seq<int>, vs: seq<int>, at: Place) {
    && |w.s.loc| == |v.s.loc| == |xs| == |ys| == |us| == |vs| == N_OBJECTS
    && (forall p, q :: IsObject(p) && IsObject(q) && Arrives(w.s.loc, v.s.loc, p) && Arrives(w.s.loc, v.s.loc, q) ==> p == q)
    && forall p :: IsObject(p) ==>
         if Arrives(w.s.loc, v.s.loc, p) then PutAt(w.s.loc, v.s.loc, xs, ys, p, at, Place(us[p], vs[p]))
         else us[p] == xs[p] && vs[p] == ys[p]
  }

  lemma TurnedArranged(w: World, xs: seq<int>, ys: seq<int>, v: World, us: seq<int>, vs: seq<int>, o: int, at: Place, a: Action)
    requires Turned(w, xs, ys, v, us, vs, o, at, a) && Logic(w.s)
    ensures Arranged(w, xs, ys, v, us, vs, at)
  {
  }

  // ------------------------------------------------------------ a tidy backpack

  predicate Carried(s: Status, o: int) { 0 <= o < |s.loc| && s.loc[o] == R_INVENTORY }

  /** The carried objects sit on the grid, no two of them on the same place. */
  ghost predicate Tidy(w: World, xs: seq<int>, ys: seq<int>) {
    && |w.s.loc| == |xs| == |ys| == N_OBJECTS
    && (forall p :: IsObject(p) && Carried(w.s, p) ==> OnGrid(xs[p], ys[p]))
    && forall p, q :: IsObject(p) && IsObject(q) && p != q && Carried(w.s, p) && Carried(w.s, q) ==> xs[p] != xs[q] || ys[p] != ys[q]
  }

  /** An object just put into a backpack of at most twelve sits on the grid, apart from the others. */
  lemma ArrivesApart(w: World, xs: seq<int>, ys: seq<int>, v: World, us: seq<int>, vs: seq<int>, at: Place, p: int)
    requires Structure(v) && |v.lists[R_INVENTORY]| <= SLOTS && Arranged(w, xs, ys, v, us, vs, at)
    requires IsObject(p) && Arrives(w.s.loc, v.s.loc, p) && v.s.loc[p] == R_INVENTORY
    ensures OnGrid(us[p], vs[p])
    ensures forall q :: IsObject(q) && q != p && Carried(v.s, q) ==> us[q] != us[p] || vs[q] != vs[p]
  {
    var place := Place(us[p], vs[p]);
    var l := v.lists[R_INVENTORY];
    assert ListOk(l, v.s.loc, R_INVENTORY);
    var i :| 0 <= i < |l| && l[i] == p;
    var others := l[..i] + l[i + 1..];
    assert PutAt(w.s.loc, v.s.loc, xs, ys, p, at, place);
    assert InBackpack(w.s.loc, v.s.loc, xs, ys, at, place);
    var k: nat :| FoundFree(w.s.loc, v.s.loc, xs, ys, at, place, k);
    OthersAlong(w, v, p, i);
    FreeSame(others, w.s.loc, v.s.loc, xs, ys, at, place, k);
    FirstFreeApart(others, xs, ys, at, place, k);
    forall q | IsObject(q) && q != p && Carried(v.s, q)
      ensures us[q] != us[p] || vs[q] != vs[p]
    {
      assert q in others;
      var j :| 0 <= j < |others| && others[j] == q;
      assert !SitsAt(others, xs, ys, j, place.x, place.y);
      assert !Arrives(w.s.loc, v.s.loc, q);
    }
  }

  /** A list without its i-th element, when that occurs once. */
  lemma WithoutOne(l: seq<int>, i: nat, q: int)
    requires NoDup(l) && i < |l|
    ensures q in l[..i] + l[i + 1..] <==> q in l && q != l[i]
  {
    var rest := l[..i] + l[i + 1..];
    if q in rest {
      var j :| 0 <= j < |rest| && rest[j] == q;
      assert q == l[if j < i then j else j + 1];
    }
    if q in l && q != l[i] {
      var j :| 0 <= j < |l| && l[j] == q;
      assert q == rest[if j < i then j else j - 1];
    }
  }

  /** The list of carried objects without the one that arrived holds those carried all along. */
  lemma OthersAlong(w: World, v: World, p: int, i: nat)
    requires Structure(v) && |w.s.loc| == N_OBJECTS && IsObject(p)
    requires i < |v.lists[R_INVENTORY]| && v.lists[R_INVENTORY][i] == p && Arrives(w.s.loc, v.s.loc, p)
    requires forall q :: IsObject(q) && Arrives(w.s.loc, v.s.loc, q) ==> q == p
    ensures Along(v.lists[R_INVENTORY][..i] + v.lists[R_INVENTORY][i + 1..], w.s.loc, v.s.loc)
    ensures forall q :: IsObject(q) && q != p && Carried(v.s, q) ==> q in v.lists[R_INVENTORY][..i] + v.lists[R_INVENTORY][i + 1..]
  {
    var l := v.lists[R_INVENTORY];
    var others := l[..i] + l[i + 1..];
    assert ListOk(l, v.s.loc, R_INVENTORY);
    forall q
      ensures q in others <==> IsObject(q) && q != p && v.s.loc[q] == R_INVENTORY
      ensures q in others ==> w.s.loc[q] == R_INVENTORY
    {
      WithoutOne(l, i, q);
      assert IsObject(q) && q != p ==> !Arrives(w.s.loc, v.s.loc, q);
    }
  }

  /** A command that leaves at most twelve carried objects leaves a tidy backpack tidy. */
  lemma TidyKept(w: World, xs: seq<int>, ys: seq<int>, v: World, us: seq<int>, vs: seq<int>, at: Place)
    requires Tidy(w, xs, ys) && Arranged(w, xs, ys, v, us, vs, at) && Structure(v) && |v.lists[R_INVENTORY]| <= SLOTS
    ensures Tidy(v, us, vs)
  {
    forall p | IsObject(p) && Carried(v.s, p)
      ensures OnGrid(us[p], vs[p])
      ensures forall q :: IsObject(q) && q != p && Carried(v.s, q) && Arrives(w.s.loc, v.s.loc, p) ==> us[q] != us[p] || vs[q] != vs[p]
    {
      if Arrives(w.s.loc, v.s.loc, p) {
        ArrivesApart(w, xs, ys, v, us, vs, at, p);
      }
    }
  }
}

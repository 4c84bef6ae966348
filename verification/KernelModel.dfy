/**
 * Process lifecycle and round-robin scheduling on values: the run queue, the page-directory present bits
 * and the parent links, with the atomic steps boot tick, tick, execute and halt.
 */
module KernelModel {
  const MAX_PROCESS := 6
  const ROOTS := 3
  const NONE := -1

  /** A queue entry; pid NONE marks a null process, ctx the saved stack context. */
  datatype Task = Task(pid: int, enabled: bool, state: int, ctx: int)

  /** queue lists the occupied entries in order; present and parent are indexed by process number. */
  datatype Kernel = Kernel(queue: seq<Task>, present: seq<bool>, parent: seq<int>, cur: int)

  // ------------------------------------------------------------ queue operations

  /** Position of the first entry of process p, or the length. */
  function IndexOf(q: seq<Task>, p: int): (i: nat)
    ensures i <= |q|
    ensures i < |q| ==> q[i].pid == p
    ensures forall j :: 0 <= j < i ==> q[j].pid != p
  {
    if q == [] then 0 else if q[0].pid == p then 0 else 1 + IndexOf(q[1..], p)
  }

  function Without(q: seq<Task>, p: int): seq<Task> {
    var i := IndexOf(q, p);
    if i < |q| then q[..i] + q[i + 1..] else q
  }

  function Pushed(q: seq<Task>, t: Task): seq<Task> { if |q| < MAX_PROCESS then q + [t] else q }

  function FirstEnabled(q: seq<Task>): (i: nat)
    ensures i <= |q|
    ensures i < |q| ==> q[i].enabled
    ensures forall j :: 0 <= j < i ==> !q[j].enabled
  {
    if q == [] then 0 else if q[0].enabled then 0 else 1 + FirstEnabled(q[1..])
  }

  function RotateBy(q: seq<Task>, r: nat): seq<Task>
    requires r <= |q|
  {
    q[r..] + q[..r]
  }

  /** The scheduler's loop: rotate once, then on until the head may run. */
  function NextUp(q: seq<Task>): seq<Task>
    requires q != []
  {
    var once := RotateBy(q, 1);
    RotateBy(once, if FirstEnabled(once) < |q| then FirstEnabled(once) else 0)
  }

  /** The lowest free process number, or NONE. */
  function LowestFree(present: seq<bool>, from: nat): int
    requires from <= |present|
    decreases |present| - from
  {
    if from == |present| then NONE else if !present[from] then from else LowestFree(present, from + 1)
  }

  // ------------------------------------------------------------ atomic steps

  function SetHead(q: seq<Task>, state: int): seq<Task>
    requires q != []
  {
    q[0 := q[0].(state := state)]
  }

  function SaveHead(q: seq<Task>, ctx: int): seq<Task> {
    if q == [] then q else q[0 := q[0].(state := 0, ctx := ctx)]
  }

  predicate Booting(k: Kernel) { k.cur == NONE || |k.queue| < ROOTS }

  /** A timer tick once the three shells exist: save the running context and switch to the next runnable task. */
  function Tick(k: Kernel, ctx: int): Kernel
    requires k.queue != []
  {
    var q := SetHead(NextUp(SaveHead(k.queue, ctx)), 1);
    k.(queue := q, cur := q[0].pid)
  }

  /** Start a process whose parent is given; the caller's entry moves to the tail. */
  function Start(k: Kernel, parent: int): (s: Kernel)
    requires |k.parent| == |k.present|
    ensures |s.parent| == |s.present| == |k.present|
  {
    var p := LowestFree(k.present, 0);
    if p == NONE then k
    else
      LowestFreeIs(k.present, 0);
      var child := Task(p, true, 1, 0);
      var caller := if k.queue == [] then [] else [k.queue[0].(enabled := k.queue[0].enabled && parent == NONE)];
      Kernel([child] + (if k.queue == [] then [] else k.queue[1..]) + (if p == 0 then [] else caller),
             k.present[p := true], k.parent[p := parent], p)
  }

  lemma {:induction false} LowestFreeIs(present: seq<bool>, from: nat)
    requires from <= |present|
    ensures var p := LowestFree(present, from);
            && (p == NONE || from <= p < |present|)
            && (p == NONE ==> forall i :: from <= i < |present| ==> present[i])
            && (p != NONE ==> !present[p] && forall i :: from <= i < p ==> present[i])
    decreases |present| - from
  {
    if from < |present| && present[from] {
      LowestFreeIs(present, from + 1);
    }
  }

  /** The execute system call of the running process. */
  function Exec(k: Kernel): Kernel
    requires |k.parent| == |k.present|
  {
    Start(k, if Booting(k) then NONE else k.cur)
  }

  /** A boot tick: save, then start another root shell. */
  function BootTick(k: Kernel, ctx: int): Kernel
    requires |k.parent| == |k.present|
  {
    Start(k.(queue := SaveHead(k.queue, ctx)), NONE)
  }

  /** Whether the running process is a root shell, which halt restarts in place. */
  predicate HaltsInPlace(k: Kernel)
    requires 0 <= k.cur < |k.parent|
  {
    k.parent[k.cur] == NONE || k.cur == 0
  }

  /** The halt system call: a root restarts in place, any other process gives way to its parent. */
  function Halt(k: Kernel): Kernel
    requires 0 <= k.cur < |k.parent| == |k.present| && k.queue != []
    requires HaltsInPlace(k) || 0 < IndexOf(k.queue, k.parent[k.cur]) < |k.queue|
  {
    if HaltsInPlace(k) then k
    else
      var p := k.parent[k.cur];
      var parentTask := k.queue[IndexOf(k.queue, p)].(state := 1, enabled := true);
      Kernel([parentTask] + Without(k.queue, p)[1..], k.present[k.cur := false], k.parent, p)
  }

  function Boot(): Kernel {
    Kernel([], seq(MAX_PROCESS, _ => false), seq(MAX_PROCESS, _ => NONE), NONE)
  }

  // ------------------------------------------------------------ the invariant

  /** For every process its root shell and its depth below it, and for every root the process on top. */
  datatype Forest = Forest(root: seq<int>, depth: seq<int>, top: seq<int>)

  predicate IsPid(p: int) { 0 <= p < MAX_PROCESS }

  predicate Sized(k: Kernel, f: Forest) {
    |k.present| == |k.parent| == |f.root| == |f.depth| == MAX_PROCESS && |f.top| == ROOTS
  }

  ghost predicate Has(q: seq<Task>, p: int) { exists i :: 0 <= i < |q| && q[i].pid == p }

  ghost predicate Distinct(q: seq<Task>) { forall i, j :: 0 <= i < j < |q| ==> q[i].pid != q[j].pid }

  /** The queue is duplicate-free, holds exactly the present processes, and exactly the tops may run. */
  ghost predicate QueueInv(q: seq<Task>, present: seq<bool>, f: Forest)
    requires |present| == |f.root| == MAX_PROCESS && |f.top| == ROOTS
  {
    && Distinct(q)
    && (forall i :: 0 <= i < |q| ==> IsPid(q[i].pid) && present[q[i].pid])
    && (forall p :: IsPid(p) && present[p] ==> Has(q, p))
    && (forall p :: IsPid(p) && present[p] ==> 0 <= f.root[p] < ROOTS)
    && (forall i :: 0 <= i < |q| ==> (q[i].enabled <==> q[i].pid == f.top[f.root[q[i].pid]]))
  }

  /** Process p is present, hangs below its root, and is not deeper than the top of its chain. */
  predicate PlacedOk(present: seq<bool>, parent: seq<int>, f: Forest, p: int)
    requires |present| == |parent| == |f.root| == |f.depth| == MAX_PROCESS && |f.top| == ROOTS && IsPid(p)
  {
    && 0 <= f.root[p] < ROOTS && IsPid(f.top[f.root[p]])
    && 0 <= f.depth[p] <= f.depth[f.top[f.root[p]]]
    && (p >= ROOTS ==>
          && IsPid(parent[p]) && present[parent[p]]
          && f.root[parent[p]] == f.root[p] && f.depth[parent[p]] == f.depth[p] - 1)
  }

  predicate RootOk(present: seq<bool>, parent: seq<int>, f: Forest, r: int)
    requires |present| == |parent| == |f.root| == |f.depth| == MAX_PROCESS && |f.top| == ROOTS && 0 <= r < ROOTS
  {
    && present[r] && f.root[r] == r && f.depth[r] == 0 && parent[r] == NONE
    && IsPid(f.top[r]) && present[f.top[r]] && f.root[f.top[r]] == r
  }

  /** Each root heads a chain of processes linked by parent, with its top the deepest. */
  ghost predicate ForestInv(present: seq<bool>, parent: seq<int>, f: Forest)
    requires |present| == |parent| == |f.root| == |f.depth| == MAX_PROCESS && |f.top| == ROOTS
  {
    && (forall r :: 0 <= r < ROOTS ==> RootOk(present, parent, f, r))
    && (forall p :: IsPid(p) && present[p] ==> PlacedOk(present, parent, f, p))
    && (forall p, o :: IsPid(p) && IsPid(o) && present[p] && present[o] && p != o && f.root[p] == f.root[o] ==>
          f.depth[p] != f.depth[o])
  }

  ghost predicate Inv(k: Kernel, f: Forest) {
    && Sized(k, f)
    && ForestInv(k.present, k.parent, f)
    && QueueInv(k.queue, k.present, f)
    && k.queue != [] && k.queue[0].enabled && k.queue[0].pid == k.cur
  }

  // ------------------------------------------------------------ ticks keep it

  lemma RotateAt(q: seq<Task>, r: nat, i: nat)
    requires r <= |q| && i < |q|
    ensures |RotateBy(q, r)| == |q|
    ensures RotateBy(q, r)[i] == q[if i + r < |q| then i + r else i + r - |q|]
  {
  }

  lemma RotateKeeps(q: seq<Task>, r: nat, present: seq<bool>, f: Forest)
    requires |present| == |f.root| == MAX_PROCESS && |f.top| == ROOTS && r <= |q|
    requires QueueInv(q, present, f)
    ensures QueueInv(RotateBy(q, r), present, f)
  {
    var t := RotateBy(q, r);
    forall i | 0 <= i < |q|
      ensures t[i] == q[if i + r < |q| then i + r else i + r - |q|]
    {
      RotateAt(q, r, i);
    }
    forall p | IsPid(p) && present[p]
      ensures Has(t, p)
    {
      var i :| 0 <= i < |q| && q[i].pid == p;
      var j := if i >= r then i - r else i - r + |q|;
      assert t[j].pid == p;
    }
  }

  /** Changing only state and context of the head keeps the queue invariant. */
  lemma HeadKeeps(q: seq<Task>, t: Task, present: seq<bool>, f: Forest)
    requires |present| == |f.root| == MAX_PROCESS && |f.top| == ROOTS && q != []
    requires QueueInv(q, present, f) && t.pid == q[0].pid && t.enabled == q[0].enabled
    ensures QueueInv(q[0 := t], present, f)
  {
    forall p | IsPid(p) && present[p]
      ensures Has(q[0 := t], p)
    {
      var i :| 0 <= i < |q| && q[i].pid == p;
      assert q[0 := t][i].pid == p;
    }
  }

  /** A runnable head means the loop stops within one turn of the queue, at a runnable task. */
  lemma NextUpStops(q: seq<Task>)
    requires q != [] && q[0].enabled
    ensures FirstEnabled(RotateBy(q, 1)) < |q|
    ensures |NextUp(q)| == |q| && NextUp(q)[0].enabled
  {
    var once := RotateBy(q, 1);
    assert once[|q| - 1] == q[0];
    RotateAt(once, FirstEnabled(once), 0);
  }

  lemma TickKeeps(k: Kernel, f: Forest, ctx: int)
    requires Inv(k, f)
    ensures Inv(Tick(k, ctx), f)
  {
    var q := SaveHead(k.queue, ctx);
    HeadKeeps(k.queue, q[0], k.present, f);
    NextUpStops(q);
    var once := RotateBy(q, 1);
    RotateKeeps(q, 1, k.present, f);
    RotateKeeps(once, FirstEnabled(once), k.present, f);
    HeadKeeps(NextUp(q), NextUp(q)[0].(state := 1), k.present, f);
  }

  // ------------------------------------------------------------ execute keeps it

  /** Process p placed on top of the chain of c. */
  function Grown(f: Forest, c: int, p: int): Forest
    requires IsPid(c) && IsPid(p) && |f.root| == |f.depth| == MAX_PROCESS && |f.top| == ROOTS
    requires 0 <= f.root[c] < ROOTS
  {
    Forest(f.root[p := f.root[c]], f.depth[p := f.depth[c] + 1], f.top[f.root[c] := p])
  }

  function ExecForest(k: Kernel, f: Forest): Forest
    requires Sized(k, f) && IsPid(k.cur) && 0 <= f.root[k.cur] < ROOTS
  {
    var p := LowestFree(k.present, 0);
    if IsPid(p) then Grown(f, k.cur, p) else f
  }

  /** Once every root is present a new process number is never a root's. */
  lemma FreshPid(present: seq<bool>)
    requires |present| == MAX_PROCESS && present[0] && present[1] && present[2]
    ensures var p := LowestFree(present, 0); p == NONE || (ROOTS <= p < MAX_PROCESS && !present[p])
  {
    LowestFreeIs(present, 0);
  }

  lemma RootsPresent(present: seq<bool>, parent: seq<int>, f: Forest)
    requires |present| == |parent| == |f.root| == |f.depth| == MAX_PROCESS && |f.top| == ROOTS
    requires ForestInv(present, parent, f)
    ensures present[0] && present[1] && present[2]
  {
    assert RootOk(present, parent, f, 0) && RootOk(present, parent, f, 1) && RootOk(present, parent, f, 2);
  }

  /** A new process on top of the chain of c. */
  lemma GrowForest(present: seq<bool>, parent: seq<int>, f: Forest, c: int, p: int)
    requires |present| == |parent| == |f.root| == |f.depth| == MAX_PROCESS && |f.top| == ROOTS
    requires ForestInv(present, parent, f) && IsPid(c) && present[c] && c == f.top[f.root[c]]
    requires ROOTS <= p < MAX_PROCESS && !present[p]
    ensures 0 <= f.root[c] < ROOTS && ForestInv(present[p := true], parent[p := c], Grown(f, c, p))
  {
    assert PlacedOk(present, parent, f, c);
    var present', parent', r := present[p := true], parent[p := c], f.root[c];
    var g := Grown(f, c, p);
    forall o | IsPid(o) && present'[o]
      ensures PlacedOk(present', parent', g, o)
    {
      if o != p {
        assert PlacedOk(present, parent, f, o);
        assert RootOk(present, parent, f, f.root[o]);
      }
    }
    forall x | 0 <= x < ROOTS
      ensures RootOk(present', parent', g, x)
    {
      assert RootOk(present, parent, f, x);
    }
  }

  /** The queue after execute: the child first, the sleeping caller last. */
  function ExecQueue(q: seq<Task>, p: int): (t: seq<Task>)
    requires q != []
    ensures |t| == |q| + 1 && t[0] == Task(p, true, 1, 0) && t[|q|] == q[0].(enabled := false)
    ensures forall j :: 1 <= j < |q| ==> t[j] == q[j]
  {
    [Task(p, true, 1, 0)] + q[1..] + [q[0].(enabled := false)]
  }

  lemma ExecDistinct(q: seq<Task>, p: int)
    requires q != [] && Distinct(q) && forall i :: 0 <= i < |q| ==> q[i].pid != p
    ensures Distinct(ExecQueue(q, p))
    ensures forall j :: 1 <= j < |q| ==> ExecQueue(q, p)[j].pid != q[0].pid
  {
  }

  lemma ExecComplete(q: seq<Task>, p: int, present: seq<bool>)
    requires q != [] && |present| == MAX_PROCESS && IsPid(p)
    requires forall o :: IsPid(o) && present[o] ==> Has(q, o)
    ensures forall o :: IsPid(o) && present[p := true][o] ==> Has(ExecQueue(q, p), o)
  {
    var t := ExecQueue(q, p);
    forall o | IsPid(o) && present[p := true][o]
      ensures Has(t, o)
    {
      if o == p {
        assert t[0].pid == o;
      } else {
        var i :| 0 <= i < |q| && q[i].pid == o;
        assert t[if i == 0 then |q| else i].pid == o;
      }
    }
  }

  lemma ExecQueueKeeps(q: seq<Task>, present: seq<bool>, f: Forest, p: int)
    requires |present| == |f.root| == |f.depth| == MAX_PROCESS && |f.top| == ROOTS
    requires QueueInv(q, present, f) && q != [] && q[0].enabled && ROOTS <= p < MAX_PROCESS && !present[p]
    ensures IsPid(q[0].pid) && 0 <= f.root[q[0].pid] < ROOTS
    ensures QueueInv(ExecQueue(q, p), present[p := true], Grown(f, q[0].pid, p))
  {
    ExecDistinct(q, p);
    ExecComplete(q, p, present);
    var c, t := q[0].pid, ExecQueue(q, p);
    var root, top := f.root[p := f.root[c]], f.top[f.root[c] := p];
    forall j | 0 <= j < |t|
      ensures IsPid(t[j].pid) && present[p := true][t[j].pid]
      ensures t[j].enabled <==> t[j].pid == top[root[t[j].pid]]
    {
      if 1 <= j < |q| {
        assert t[j] == q[j];
      }
    }
  }

  /** What execute does after boot when a process number is free. */
  lemma ExecIs(k: Kernel)
    requires |k.parent| == |k.present| && !Booting(k) && 0 < LowestFree(k.present, 0) < |k.present|
    ensures var p := LowestFree(k.present, 0);
            Exec(k) == Kernel(ExecQueue(k.queue, p), k.present[p := true], k.parent[p := k.cur], p)
  {
  }

  lemma ExecFull(k: Kernel)
    requires |k.parent| == |k.present| && LowestFree(k.present, 0) == NONE
    ensures Exec(k) == k
  {
  }

  lemma ExecGrows(k: Kernel, f: Forest, p: int)
    requires Inv(k, f) && ROOTS <= p < MAX_PROCESS && !k.present[p]
    ensures IsPid(k.cur) && 0 <= f.root[k.cur] < ROOTS
    ensures Inv(Kernel(ExecQueue(k.queue, p), k.present[p := true], k.parent[p := k.cur], p), Grown(f, k.cur, p))
  {
    GrowForest(k.present, k.parent, f, k.cur, p);
    ExecQueueKeeps(k.queue, k.present, f, p);
  }

  lemma ExecKeeps(k: Kernel, f: Forest)
    requires Inv(k, f) && !Booting(k)
    ensures Inv(Exec(k), ExecForest(k, f))
  {
    RootsPresent(k.present, k.parent, f);
    FreshPid(k.present);
    var p := LowestFree(k.present, 0);
    if p == NONE {
      ExecFull(k);
    } else {
      ExecGrows(k, f, p);
      ExecIs(k);
    }
  }

  // ------------------------------------------------------------ halt keeps it

  function HaltForest(k: Kernel, f: Forest): Forest
    requires Sized(k, f) && IsPid(k.cur) && 0 <= f.root[k.cur] < ROOTS
  {
    if HaltsInPlace(k) then f else f.(top := f.top[f.root[k.cur] := k.parent[k.cur]])
  }

  /** The parent of a running non-root is queued behind it and is asleep. */
  lemma ParentWaits(k: Kernel, f: Forest)
    requires Inv(k, f) && !HaltsInPlace(k)
    ensures ROOTS <= k.cur < MAX_PROCESS && IsPid(k.parent[k.cur]) && k.parent[k.cur] != k.cur
    ensures 0 < IndexOf(k.queue, k.parent[k.cur]) < |k.queue|
    ensures !k.queue[IndexOf(k.queue, k.parent[k.cur])].enabled
  {
    var p := k.parent[k.cur];
    assert PlacedOk(k.present, k.parent, f, k.cur);
    assert k.cur < ROOTS ==> RootOk(k.present, k.parent, f, k.cur);
    assert Has(k.queue, p);
  }

  /** The process on top of a chain goes away and its parent is on top. */
  lemma ShrinkForest(present: seq<bool>, parent: seq<int>, f: Forest, c: int)
    requires |present| == |parent| == |f.root| == |f.depth| == MAX_PROCESS && |f.top| == ROOTS
    requires ForestInv(present, parent, f) && ROOTS <= c < MAX_PROCESS && present[c]
    requires PlacedOk(present, parent, f, c) && c == f.top[f.root[c]]
    ensures ForestInv(present[c := false], parent, f.(top := f.top[f.root[c] := parent[c]]))
  {
    var present', r := present[c := false], f.root[c];
    var g := f.(top := f.top[r := parent[c]]);
    assert parent[c] != c;
    forall o | IsPid(o) && present'[o]
      ensures PlacedOk(present', parent, g, o)
    {
      assert PlacedOk(present, parent, f, o);
      assert RootOk(present, parent, f, f.root[o]);
      assert f.root[o] == r ==> f.depth[o] != f.depth[c];
    }
    forall x | 0 <= x < ROOTS
      ensures RootOk(present', parent, g, x)
    {
      assert RootOk(present, parent, f, x);
    }
  }

  /** The queue after halt: the parent, taken from place i, first. */
  function HaltQueue(q: seq<Task>, i: nat): (t: seq<Task>)
    requires 0 < i < |q|
    ensures |t| == |q| - 1 && t[0] == q[i].(state := 1, enabled := true)
    ensures forall j :: 1 <= j < |t| ==> t[j] == q[if j < i then j else j + 1]
  {
    [q[i].(state := 1, enabled := true)] + (q[..i] + q[i + 1..])[1..]
  }

  lemma HaltDistinct(q: seq<Task>, i: nat)
    requires 0 < i < |q| && Distinct(q)
    ensures Distinct(HaltQueue(q, i))
    ensures forall j :: 0 <= j < |q| - 1 ==> HaltQueue(q, i)[j].pid != q[0].pid
    ensures forall j :: 1 <= j < |q| - 1 ==> HaltQueue(q, i)[j].pid != q[i].pid
  {
  }

  lemma HaltComplete(q: seq<Task>, i: nat, present: seq<bool>)
    requires 0 < i < |q| && |present| == MAX_PROCESS && Distinct(q) && IsPid(q[0].pid)
    requires forall p :: IsPid(p) && present[p] ==> Has(q, p)
    ensures forall p :: IsPid(p) && present[q[0].pid := false][p] ==> Has(HaltQueue(q, i), p)
  {
    var t := HaltQueue(q, i);
    forall p | IsPid(p) && present[q[0].pid := false][p]
      ensures Has(t, p)
    {
      var j :| 0 <= j < |q| && q[j].pid == p;
      assert t[if j == i then 0 else if j < i then j else j - 1].pid == p;
    }
  }

  lemma HaltQueueKeeps(q: seq<Task>, i: nat, present: seq<bool>, f: Forest)
    requires |present| == |f.root| == |f.depth| == MAX_PROCESS && |f.top| == ROOTS
    requires QueueInv(q, present, f) && 0 < i < |q| && q[0].enabled && f.root[q[i].pid] == f.root[q[0].pid]
    ensures QueueInv(HaltQueue(q, i), present[q[0].pid := false], f.(top := f.top[f.root[q[0].pid] := q[i].pid]))
  {
    HaltDistinct(q, i);
    HaltComplete(q, i, present);
    var c, p, t := q[0].pid, q[i].pid, HaltQueue(q, i);
    var g := f.(top := f.top[f.root[c] := p]);
    forall j | 0 <= j < |t|
      ensures IsPid(t[j].pid) && present[c := false][t[j].pid]
      ensures t[j].enabled <==> t[j].pid == g.top[g.root[t[j].pid]]
    {
      assert t[j].pid == q[if j == 0 then i else if j < i then j else j + 1].pid;
    }
  }

  lemma HaltKeeps(k: Kernel, f: Forest)
    requires Inv(k, f)
    ensures HaltsInPlace(k) || 0 < IndexOf(k.queue, k.parent[k.cur]) < |k.queue|
    ensures Inv(Halt(k), HaltForest(k, f))
  {
    if !HaltsInPlace(k) {
      ParentWaits(k, f);
      ShrinkForest(k.present, k.parent, f, k.cur);
      HaltQueueKeeps(k.queue, IndexOf(k.queue, k.parent[k.cur]), k.present, f);
    }
  }
}

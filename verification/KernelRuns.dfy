/** Whole runs of the kernel: boot, every later sequence of execute, halt and tick, and round-robin fairness. */
module KernelRuns {
  import opened KernelModel
  import Pigeonhole

  // ------------------------------------------------------------ boot

  /** The kernel after the three boot ticks. */
  function Booted(c0: int, c1: int, c2: int): Kernel {
    BootTick(BootTick(BootTick(Boot(), c0), c1), c2)
  }

  function RootForest(): Forest { Forest([0, 1, 2, 0, 0, 0], [0, 0, 0, 0, 0, 0], [0, 1, 2]) }

  /** Boot leaves the three shells queued and runnable, the last one running. */
  lemma BootedIs(c0: int, c1: int, c2: int)
    ensures Booting(Boot()) && Booting(BootTick(Boot(), c0)) && Booting(BootTick(BootTick(Boot(), c0), c1))
    ensures !Booting(Booted(c0, c1, c2))
    ensures Booted(c0, c1, c2) ==
            Kernel([Task(2, true, 1, 0), Task(0, true, 0, c1), Task(1, true, 0, c2)],
                   [true, true, true, false, false, false], [NONE, NONE, NONE, NONE, NONE, NONE], 2)
  {
    var k0 := Boot();
    assert k0.present == [false, false, false, false, false, false];
    assert k0.parent == [NONE, NONE, NONE, NONE, NONE, NONE];
    var k1 := BootTick(k0, c0);
    assert k1.queue == [Task(0, true, 1, 0)];
    assert k1.present == [true, false, false, false, false, false];
    assert k1.parent == k0.parent;
    var k2 := BootTick(k1, c1);
    assert LowestFree(k1.present, 0) == LowestFree(k1.present, 1) == 1;
    assert k2.queue == [Task(1, true, 1, 0), Task(0, true, 0, c1)];
    assert k2.present == [true, true, false, false, false, false];
    assert k2.parent == k0.parent;
    assert LowestFree(k2.present, 0) == LowestFree(k2.present, 1) == LowestFree(k2.present, 2) == 2;
    var k3 := BootTick(k2, c2);
    assert k3.queue == [Task(2, true, 1, 0), Task(0, true, 0, c1), Task(1, true, 0, c2)];
    assert k3.present == [true, true, true, false, false, false];
    assert k3.parent == k0.parent;
  }

  lemma BootForest()
    ensures ForestInv([true, true, true, false, false, false], [NONE, NONE, NONE, NONE, NONE, NONE], RootForest())
  {
  }

  lemma BootQueue(q: seq<Task>)
    requires |q| == 3 && q[0].pid == 2 && q[1].pid == 0 && q[2].pid == 1
    requires q[0].enabled && q[1].enabled && q[2].enabled
    ensures QueueInv(q, [true, true, true, false, false, false], RootForest())
  {
    assert Has(q, 0) && Has(q, 1) && Has(q, 2);
  }

  lemma BootKeeps(c0: int, c1: int, c2: int)
    ensures Inv(Booted(c0, c1, c2), RootForest())
  {
    BootedIs(c0, c1, c2);
    BootForest();
    BootQueue(Booted(c0, c1, c2).queue);
  }

  // ------------------------------------------------------------ runs

  datatype Event = Execute | Halts | Timer(ctx: int)

  /** The running process exists and, unless it is a root, has a queued parent to go back to. */
  predicate Runnable(k: Kernel) {
    && 0 <= k.cur < |k.parent| == |k.present| && k.queue != []
    && (HaltsInPlace(k) || 0 < IndexOf(k.queue, k.parent[k.cur]) < |k.queue|)
  }

  function Apply(k: Kernel, e: Event): Kernel
    requires Runnable(k)
  {
    match e
    case Execute => Exec(k)
    case Halts => Halt(k)
    case Timer(ctx) => if Booting(k) then BootTick(k, ctx) else Tick(k, ctx)
  }

  /** The state after the events; a state that is not runnable stops the run. */
  function Run(k: Kernel, es: seq<Event>): Kernel
    decreases |es|
  {
    if es == [] || !Runnable(k) then k else Run(Apply(k, es[0]), es[1..])
  }

  lemma ThreeHeld(q: seq<Task>)
    requires Has(q, 0) && Has(q, 1) && Has(q, 2)
    ensures |q| >= 3
  {
    var a :| 0 <= a < |q| && q[a].pid == 0;
    var b :| 0 <= b < |q| && q[b].pid == 1;
    var c :| 0 <= c < |q| && q[c].pid == 2;
    assert a != b && b != c && a != c;
  }

  lemma ThreeQueued(k: Kernel, f: Forest)
    requires Inv(k, f)
    ensures |k.queue| >= ROOTS && !Booting(k)
  {
    RootsPresent(k.present, k.parent, f);
    assert Has(k.queue, 0) && Has(k.queue, 1) && Has(k.queue, 2);
    ThreeHeld(k.queue);
  }

  lemma AlwaysRunnable(k: Kernel, f: Forest)
    requires Inv(k, f)
    ensures Runnable(k)
  {
    HaltKeeps(k, f);
  }

  lemma ApplyKeeps(k: Kernel, f: Forest, e: Event) returns (g: Forest)
    requires Inv(k, f)
    ensures Runnable(k) && Inv(Apply(k, e), g)
  {
    AlwaysRunnable(k, f);
    ThreeQueued(k, f);
    match e {
      case Execute =>
        ExecKeeps(k, f);
        g := ExecForest(k, f);
      case Halts =>
        HaltKeeps(k, f);
        g := HaltForest(k, f);
      case Timer(ctx) =>
        TickKeeps(k, f, ctx);
        g := f;
    }
  }

  lemma {:induction false} RunKeeps(k: Kernel, f: Forest, es: seq<Event>) returns (g: Forest)
    requires Inv(k, f)
    ensures Inv(Run(k, es), g)
    decreases |es|
  {
    if es == [] {
      g := f;
    } else {
      var h := ApplyKeeps(k, f, es[0]);
      g := RunKeeps(Apply(k, es[0]), h, es[1..]);
    }
  }

  // ------------------------------------------------------------ what a run guarantees, without the forest

  /** The path follows parent links from p up to a shell r that has no parent. */
  ghost predicate Climbs(parent: seq<int>, path: seq<int>, p: int, r: int) {
    && |path| > 0 && path[0] == p && path[|path| - 1] == r
    && (forall i :: 0 <= i < |path| ==> 0 <= path[i] < |parent|)
    && (forall i :: 0 <= i < |path| - 1 ==> parent[path[i]] == path[i + 1])
    && parent[r] == NONE
  }

  ghost predicate Under(parent: seq<int>, p: int, r: int) { exists path :: Climbs(parent, path, p, r) }

  /** Entry i is a runnable task below shell r. */
  ghost predicate RunsFor(k: Kernel, i: int, r: int) {
    0 <= i < |k.queue| && k.queue[i].enabled && Under(k.parent, k.queue[i].pid, r)
  }

  /** Some runnable task below shell r, and no second one. */
  ghost predicate OneRunnable(k: Kernel, r: int) {
    && (exists i :: RunsFor(k, i, r))
    && (forall i, j :: RunsFor(k, i, r) && RunsFor(k, j, r) ==> i == j)
  }

  /** Every queued non-shell waits-on link: its parent is queued too, and asleep. */
  ghost predicate ParentAsleep(k: Kernel, p: int)
    requires 0 <= p < |k.parent|
  {
    exists i :: 0 <= i < |k.queue| && k.queue[i].pid == k.parent[p] && !k.queue[i].enabled
  }

  ghost predicate Safe(k: Kernel) {
    && |k.present| == |k.parent| == MAX_PROCESS && ROOTS <= |k.queue| <= MAX_PROCESS
    && Distinct(k.queue)
    && (forall p :: IsPid(p) ==> (k.present[p] <==> Has(k.queue, p)))
    && (forall i :: 0 <= i < |k.queue| ==> IsPid(k.queue[i].pid))
    && k.queue[0].enabled && k.queue[0].pid == k.cur
    && (forall p :: IsPid(p) && k.present[p] && p >= ROOTS ==> ParentAsleep(k, p))
    && (forall p :: IsPid(p) && k.present[p] ==> exists r :: 0 <= r < ROOTS && Under(k.parent, p, r))
    && (forall r :: 0 <= r < ROOTS ==> OneRunnable(k, r))
  }

  /** Every present process climbs to the root the forest gives it. */
  lemma {:induction false} ClimbsToRoot(present: seq<bool>, parent: seq<int>, f: Forest, p: int)
    requires |present| == |parent| == |f.root| == |f.depth| == MAX_PROCESS && |f.top| == ROOTS
    requires ForestInv(present, parent, f) && IsPid(p) && present[p]
    ensures PlacedOk(present, parent, f, p) && Under(parent, p, f.root[p])
    decreases f.depth[p]
  {
    assert PlacedOk(present, parent, f, p);
    if p < ROOTS {
      assert RootOk(present, parent, f, p);
      assert Climbs(parent, [p], p, p);
    } else {
      ClimbsToRoot(present, parent, f, parent[p]);
      var rest :| Climbs(parent, rest, parent[p], f.root[p]);
      var path := [p] + rest;
      assert forall i :: 0 < i < |path| ==> path[i] == rest[i - 1];
      assert Climbs(parent, path, p, f.root[p]);
    }
  }

  lemma FirstLink(parent: seq<int>, path: seq<int>, p: int, r: int)
    requires Climbs(parent, path, p, r)
    ensures p == r || 0 <= parent[p]
  {
    if |path| > 1 {
      assert parent[path[0]] == path[0 + 1];
    }
  }

  /** A climb can only end at that root. */
  lemma {:induction false} ClimbEnds(present: seq<bool>, parent: seq<int>, f: Forest, path: seq<int>, p: int, r: int)
    requires |present| == |parent| == |f.root| == |f.depth| == MAX_PROCESS && |f.top| == ROOTS
    requires ForestInv(present, parent, f) && IsPid(p) && present[p] && Climbs(parent, path, p, r)
    ensures f.root[p] == r
    decreases |path|
  {
    assert PlacedOk(present, parent, f, p);
    if p < ROOTS {
      assert RootOk(present, parent, f, p);
      FirstLink(parent, path, p, r);
    } else {
      assert parent[p] != NONE;
      assert parent[path[0]] == path[1];
      var rest := path[1..];
      forall i | 0 <= i < |rest| - 1
        ensures parent[rest[i]] == rest[i + 1]
      {
        assert parent[path[i + 1]] == path[i + 1 + 1];
      }
      ClimbEnds(present, parent, f, rest, parent[p], r);
    }
  }

  lemma UnderIs(present: seq<bool>, parent: seq<int>, f: Forest, p: int, r: int)
    requires |present| == |parent| == |f.root| == |f.depth| == MAX_PROCESS && |f.top| == ROOTS
    requires ForestInv(present, parent, f) && IsPid(p) && present[p]
    ensures Under(parent, p, r) <==> f.root[p] == r
  {
    ClimbsToRoot(present, parent, f, p);
    if Under(parent, p, r) {
      var path :| Climbs(parent, path, p, r);
      ClimbEnds(present, parent, f, path, p, r);
    }
  }

  lemma InvOneRunnable(k: Kernel, f: Forest, r: int)
    requires Inv(k, f) && 0 <= r < ROOTS
    ensures OneRunnable(k, r)
  {
    forall i | 0 <= i < |k.queue|
      ensures RunsFor(k, i, r) <==> k.queue[i].pid == f.top[r]
    {
      UnderIs(k.present, k.parent, f, k.queue[i].pid, r);
      assert RootOk(k.present, k.parent, f, r);
    }
    assert RootOk(k.present, k.parent, f, r);
    assert Has(k.queue, f.top[r]);
    var i :| 0 <= i < |k.queue| && k.queue[i].pid == f.top[r];
    assert RunsFor(k, i, r);
  }

  lemma InvParentAsleep(k: Kernel, f: Forest, p: int)
    requires Inv(k, f) && ROOTS <= p < MAX_PROCESS && k.present[p]
    ensures ParentAsleep(k, p)
  {
    assert PlacedOk(k.present, k.parent, f, p);
    var o := k.parent[p];
    assert Has(k.queue, o);
    var i :| 0 <= i < |k.queue| && k.queue[i].pid == o;
    assert !k.queue[i].enabled;
  }

  /** A duplicate-free queue of process numbers below n has at most n entries. */
  lemma QueueFits(q: seq<Task>, n: nat)
    requires Distinct(q) && forall i :: 0 <= i < |q| ==> 0 <= q[i].pid < n
    ensures |q| <= n
  {
    Pigeonhole.AtMost(seq(|q|, i requires 0 <= i < |q| => q[i].pid), n);
  }

  lemma InvSafe(k: Kernel, f: Forest)
    requires Inv(k, f)
    ensures Safe(k)
  {
    ThreeQueued(k, f);
    QueueFits(k.queue, MAX_PROCESS);
    forall r | 0 <= r < ROOTS
      ensures OneRunnable(k, r)
    {
      InvOneRunnable(k, f, r);
    }
    forall p | IsPid(p) && k.present[p] && p >= ROOTS
      ensures ParentAsleep(k, p)
    {
      InvParentAsleep(k, f, p);
    }
    forall p | IsPid(p) && k.present[p]
      ensures exists r :: 0 <= r < ROOTS && Under(k.parent, p, r)
    {
      ClimbsToRoot(k.present, k.parent, f, p);
    }
  }

  /** After boot, every sequence of execute, halt and tick keeps the kernel safe and never gets it stuck. */
  lemma EveryRunSafe(c0: int, c1: int, c2: int, es: seq<Event>)
    ensures Safe(Run(Booted(c0, c1, c2), es)) && Runnable(Run(Booted(c0, c1, c2), es))
  {
    BootKeeps(c0, c1, c2);
    var g := RunKeeps(Booted(c0, c1, c2), RootForest(), es);
    InvSafe(Run(Booted(c0, c1, c2), es), g);
    AlwaysRunnable(Run(Booted(c0, c1, c2), es), g);
  }

  /** Execute followed by halt of the child gives back the caller, running, and frees the process number. */
  lemma HaltUndoesExec(k: Kernel, f: Forest)
    requires Inv(k, f) && LowestFree(k.present, 0) != NONE
    ensures Runnable(Exec(k)) && !HaltsInPlace(Exec(k))
    ensures var h := Halt(Exec(k));
            h.queue == [k.queue[0].(state := 1)] + k.queue[1..] && h.present == k.present && h.cur == k.cur
  {
    ThreeQueued(k, f);
    RootsPresent(k.present, k.parent, f);
    FreshPid(k.present);
    var p := LowestFree(k.present, 0);
    ExecIs(k);
    var e := Exec(k);
    assert PlacedOk(k.present, k.parent, f, k.cur);
    assert e.parent[p] == k.cur;
    CallerLast(k.queue, p);
  }

  lemma CallerLast(q: seq<Task>, p: int)
    requires q != [] && Distinct(q) && p != q[0].pid
    ensures IndexOf(ExecQueue(q, p), q[0].pid) == |q|
    ensures Without(ExecQueue(q, p), q[0].pid) == ExecQueue(q, p)[..|q|]
    ensures ExecQueue(q, p)[..|q|][1..] == q[1..]
  {
    var t := ExecQueue(q, p);
    assert forall j :: 0 <= j < |q| ==> t[j].pid != q[0].pid;
    assert t[|q|].pid == q[0].pid;
    assert t[..|q|] + t[|q| + 1..] == t[..|q|];
  }

  // ------------------------------------------------------------ round-robin order

  /** The runnable processes in queue order. */
  function EnabledOrder(q: seq<Task>): seq<int> {
    if q == [] then [] else (if q[0].enabled then [q[0].pid] else []) + EnabledOrder(q[1..])
  }

  ghost predicate Ticked(k: Kernel, t: Kernel) { k.queue != [] && exists ctx :: t == Tick(k, ctx) }

  /** The states of a stretch of time with ticks only. */
  ghost predicate Ticking(ks: seq<Kernel>) { forall i :: 0 <= i < |ks| - 1 ==> Ticked(ks[i], ks[i + 1]) }

  function Offer(t: Task): seq<int> { if t.enabled then [t.pid] else [] }

  lemma OrderCons(t: Task, q: seq<Task>, l: seq<Task>)
    requires l == [t] + q
    ensures EnabledOrder(l) == Offer(t) + EnabledOrder(q)
  {
    assert l[0] == t && l[1..] == q;
  }

  lemma Regroup(a: seq<int>, b: seq<int>, c: seq<int>)
    ensures a + (b + c) == (a + b) + c
  {
  }

  lemma {:induction false} EnabledConcat(a: seq<Task>, b: seq<Task>)
    ensures EnabledOrder(a + b) == EnabledOrder(a) + EnabledOrder(b)
  {
    if a == [] {
      assert a + b == b;
    } else {
      var t, rest := a[0], a[1..];
      EnabledConcat(rest, b);
      OrderCons(t, rest, a);
      OrderCons(t, rest + b, a + b);
      Regroup(Offer(t), EnabledOrder(rest), EnabledOrder(b));
    }
  }

  lemma {:induction false} NoneEnabled(q: seq<Task>)
    requires forall i :: 0 <= i < |q| ==> !q[i].enabled
    ensures EnabledOrder(q) == []
  {
    if q != [] {
      NoneEnabled(q[1..]);
    }
  }

  lemma SwapAsleep(a: seq<Task>, b: seq<Task>)
    requires forall i :: 0 <= i < |a| ==> !a[i].enabled
    ensures EnabledOrder(b + a) == EnabledOrder(a + b)
  {
    NoneEnabled(a);
    EnabledConcat(a, b);
    EnabledConcat(b, a);
  }

  /** Rotating past entries that may not run leaves the order of the others. */
  lemma SkipAsleep(q: seq<Task>, a: seq<Task>, b: seq<Task>)
    requires q == a + b && forall i :: 0 <= i < |a| ==> !a[i].enabled
    ensures EnabledOrder(RotateBy(q, |a|)) == EnabledOrder(q)
  {
    SwapAsleep(a, b);
    assert RotateBy(q, |a|) == b + a;
  }

  /** The scheduler loop moves the running process behind the other runnable ones, and changes nothing else. */
  lemma NextUpOrder(q: seq<Task>)
    requires q != [] && q[0].enabled
    ensures EnabledOrder(NextUp(q)) == EnabledOrder(q)[1..] + [q[0].pid]
  {
    var once := RotateBy(q, 1);
    NextUpStops(q);
    var r := FirstEnabled(once);
    SkipAsleep(once, once[..r], once[r..]);
    EnabledConcat(q[1..], [q[0]]);
    assert q[..1] == [q[0]];
    assert EnabledOrder([q[0]]) == [q[0].pid];
  }

  lemma HeadOrder(q: seq<Task>, t: Task)
    requires q != [] && t.pid == q[0].pid && t.enabled == q[0].enabled
    ensures EnabledOrder(q[0 := t]) == EnabledOrder(q)
  {
    assert q[0 := t][1..] == q[1..];
  }

  lemma TickOrder(k: Kernel, f: Forest, ctx: int)
    requires Inv(k, f)
    ensures EnabledOrder(k.queue) != [] && EnabledOrder(k.queue)[0] == k.cur
    ensures EnabledOrder(Tick(k, ctx).queue) == EnabledOrder(k.queue)[1..] + [k.cur]
  {
    var q := SaveHead(k.queue, ctx);
    HeadOrder(k.queue, q[0]);
    NextUpStops(q);
    NextUpOrder(q);
    HeadOrder(NextUp(q), NextUp(q)[0].(state := 1));
  }

  // ------------------------------------------------------------ exactly three runnable processes

  lemma {:induction false} EnabledMember(q: seq<Task>, p: int)
    ensures p in EnabledOrder(q) <==> exists i :: 0 <= i < |q| && q[i].enabled && q[i].pid == p
  {
    if q != [] {
      EnabledMember(q[1..], p);
      assert forall i :: 0 < i < |q| ==> q[i] == q[1..][i - 1];
      if exists i :: 0 <= i < |q| && q[i].enabled && q[i].pid == p {
        var i :| 0 <= i < |q| && q[i].enabled && q[i].pid == p;
        assert i > 0 ==> q[1..][i - 1].enabled && q[1..][i - 1].pid == p;
      }
    }
  }

  ghost predicate NoRepeat(s: seq<int>) { forall i, j :: 0 <= i < j < |s| ==> s[i] != s[j] }

  lemma {:induction false} EnabledNoRepeat(q: seq<Task>)
    requires Distinct(q)
    ensures NoRepeat(EnabledOrder(q))
  {
    if q != [] {
      EnabledNoRepeat(q[1..]);
      EnabledMember(q[1..], q[0].pid);
    }
  }

  lemma {:induction false} NoRepeatSize(s: seq<int>)
    requires NoRepeat(s)
    ensures |set x | x in s| == |s|
  {
    if s != [] {
      NoRepeatSize(s[1..]);
      assert (set x | x in s) == {s[0]} + (set x | x in s[1..]);
      assert s[0] !in s[1..];
    }
  }

  lemma SizeOfThree(s: seq<int>, a: int, b: int, c: int)
    requires NoRepeat(s) && a != b && b != c && a != c
    requires forall p :: p in s <==> p == a || p == b || p == c
    ensures |s| == 3
  {
    NoRepeatSize(s);
    assert (set x | x in s) == {a, b, c};
  }

  lemma TopsDistinct(k: Kernel, f: Forest)
    requires Inv(k, f)
    ensures f.top[0] != f.top[1] && f.top[1] != f.top[2] && f.top[0] != f.top[2]
  {
    assert RootOk(k.present, k.parent, f, 0) && RootOk(k.present, k.parent, f, 1) && RootOk(k.present, k.parent, f, 2);
  }

  /** Exactly three processes may run, one above each shell. */
  lemma ThreeRunnable(k: Kernel, f: Forest)
    requires Inv(k, f)
    ensures |EnabledOrder(k.queue)| == ROOTS && NoRepeat(EnabledOrder(k.queue))
    ensures forall p :: p in EnabledOrder(k.queue) <==> p == f.top[0] || p == f.top[1] || p == f.top[2]
  {
    var e := EnabledOrder(k.queue);
    EnabledNoRepeat(k.queue);
    TopsDistinct(k, f);
    forall p
      ensures p in e <==> p == f.top[0] || p == f.top[1] || p == f.top[2]
    {
      EnabledMember(k.queue, p);
      TopsRun(k, f, p);
    }
    SizeOfThree(e, f.top[0], f.top[1], f.top[2]);
  }

  lemma TopsRun(k: Kernel, f: Forest, p: int)
    requires Inv(k, f)
    ensures p == f.top[0] || p == f.top[1] || p == f.top[2] <==>
            exists i :: 0 <= i < |k.queue| && k.queue[i].enabled && k.queue[i].pid == p
  {
    if p == f.top[0] || p == f.top[1] || p == f.top[2] {
      var r := if p == f.top[0] then 0 else if p == f.top[1] then 1 else 2;
      assert RootOk(k.present, k.parent, f, r);
      assert Has(k.queue, p);
    }
  }

  /** e counted cyclically from n. */
  predicate TurnedBy(e: seq<int>, d: seq<int>, n: nat) {
    |e| == 3 && |d| == 3 && d[0] == e[n % 3] && d[1] == e[(n + 1) % 3] && d[2] == e[(n + 2) % 3]
  }

  lemma TurnedOnce(e: seq<int>, d: seq<int>, c: seq<int>, n: nat)
    requires TurnedBy(e, d, n) && c == d[1..] + [d[0]]
    ensures TurnedBy(e, c, n + 1)
  {
  }

  /** One tick moves the running process behind the other two runnable ones. */
  lemma OneTurn(k: Kernel, t: Kernel, f: Forest)
    requires Inv(k, f) && Ticked(k, t)
    ensures Inv(t, f) && EnabledOrder(k.queue) != []
    ensures EnabledOrder(t.queue) == EnabledOrder(k.queue)[1..] + [EnabledOrder(k.queue)[0]]
  {
    var ctx :| t == Tick(k, ctx);
    TickOrder(k, f, ctx);
    TickKeeps(k, f, ctx);
  }

  lemma {:induction false} OrderTurns(ks: seq<Kernel>, f: Forest, n: nat)
    requires n < |ks| && Ticking(ks) && Inv(ks[0], f)
    ensures Inv(ks[n], f) && TurnedBy(EnabledOrder(ks[0].queue), EnabledOrder(ks[n].queue), n)
  {
    if n == 0 {
      ThreeRunnable(ks[0], f);
    } else {
      OrderTurns(ks, f, n - 1);
      assert Ticked(ks[n - 1], ks[n - 1 + 1]);
      OneTurn(ks[n - 1], ks[n], f);
      TurnedOnce(EnabledOrder(ks[0].queue), EnabledOrder(ks[n - 1].queue), EnabledOrder(ks[n].queue), n - 1);
    }
  }

  /** After n ticks the runner is the n-th of the three runnable processes, counted cyclically. */
  lemma RoundRobin(ks: seq<Kernel>, f: Forest, n: nat)
    requires n < |ks| && Ticking(ks) && Inv(ks[0], f)
    ensures |EnabledOrder(ks[0].queue)| == 3 && ks[n].cur == EnabledOrder(ks[0].queue)[n % 3]
  {
    OrderTurns(ks, f, n);
    TickOrder(ks[n], f, 0);
  }

  /**
   * With no execute or halt, the runner after m ticks runs again after n ticks exactly when n and m differ by a
   * multiple of three: between two turns of a process each of the other two has exactly one.
   */
  lemma FairTurns(ks: seq<Kernel>, f: Forest, m: nat, n: nat)
    requires m < |ks| && n < |ks| && Ticking(ks) && Inv(ks[0], f)
    ensures ks[m].cur == ks[n].cur <==> m % 3 == n % 3
  {
    RoundRobin(ks, f, m);
    RoundRobin(ks, f, n);
    ThreeRunnable(ks[0], f);
  }
}

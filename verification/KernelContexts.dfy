/**
 * What the events mean for each single process: its queue entry, wherever it stands, and above all the stack context
 * saved in it. A process resumes exactly where it was interrupted.
 */
module KernelContexts {
  import opened KernelModel
  import opened KernelRuns

  /** The queue entry of process p. */
  ghost function Entry(q: seq<Task>, p: int): Task
    requires Has(q, p)
  {
    var i :| 0 <= i < |q| && q[i].pid == p;
    q[i]
  }

  lemma EntryAt(q: seq<Task>, i: nat)
    requires Distinct(q) && i < |q|
    ensures Has(q, q[i].pid) && Entry(q, q[i].pid) == q[i]
  {
  }

  /** The two queues hold the same processes with the same entries, apart from those in changed. */
  ghost predicate SameEntries(q: seq<Task>, t: seq<Task>, changed: set<int>) {
    forall p | p !in changed :: (Has(q, p) <==> Has(t, p)) && (Has(q, p) ==> Entry(t, p) == Entry(q, p))
  }

  /** The entries of q, apart from those of changed processes, are entries of t somewhere. */
  ghost predicate Moved(q: seq<Task>, t: seq<Task>, changed: set<int>) {
    forall i | 0 <= i < |q| && q[i].pid !in changed :: q[i] in t
  }

  lemma MovedEntries(q: seq<Task>, t: seq<Task>, changed: set<int>)
    requires Distinct(q) && Distinct(t) && Moved(q, t, changed) && Moved(t, q, changed)
    ensures SameEntries(q, t, changed)
  {
    forall p | p !in changed
      ensures (Has(q, p) <==> Has(t, p)) && (Has(q, p) ==> Entry(t, p) == Entry(q, p))
    {
      if Has(q, p) {
        var i :| 0 <= i < |q| && q[i].pid == p;
        assert q[i] in t;
        var j :| 0 <= j < |t| && t[j] == q[i];
        EntryAt(q, i);
        EntryAt(t, j);
      }
      if Has(t, p) {
        var j :| 0 <= j < |t| && t[j].pid == p;
        assert t[j] in q;
        var i :| 0 <= i < |q| && q[i] == t[j];
      }
    }
  }

  lemma {:induction false} SameTwice(q: seq<Task>, t: seq<Task>, u: seq<Task>, a: set<int>, b: set<int>)
    requires SameEntries(q, t, a) && SameEntries(t, u, b)
    ensures SameEntries(q, u, a + b)
  {
  }

  lemma RotateEntries(q: seq<Task>, r: nat)
    requires Distinct(q) && r <= |q|
    ensures Distinct(RotateBy(q, r)) && SameEntries(q, RotateBy(q, r), {})
  {
    var t := RotateBy(q, r);
    forall i | 0 <= i < |q|
      ensures t[i] == q[if i + r < |q| then i + r else i + r - |q|] && q[i] in t
    {
      RotateAt(q, r, i);
      var j := if i >= r then i - r else i - r + |q|;
      RotateAt(q, r, j);
      assert t[j] == q[i];
    }
    MovedEntries(q, t, {});
  }

  lemma HeadEntries(q: seq<Task>, t: Task)
    requires Distinct(q) && q != [] && t.pid == q[0].pid
    ensures Distinct(q[0 := t]) && SameEntries(q, q[0 := t], {t.pid}) && Has(q[0 := t], t.pid) && Entry(q[0 := t], t.pid) == t
  {
    var u := q[0 := t];
    EntryAt(u, 0);
    forall i | 0 < i < |q| ensures q[i] in u && u[i] in q { assert u[i] == q[i]; }
    MovedEntries(q, u, {t.pid});
  }

  // ------------------------------------------------------------ ticks

  lemma NextUpEntries(q: seq<Task>)
    requires Distinct(q) && q != [] && q[0].enabled
    ensures |NextUp(q)| == |q| && Distinct(NextUp(q)) && SameEntries(q, NextUp(q), {})
  {
    NextUpStops(q);
    var once := RotateBy(q, 1);
    RotateEntries(q, 1);
    RotateEntries(once, FirstEnabled(once));
    SameTwice(q, once, NextUp(q), {}, {});
  }

  lemma TickSwitches(k: Kernel, f: Forest, c: int)
    requires Inv(k, f)
    ensures Tick(k, c).cur != k.cur
  {
    var t := Tick(k, c);
    TickOrder(k, f, c);
    ThreeRunnable(k, f);
    TickKeeps(k, f, c);
    TickOrder(t, f, 0);
    assert EnabledOrder(t.queue)[0] == EnabledOrder(k.queue)[1];
  }

  /** A tick saves the context of the interrupted process, marks the next one running and touches no other entry. */
  lemma TickEffect(k: Kernel, f: Forest, c: int)
    requires Inv(k, f)
    ensures var t := Tick(k, c);
            && t.present == k.present && t.parent == k.parent && t.cur != k.cur
            && Has(t.queue, k.cur) && Entry(t.queue, k.cur) == k.queue[0].(state := 0, ctx := c)
            && Has(k.queue, t.cur) && t.queue[0] == Entry(k.queue, t.cur).(state := 1)
            && SameEntries(k.queue, t.queue, {k.cur, t.cur})
  {
    var q := SaveHead(k.queue, c);
    var n := NextUp(q);
    var t := Tick(k, c);
    HeadEntries(k.queue, q[0]);
    NextUpEntries(q);
    HeadEntries(n, n[0].(state := 1));
    EntryAt(n, 0);
    TickSwitches(k, f, c);
    SameTwice(k.queue, q, n, {k.cur}, {});
    SameTwice(k.queue, n, t.queue, {k.cur} + {}, {t.cur});
  }

  // ------------------------------------------------------------ execute and halt

  lemma ExecEntries(q: seq<Task>, p: int)
    requires Distinct(q) && q != [] && !Has(q, p)
    ensures var t := ExecQueue(q, p);
            && Distinct(t) && SameEntries(q, t, {p, q[0].pid})
            && Has(t, q[0].pid) && Entry(t, q[0].pid) == q[0].(enabled := false)
  {
    var t := ExecQueue(q, p);
    ExecDistinct(q, p);
    EntryAt(t, |q|);
    forall i | 0 < i < |q| ensures q[i] in t && t[i] in q { assert t[i] == q[i]; }
    MovedEntries(q, t, {p, q[0].pid});
  }

  lemma NotQueued(k: Kernel, f: Forest, p: int)
    requires Inv(k, f) && IsPid(p) && !k.present[p]
    ensures !Has(k.queue, p)
  {
  }

  /**
   * Execute with a free process number: the lowest one is taken, its process runs as a child of the caller, the caller
   * sleeps, and no other entry is touched. Without one nothing changes.
   */
  lemma ExecEffect(k: Kernel, f: Forest)
    requires Inv(k, f)
    ensures var t, p := Exec(k), LowestFree(k.present, 0);
            if p == NONE then t == k
            else
              && IsPid(p) && !k.present[p] && t.present == k.present[p := true] && t.parent == k.parent[p := k.cur]
              && t.cur == p && t.queue != [] && t.queue[0] == Task(p, true, 1, 0)
              && Has(t.queue, k.cur) && Entry(t.queue, k.cur) == k.queue[0].(enabled := false)
              && SameEntries(k.queue, t.queue, {p, k.cur})
  {
    ThreeQueued(k, f);
    RootsPresent(k.present, k.parent, f);
    FreshPid(k.present);
    var p := LowestFree(k.present, 0);
    if p == NONE {
      ExecFull(k);
    } else {
      ExecIs(k);
      NotQueued(k, f, p);
      ExecEntries(k.queue, p);
    }
  }

  lemma HaltEntries(q: seq<Task>, i: nat)
    requires Distinct(q) && 0 < i < |q|
    ensures var t := HaltQueue(q, i);
            Distinct(t) && SameEntries(q, t, {q[0].pid, q[i].pid}) && !Has(t, q[0].pid)
  {
    var t := HaltQueue(q, i);
    HaltDistinct(q, i);
    forall j | 0 < j < |q| && j != i ensures q[j] in t { assert t[if j < i then j else j - 1] == q[j]; }
    forall j | 0 < j < |t| ensures t[j] in q { assert t[j] == q[if j < i then j else j + 1]; }
    MovedEntries(q, t, {q[0].pid, q[i].pid});
  }

  /** Halt of a process with a parent: it is gone, its parent runs again, and no other entry is touched. */
  lemma HaltEffect(k: Kernel, f: Forest)
    requires Inv(k, f)
    ensures HaltsInPlace(k) || 0 < IndexOf(k.queue, k.parent[k.cur]) < |k.queue|
    ensures var t := Halt(k);
            if HaltsInPlace(k) then t == k
            else
              var p := k.parent[k.cur];
              && p != k.cur && t.present == k.present[k.cur := false] && t.parent == k.parent && t.cur == p
              && Has(k.queue, p) && t.queue != [] && t.queue[0] == Entry(k.queue, p).(state := 1, enabled := true)
              && !Has(t.queue, k.cur) && SameEntries(k.queue, t.queue, {k.cur, p})
  {
    if !HaltsInPlace(k) {
      ParentWaits(k, f);
      var i := IndexOf(k.queue, k.parent[k.cur]);
      HaltEntries(k.queue, i);
      EntryAt(k.queue, i);
      assert Halt(k).queue == HaltQueue(k.queue, i);
    }
  }

  // ------------------------------------------------------------ contexts over runs

  /** Process p is queued with context c. */
  ghost predicate Holds(k: Kernel, p: int, c: int) { Has(k.queue, p) && Entry(k.queue, p).ctx == c }

  lemma HeadHolds(k: Kernel, f: Forest)
    requires Inv(k, f)
    ensures Has(k.queue, k.cur) && Entry(k.queue, k.cur) == k.queue[0]
  {
    EntryAt(k.queue, 0);
  }

  /** Only the entries of k's and t's runner differ, and t's runner has its context from k. */
  lemma WaitsVia(k: Kernel, t: Kernel, g: Forest, p: int, c: int)
    requires Inv(t, g) && p != k.cur && Holds(k, p, c)
    requires SameEntries(k.queue, t.queue, {k.cur, t.cur})
    requires Has(k.queue, t.cur) && t.queue[0].ctx == Entry(k.queue, t.cur).ctx
    ensures Holds(t, p, c)
  {
    HeadHolds(t, g);
  }

  lemma WaitsThroughTick(k: Kernel, f: Forest, x: int, p: int, c: int)
    requires Inv(k, f) && p != k.cur && Holds(k, p, c)
    ensures Holds(Tick(k, x), p, c)
  {
    TickKeeps(k, f, x);
    TickEffect(k, f, x);
    WaitsVia(k, Tick(k, x), f, p, c);
  }

  lemma WaitsThroughExec(k: Kernel, f: Forest, p: int, c: int)
    requires Inv(k, f) && p != k.cur && Holds(k, p, c)
    ensures Holds(Exec(k), p, c)
  {
    ExecEffect(k, f);
    LowestFreeIs(k.present, 0);
  }

  lemma WaitsThroughHalt(k: Kernel, f: Forest, p: int, c: int)
    requires Inv(k, f) && Runnable(k) && p != k.cur && Holds(k, p, c)
    ensures Holds(Halt(k), p, c)
  {
    HaltEffect(k, f);
    HaltKeeps(k, f);
    if !HaltsInPlace(k) {
      WaitsVia(k, Halt(k), HaltForest(k, f), p, c);
    }
  }

  /** Whatever happens, a process that is not running keeps its saved context, and has it when it comes to run. */
  lemma WaitingKeeps(k: Kernel, f: Forest, e: Event, p: int, c: int)
    requires Inv(k, f) && p != k.cur && Holds(k, p, c)
    ensures Runnable(k) && Holds(Apply(k, e), p, c)
  {
    AlwaysRunnable(k, f);
    ThreeQueued(k, f);
    match e {
      case Execute => WaitsThroughExec(k, f, p, c);
      case Halts => WaitsThroughHalt(k, f, p, c);
      case Timer(x) => WaitsThroughTick(k, f, x, p, c);
    }
  }

  /** Process p does not run in any state of the run before the last one. */
  ghost predicate Waits(k: Kernel, es: seq<Event>, p: int) {
    forall n | 0 <= n < |es| :: Run(k, es[..n]).cur != p
  }

  lemma WaitsOn(k: Kernel, es: seq<Event>, p: int)
    requires es != [] && Runnable(k) && Waits(k, es, p)
    ensures k.cur != p && Waits(Apply(k, es[0]), es[1..], p)
  {
    assert Run(k, es[..0]).cur != p;
    forall n | 0 <= n < |es[1..]|
      ensures Run(Apply(k, es[0]), es[1..][..n]).cur != p
    {
      assert es[..n + 1][0] == es[0] && es[..n + 1][1..] == es[1..][..n];
      assert Run(k, es[..n + 1]).cur != p;
    }
  }

  /** Over every sequence of events, what is saved for a process stays saved until it runs again. */
  lemma {:induction false} ContextStays(k: Kernel, f: Forest, es: seq<Event>, p: int, c: int)
    requires Inv(k, f) && Waits(k, es, p) && Holds(k, p, c)
    ensures Holds(Run(k, es), p, c)
    decreases |es|
  {
    if es != [] {
      AlwaysRunnable(k, f);
      WaitsOn(k, es, p);
      WaitingKeeps(k, f, es[0], p, c);
      var g := ApplyKeeps(k, f, es[0]);
      ContextStays(Apply(k, es[0]), g, es[1..], p, c);
    }
  }

  /**
   * A process interrupted with context c resumes with it: after the tick and any events during which it does not run,
   * its entry holds c, and when it runs it is the head of the queue with context c.
   */
  lemma Resumes(k: Kernel, f: Forest, c: int, es: seq<Event>)
    requires Inv(k, f) && Waits(Tick(k, c), es, k.cur)
    ensures var t := Run(Tick(k, c), es);
            Holds(t, k.cur, c) && (t.cur == k.cur ==> t.queue[0].pid == k.cur && t.queue[0].ctx == c)
  {
    TickEffect(k, f, c);
    TickKeeps(k, f, c);
    ContextStays(Tick(k, c), f, es, k.cur, c);
    var g := RunKeeps(Tick(k, c), f, es);
    HeadHolds(Run(Tick(k, c), es), g);
  }

  lemma TickedWaits(k: Kernel, t: Kernel, f: Forest, p: int, c: int)
    requires Inv(k, f) && Ticked(k, t) && p != k.cur && Holds(k, p, c)
    ensures Holds(t, p, c)
  {
    var x :| t == Tick(k, x);
    WaitsThroughTick(k, f, x, p, c);
  }

  lemma InvThrough(ks: seq<Kernel>, f: Forest, m: nat)
    requires Ticking(ks) && m + 3 < |ks| && Inv(ks[0], f)
    ensures Inv(ks[m], f) && Inv(ks[m + 1], f) && Inv(ks[m + 2], f) && Inv(ks[m + 3], f)
  {
    OrderTurns(ks, f, m);
    OrderTurns(ks, f, m + 1);
    OrderTurns(ks, f, m + 2);
    OrderTurns(ks, f, m + 3);
  }

  lemma Apart(m: nat)
    ensures (m + 1) % 3 != m % 3 && (m + 2) % 3 != m % 3 && (m + 3) % 3 == m % 3
  {
  }

  lemma TurnsOf(ks: seq<Kernel>, f: Forest, m: nat)
    requires Ticking(ks) && m + 3 < |ks| && Inv(ks[0], f)
    ensures ks[m + 1].cur != ks[m].cur && ks[m + 2].cur != ks[m].cur && ks[m + 3].cur == ks[m].cur
  {
    Apart(m);
    FairTurns(ks, f, m + 1, m);
    FairTurns(ks, f, m + 2, m);
    FairTurns(ks, f, m + 3, m);
  }

  lemma TwoTicksLater(a: Kernel, b: Kernel, d: Kernel, f: Forest, p: int, c: int)
    requires Inv(a, f) && Inv(b, f) && Inv(d, f) && Ticked(a, b) && Ticked(b, d)
    requires p != a.cur && p != b.cur && p == d.cur && Holds(a, p, c)
    ensures d.queue[0].pid == p && d.queue[0].ctx == c
  {
    TickedWaits(a, b, f, p, c);
    TickedWaits(b, d, f, p, c);
    HeadHolds(d, f);
  }

  /** In a stretch of ticks the process interrupted with context c has its next turn three ticks later, with that context. */
  lemma NextTurnResumes(ks: seq<Kernel>, f: Forest, m: nat, c: int)
    requires Ticking(ks) && m + 3 < |ks| && Inv(ks[0], f) && ks[m].queue != [] && ks[m + 1] == Tick(ks[m], c)
    ensures ks[m + 1].cur != ks[m].cur && ks[m + 2].cur != ks[m].cur && ks[m + 3].cur == ks[m].cur
    ensures ks[m + 3].queue != [] && ks[m + 3].queue[0].pid == ks[m].cur && ks[m + 3].queue[0].ctx == c
  {
    InvThrough(ks, f, m);
    TurnsOf(ks, f, m);
    TickEffect(ks[m], f, c);
    assert Ticked(ks[m + 1], ks[m + 1 + 1]) && Ticked(ks[m + 2], ks[m + 2 + 1]);
    TwoTicksLater(ks[m + 1], ks[m + 2], ks[m + 3], f, ks[m].cur, c);
  }

  // ------------------------------------------------------------ state marks

  /** The running process and the sleeping callers are marked running; the processes that wait for a turn are not. */
  ghost predicate Marked(k: Kernel) {
    forall i | 0 <= i < |k.queue| :: k.queue[i].state == if i == 0 || !k.queue[i].enabled then 1 else 0
  }

  lemma RotateMarks(q: seq<Task>, r: nat, t: seq<Task>)
    requires r <= |q| && t == RotateBy(q, r)
    requires forall i | 0 <= i < |q| :: q[i].state == if q[i].enabled then 0 else 1
    ensures |t| == |q| && forall i | 0 <= i < |t| :: t[i].state == if t[i].enabled then 0 else 1
  {
    forall i | 0 <= i < |q|
      ensures t[i] == q[if i + r < |q| then i + r else i + r - |q|]
    {
      RotateAt(q, r, i);
    }
  }

  lemma TickMarks(k: Kernel, f: Forest, c: int)
    requires Inv(k, f) && Marked(k)
    ensures Marked(Tick(k, c))
  {
    var q := SaveHead(k.queue, c);
    var once := RotateBy(q, 1);
    NextUpStops(q);
    RotateMarks(q, 1, once);
    RotateMarks(once, FirstEnabled(once), NextUp(q));
  }

  lemma ExecMarks(k: Kernel, f: Forest)
    requires Inv(k, f) && Marked(k)
    ensures Marked(Exec(k))
  {
    ExecEffect(k, f);
    ThreeQueued(k, f);
    RootsPresent(k.present, k.parent, f);
    FreshPid(k.present);
    if LowestFree(k.present, 0) != NONE {
      ExecIs(k);
    }
  }

  lemma HaltMarks(k: Kernel, f: Forest)
    requires Inv(k, f) && Marked(k) && Runnable(k)
    ensures Marked(Halt(k))
  {
    if !HaltsInPlace(k) {
      ParentWaits(k, f);
      assert Halt(k).queue == HaltQueue(k.queue, IndexOf(k.queue, k.parent[k.cur]));
    }
  }

  lemma ApplyMarks(k: Kernel, f: Forest, e: Event)
    requires Inv(k, f) && Marked(k)
    ensures Runnable(k) && Marked(Apply(k, e))
  {
    AlwaysRunnable(k, f);
    ThreeQueued(k, f);
    match e {
      case Execute => ExecMarks(k, f);
      case Halts => HaltMarks(k, f);
      case Timer(c) => TickMarks(k, f, c);
    }
  }

  lemma {:induction false} RunMarks(k: Kernel, f: Forest, es: seq<Event>)
    requires Inv(k, f) && Marked(k)
    ensures Marked(Run(k, es))
    decreases |es|
  {
    if es != [] {
      ApplyMarks(k, f, es[0]);
      var g := ApplyKeeps(k, f, es[0]);
      RunMarks(Apply(k, es[0]), g, es[1..]);
    }
  }

  lemma BootMarked(k: Kernel, c1: int, c2: int)
    requires k.queue == [Task(2, true, 1, 0), Task(0, true, 0, c1), Task(1, true, 0, c2)]
    ensures Marked(k)
  {
  }

  /** After boot the marks are right in every state of every run. */
  lemma EveryRunMarked(c0: int, c1: int, c2: int, es: seq<Event>)
    ensures Marked(Run(Booted(c0, c1, c2), es))
  {
    BootedIs(c0, c1, c2);
    BootMarked(Booted(c0, c1, c2), c1, c2);
    BootKeeps(c0, c1, c2);
    RunMarks(Booted(c0, c1, c2), RootForest(), es);
  }
}

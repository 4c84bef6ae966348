/** The scheduler, execute and halt on the kernel's own tables, refining the value model step by step. */
module KernelSched {
  import opened KernelModel
  import opened KernelRuns

  const QUEUE_SIZE := 16

  /** The queue's process numbers are distinct and allocated, and the first is the running one. */
  ghost predicate Allocated(k: Kernel) {
    && |k.present| == |k.parent| == MAX_PROCESS && Distinct(k.queue)
    && (k.queue != [] ==> k.queue[0].pid == k.cur)
    && forall i :: 0 <= i < |k.queue| ==> IsPid(k.queue[i].pid) && k.present[k.queue[i].pid]
  }

  lemma {:induction false} SplitAt(q: seq<Task>, p: int, i: nat)
    requires i < |q| && q[i].pid == p && forall j :: 0 <= j < i ==> q[j].pid != p
    ensures IndexOf(q, p) == i && Without(q, p) == q[..i] + q[i + 1..]
  {
  }

  lemma NotHeld(q: seq<Task>, p: int)
    requires forall j :: 0 <= j < |q| ==> q[j].pid != p
    ensures IndexOf(q, p) == |q| && Without(q, p) == q
  {
  }

  /** A free process number means a free queue entry. */
  lemma RoomForOne(k: Kernel, p: int)
    requires Allocated(k) && IsPid(p) && !k.present[p]
    ensures |k.queue| < MAX_PROCESS
  {
    if k.queue != [] {
      ExecDistinct(k.queue, p);
      QueueFits(ExecQueue(k.queue, p), MAX_PROCESS);
    }
  }

  lemma RotateDistinct(q: seq<Task>, r: nat)
    requires r <= |q| && Distinct(q)
    ensures Distinct(RotateBy(q, r))
  {
    forall i | 0 <= i < |q|
      ensures RotateBy(q, r)[i] == q[if i + r < |q| then i + r else i + r - |q|]
    {
      RotateAt(q, r, i);
    }
  }

  lemma TurnOn(q: seq<Task>, j: nat, t: seq<Task>)
    requires j < |q| && t == RotateBy(q, j)
    ensures t != [] && t[0] == q[j] && t[1..] + [t[0]] == RotateBy(q, j + 1)
  {
    assert t[0] == q[j];
    assert t[1..] == q[j + 1..] + q[..j];
    assert q[..j] + [q[j]] == q[..j + 1];
  }

  lemma FullTurns(q: seq<Task>)
    ensures RotateBy(q, 0) == q && RotateBy(q, |q|) == q
  {
  }

  lemma FirstAt(q: seq<Task>, i: nat)
    requires i < |q| && q[i].enabled && forall j :: 0 <= j < i ==> !q[j].enabled
    ensures FirstEnabled(q) == i
  {
  }

  lemma RotateTwice(q: seq<Task>, j: nat)
    requires 0 < j <= |q|
    ensures RotateBy(RotateBy(q, 1), j - 1) == RotateBy(q, j)
  {
    var once := q[1..] + q[..1];
    assert once[j - 1..] == q[j..] + q[..1];
    assert once[..j - 1] == q[1..j];
    assert q[..1] + q[1..j] == q[..j];
  }

  lemma TurnedTo(q: seq<Task>, j: nat)
    requires 0 < j <= |q| && (forall i :: 1 <= i < j ==> !q[i].enabled) && (if j < |q| then q[j] else q[0]).enabled
    ensures RotateBy(q, j) == NextUp(q)
  {
    forall i | 0 <= i < j
      ensures RotateBy(q, 1)[i] == if i + 1 < |q| then q[i + 1] else q[0]
    {
      RotateAt(q, 1, i);
    }
    FirstAt(RotateBy(q, 1), j - 1);
    RotateTwice(q, j);
  }

  class Scheduler {
    const queue: array<Task>
    const present: array<bool>
    const parent: array<int>
    var cur: int
    ghost var held: seq<Task>

    /** The first entries hold the queue and the others up to the process limit are empty. */
    ghost predicate Compact()
      reads this, queue
    {
      && queue.Length == QUEUE_SIZE && |held| <= MAX_PROCESS
      && (forall i :: 0 <= i < |held| ==> queue[i] == held[i] && held[i].pid != NONE)
      && (forall i :: |held| <= i < MAX_PROCESS ==> queue[i].pid == NONE)
    }

    ghost predicate Tables()
      reads this, queue, present, parent
    {
      && present.Length == parent.Length == MAX_PROCESS
      && Compact()
    }

    ghost function Abstract(): Kernel
      reads this, queue, present, parent
    {
      Kernel(held, present[..], parent[..], cur)
    }

    ghost predicate Valid()
      reads this, queue, present, parent
    {
      Tables() && Allocated(Abstract())
    }

    constructor ()
      ensures Valid() && Abstract() == Boot()
      ensures fresh(queue) && fresh(present) && fresh(parent)
    {
      queue := new Task[QUEUE_SIZE](_ => Task(NONE, true, 0, 0));
      present := new bool[MAX_PROCESS](_ => false);
      parent := new int[MAX_PROCESS](_ => NONE);
      cur := NONE;
      held := [];
      new;
      assert present[..] == seq(MAX_PROCESS, _ => false);
      assert parent[..] == seq(MAX_PROCESS, _ => NONE);
    }

    /** The first entry of process p, or the limit; the null process finds the first empty entry. */
    method FindTask(p: int) returns (i: nat)
      requires Compact()
      ensures p == NONE ==> i == |held|
      ensures p != NONE ==> i == (if IndexOf(held, p) < |held| then IndexOf(held, p) else MAX_PROCESS)
    {
      i := 0;
      while i < MAX_PROCESS && queue[i].pid != p
        invariant 0 <= i <= MAX_PROCESS
        invariant forall j :: 0 <= j < i ==> queue[j].pid != p
      {
        i := i + 1;
      }
      if p == NONE {
        assert |held| < MAX_PROCESS ==> queue[|held|].pid == NONE;
      } else if i < MAX_PROCESS {
        SplitAt(held, p, i);
      } else {
        NotHeld(held, p);
      }
    }

    method TaskPush(t: Task)
      requires Compact()
      modifies queue, `held
      ensures Compact()
      ensures held == if t.pid == NONE then old(held) else Pushed(old(held), t)
    {
      var i := FindTask(NONE);
      if i < MAX_PROCESS {
        queue[i] := t;
        if t.pid != NONE {
          held := held + [t];
        }
      }
    }

    /** Moves the entries after i down by one and empties the last. */
    method CloseGap(i: nat)
      requires Compact() && i < MAX_PROCESS
      modifies queue, `held
      ensures Compact()
      ensures held == if i < |old(held)| then old(held)[..i] + old(held)[i + 1..] else old(held)
    {
      var j := i;
      while j < MAX_PROCESS - 1
        invariant i <= j <= MAX_PROCESS - 1 && held == old(held)
        invariant forall k :: 0 <= k < i ==> queue[k] == old(queue[k])
        invariant forall k :: i <= k < j ==> queue[k] == old(queue[k + 1])
        invariant forall k :: j <= k < MAX_PROCESS ==> queue[k] == old(queue[k])
      {
        queue[j] := queue[j + 1];
        j := j + 1;
      }
      queue[MAX_PROCESS - 1] := queue[MAX_PROCESS - 1].(pid := NONE);
      if i < |held| {
        held := held[..i] + held[i + 1..];
      }
    }

    /** Removes the first entry of process p; the null process matches an empty entry. */
    method TaskPop(p: int) returns (ok: bool)
      requires Compact()
      modifies queue, `held
      ensures Compact()
      ensures p != NONE ==> held == Without(old(held), p) && (ok <==> Has(old(held), p))
      ensures p == NONE ==> held == old(held) && (ok <==> |old(held)| < MAX_PROCESS)
    {
      var i := FindTask(p);
      ok := i < MAX_PROCESS;
      if ok {
        CloseGap(i);
      }
    }

    /** The saved context of process p, marked running; a null process when p is not queued. */
    method TaskGrab(p: int) returns (t: Task)
      requires Compact() && p != NONE
      ensures var i := IndexOf(held, p);
              if i < |held| then t == held[i].(state := 1, enabled := true) else t.pid == NONE
    {
      var i := FindTask(p);
      t := if i < MAX_PROCESS then Task(p, true, 1, queue[i].ctx) else Task(NONE, true, 0, 0);
    }

    /** Takes the lowest free page directory, if any. */
    method NewProcess() returns (p: int)
      requires present.Length == MAX_PROCESS
      modifies present
      ensures p == LowestFree(old(present[..]), 0)
      ensures if IsPid(p) then present[..] == old(present[..])[p := true] else p == NONE && present[..] == old(present[..])
    {
      var i := 0;
      while i < MAX_PROCESS
        invariant 0 <= i <= MAX_PROCESS && present[..] == old(present[..])
        invariant LowestFree(present[..], 0) == LowestFree(present[..], i)
      {
        if !present[i] {
          present[i] := true;
          return i;
        }
        i := i + 1;
      }
      p := NONE;
    }

    /** The queue half of execute: the child at the head, the caller behind everything else. */
    method Enter(caller: Task, child: Task)
      requires Compact() && |held| < MAX_PROCESS && child.pid != NONE
      requires held == [] ==> caller.pid == NONE
      modifies queue, `held
      ensures Compact()
      ensures held == [child] + (if old(held) == [] then [] else old(held)[1..]) +
                      (if child.pid == 0 || old(held) == [] || caller.pid == NONE then [] else [caller])
    {
      if child.pid != 0 {
        TaskPush(caller);
      }
      queue[0] := child;
      held := [child] + if held == [] then [] else held[1..];
    }

    /** The execute system call, after the program file has been found. */
    method Execute() returns (ok: bool)
      requires Valid()
      modifies this, queue, present, parent
      ensures Valid() && Abstract() == Exec(old(Abstract()))
      ensures ok <==> LowestFree(old(present[..]), 0) != NONE
    {
      ghost var k := Abstract();
      var caused := if cur == NONE || queue[2].pid == NONE then NONE else cur;
      assert caused == if Booting(k) then NONE else k.cur;
      var caller := queue[0];
      var p := NewProcess();
      LowestFreeIs(k.present, 0);
      if p == NONE {
        return false;
      }
      RoomForOne(k, p);
      cur := p;
      parent[p] := caused;
      assert parent[..] == k.parent[p := caused];
      if caused != NONE {
        caller := caller.(enabled := false);
      }
      Enter(caller, Task(p, true, 1, 0));
      StartIs(k, caused, held, caller);
      ok := true;
    }

    /** The queue half of halt: the parent leaves its place and takes the head. */
    method Resume(p: int)
      requires Compact() && 0 < IndexOf(held, p) < |held| && p != NONE
      modifies queue, `held
      ensures Compact()
      ensures held == [old(held)[IndexOf(old(held), p)].(state := 1, enabled := true)] + Without(old(held), p)[1..]
    {
      var t := TaskGrab(p);
      var ok := TaskPop(p);
      queue[0] := t;
      held := [t] + held[1..];
    }

    /** The halt system call; a root shell is restarted in place. */
    method Halt()
      requires Valid() && Runnable(Abstract())
      modifies this, queue, present
      ensures Valid() && Abstract() == KernelModel.Halt(old(Abstract()))
    {
      ghost var k := Abstract();
      if parent[cur] == NONE || cur == 0 {
        return;
      }
      present[cur] := false;
      cur := parent[cur];
      Resume(cur);
      HaltAllocated(k);
      assert present[..] == k.present[k.cur := false];
    }

    /** One turn of the scheduler's loop: the head goes to the tail. */
    method Rotate()
      requires Compact() && held != [] && Distinct(held)
      modifies queue, `held
      ensures Compact() && held == old(held)[1..] + [old(held)[0]]
    {
      var t := queue[0];
      SplitAt(held, t.pid, 0);
      assert held[..0] + held[1..] == held[1..];
      var ok := TaskPop(t.pid);
      TaskPush(t);
    }

    /** The timer interrupt: during boot it starts another shell, afterwards it switches to the next runnable task. */
    method Timer(ctx: int)
      requires Valid() && (Booting(Abstract()) || held[0].enabled)
      modifies this, queue, present, parent
      ensures Valid()
      ensures Abstract() == if Booting(old(Abstract())) then BootTick(old(Abstract()), ctx) else Tick(old(Abstract()), ctx)
    {
      ghost var k := Abstract();
      queue[0] := queue[0].(state := 0, ctx := ctx);
      held := SaveHead(held, ctx);
      if cur == NONE || queue[2].pid == NONE {
        var ok := Execute();
        return;
      }
      Schedule();
      queue[0] := queue[0].(state := 1);
      held := SetHead(held, 1);
      cur := queue[0].pid;
      TickAllocated(k, ctx);
    }

    /** A queue q turned by j is turned by one more. */
    method Turn(ghost q: seq<Task>, ghost j: nat)
      requires Compact() && j < |q| && Distinct(q) && held == RotateBy(q, j)
      modifies queue, `held
      ensures Compact() && held == RotateBy(q, j + 1) && |held| == |q| && held[0] == q[if j + 1 < |q| then j + 1 else 0]
    {
      RotateDistinct(q, j);
      TurnOn(q, j, held);
      Rotate();
      RotateAt(q, j + 1, 0);
    }

    /** Rotate at least once, and on until the head may run. */
    method Schedule()
      requires Compact() && held != [] && Distinct(held) && held[0].enabled
      modifies queue, `held
      ensures Compact() && held == NextUp(old(held))
    {
      ghost var q, j := held, 1;
      FullTurns(q);
      Turn(q, 0);
      while !queue[0].enabled
        invariant Compact() && 0 < j <= |q| && held == RotateBy(q, j)
        invariant held != [] && held[0] == q[if j < |q| then j else 0]
        invariant forall i :: 1 <= i < j ==> !q[i].enabled
        decreases |q| - j
      {
        Turn(q, j);
        j := j + 1;
      }
      TurnedTo(q, j);
    }
  }

  lemma StartIs(k: Kernel, caused: int, q: seq<Task>, caller: Task)
    requires Allocated(k) && LowestFree(k.present, 0) != NONE
    requires k.queue != [] ==> caller == k.queue[0].(enabled := k.queue[0].enabled && caused == NONE)
    requires IsPid(LowestFree(k.present, 0)) && !k.present[LowestFree(k.present, 0)]
    requires q == [Task(LowestFree(k.present, 0), true, 1, 0)] + (if k.queue == [] then [] else k.queue[1..]) +
                  (if LowestFree(k.present, 0) == 0 || k.queue == [] || caller.pid == NONE then [] else [caller])
    ensures Start(k, caused).queue == q && Allocated(Start(k, caused))
  {
    var p, s := LowestFree(k.present, 0), Start(k, caused);
    assert s.queue == q;
    var n := if k.queue == [] then 1 else |k.queue|;
    assert forall i :: 1 <= i < n ==> q[i] == k.queue[i];
    assert |q| <= n + 1 && (|q| == n + 1 ==> q[n].pid == k.queue[0].pid);
  }

  lemma HaltAllocated(k: Kernel)
    requires Allocated(k) && Runnable(k)
    ensures Allocated(KernelModel.Halt(k))
  {
    if !HaltsInPlace(k) {
      var i := IndexOf(k.queue, k.parent[k.cur]);
      HaltDistinct(k.queue, i);
    }
  }

  lemma TickAllocated(k: Kernel, ctx: int)
    requires Allocated(k) && k.queue != [] && k.queue[0].enabled
    ensures Allocated(Tick(k, ctx))
  {
    var q := SaveHead(k.queue, ctx);
    NextUpStops(q);
    var once := RotateBy(q, 1);
    RotateDistinct(q, 1);
    RotateDistinct(once, FirstEnabled(once));
    assert forall i :: 0 <= i < |q| ==> IsPid(q[i].pid) && k.present[q[i].pid];
    RotateHolds(q, 1, k.present);
    RotateHolds(once, FirstEnabled(once), k.present);
  }

  lemma RotateHolds(q: seq<Task>, r: nat, present: seq<bool>)
    requires r <= |q| && |present| == MAX_PROCESS
    requires forall i :: 0 <= i < |q| ==> IsPid(q[i].pid) && present[q[i].pid]
    ensures forall i :: 0 <= i < |q| ==> IsPid(RotateBy(q, r)[i].pid) && present[RotateBy(q, r)[i].pid]
  {
  }

  /** The dispatcher of one kernel entry. */
  method Dispatch(s: Scheduler, e: Event)
    requires s.Valid() && Runnable(s.Abstract()) && (Booting(s.Abstract()) || s.held[0].enabled)
    modifies s, s.queue, s.present, s.parent
    ensures s.Valid() && s.Abstract() == Apply(old(s.Abstract()), e)
  {
    match e {
      case Execute => var ok := s.Execute();
      case Halts => s.Halt();
      case Timer(ctx) => s.Timer(ctx);
    }
  }

  /** Three timer ticks from the empty tables start the three shells. */
  method StartUp(c0: int, c1: int, c2: int) returns (s: Scheduler)
    ensures fresh(s) && fresh(s.queue) && fresh(s.present) && fresh(s.parent)
    ensures s.Valid() && s.Abstract() == Booted(c0, c1, c2)
  {
    s := new Scheduler();
    BootedIs(c0, c1, c2);
    s.Timer(c0);
    s.Timer(c1);
    s.Timer(c2);
  }

  /** Any sequence of events: the tables follow the value model. */
  method RunEvents(s: Scheduler, ghost f: Forest, es: seq<Event>) returns (ghost g: Forest)
    requires s.Valid() && Inv(s.Abstract(), f)
    modifies s, s.queue, s.present, s.parent
    ensures s.Valid() && s.Abstract() == Run(old(s.Abstract()), es) && Inv(s.Abstract(), g)
  {
    g := f;
    ghost var k := s.Abstract();
    var i := 0;
    while i < |es|
      invariant 0 <= i <= |es|
      invariant s.Valid() && Inv(s.Abstract(), g)
      invariant Run(s.Abstract(), es[i..]) == Run(k, es)
    {
      g := ApplyKeeps(s.Abstract(), g, es[i]);
      RunHead(s.Abstract(), es, i);
      Dispatch(s, es[i]);
      i := i + 1;
    }
    assert es[i..] == [];
  }

  /** Boot, then any sequence of events: the tables follow the value model and stay safe. */
  method BootAndRun(c0: int, c1: int, c2: int, es: seq<Event>) returns (s: Scheduler)
    ensures s.Valid() && s.Abstract() == Run(Booted(c0, c1, c2), es) && Safe(s.Abstract())
  {
    s := StartUp(c0, c1, c2);
    BootKeeps(c0, c1, c2);
    ghost var g := RunEvents(s, RootForest(), es);
    InvSafe(s.Abstract(), g);
  }

  lemma RunHead(k: Kernel, es: seq<Event>, i: nat)
    requires i < |es| && Runnable(k)
    ensures Run(k, es[i..]) == Run(Apply(k, es[i]), es[i + 1..])
  {
    assert es[i..][0] == es[i] && es[i..][1..] == es[i + 1..];
  }
}

/** Repeated application of a clocked step whose environment input depends on the clock. */
module Clock {
  function Iterate<S>(step: (S, nat) -> S, s: S, input: nat -> nat, t: nat, n: nat): S
    decreases n
  {
    if n == 0 then s else Iterate(step, step(s, input(t)), input, t + 1, n - 1)
  }

  lemma {:induction false} IterateAppend<S>(step: (S, nat) -> S, s: S, input: nat -> nat, t: nat, m: nat, n: nat)
    ensures Iterate(step, s, input, t, m + n) == Iterate(step, Iterate(step, s, input, t, m), input, t + m, n)
    decreases m
  {
    if m > 0 {
      IterateAppend(step, step(s, input(t)), input, t + 1, m - 1, n);
    }
  }

  lemma IterateOneMore<S>(step: (S, nat) -> S, s: S, input: nat -> nat, t: nat)
    ensures Iterate(step, s, input, 0, t + 1) == step(Iterate(step, s, input, 0, t), input(t))
  {
    IterateAppend(step, s, input, 0, t, 1);
    assert Iterate(step, Iterate(step, s, input, 0, t), input, t, 1) ==
           Iterate(step, step(Iterate(step, s, input, 0, t), input(t)), input, t + 1, 0);
  }

  /** What every step keeps, every run keeps. */
  lemma {:induction false} IterateKeeps<S(!new)>(step: (S, nat) -> S, inv: S -> bool, s: S, input: nat -> nat, t: nat, n: nat)
    requires inv(s)
    requires forall x: S, d: nat | inv(x) :: inv(step(x, d))
    ensures inv(Iterate(step, s, input, t, n))
    decreases n
  {
    if n > 0 {
      IterateKeeps(step, inv, step(s, input(t)), input, t + 1, n - 1);
    }
  }

  // An abstract machine with steps next, allowed while ok, that costs a known number of clocks per step.

  predicate Allowed<A>(ok: A -> bool, next: A -> A, a: A, n: nat)
    decreases n
  {
    n > 0 ==> ok(a) && Allowed(ok, next, next(a), n - 1)
  }

  function After<A>(next: A -> A, a: A, n: nat): A
    decreases n
  {
    if n == 0 then a else After(next, next(a), n - 1)
  }

  function Cost<A>(next: A -> A, cost: (A, nat) -> nat, a: A, t: nat, n: nat): nat
    decreases n
  {
    if n == 0 then 0 else cost(a, t) + Cost(next, cost, next(a), t + cost(a, t), n - 1)
  }

  /** A clocked machine that simulates every abstract step simulates every abstract run. */
  lemma {:induction false} SimulatesRuns<S(!new), A(!new)>(
      step: (S, nat) -> S, rel: (S, A) -> bool, ok: A -> bool, next: A -> A, cost: (A, nat) -> nat,
      s: S, a: A, input: nat -> nat, t: nat, n: nat)
    requires rel(s, a) && Allowed(ok, next, a, n)
    requires forall x: S, b: A, u: nat | rel(x, b) && ok(b) :: rel(Iterate(step, x, input, u, cost(b, u)), next(b))
    ensures rel(Iterate(step, s, input, t, Cost(next, cost, a, t, n)), After(next, a, n))
    decreases n
  {
    if n > 0 {
      var c := cost(a, t);
      SimulatesRuns(step, rel, ok, next, cost, Iterate(step, s, input, t, c), next(a), input, t + c, n - 1);
      IterateAppend(step, s, input, t, c, Cost(next, cost, next(a), t + c, n - 1));
    }
  }

  // What holds at every clock of a stretch of time.

  predicate During<S>(step: (S, nat) -> S, p: S -> bool, s: S, input: nat -> nat, t: nat, n: nat)
    decreases n
  {
    n > 0 ==> p(s) && During(step, p, step(s, input(t)), input, t + 1, n - 1)
  }

  lemma {:induction false} DuringAt<S>(step: (S, nat) -> S, p: S -> bool, s: S, input: nat -> nat, t: nat, n: nat, k: nat)
    requires During(step, p, s, input, t, n) && k < n
    ensures p(Iterate(step, s, input, t, k))
    decreases k
  {
    if k > 0 {
      DuringAt(step, p, step(s, input(t)), input, t + 1, n - 1, k - 1);
    }
  }

  lemma {:induction false} DuringAppend<S>(step: (S, nat) -> S, p: S -> bool, s: S, input: nat -> nat, t: nat, m: nat, n: nat)
    requires During(step, p, s, input, t, m)
    requires During(step, p, Iterate(step, s, input, t, m), input, t + m, n)
    ensures During(step, p, s, input, t, m + n)
    decreases m
  {
    if m > 0 {
      DuringAppend(step, p, step(s, input(t)), input, t + 1, m - 1, n);
    }
  }

  /** From s the run reaches s2 after n clocks, and p holds until then. */
  predicate Leg<S(==)>(step: (S, nat) -> S, p: S -> bool, s: S, input: nat -> nat, t: nat, n: nat, s2: S) {
    Iterate(step, s, input, t, n) == s2 && During(step, p, s, input, t, n)
  }

  lemma OneLeg<S>(step: (S, nat) -> S, p: S -> bool, s: S, input: nat -> nat, t: nat, s2: S)
    requires p(s) && step(s, input(t)) == s2
    ensures Leg(step, p, s, input, t, 1, s2)
  {
    assert Iterate(step, s2, input, t + 1, 0) == s2;
    assert During(step, p, s2, input, t + 1, 0);
  }

  lemma JoinLegs<S>(
      step: (S, nat) -> S, p: S -> bool, s: S, s1: S, s2: S, input: nat -> nat, t: nat, m: nat, u: nat, n: nat, k: nat)
    requires Leg(step, p, s, input, t, m, s1) && Leg(step, p, s1, input, u, n, s2) && u == t + m && k == m + n
    ensures Leg(step, p, s, input, t, k, s2)
  {
    IterateAppend(step, s, input, t, m, n);
    DuringAppend(step, p, s, input, t, m, n);
  }

  /** A first edge and a leg: p holds strictly inside. */
  lemma FirstEdge<S>(step: (S, nat) -> S, p: S -> bool, s: S, s1: S, s2: S, input: nat -> nat, t: nat, n: nat)
    requires step(s, input(t)) == s1 && Leg(step, p, s1, input, t + 1, n, s2)
    ensures Iterate(step, s, input, t, n + 1) == s2
    ensures forall k: nat | 0 < k <= n :: p(Iterate(step, s, input, t, k))
  {
    forall k: nat | 0 < k <= n
      ensures p(Iterate(step, s, input, t, k))
    {
      DuringAt(step, p, s1, input, t + 1, n, k - 1);
    }
  }

  /** Every abstract step is a stretch of clocks between two marked states with no marked state inside. */
  ghost predicate Strides<S(!new), A(!new)>(
      step: (S, nat) -> S, rel: (S, A) -> bool, mark: S -> bool, ok: A -> bool, next: A -> A, cost: (A, nat) -> nat,
      input: nat -> nat)
  {
    && (forall x: S, b: A | rel(x, b) :: mark(x))
    && (forall x: S, b: A, u: nat | rel(x, b) && ok(b) ::
          cost(b, u) > 0 && rel(Iterate(step, x, input, u, cost(b, u)), next(b)))
    && (forall x: S, b: A, u: nat, k: nat | rel(x, b) && ok(b) && 0 < k < cost(b, u) ::
          !mark(Iterate(step, x, input, u, k)))
  }

  /** The marked states of a run are exactly the abstract states, in order: the c-th clock is one only as some k-th state. */
  lemma {:induction false} VisitsAreSteps<S(!new), A(!new)>(
      step: (S, nat) -> S, rel: (S, A) -> bool, mark: S -> bool, ok: A -> bool, next: A -> A, cost: (A, nat) -> nat,
      s: S, a: A, input: nat -> nat, t: nat, n: nat, c: nat) returns (k: nat)
    requires rel(s, a) && Allowed(ok, next, a, n) && Strides(step, rel, mark, ok, next, cost, input)
    requires c <= Cost(next, cost, a, t, n) && mark(Iterate(step, s, input, t, c))
    ensures k <= n && c == Cost(next, cost, a, t, k) && rel(Iterate(step, s, input, t, c), After(next, a, k))
    decreases n
  {
    if n == 0 || c == 0 {
      k := 0;
    } else {
      var d := cost(a, t);
      assert !(0 < c < d);
      var s1 := Iterate(step, s, input, t, d);
      IterateAppend(step, s, input, t, d, c - d);
      var j := VisitsAreSteps(step, rel, mark, ok, next, cost, s1, next(a), input, t + d, n - 1, c - d);
      k := j + 1;
    }
  }

  lemma {:induction false} AllowedPrefix<A>(ok: A -> bool, next: A -> A, a: A, n: nat, k: nat)
    requires Allowed(ok, next, a, n) && k <= n
    ensures Allowed(ok, next, a, k)
    decreases k
  {
    if k > 0 {
      AllowedPrefix(ok, next, next(a), n - 1, k - 1);
    }
  }

  /** The k-th state of an allowed run may step, and the state after it is its successor. */
  lemma {:induction false} StepOfRun<A>(ok: A -> bool, next: A -> A, a: A, n: nat, k: nat)
    requires Allowed(ok, next, a, n) && k < n
    ensures ok(After(next, a, k)) && After(next, a, k + 1) == next(After(next, a, k))
    decreases k
  {
    if k > 0 {
      StepOfRun(ok, next, next(a), n - 1, k - 1);
    }
  }

  /** Later abstract states are reached at later clocks. */
  lemma {:induction false} CostGrows<S(!new), A(!new)>(
      step: (S, nat) -> S, rel: (S, A) -> bool, mark: S -> bool, ok: A -> bool, next: A -> A, cost: (A, nat) -> nat,
      s: S, a: A, input: nat -> nat, t: nat, j: nat, k: nat)
    requires rel(s, a) && Allowed(ok, next, a, k) && Strides(step, rel, mark, ok, next, cost, input) && j < k
    ensures Cost(next, cost, a, t, j) < Cost(next, cost, a, t, k)
    decreases j
  {
    var d := cost(a, t);
    var s1 := Iterate(step, s, input, t, d);
    if j > 0 {
      CostGrows(step, rel, mark, ok, next, cost, s1, next(a), input, t + d, j - 1, k - 1);
    }
  }
}

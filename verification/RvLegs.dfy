/**
 * The order of events of an instruction: edges without a request, the requests with their latencies, and the
 * states passed on the way. What the datapath computes at an edge plays no part in it and is a parameter here.
 */
module RvLegs {
  import opened RvIsa
  import opened RvCore
  import opened MemoryBus
  import opened RvBench
  import Clock

  /** The clocked system, its core at an edge without a request, its memory, and what instructions do to the core. */
  datatype Parts = Parts(
    step: (System, nat) -> System,
    edge: Core -> Core,
    load: (Memory, Word) -> Word,
    port: Core -> RvPort,
    store: (Memory, RvPort) -> Memory,
    decode: Word -> Option<Instr>,
    first: Instr -> State,
    execute: (Core, Instr) -> Core,
    address: (Core, Instr) -> Word,
    operand: (Core, Instr) -> Word,
    loaded: (Core, Instr) -> Core,
    advance: Core -> Core)

  predicate Away(s: System) { s.core.state != Fetch1 }

  predicate AtRest(m: RvMem) { Quiet(m) && !m.prevRead && !m.prevWrite }

  function Rested(m: RvMem): RvMem { m.(prevRead := false, prevWrite := false) }

  predicate Reads(st: State) { st == Fetch2 || st == Ldr1 }

  function AfterRead(st: State): State { if st == Fetch2 then Fetch3 else Ldr2 }

  predicate IsMemory(i: Instr) { i.Load? || i.Store? }

  // ------------------------------------------------------------ edges of the system

  predicate ReadReady(s: System) {
    && Reads(s.core.state) && Sound(s.bench)
    && match s.bench.phase
       case Idle => !s.bench.prevRead && !s.bench.prevWrite
       case Reading(a, _, left) => a == s.core.mar && left > 0
       case Finishing => true
       case Writing(_, _, _) => false
  }

  /** The bench at an event of a read: noticed, counted down, or lowered. */
  function ReadBench(m: RvMem, a: Word, w: Word, d: nat): RvMem {
    (match m.phase
     case Idle => if d == 0 then Answer(m, w) else m.(phase := Reading(a, w, d))
     case Reading(_, buffer, left) => if left <= 1 then Answer(m, buffer) else m.(phase := Reading(a, buffer, left - 1))
     case _ => m.(resp := false, phase := Idle)).(prevRead := true, prevWrite := false)
  }

  function ReadEdge(p: Parts, s: System, d: nat): System {
    System(s.core.(state := if s.bench.resp then AfterRead(s.core.state) else s.core.state, mdr := s.bench.rdata),
           ReadBench(s.bench, s.core.mar, p.load(s.bench.mem, s.core.mar), d))
  }

  predicate WriteReady(p: Parts, s: System) {
    && s.core.state == Str1 && Sound(s.bench)
    && match s.bench.phase
       case Idle => !s.bench.prevRead && !s.bench.prevWrite
       case Writing(a, data, left) => a == p.port(s.core).addr && data == p.port(s.core).wdata && left > 0
       case Finishing => true
       case Reading(_, _, _) => false
  }

  function WriteBench(m: RvMem, q: RvPort, mem: Memory, d: nat): RvMem {
    (match m.phase
     case Idle => if d == 0 then Commit(m, mem) else m.(phase := Writing(q.addr, q.wdata, d))
     case Writing(a, data, left) => if left <= 1 then Commit(m, mem) else m.(phase := Writing(a, data, left - 1))
     case _ => m.(resp := false, phase := Idle)).(prevRead := false, prevWrite := true)
  }

  function WriteEdge(p: Parts, s: System, d: nat): System {
    System(s.core.(state := if s.bench.resp then Str2 else Str1),
           WriteBench(s.bench, p.port(s.core), p.store(s.bench.mem, p.port(s.core)), d))
  }

  /** Marks the states whose next edge a proof looks at; the laws below speak of those only. */
  predicate Look(s: System, d: nat) { true }

  ghost predicate QuietLaw(p: Parts) {
    forall s: System, d: nat {:trigger Look(s, d)} | Quiet(s.bench) && !Requesting(s.core.state) ::
      p.step(s, d) == System(p.edge(s.core), Rested(s.bench))
  }

  ghost predicate ReadLaw(p: Parts) {
    forall s: System, d: nat {:trigger Look(s, d)} | ReadReady(s) :: p.step(s, d) == ReadEdge(p, s, d)
  }

  ghost predicate WriteLaw(p: Parts) {
    && (forall s: System, d: nat {:trigger Look(s, d)} | WriteReady(p, s) :: p.step(s, d) == WriteEdge(p, s, d))
    && (forall c: Core {:trigger p.port(c)} | c.state == Str1 :: p.port(c.(state := Str1)) == p.port(c))
  }

  /** What the core does at the edges without a request. */
  ghost predicate CoreLaw(p: Parts) {
    && (forall c: Core {:trigger p.edge(c)} | c.state == Fetch1 :: p.edge(c) == c.(state := Fetch2, mar := c.pc))
    && (forall c: Core {:trigger p.edge(c)} | c.state == Fetch3 :: p.edge(c) == c.(state := DecodeSt, ir := c.mdr))
    && (forall c: Core {:trigger p.edge(c)} | c.state == DecodeSt && p.decode(c.ir).Some? ::
          p.edge(c) == c.(state := p.first(p.decode(c.ir).value)))
    && (forall i: Instr {:trigger p.first(i)} :: p.first(i) != Fetch1 && !Requesting(p.first(i)))
    && (forall i: Instr {:trigger p.first(i)} | i.Load? :: p.first(i) == LwCalcAddr)
    && (forall i: Instr {:trigger p.first(i)} | i.Store? :: p.first(i) == SwCalcAddr)
  }

  ghost predicate FinishLaw(p: Parts) {
    && (forall c: Core, i: Instr {:trigger p.edge(c), p.first(i)} | p.decode(c.ir) == Some(i) && c.state == p.first(i) && !IsMemory(i) ::
          p.edge(c) == p.execute(c, i))
    && (forall c: Core, i: Instr {:trigger p.edge(c), p.first(i)} | p.decode(c.ir) == Some(i) && c.state == LwCalcAddr && i.Load? ::
          p.edge(c) == c.(state := Ldr1, mar := p.address(c, i)))
    && (forall c: Core, i: Instr {:trigger p.edge(c), p.first(i)} | p.decode(c.ir) == Some(i) && c.state == Ldr2 && i.Load? :: p.edge(c) == p.loaded(c, i))
    && (forall c: Core, i: Instr {:trigger p.edge(c), p.first(i)} | p.decode(c.ir) == Some(i) && c.state == SwCalcAddr && i.Store? ::
          p.edge(c) == c.(state := Str1, mar := p.address(c, i), dataOut := p.operand(c, i)))
    && (forall c: Core {:trigger p.edge(c)} | c.state == Str2 :: p.edge(c) == p.advance(c))
  }

  // ------------------------------------------------------------ requests

  function ReadDone(m: RvMem, w: Word): RvMem {
    m.(resp := false, rdata := w, phase := Idle, prevRead := true, prevWrite := false)
  }

  /** The system once a read has been answered with w and the answer taken. */
  function ReadTaken(s: System, w: Word): System {
    System(s.core.(state := AfterRead(s.core.state), mdr := w), ReadDone(s.bench, w))
  }

  lemma {:induction false} ReadServed(p: Parts, s: System, latency: nat -> nat, t: nat, w: Word, left: nat)
    requires ReadLaw(p) && ReadReady(s) && s.bench.phase == Reading(s.core.mar, w, left)
    ensures Clock.Leg(p.step, Away, s, latency, t, left + 1, ReadTaken(s, w))
    decreases left
  {
    var s1 := ReadEdge(p, s, latency(t));
    assert Look(s, latency(t));
    Clock.OneLeg(p.step, Away, s, latency, t, s1);
    if left == 1 {
      assert Look(s1, latency(t + 1));
      Clock.OneLeg(p.step, Away, s1, latency, t + 1, ReadTaken(s, w));
    } else {
      ReadServed(p, s1, latency, t + 1, w, left - 1);
    }
    Clock.JoinLegs(p.step, Away, s, s1, ReadTaken(s, w), latency, t, 1, t + 1, left, left + 1);
  }

  /** A read request takes its latency plus two cycles and leaves the requested word in the data register. */
  lemma ReadRequest(p: Parts, s: System, latency: nat -> nat, t: nat, w: Word)
    requires ReadLaw(p) && Reads(s.core.state) && AtRest(s.bench) && w == p.load(s.bench.mem, s.core.mar)
    ensures Clock.Leg(p.step, Away, s, latency, t, latency(t) + 2, ReadTaken(s, w))
  {
    var s1 := ReadEdge(p, s, latency(t));
    assert Look(s, latency(t));
    Clock.OneLeg(p.step, Away, s, latency, t, s1);
    if latency(t) == 0 {
      assert Look(s1, latency(t + 1));
      Clock.OneLeg(p.step, Away, s1, latency, t + 1, ReadTaken(s, w));
    } else {
      ReadServed(p, s1, latency, t + 1, w, latency(t));
    }
    Clock.JoinLegs(p.step, Away, s, s1, ReadTaken(s, w), latency, t, 1, t + 1, latency(t) + 1, latency(t) + 2);
  }

  function WriteDone(m: RvMem, mem: Memory): RvMem {
    m.(mem := mem, resp := false, phase := Idle, prevRead := false, prevWrite := true)
  }

  /** The system once a write that leaves memory mem has been answered and the answer taken. */
  function WriteTaken(s: System, mem: Memory): System {
    System(s.core.(state := Str2), WriteDone(s.bench, mem))
  }

  lemma WriteKeepsCore(p: Parts, s: System, d: nat)
    requires s.core.state == Str1 && !s.bench.resp
    ensures WriteEdge(p, s, d).core == s.core
  {
  }

  lemma {:induction false} WriteServed(p: Parts, s: System, latency: nat -> nat, t: nat, left: nat, mem: Memory)
    requires WriteLaw(p) && WriteReady(p, s) && mem == p.store(s.bench.mem, p.port(s.core))
    requires s.bench.phase == Writing(p.port(s.core).addr, p.port(s.core).wdata, left)
    ensures Clock.Leg(p.step, Away, s, latency, t, left + 1, WriteTaken(s, mem))
    decreases left
  {
    var s1 := WriteEdge(p, s, latency(t));
    WriteKeepsCore(p, s, latency(t));
    assert Look(s, latency(t));
    Clock.OneLeg(p.step, Away, s, latency, t, s1);
    if left == 1 {
      assert Look(s1, latency(t + 1));
      Clock.OneLeg(p.step, Away, s1, latency, t + 1, WriteTaken(s, mem));
    } else {
      WriteServed(p, s1, latency, t + 1, left - 1, mem);
    }
    Clock.JoinLegs(p.step, Away, s, s1, WriteTaken(s, mem), latency, t, 1, t + 1, left, left + 1);
  }

  /** A write request takes its latency plus two cycles and stores what the port shows. */
  lemma WriteRequest(p: Parts, s: System, latency: nat -> nat, t: nat, mem: Memory)
    requires WriteLaw(p) && s.core.state == Str1 && AtRest(s.bench) && mem == p.store(s.bench.mem, p.port(s.core))
    ensures Clock.Leg(p.step, Away, s, latency, t, latency(t) + 2, WriteTaken(s, mem))
  {
    var s1 := WriteEdge(p, s, latency(t));
    WriteKeepsCore(p, s, latency(t));
    assert Look(s, latency(t));
    Clock.OneLeg(p.step, Away, s, latency, t, s1);
    if latency(t) == 0 {
      assert Look(s1, latency(t + 1));
      Clock.OneLeg(p.step, Away, s1, latency, t + 1, WriteTaken(s, mem));
    } else {
      WriteServed(p, s1, latency, t + 1, latency(t), mem);
    }
    Clock.JoinLegs(p.step, Away, s, s1, WriteTaken(s, mem), latency, t, 1, t + 1, latency(t) + 1, latency(t) + 2);
  }

  // ------------------------------------------------------------ requests with the edge that follows

  lemma QuietLeg(p: Parts, c: Core, m: RvMem, c1: Core, latency: nat -> nat, t: nat)
    requires QuietLaw(p) && Quiet(m) && !Requesting(c.state) && c.state != Fetch1 && c1 == p.edge(c)
    ensures Clock.Leg(p.step, Away, System(c, m), latency, t, 1, System(c1, Rested(m)))
  {
    assert Look(System(c, m), latency(t));
    Clock.OneLeg(p.step, Away, System(c, m), latency, t, System(c1, Rested(m)));
  }

  /** A read and the edge that takes its word on: both the fetch and the load are this. */
  lemma ReadLeg(p: Parts, c: Core, m: RvMem, c1: Core, latency: nat -> nat, t: nat, w: Word)
    requires QuietLaw(p) && ReadLaw(p) && Reads(c.state) && AtRest(m) && w == p.load(m.mem, c.mar)
    requires c1 == p.edge(c.(state := AfterRead(c.state), mdr := w))
    ensures Clock.Leg(p.step, Away, System(c, m), latency, t, latency(t) + 3, System(c1, m.(rdata := w)))
  {
    var s := System(c, m);
    var s1 := ReadTaken(s, w);
    ReadRequest(p, s, latency, t, w);
    var u := t + (latency(t) + 2);
    QuietLeg(p, s1.core, s1.bench, c1, latency, u);
    assert Rested(s1.bench) == m.(rdata := w);
    Clock.JoinLegs(p.step, Away, s, s1, System(c1, m.(rdata := w)), latency, t, latency(t) + 2, u, 1, latency(t) + 3);
  }

  lemma WriteLeg(p: Parts, c: Core, m: RvMem, c1: Core, latency: nat -> nat, t: nat, mem: Memory)
    requires QuietLaw(p) && WriteLaw(p) && c.state == Str1 && AtRest(m) && mem == p.store(m.mem, p.port(c))
    requires c1 == p.edge(c.(state := Str2))
    ensures Clock.Leg(p.step, Away, System(c, m), latency, t, latency(t) + 3, System(c1, m.(mem := mem)))
  {
    var s := System(c, m);
    var s1 := WriteTaken(s, mem);
    WriteRequest(p, s, latency, t, mem);
    var u := t + (latency(t) + 2);
    QuietLeg(p, s1.core, s1.bench, c1, latency, u);
    assert Rested(s1.bench) == m.(mem := mem);
    Clock.JoinLegs(p.step, Away, s, s1, System(c1, m.(mem := mem)), latency, t, latency(t) + 2, u, 1, latency(t) + 3);
  }

  // ------------------------------------------------------------ one instruction

  /** Cycles from the first state of instruction i to the next boundary. */
  function ExecuteCycles(i: Instr, latency: nat -> nat, t: nat): nat { if IsMemory(i) then latency(t + 1) + 4 else 1 }

  /** The system at the end of instruction i, which starts in c. */
  function Finished(p: Parts, c: Core, m: RvMem, i: Instr): System {
    if i.Load? then
      var a := p.address(c, i);
      var w := p.load(m.mem, a);
      System(p.loaded(c.(state := Ldr2, mar := a, mdr := w), i), m.(rdata := w))
    else if i.Store? then
      var c1 := c.(state := Str1, mar := p.address(c, i), dataOut := p.operand(c, i));
      System(p.advance(c1.(state := Str2)), m.(mem := p.store(m.mem, p.port(c1))))
    else System(p.execute(c, i), m)
  }

  lemma LoadLeg(p: Parts, c: Core, m: RvMem, c1: Core, c2: Core, w: Word, latency: nat -> nat, t: nat)
    requires QuietLaw(p) && ReadLaw(p) && AtRest(m) && c.state == LwCalcAddr && c1 == p.edge(c) && c1.state == Ldr1
    requires w == p.load(m.mem, c1.mar) && c2 == p.edge(c1.(state := Ldr2, mdr := w))
    ensures Clock.Leg(p.step, Away, System(c, m), latency, t, latency(t + 1) + 4, System(c2, m.(rdata := w)))
  {
    QuietLeg(p, c, m, c1, latency, t);
    assert Rested(m) == m;
    ReadLeg(p, c1, m, c2, latency, t + 1, w);
    Clock.JoinLegs(p.step, Away, System(c, m), System(c1, m), System(c2, m.(rdata := w)), latency, t, 1, t + 1,
                   latency(t + 1) + 3, latency(t + 1) + 4);
  }

  lemma StoreLeg(p: Parts, c: Core, m: RvMem, c1: Core, c2: Core, mem: Memory, latency: nat -> nat, t: nat)
    requires QuietLaw(p) && WriteLaw(p) && AtRest(m) && c.state == SwCalcAddr && c1 == p.edge(c) && c1.state == Str1
    requires mem == p.store(m.mem, p.port(c1)) && c2 == p.edge(c1.(state := Str2))
    ensures Clock.Leg(p.step, Away, System(c, m), latency, t, latency(t + 1) + 4, System(c2, m.(mem := mem)))
  {
    QuietLeg(p, c, m, c1, latency, t);
    assert Rested(m) == m;
    WriteLeg(p, c1, m, c2, latency, t + 1, mem);
    Clock.JoinLegs(p.step, Away, System(c, m), System(c1, m), System(c2, m.(mem := mem)), latency, t, 1, t + 1,
                   latency(t + 1) + 3, latency(t + 1) + 4);
  }

  lemma ExecuteLoad(p: Parts, c: Core, m: RvMem, i: Instr, latency: nat -> nat, t: nat)
    requires QuietLaw(p) && ReadLaw(p) && CoreLaw(p) && FinishLaw(p) && AtRest(m)
    requires p.decode(c.ir) == Some(i) && c.state == p.first(i) && i.Load?
    ensures Clock.Leg(p.step, Away, System(c, m), latency, t, latency(t + 1) + 4, Finished(p, c, m, i))
  {
    var c1 := c.(state := Ldr1, mar := p.address(c, i));
    var w := p.load(m.mem, c1.mar);
    LoadLeg(p, c, m, c1, p.loaded(c1.(state := Ldr2, mdr := w), i), w, latency, t);
  }

  lemma ExecuteStore(p: Parts, c: Core, m: RvMem, i: Instr, latency: nat -> nat, t: nat)
    requires QuietLaw(p) && WriteLaw(p) && CoreLaw(p) && FinishLaw(p) && AtRest(m)
    requires p.decode(c.ir) == Some(i) && c.state == p.first(i) && i.Store?
    ensures Clock.Leg(p.step, Away, System(c, m), latency, t, latency(t + 1) + 4, Finished(p, c, m, i))
  {
    var c1 := c.(state := Str1, mar := p.address(c, i), dataOut := p.operand(c, i));
    StoreLeg(p, c, m, c1, p.advance(c1.(state := Str2)), p.store(m.mem, p.port(c1)), latency, t);
  }

  lemma ExecuteLeg(p: Parts, c: Core, m: RvMem, i: Instr, latency: nat -> nat, t: nat)
    requires QuietLaw(p) && ReadLaw(p) && WriteLaw(p) && CoreLaw(p) && FinishLaw(p) && AtRest(m)
    requires p.decode(c.ir) == Some(i) && c.state == p.first(i)
    ensures Clock.Leg(p.step, Away, System(c, m), latency, t, ExecuteCycles(i, latency, t), Finished(p, c, m, i))
  {
    if i.Load? {
      ExecuteLoad(p, c, m, i, latency, t);
    } else if i.Store? {
      ExecuteStore(p, c, m, i, latency, t);
    } else {
      QuietLeg(p, c, m, p.execute(c, i), latency, t);
      assert Rested(m) == m;
    }
  }

  /** The core once word w has been fetched from pc, in control state st. */
  function Holding(c: Core, w: Word, st: State): Core { c.(state := st, mar := c.pc, mdr := w, ir := w) }

  /** From the first edge of the fetch to the decode state. */
  lemma FetchLeg(p: Parts, c: Core, m: RvMem, latency: nat -> nat, t: nat, w: Word)
    requires QuietLaw(p) && ReadLaw(p) && CoreLaw(p) && AtRest(m) && w == p.load(m.mem, c.pc)
    ensures Clock.Leg(p.step, Away, System(c.(state := Fetch2, mar := c.pc), m), latency, t, latency(t) + 3,
                      System(Holding(c, w, DecodeSt), m.(rdata := w)))
  {
    var c1 := c.(state := Fetch2, mar := c.pc);
    assert p.edge(c1.(state := Fetch3, mdr := w)) == Holding(c, w, DecodeSt);
    ReadLeg(p, c1, m, Holding(c, w, DecodeSt), latency, t, w);
  }

  lemma DecodeLeg(p: Parts, c: Core, m: RvMem, latency: nat -> nat, t: nat, w: Word, i: Instr)
    requires QuietLaw(p) && CoreLaw(p) && AtRest(m) && p.decode(w) == Some(i)
    ensures Clock.Leg(p.step, Away, System(Holding(c, w, DecodeSt), m), latency, t, 1, System(Holding(c, w, p.first(i)), m))
  {
    QuietLeg(p, Holding(c, w, DecodeSt), m, Holding(c, w, p.first(i)), latency, t);
    assert Rested(m) == m;
  }

  /** The clock at which the fetched word is decoded, when the fetch request starts at clock t. */
  function DecodeAt(latency: nat -> nat, t: nat): nat { t + (latency(t) + 3) }

  /** From the first edge of the fetch to the first state of the fetched instruction. */
  lemma DispatchLeg(p: Parts, c: Core, m: RvMem, latency: nat -> nat, t: nat, w: Word, i: Instr, u: nat)
    requires QuietLaw(p) && ReadLaw(p) && CoreLaw(p) && AtRest(m) && w == p.load(m.mem, c.pc) && p.decode(w) == Some(i)
    requires u == DecodeAt(latency, t)
    ensures Clock.Leg(p.step, Away, System(c.(state := Fetch2, mar := c.pc), m), latency, t, latency(t) + 4,
                      System(Holding(c, w, p.first(i)), m.(rdata := w)))
  {
    var s, s1 := System(c.(state := Fetch2, mar := c.pc), m), System(Holding(c, w, DecodeSt), m.(rdata := w));
    FetchLeg(p, c, m, latency, t, w);
    DecodeLeg(p, c, m.(rdata := w), latency, u, w, i);
    Clock.JoinLegs(p.step, Away, s, s1, System(Holding(c, w, p.first(i)), m.(rdata := w)), latency, t, latency(t) + 3,
                   u, 1, latency(t) + 4);
  }

  lemma JoinInstruction(p: Parts, s: System, s1: System, s2: System, latency: nat -> nat, t: nat, u: nat, n: nat)
    requires Clock.Leg(p.step, Away, s, latency, t, latency(t) + 4, s1)
    requires Clock.Leg(p.step, Away, s1, latency, u + 1, n, s2) && u == DecodeAt(latency, t)
    ensures Clock.Leg(p.step, Away, s, latency, t, latency(t) + 4 + n, s2)
  {
    Clock.JoinLegs(p.step, Away, s, s1, s2, latency, t, latency(t) + 4, u + 1, n, latency(t) + 4 + n);
  }

  ghost predicate Laws(p: Parts) { QuietLaw(p) && ReadLaw(p) && WriteLaw(p) && CoreLaw(p) && FinishLaw(p) }

  /** The core in the first state of instruction i, fetched as word w. */
  function Begun(p: Parts, c: Core, m: RvMem, w: Word, i: Instr): System { System(Holding(c, w, p.first(i)), m.(rdata := w)) }

  /** Everything after the first edge of an instruction is away from the first fetch state, until it ends. */
  lemma InstructionLeg(p: Parts, c: Core, m: RvMem, latency: nat -> nat, t: nat, w: Word, i: Instr, u: nat, n: nat)
    requires Laws(p) && AtRest(m) && w == p.load(m.mem, c.pc) && p.decode(w) == Some(i)
    requires u == DecodeAt(latency, t) && n == ExecuteCycles(i, latency, u + 1)
    ensures Clock.Leg(p.step, Away, System(c.(state := Fetch2, mar := c.pc), m), latency, t, latency(t) + 4 + n,
                      Finished(p, Holding(c, w, p.first(i)), m.(rdata := w), i))
  {
    var s1 := Begun(p, c, m, w, i);
    DispatchLeg(p, c, m, latency, t, w, i, u);
    ExecuteLeg(p, s1.core, s1.bench, i, latency, u + 1);
    JoinInstruction(p, System(c.(state := Fetch2, mar := c.pc), m), s1, Finished(p, s1.core, s1.bench, i), latency, t, u, n);
  }

  /** The same, for whatever is known of the state in which the instruction ends. */
  lemma InstructionEnds(p: Parts, ends: System -> bool, c: Core, m: RvMem, latency: nat -> nat, t: nat, w: Word, i: Instr, u: nat, n: nat)
      returns (s2: System)
    requires Laws(p) && AtRest(m) && w == p.load(m.mem, c.pc) && p.decode(w) == Some(i)
    requires u == DecodeAt(latency, t) && n == ExecuteCycles(i, latency, u + 1)
    requires ends(Finished(p, Holding(c, w, p.first(i)), m.(rdata := w), i))
    ensures ends(s2)
    ensures Clock.Leg(p.step, Away, System(c.(state := Fetch2, mar := c.pc), m), latency, t, latency(t) + 4 + n, s2)
  {
    s2 := Finished(p, Holding(c, w, p.first(i)), m.(rdata := w), i);
    InstructionLeg(p, c, m, latency, t, w, i, u, n);
  }

  /** From a boundary: the first edge, and then away until the instruction ends. */
  lemma BoundaryLeg(p: Parts, s: System, s1: System, s2: System, latency: nat -> nat, t: nat, n: nat)
    requires QuietLaw(p) && CoreLaw(p) && s.core.state == Fetch1 && AtRest(s.bench)
    requires s1 == System(s.core.(state := Fetch2, mar := s.core.pc), s.bench)
    requires Clock.Leg(p.step, Away, s1, latency, t + 1, n, s2)
    ensures Clock.Iterate(p.step, s, latency, t, n + 1) == s2
    ensures forall k: nat | 0 < k <= n :: Away(Clock.Iterate(p.step, s, latency, t, k))
  {
    assert Look(s, latency(t));
    assert Rested(s.bench) == s.bench;
    assert p.step(s, latency(t)) == s1;
    Clock.FirstEdge(p.step, Away, s, s1, s2, latency, t, n);
  }

  /** Fetching takes the latency of the fetch plus four cycles. */
  function FetchCycles(latency: nat -> nat, t: nat): nat { latency(t + 1) + 4 }

  /** The clock cycles from one instruction boundary to the next: fetch, decode, execute. */
  function Cycles(i: Instr, latency: nat -> nat, t: nat): nat {
    FetchCycles(latency, t) + 1 + ExecuteCycles(i, latency, t + FetchCycles(latency, t) + 1)
  }

  lemma CyclesAre(i: Instr, latency: nat -> nat, t: nat) returns (u: nat, n: nat, m: nat)
    ensures u == DecodeAt(latency, t + 1) && n == ExecuteCycles(i, latency, u + 1) && m == latency(t + 1) + 4 + n
    ensures Cycles(i, latency, t) == m + 1
  {
    u := DecodeAt(latency, t + 1);
    n := ExecuteCycles(i, latency, u + 1);
    m := latency(t + 1) + 4 + n;
  }

  lemma RunsOn(p: Parts, ends: System -> bool, s: System, s1: System, latency: nat -> nat, t: nat, w: Word, i: Instr, u: nat, n: nat, m: nat)
    requires Laws(p) && s.core.state == Fetch1 && AtRest(s.bench)
    requires s1 == System(s.core.(state := Fetch2, mar := s.core.pc), s.bench)
    requires w == p.load(s.bench.mem, s.core.pc) && p.decode(w) == Some(i)
    requires ends(Finished(p, Holding(s.core, w, p.first(i)), s.bench.(rdata := w), i))
    requires u == DecodeAt(latency, t + 1) && n == ExecuteCycles(i, latency, u + 1) && m == latency(t + 1) + 4 + n
    ensures ends(Clock.Iterate(p.step, s, latency, t, m + 1))
    ensures forall k: nat | 0 < k <= m :: Away(Clock.Iterate(p.step, s, latency, t, k))
  {
    var s2 := InstructionEnds(p, ends, s.core, s.bench, latency, t + 1, w, i, u, n);
    BoundaryLeg(p, s, s1, s2, latency, t, m);
  }

  /** From one boundary to the next: how long it takes, what holds at the end, and no boundary before. */
  lemma RunsToEnd(p: Parts, ends: System -> bool, s: System, latency: nat -> nat, t: nat, w: Word, i: Instr, c: nat)
    requires Laws(p) && s.core.state == Fetch1 && AtRest(s.bench)
    requires w == p.load(s.bench.mem, s.core.pc) && p.decode(w) == Some(i)
    requires ends(Finished(p, Holding(s.core, w, p.first(i)), s.bench.(rdata := w), i)) && c == Cycles(i, latency, t)
    ensures ends(Clock.Iterate(p.step, s, latency, t, c))
    ensures forall k: nat | 0 < k < c :: Away(Clock.Iterate(p.step, s, latency, t, k))
  {
    var u, n, m := CyclesAre(i, latency, t);
    RunsOn(p, ends, s, System(s.core.(state := Fetch2, mar := s.core.pc), s.bench), latency, t, w, i, u, n, m);
  }

  /** From the first edge of a fetch whose word the decode state rejects back to a boundary. */
  lemma RefetchLeg(p: Parts, c: Core, m: RvMem, latency: nat -> nat, t: nat, w: Word, u: nat)
    requires QuietLaw(p) && ReadLaw(p) && CoreLaw(p) && AtRest(m) && w == p.load(m.mem, c.pc) && u == DecodeAt(latency, t)
    requires p.edge(Holding(c, w, DecodeSt)) == Holding(c, w, Fetch1)
    ensures Clock.Leg(p.step, Away, System(c.(state := Fetch2, mar := c.pc), m), latency, t, latency(t) + 4,
                      System(Holding(c, w, Fetch1), m.(rdata := w)))
  {
    var s, s1 := System(c.(state := Fetch2, mar := c.pc), m), System(Holding(c, w, DecodeSt), m.(rdata := w));
    FetchLeg(p, c, m, latency, t, w);
    QuietLeg(p, s1.core, s1.bench, Holding(c, w, Fetch1), latency, u);
    assert Rested(m.(rdata := w)) == m.(rdata := w);
    Clock.JoinLegs(p.step, Away, s, s1, System(Holding(c, w, Fetch1), m.(rdata := w)), latency, t, latency(t) + 3,
                   u, 1, latency(t) + 4);
  }

  lemma Refetch(p: Parts, s: System, s1: System, s2: System, latency: nat -> nat, t: nat, w: Word, u: nat, m: nat)
    requires QuietLaw(p) && ReadLaw(p) && CoreLaw(p)
    requires s.core.state == Fetch1 && AtRest(s.bench) && w == p.load(s.bench.mem, s.core.pc)
    requires p.edge(Holding(s.core, w, DecodeSt)) == Holding(s.core, w, Fetch1)
    requires u == DecodeAt(latency, t + 1) && m == latency(t + 1) + 4
    requires s1 == System(s.core.(state := Fetch2, mar := s.core.pc), s.bench)
    requires s2 == System(Holding(s.core, w, Fetch1), s.bench.(rdata := w))
    ensures Clock.Iterate(p.step, s, latency, t, m + 1) == s2
  {
    RefetchLeg(p, s.core, s.bench, latency, t + 1, w, u);
    BoundaryLeg(p, s, s1, s2, latency, t, m);
  }
}

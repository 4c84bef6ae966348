/**
 * Whole instructions and whole programs on the clocked system: from one visit of the first fetch state to
 * the next the processor performs one step of the instruction set, in an exactly known number of cycles.
 */
module RvRun {
  import opened RvIsa
  import opened RvCore
  import opened MemoryBus
  import opened RvBench
  import opened RvRefine
  import opened RvLegs
  import opened RvLaws
  import Clock
  import RvMeaning
  import RvFormats

  // ------------------------------------------------------------ instruction boundaries

  /** The controller is about to fetch and the bench is at rest with both strobes seen low. */
  predicate Boundary(s: System) { s.core.state == Fetch1 && AtRest(s.bench) }

  function Abs(s: System): Arch { Arch(s.core.pc, s.core.regs, s.bench.mem) }

  /** A boundary satisfies the bus invariant, so everything proved of runs holds from here on. */
  lemma BoundaryIsSafe(s: System)
    requires Boundary(s)
    ensures BusInv(s)
  {
  }

  /** Where an instruction ends up: at a boundary whose architectural state is a. */
  predicate Arrives(s: System, a: Arch) { Boundary(s) && Abs(s) == a }

  // ------------------------------------------------------------ what an instruction leaves

  lemma MemoryApart(u: Units, w: Wires, a: Arch, b: Arch, i: Instr)
    requires !IsMemory(i) && a.pc == b.pc && a.regs == b.regs && Carries(w, a.regs, i) && UnitsFit(u, a.pc, w, i)
    ensures Machine(a, i).mem == a.mem && Machine(a, i).pc == Machine(b, i).pc && Machine(a, i).regs == Machine(b, i).regs
  {
    ValueOf(u, w, a, i);
    ValueOf(u, w, b, i);
  }

  lemma ExecutedArrives(c: Core, m: RvMem, i: Instr, b: Arch)
    requires AtRest(m) && !IsMemory(i) && Decode(c.ir) == Some(i) && b == Machine(Arch(c.pc, c.regs, m.mem), i)
    ensures Arrives(System(Executed(c, i), m), b)
  {
    DecodeCarries(c, i);
    UnitsFitAll(c.pc, WiresOf(c), i);
    MemoryApart(UNITS, WiresOf(c), Arch(c.pc, c.regs, m.mem), Registers(c), i);
  }

  lemma LoadedArrives(c: Core, m: RvMem, i: Instr, a: Word, w: Word, b: Arch)
    requires AtRest(m) && i.Load? && a == AddressOf(c, i) && AlignedLoad(i.ld, a) && w == WordAround(m.mem, a)
    requires b == Execute(Arch(c.pc, c.regs, m.mem), i)
    ensures Arrives(System(Loaded(c.(state := Ldr2, mar := a, mdr := w), i), m.(rdata := w)), b)
  {
    LoadMuxLoads(i.ld, m.mem, a);
  }

  lemma StorePort(c: Core, op: StoreOp)
    requires c.state == Str1 && Funct3Of(c.ir) == StoreCode(op)
    ensures PortOf(c) == Port(false, true, c.mar, StoreLanes(c.dataOut, LaneIndex(c.mar)), StoreEnable(StoreCode(op), LaneIndex(c.mar)))
  {
  }

  lemma PortStores(mem: Memory, c: Core, op: StoreOp)
    requires c.state == Str1 && Funct3Of(c.ir) == StoreCode(op) && AlignedStore(op, c.mar)
    ensures StoreAt(mem, PortOf(c)) == StoreResult(op, mem, c.mar, c.dataOut)
  {
    StorePort(c, op);
    StoreThroughStores(op, mem, c.mar, c.dataOut);
  }

  lemma StoredArrives(c: Core, m: RvMem, i: Instr, c1: Core, b: Arch)
    requires AtRest(m) && i.Store? && Decode(c.ir) == Some(i) && AlignedStore(i.st, AddressOf(c, i))
    requires c1 == c.(state := Str1, mar := AddressOf(c, i), dataOut := OperandOf(c, i))
    requires b == Execute(Arch(c.pc, c.regs, m.mem), i)
    ensures Arrives(System(Advanced(c1.(state := Str2)), m.(mem := StoreAt(m.mem, PortOf(c1)))), b)
  {
    DecodedFields(c.ir, i);
    PortStores(m.mem, c1, i.st);
  }

  lemma FinishedArrives(c: Core, m: RvMem, i: Instr, b: Arch)
    requires AtRest(m) && Decode(c.ir) == Some(i) && NaturallyAligned(Arch(c.pc, c.regs, m.mem), i)
    requires b == Machine(Arch(c.pc, c.regs, m.mem), i)
    ensures Arrives(Finished(CLOCKED, c, m, i), b)
  {
    if i.Load? {
      LoadedArrives(c, m, i, AddressOf(c, i), WordAround(m.mem, AddressOf(c, i)), b);
    } else if i.Store? {
      StoredArrives(c, m, i, c.(state := Str1, mar := AddressOf(c, i), dataOut := OperandOf(c, i)), b);
    } else {
      ExecutedArrives(c, m, i, b);
    }
  }

  // ------------------------------------------------------------ one instruction

  lemma FetchIsAligned(mem: Memory, pc: Word)
    requires pc & 3 == 0
    ensures WordAround(mem, pc) == ReadWord(mem, pc)
  {
    assert AlignDown(pc) == pc;
  }

  /** The instruction at the program counter. */
  function Fetched(a: Arch): Option<Instr> { Decode(ReadWord(a.mem, a.pc)) }

  /** The states strictly between the boundary s and the n-th clock after it are no first fetch states. */
  ghost predicate NoBoundaryInside(s: System, latency: nat -> nat, t: nat, n: nat) {
    forall k: nat | 0 < k < n :: Run(s, latency, t, k).core.state != Fetch1
  }

  lemma HoldingArrives(s: System, i: Instr, w: Word, b: Arch)
    requires Boundary(s) && Decode(w) == Some(i) && NaturallyAligned(Abs(s), i) && b == Machine(Abs(s), i)
    ensures Arrives(Finished(CLOCKED, Holding(s.core, w, ExecState(i)), s.bench.(rdata := w), i), b)
  {
    FinishedArrives(Holding(s.core, w, ExecState(i)), s.bench.(rdata := w), i, b);
  }

  /**
   * From one boundary to the next the clocked system performs one machine step: the first fetch state is
   * entered again after exactly Cycles cycles and not before.
   */
  lemma OneInstruction(s: System, latency: nat -> nat, t: nat, i: Instr)
    requires Boundary(s) && s.core.pc & 3 == 0 && Fetched(Abs(s)) == Some(i) && NaturallyAligned(Abs(s), i)
    ensures Arrives(Run(s, latency, t, Cycles(i, latency, t)), Machine(Abs(s), i))
    ensures NoBoundaryInside(s, latency, t, Cycles(i, latency, t))
  {
    var w := WordAround(s.bench.mem, s.core.pc);
    FetchIsAligned(s.bench.mem, s.core.pc);
    LawsHold();
    HoldingArrives(s, i, w, Machine(Abs(s), i));
    RunsToEnd(CLOCKED, x => Arrives(x, Machine(Abs(s), i)), s, latency, t, w, i, Cycles(i, latency, t));
  }

  // ------------------------------------------------------------ programs

  /** A state in which the standard defines the next step and the processor is right about it. */
  predicate Steppable(a: Arch) {
    a.pc & 3 == 0 && Fetched(a).Some? && NaturallyAligned(a, Fetched(a).value) && Conforms(a, Fetched(a).value)
  }

  /** One instruction of the standard. */
  function IsaStep(a: Arch): Arch { if Steppable(a) then Execute(a, Fetched(a).value) else a }

  function StepCycles(a: Arch, latency: nat -> nat, t: nat): nat {
    if Steppable(a) then Cycles(Fetched(a).value, latency, t) else 0
  }

  lemma StandardInstruction(s: System, a: Arch, latency: nat -> nat, t: nat)
    requires Arrives(s, a) && Steppable(a)
    ensures Arrives(Run(s, latency, t, StepCycles(a, latency, t)), IsaStep(a))
    ensures StepCycles(a, latency, t) > 0 && NoBoundaryInside(s, latency, t, StepCycles(a, latency, t))
  {
    OneInstruction(s, latency, t, Fetched(a).value);
    ConformsExactly(a, Fetched(a).value);
  }

  function Pace(latency: nat -> nat): (Arch, nat) -> nat { (b: Arch, u: nat) => StepCycles(b, latency, u) }

  /** The clocks the first n instructions from a take, when the first starts at clock t. */
  function ProgramCycles(a: Arch, latency: nat -> nat, t: nat, n: nat): nat { Clock.Cost(IsaStep, Pace(latency), a, t, n) }

  predicate AtFetch1(s: System) { s.core.state == Fetch1 }

  lemma ProgramStrides(latency: nat -> nat)
    ensures Clock.Strides(Step, Arrives, AtFetch1, Steppable, IsaStep, Pace(latency), latency)
  {
    forall x: System, b: Arch, u: nat | Arrives(x, b) && Steppable(b)
      ensures Pace(latency)(b, u) > 0 && Arrives(Clock.Iterate(Step, x, latency, u, Pace(latency)(b, u)), IsaStep(b))
    {
      StandardInstruction(x, b, latency, u);
    }
    forall x: System, b: Arch, u: nat, k: nat | Arrives(x, b) && Steppable(b) && 0 < k < Pace(latency)(b, u)
      ensures !AtFetch1(Clock.Iterate(Step, x, latency, u, k))
    {
      StandardInstruction(x, b, latency, u);
      assert Run(x, latency, u, k).core.state != Fetch1;
    }
  }

  /**
   * For every program, every number of instructions and all memory latencies, the clocked system comes to a
   * boundary at which pc, registers and memory are those of the instruction set.
   */
  lemma ProgramRefines(s: System, a: Arch, latency: nat -> nat, t: nat, n: nat)
    requires Arrives(s, a) && Clock.Allowed(Steppable, IsaStep, a, n)
    ensures Arrives(Run(s, latency, t, ProgramCycles(a, latency, t, n)), Clock.After(IsaStep, a, n))
  {
    ProgramStrides(latency);
    Clock.SimulatesRuns(Step, Arrives, Steppable, IsaStep, Pace(latency), s, a, latency, t, n);
  }

  /**
   * And the first fetch state is visited at no other clock: the c-th state of the run is a first fetch state
   * exactly when c is the clock at which some k-th instruction has ended, and then it shows the k-th state of
   * the instruction set. The clocks grow with k, so the visits are the states of the program in order.
   */
  lemma VisitsAreInstructions(s: System, a: Arch, latency: nat -> nat, t: nat, n: nat, c: nat)
    requires Arrives(s, a) && Clock.Allowed(Steppable, IsaStep, a, n) && c <= ProgramCycles(a, latency, t, n)
    ensures Run(s, latency, t, c).core.state == Fetch1 <==> exists k: nat :: k <= n && c == ProgramCycles(a, latency, t, k)
    ensures forall k: nat | k <= n && c == ProgramCycles(a, latency, t, k) ::
              Arrives(Run(s, latency, t, c), Clock.After(IsaStep, a, k))
  {
    forall k: nat | k <= n && c == ProgramCycles(a, latency, t, k)
      ensures Arrives(Run(s, latency, t, c), Clock.After(IsaStep, a, k))
    {
      Clock.AllowedPrefix(Steppable, IsaStep, a, n, k);
      ProgramRefines(s, a, latency, t, k);
    }
    if Run(s, latency, t, c).core.state == Fetch1 {
      ProgramStrides(latency);
      var k := Clock.VisitsAreSteps(Step, Arrives, AtFetch1, Steppable, IsaStep, Pace(latency), s, a, latency, t, n, c);
      assert c == ProgramCycles(a, latency, t, k);
    }
  }

  lemma VisitsInOrder(s: System, a: Arch, latency: nat -> nat, t: nat, n: nat, j: nat, k: nat)
    requires Arrives(s, a) && Clock.Allowed(Steppable, IsaStep, a, n) && j < k <= n
    ensures ProgramCycles(a, latency, t, j) < ProgramCycles(a, latency, t, k)
    ensures Arrives(Run(s, latency, t, ProgramCycles(a, latency, t, k)), Clock.After(IsaStep, a, k))
  {
    ProgramStrides(latency);
    Clock.AllowedPrefix(Steppable, IsaStep, a, n, k);
    Clock.CostGrows(Step, Arrives, AtFetch1, Steppable, IsaStep, Pace(latency), s, a, latency, t, j, k);
    ProgramRefines(s, a, latency, t, k);
  }

  /** Instruction i, at the program counter of x, takes x to y: its format in the fetched bytes and its meaning, in numbers. */
  ghost predicate Performs(x: Arch, i: Instr, y: Arch) {
    RvMeaning.NumberAt(x.mem, x.pc, 4) == RvFormats.Format(i) && RvMeaning.Means(x, i, y)
  }

  lemma IsaStepPerforms(a: Arch)
    requires Steppable(a)
    ensures Performs(a, Fetched(a).value, IsaStep(a))
  {
    RvMeaning.FetchMeans(a.mem, a.pc);
    RvFormats.DecodeValue(ReadWord(a.mem, a.pc), Fetched(a).value);
    RvMeaning.ExecuteMeans(a, Fetched(a).value);
  }

  /**
   * So every two successive visits of the first fetch state are related by an instruction as the standard describes
   * it in numbers, without any operation the processor is built from.
   */
  lemma ProgramMeans(s: System, a: Arch, latency: nat -> nat, t: nat, n: nat, k: nat) returns (i: Instr)
    requires Arrives(s, a) && Clock.Allowed(Steppable, IsaStep, a, n) && k < n
    ensures Performs(Abs(Run(s, latency, t, ProgramCycles(a, latency, t, k))), i,
                     Abs(Run(s, latency, t, ProgramCycles(a, latency, t, k + 1))))
  {
    Clock.StepOfRun(Steppable, IsaStep, a, n, k);
    Clock.AllowedPrefix(Steppable, IsaStep, a, n, k);
    Clock.AllowedPrefix(Steppable, IsaStep, a, n, k + 1);
    ProgramRefines(s, a, latency, t, k);
    ProgramRefines(s, a, latency, t, k + 1);
    i := Fetched(Clock.After(IsaStep, a, k)).value;
    IsaStepPerforms(Clock.After(IsaStep, a, k));
  }

  // ------------------------------------------------------------ words outside the instruction set

  predicate KnownOpcode(op: bv7) {
    op == OP_LUI || op == OP_AUIPC || op == OP_JAL || op == OP_JALR || op == OP_BR || op == OP_LOAD || op == OP_STORE ||
    op == OP_IMM || op == OP_REG
  }

  /** The word at the program counter has an opcode the controller does not dispatch on. */
  predicate Unknown(a: Arch) { !KnownOpcode(OpcodeOf(WordAround(a.mem, a.pc))) }

  lemma UnknownDispatch(op: bv7, f3: bv3, f7: bv7)
    requires !KnownOpcode(op)
    ensures Dispatch(op, f3, f7) == Fetch1
  {
  }

  lemma UnknownEdge(c: Core)
    requires c.state == DecodeSt && !KnownOpcode(OpcodeOf(c.ir))
    ensures Edge(c) == c.(state := Fetch1)
  {
    UnknownDispatch(OpcodeOf(c.ir), Funct3Of(c.ir), Funct7Of(c.ir));
    LatchDecode(UNITS, c, WiresOf(c), false, 0);
  }

  /** The clocks of one futile fetch that starts at clock t. */
  function LapCycles(latency: nat -> nat, t: nat): nat { FetchCycles(latency, t) + 1 }

  lemma UnknownAt(s: System, w: Word) returns (p: Parts)
    requires w == WordAround(s.bench.mem, s.core.pc) && !KnownOpcode(OpcodeOf(w))
    ensures p.step == Step && QuietLaw(p) && ReadLaw(p) && CoreLaw(p) && w == p.load(s.bench.mem, s.core.pc)
    ensures p.edge(Holding(s.core, w, DecodeSt)) == Holding(s.core, w, Fetch1)
  {
    p := CLOCKED;
    QuietLawHolds();
    ReadLawHolds();
    CoreLawHolds();
    UnknownEdge(Holding(s.core, w, DecodeSt));
  }

  lemma UnknownLap(s: System, latency: nat -> nat, t: nat, w: Word, s2: System)
    requires Boundary(s) && w == WordAround(s.bench.mem, s.core.pc) && !KnownOpcode(OpcodeOf(w))
    requires s2 == System(Holding(s.core, w, Fetch1), s.bench.(rdata := w))
    ensures Run(s, latency, t, LapCycles(latency, t)) == s2
  {
    var p := UnknownAt(s, w);
    Refetch(p, s, System(s.core.(state := Fetch2, mar := s.core.pc), s.bench), s2, latency, t, w, DecodeAt(latency, t + 1),
            FetchCycles(latency, t));
  }

  function Same(a: Arch): Arch { a }

  function Laps(latency: nat -> nat): (Arch, nat) -> nat { (b: Arch, u: nat) => LapCycles(latency, u) }

  lemma {:induction false} SameAfter(a: Arch, n: nat)
    requires Unknown(a)
    ensures Clock.After(Same, a, n) == a && Clock.Allowed(Unknown, Same, a, n)
  {
    if n > 0 {
      SameAfter(a, n - 1);
    }
  }

  /**
   * On an opcode it does not know (FENCE, SYSTEM and the rest) the processor refetches it for ever: after any
   * number of laps it is back at the same boundary.
   */
  lemma UnknownRefetches(s: System, a: Arch, latency: nat -> nat, t: nat, n: nat)
    requires Arrives(s, a) && Unknown(a)
    ensures Arrives(Run(s, latency, t, Clock.Cost(Same, Laps(latency), a, t, n)), a)
  {
    forall x: System, b: Arch, u: nat | Arrives(x, b) && Unknown(b)
      ensures Arrives(Clock.Iterate(Step, x, latency, u, Laps(latency)(b, u)), Same(b))
    {
      var w := WordAround(x.bench.mem, x.core.pc);
      UnknownLap(x, latency, u, w, System(Holding(x.core, w, Fetch1), x.bench.(rdata := w)));
    }
    SameAfter(a, n);
    Clock.SimulatesRuns(Step, Arrives, Unknown, Same, Laps(latency), s, a, latency, t, n);
  }
}

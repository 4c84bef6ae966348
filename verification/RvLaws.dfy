/**
 * The processor and its bench obey the laws under which RvLegs orders the events of an instruction: what every
 * edge of the clocked system does, and what the executing edges leave in the core.
 */
module RvLaws {
  import opened RvIsa
  import opened RvCore
  import opened MemoryBus
  import opened RvBench
  import opened RvRefine
  import opened RvLegs

  /** The core's edge when no answer is pending. */
  function Edge(c: Core): Core { CoreStep(c, false, 0) }

  function StoreAt(mem: Memory, q: RvPort): Memory { ACCESS.store(mem, q.addr, q.wdata, q.byteEnable) }

  /** The architectural state the core holds by itself; its memory is elsewhere. */
  function Registers(c: Core): Arch { Arch(c.pc, c.regs, map[]) }

  function Executed(c: Core, i: Instr): Core {
    var b := Machine(Registers(c), i);
    c.(state := Fetch1, pc := b.pc, regs := b.regs)
  }

  function AddressOf(c: Core, i: Instr): Word { if IsMemory(i) then DataAddress(Registers(c), i) else 0 }

  function OperandOf(c: Core, i: Instr): Word { if i.Store? then RegRead(c.regs, i.rs2) else 0 }

  function Loaded(c: Core, i: Instr): Core {
    if i.Load? then c.(state := Fetch1, pc := NextPc(c.pc), regs := RegWrite(c.regs, i.rd, LoadMux(i.ld, c.mdr, Lsb(c))))
    else c
  }

  function Advanced(c: Core): Core { c.(state := Fetch1, pc := NextPc(c.pc)) }

  const CLOCKED :=
    Parts(Step, Edge, WordAround, PortOf, StoreAt, Decode, ExecState, Executed, AddressOf, OperandOf, Loaded, Advanced)

  // ------------------------------------------------------------ edges of the system

  /** An edge without a request leaves the bench as it is, except that it has now seen low strobes. */
  lemma QuietEdge(s: System, delay: nat)
    requires Quiet(s.bench) && !Requesting(s.core.state)
    ensures Step(s, delay) == System(Edge(s.core), Rested(s.bench))
  {
    PortByState(s.core);
    QuietStep(ACCESS, s.bench, PortOf(s.core), delay);
    DataIgnored(UNITS, s.core, WiresOf(s.core), false, s.bench.rdata, 0);
  }

  lemma QuietLawHolds()
    ensures QuietLaw(CLOCKED)
  {
    forall s: System, d: nat | Quiet(s.bench) && !Requesting(s.core.state)
      ensures CLOCKED.step(s, d) == System(CLOCKED.edge(s.core), Rested(s.bench))
    {
      QuietEdge(s, d);
    }
  }

  lemma ReadEvent(m: RvMem, q: RvPort, w: Word, d: nat)
    requires Sound(m) && q.read && !q.write && w == ACCESS.load(m.mem, q.addr)
    requires m.phase.Idle? ==> !m.prevRead
    requires m.phase.Reading? ==> m.phase.raddr == q.addr && m.phase.left > 0
    requires !m.phase.Writing?
    ensures BenchStep(ACCESS, m, q, d) == ReadBench(m, q.addr, w, d)
  {
    ReadEvents(ACCESS, m, q, d);
  }

  lemma ReadCore(c: Core, resp: bool, rdata: Word)
    requires Reads(c.state)
    ensures CoreStep(c, resp, rdata) == c.(state := if resp then AfterRead(c.state) else c.state, mdr := rdata)
  {
    RequestLatch(UNITS, c, WiresOf(c), resp, rdata);
  }

  lemma ReadStep(s: System, d: nat)
    requires ReadReady(s)
    ensures Step(s, d) == ReadEdge(CLOCKED, s, d)
  {
    PortByState(s.core);
    ReadCore(s.core, s.bench.resp, s.bench.rdata);
    ReadEvent(s.bench, PortOf(s.core), ACCESS.load(s.bench.mem, s.core.mar), d);
  }

  lemma ReadLawHolds()
    ensures ReadLaw(CLOCKED)
  {
    forall s: System, d: nat | ReadReady(s)
      ensures CLOCKED.step(s, d) == ReadEdge(CLOCKED, s, d)
    {
      ReadStep(s, d);
    }
  }

  lemma WriteEvent(m: RvMem, q: RvPort, mem: Memory, d: nat)
    requires Sound(m) && q.write && !q.read && mem == StoreAt(m.mem, q)
    requires m.phase.Idle? ==> !m.prevWrite
    requires m.phase.Writing? ==> m.phase.waddr == q.addr && m.phase.wbuffer == q.wdata && m.phase.left > 0
    requires !m.phase.Reading?
    ensures BenchStep(ACCESS, m, q, d) == WriteBench(m, q, mem, d)
  {
    WriteEvents(ACCESS, m, q, d);
  }

  lemma WriteCore(c: Core, resp: bool, rdata: Word)
    requires c.state == Str1
    ensures CoreStep(c, resp, rdata) == c.(state := if resp then Str2 else Str1)
  {
    RequestLatch(UNITS, c, WiresOf(c), resp, rdata);
  }

  lemma WriteStep(s: System, d: nat)
    requires WriteReady(CLOCKED, s)
    ensures Step(s, d) == WriteEdge(CLOCKED, s, d)
  {
    PortByState(s.core);
    WriteCore(s.core, s.bench.resp, s.bench.rdata);
    WriteEvent(s.bench, PortOf(s.core), StoreAt(s.bench.mem, PortOf(s.core)), d);
  }

  lemma WriteLawHolds()
    ensures WriteLaw(CLOCKED)
  {
    forall s: System, d: nat | WriteReady(CLOCKED, s)
      ensures CLOCKED.step(s, d) == WriteEdge(CLOCKED, s, d)
    {
      WriteStep(s, d);
    }
    forall c: Core | c.state == Str1
      ensures CLOCKED.port(c.(state := Str1)) == CLOCKED.port(c)
    {
      assert c.(state := Str1) == c;
    }
  }

  // ------------------------------------------------------------ edges of the core

  lemma DecodeCarries(c: Core, i: Instr)
    requires Decode(c.ir) == Some(i)
    ensures Carries(WiresOf(c), c.regs, i) && FieldsAre(c.ir, i)
  {
    DecodedFields(c.ir, i);
    FieldsCarry(c, i);
  }

  /** The decode state selects the first state of the decoded instruction. */
  lemma DecodeEdge(c: Core, i: Instr)
    requires c.state == DecodeSt && Decode(c.ir) == Some(i)
    ensures Edge(c) == c.(state := ExecState(i))
  {
    DecodeCarries(c, i);
    Dispatched(WiresOf(c), c.regs, i);
    LatchDecode(UNITS, c, WiresOf(c), false, 0);
  }

  lemma FirstStates(i: Instr)
    ensures ExecState(i) != Fetch1 && !Requesting(ExecState(i))
    ensures i.Load? ==> ExecState(i) == LwCalcAddr
    ensures i.Store? ==> ExecState(i) == SwCalcAddr
  {
  }

  lemma CoreLawHolds()
    ensures CoreLaw(CLOCKED)
  {
    forall c: Core | c.state == Fetch1
      ensures CLOCKED.edge(c) == c.(state := Fetch2, mar := c.pc)
    {
      LatchFetch1(UNITS, c, WiresOf(c), false, 0);
    }
    forall c: Core | c.state == Fetch3
      ensures CLOCKED.edge(c) == c.(state := DecodeSt, ir := c.mdr)
    {
      LatchFetch3(UNITS, c, WiresOf(c), false, 0);
    }
    forall c: Core | c.state == DecodeSt && CLOCKED.decode(c.ir).Some?
      ensures CLOCKED.edge(c) == c.(state := CLOCKED.first(CLOCKED.decode(c.ir).value))
    {
      DecodeEdge(c, Decode(c.ir).value);
    }
    forall i: Instr
      ensures CLOCKED.first(i) != Fetch1 && !Requesting(CLOCKED.first(i))
      ensures i.Load? ==> CLOCKED.first(i) == LwCalcAddr
      ensures i.Store? ==> CLOCKED.first(i) == SwCalcAddr
    {
      FirstStates(i);
    }
  }

  /** The executing edge performs the instruction on pc and registers. */
  lemma ExecuteEdge(c: Core, i: Instr)
    requires Decode(c.ir) == Some(i) && c.state == ExecState(i) && !IsMemory(i)
    ensures Edge(c) == Executed(c, i)
  {
    DecodeCarries(c, i);
    RetireEdge(UNITS, c, WiresOf(c), false, 0, i);
    UnitsFitAll(c.pc, WiresOf(c), i);
    ValueOf(UNITS, WiresOf(c), Registers(c), i);
  }

  lemma LoadAddress(w: Wires, s: Arch, i: Instr)
    requires i.Load? && Carries(w, s.regs, i)
    ensures UNITS.alu(AluAdd, w.rs1, w.iImm) == DataAddress(s, i)
  {
    AluAdds(w.rs1, w.iImm);
  }

  lemma LoadAddressEdge(c: Core, i: Instr)
    requires Decode(c.ir) == Some(i) && c.state == LwCalcAddr && i.Load?
    ensures Edge(c) == c.(state := Ldr1, mar := AddressOf(c, i))
  {
    DecodeCarries(c, i);
    LoadAddress(WiresOf(c), Registers(c), i);
    LatchLwCalc(UNITS, c, WiresOf(c), false, 0);
  }

  lemma LoadFinishEdge(c: Core, i: Instr)
    requires Decode(c.ir) == Some(i) && c.state == Ldr2 && i.Load?
    ensures Edge(c) == Loaded(c, i)
  {
    DecodedFields(c.ir, i);
    LaneSelected(i.ld, c.mdr, Lsb(c));
    LatchLdr2(UNITS, c, WiresOf(c), false, 0, LoadMuxOf(LoadCode(i.ld)).value);
  }

  lemma StoreAddress(w: Wires, s: Arch, i: Instr)
    requires i.Store? && Carries(w, s.regs, i)
    ensures UNITS.alu(AluAdd, w.rs1, w.sImm) == DataAddress(s, i) && w.rs2 == RegRead(s.regs, i.rs2)
  {
    AluAdds(w.rs1, w.sImm);
  }

  lemma StoreAddressEdge(c: Core, i: Instr)
    requires Decode(c.ir) == Some(i) && c.state == SwCalcAddr && i.Store?
    ensures Edge(c) == c.(state := Str1, mar := AddressOf(c, i), dataOut := OperandOf(c, i))
  {
    DecodeCarries(c, i);
    StoreAddress(WiresOf(c), Registers(c), i);
    LatchSwCalc(UNITS, c, WiresOf(c), false, 0);
  }

  lemma FinishLawHolds()
    ensures FinishLaw(CLOCKED)
  {
    forall c: Core, i: Instr | Decode(c.ir) == Some(i) && c.state == ExecState(i) && !IsMemory(i)
      ensures CLOCKED.edge(c) == CLOCKED.execute(c, i)
    {
      ExecuteEdge(c, i);
    }
    forall c: Core, i: Instr | Decode(c.ir) == Some(i) && c.state == LwCalcAddr && i.Load?
      ensures CLOCKED.edge(c) == c.(state := Ldr1, mar := CLOCKED.address(c, i))
    {
      LoadAddressEdge(c, i);
    }
    forall c: Core, i: Instr | Decode(c.ir) == Some(i) && c.state == Ldr2 && i.Load?
      ensures CLOCKED.edge(c) == CLOCKED.loaded(c, i)
    {
      LoadFinishEdge(c, i);
    }
    forall c: Core, i: Instr | Decode(c.ir) == Some(i) && c.state == SwCalcAddr && i.Store?
      ensures CLOCKED.edge(c) == c.(state := Str1, mar := CLOCKED.address(c, i), dataOut := CLOCKED.operand(c, i))
    {
      StoreAddressEdge(c, i);
    }
    forall c: Core | c.state == Str2
      ensures CLOCKED.edge(c) == CLOCKED.advance(c)
    {
      LatchStr2(UNITS, c, WiresOf(c), false, 0);
    }
  }

  /** The design obeys all the laws. */
  lemma LawsHold()
    ensures Laws(CLOCKED)
  {
    QuietLawHolds();
    ReadLawHolds();
    WriteLawHolds();
    CoreLawHolds();
    FinishLawHolds();
  }
}

/** The design as clocked state: every register of processor and bench is a field, updated at each edge. */
module RvSoc {
  import opened RvIsa
  import opened RvCore
  import opened MemoryBus
  import opened RvBench
  import opened RvRun
  import Clock

  /** What an event makes of a bench that is serving the read on port p. */
  predicate ReadGoesOn(m: RvMem, p: RvPort, n: RvMem) {
    && !n.error && n.mem == m.mem
    && (n.resp ==> n.rdata == WordAround(m.mem, p.addr))
    && if m.resp then Quiet(n) else ReadInv(ACCESS, n, p)
  }

  /** The same for a write: the memory changes at the event that raises the response, and by the enabled bytes. */
  predicate WriteGoesOn(m: RvMem, p: RvPort, n: RvMem) {
    && !n.error && n.mem == (if n.resp then WriteBytes(m.mem, p.addr, p.wdata, p.byteEnable) else m.mem)
    && if m.resp then Quiet(n) else WriteInv(ACCESS, n, p)
  }

  lemma EventGoesOn(m: RvMem, p: RvPort, delay: nat)
    requires p.read != p.write
    ensures p.read && ReadInv(ACCESS, m, p) ==> ReadGoesOn(m, p, BenchStep(ACCESS, m, p, delay))
    ensures p.write && WriteInv(ACCESS, m, p) ==> WriteGoesOn(m, p, BenchStep(ACCESS, m, p, delay))
  {
    if p.read && ReadInv(ACCESS, m, p) {
      ReadInvStep(ACCESS, m, p, delay);
    }
    if p.write && WriteInv(ACCESS, m, p) {
      AccessIdempotent();
      WriteInvStep(ACCESS, m, p, delay);
    }
  }

  /** What an edge makes of a core with a request on its port: held until the response, withdrawn with it. */
  predicate RequestGoesOn(c: Core, resp: bool, d: Core) {
    if resp then !Requesting(d.state) else d.state == c.state && PortOf(d) == PortOf(c)
  }

  lemma EdgeGoesOn(c: Core, resp: bool, rdata: Word)
    requires Requesting(c.state)
    ensures RequestGoesOn(c, resp, CoreStep(c, resp, rdata))
  {
    if resp {
      AnswerTaken(c, rdata);
    } else {
      PortHeld(c, rdata);
    }
  }

  class Soc {
    var state: State
    var pc: Word
    var ir: Word
    var mar: Word
    var mdr: Word
    var dataOut: Word
    var regs: RegFile

    var mem: Memory
    var prevRead: bool
    var prevWrite: bool
    var resp: bool
    var rdata: Word
    var error: bool
    var phase: Phase<Word, Word>

    function CoreView(): Core
      reads this
    {
      Core(state, pc, ir, mar, mdr, dataOut, regs)
    }

    function BenchView(): RvMem
      reads this
    {
      Bench(mem, prevRead, prevWrite, resp, rdata, error, phase)
    }

    function View(): System
      reads this
    {
      System(CoreView(), BenchView())
    }

    /** The reset state of the datapath, with the controller started at the first fetch state. */
    constructor (image: Memory)
      ensures Boundary(View()) && Abs(View()) == Arch(0x60, map[], image)
    {
      state, pc, ir, mar, mdr, dataOut, regs := Fetch1, 0x60, 0, 0, 0, 0, map[];
      mem, prevRead, prevWrite, resp, rdata, error, phase := image, false, false, false, 0x13, false, Idle;
    }

    /** All registers of the processor load at once. */
    method Load(d: Core)
      modifies this`state, this`pc, this`ir, this`mar, this`mdr, this`dataOut, this`regs
      ensures CoreView() == d && BenchView() == old(BenchView())
    {
      state, pc, ir, mar, mdr, dataOut, regs := d.state, d.pc, d.ir, d.mar, d.mdr, d.dataOut, d.regs;
    }

    /** The processor's edge: every register's next value is taken from the values before the edge. */
    method CoreEdge(respIn: bool, rdataIn: Word)
      modifies this`state, this`pc, this`ir, this`mar, this`mdr, this`dataOut, this`regs
      ensures CoreView() == CoreStep(old(CoreView()), respIn, rdataIn) && BenchView() == old(BenchView())
      ensures old(Requesting(state)) ==> RequestGoesOn(old(CoreView()), respIn, CoreView())
    {
      var c := CoreView();
      var w := WiresOf(c);
      var k := Signals(UNITS, state, w);
      Load(Core(NextState(state, w.opcode, w.f3, w.f7, respIn), PcReg(UNITS, c, w, k), IrReg(c, k), MarReg(UNITS, c, w, k),
                MdrReg(c, k, rdataIn), DataOutReg(c, w, k), Regs(UNITS, c, w, k)));
      if Requesting(c.state) {
        EdgeGoesOn(c, respIn, rdataIn);
      }
    }

    /** Idle, counting down, faulting or answering: what the bench does at an event apart from remembering the strobes. */
    method Respond(p: RvPort, delay: nat)
      modifies this`mem, this`resp, this`rdata, this`error, this`phase
      ensures BenchView() == Serve(ACCESS, old(BenchView()), p, delay)
    {
      match phase {
        case Idle =>
          if p.write && !prevWrite {
            if delay == 0 {
              mem, resp, phase := WriteBytes(mem, p.addr, p.wdata, p.byteEnable), true, Finishing;
            } else {
              phase := Writing(p.addr, p.wdata, delay);
            }
          } else if p.read && !prevRead {
            if delay == 0 {
              rdata, resp, phase := WordAround(mem, p.addr), true, Finishing;
            } else {
              phase := Reading(p.addr, WordAround(mem, p.addr), delay);
            }
          }
        case Reading(a, buffer, left) =>
          if ReadFault(p, a) {
            error, phase := true, Finishing;
          } else if left <= 1 {
            rdata, resp, phase := buffer, true, Finishing;
          } else {
            phase := Reading(a, buffer, left - 1);
          }
        case Writing(a, data, left) =>
          if WriteFault(p, a, data) {
            error, phase := true, Finishing;
          } else if left <= 1 {
            mem, resp, phase := WriteBytes(mem, a, data, p.byteEnable), true, Finishing;
          } else {
            phase := Writing(a, data, left - 1);
          }
        case Finishing =>
          resp, phase := false, Idle;
      }
    }

    /** The strobes of this cycle, for the edge detection of the next. */
    method Remember(p: RvPort)
      modifies this`prevRead, this`prevWrite
      ensures BenchView() == old(BenchView()).(prevRead := p.read, prevWrite := p.write) && CoreView() == old(CoreView())
    {
      prevRead, prevWrite := p.read, p.write;
    }

    /** The bench's event on the port values sampled before the edge. */
    method MemoryEvent(p: RvPort, delay: nat)
      modifies this`mem, this`prevRead, this`prevWrite, this`resp, this`rdata, this`error, this`phase
      ensures BenchView() == BenchStep(ACCESS, old(BenchView()), p, delay) && CoreView() == old(CoreView())
      ensures p.read && !p.write && old(ReadInv(ACCESS, BenchView(), p)) ==> ReadGoesOn(old(BenchView()), p, BenchView())
      ensures p.write && !p.read && old(WriteInv(ACCESS, BenchView(), p)) ==> WriteGoesOn(old(BenchView()), p, BenchView())
    {
      ghost var m := BenchView();
      Respond(p, delay);
      assert CoreView() == old(CoreView());
      Remember(p);
      if p.read != p.write {
        EventGoesOn(m, p, delay);
      }
    }

    /** One clock: the bench samples the port, the processor samples the response, and both move on. */
    method Tick(delay: nat)
      modifies this
      ensures View() == Step(old(View()), delay)
      ensures old(BusInv(View())) ==> BusInv(View())
    {
      if BusInv(View()) {
        BusInvStep(View(), delay);
      }
      var p := PortOf(CoreView());
      var r, d := resp, rdata;
      MemoryEvent(p, delay);
      CoreEdge(r, d);
    }

    /** Any number of clocks. */
    method Simulate(latency: nat -> nat, n: nat)
      modifies this
      ensures View() == Run(old(View()), latency, 0, n)
      ensures old(BusInv(View())) ==> !error
    {
      ghost var start := View();
      var t := 0;
      assert Run(start, latency, 0, 0) == start;
      while t < n
        invariant 0 <= t <= n
        invariant View() == Run(start, latency, 0, t)
      {
        Clock.IterateOneMore(Step, start, latency, t);
        Tick(latency(t));
        t := t + 1;
      }
      if BusInv(start) {
        NoProtocolError(start, latency, 0, n);
      }
    }
  }

  /**
   * From reset the design executes any program image the standard defines for n instructions: it comes to a
   * boundary with the pc, registers and memory of the standard, and no monitor has fired.
   */
  method RunProgram(image: Memory, latency: nat -> nat, n: nat) returns (soc: Soc)
    requires Clock.Allowed(Steppable, IsaStep, Arch(0x60, map[], image), n)
    ensures fresh(soc) && !soc.error
    ensures Arrives(soc.View(), Clock.After(IsaStep, Arch(0x60, map[], image), n))
  {
    soc := new Soc(image);
    BoundaryIsSafe(soc.View());
    ProgramRefines(soc.View(), Arch(0x60, map[], image), latency, 0, n);
    soc.Simulate(latency, ProgramCycles(Arch(0x60, map[], image), latency, 0, n));
  }
}

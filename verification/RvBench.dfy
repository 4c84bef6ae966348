/** The processor of RvCore clocked together with the memory bench of MemoryBus. */
module RvBench {
  import opened RvIsa
  import opened RvCore
  import opened MemoryBus
  import Clock

  function AlignDown(a: Word): Word { a & 0xfffffffc }

  /** The aligned word around an address, as the read task collects it. */
  function WordAround(mem: Memory, a: Word): Word { ReadWord(mem, AlignDown(a)) }

  function PutIf(on: bool, mem: Memory, a: Word, b: Byte): Memory { if on then SetByte(mem, a, b) else mem }

  /** A byte with its address and its enable. */
  datatype ByteLane = ByteLane(on: bool, at: Word, data: Byte)

  function PutLane(mem: Memory, l: ByteLane): Memory { PutIf(l.on, mem, l.at, l.data) }

  function PutLanes(mem: Memory, l0: ByteLane, l1: ByteLane, l2: ByteLane, l3: ByteLane): Memory {
    PutLane(PutLane(PutLane(PutLane(mem, l0), l1), l2), l3)
  }

  function PutWord(mem: Memory, a0: Word, a1: Word, a2: Word, a3: Word, data: Word, be: bv4): Memory {
    PutLanes(mem, ByteLane(be & 1 != 0, a0, ByteOf0(data)), ByteLane(be & 2 != 0, a1, ByteOf1(data)),
                  ByteLane(be & 4 != 0, a2, ByteOf2(data)), ByteLane(be & 8 != 0, a3, ByteOf3(data)))
  }

  /** The write task: only the enabled bytes of the aligned word change. */
  function WriteBytes(mem: Memory, a: Word, data: Word, be: bv4): Memory {
    PutWord(mem, AlignDown(a), AlignDown(a) + 1, AlignDown(a) + 2, AlignDown(a) + 3, data, be)
  }

  // ------------------------------------------------------------ writing the same bytes again

  /** A word write repeated changes nothing more. */
  lemma WriteTwice(mem: Memory, a: Word, data: Word, be: bv4)
    ensures WriteBytes(WriteBytes(mem, a, data, be), a, data, be) == WriteBytes(mem, a, data, be)
  {
  }

  lemma AccessIdempotent()
    ensures Idempotent(ACCESS)
  {
    forall mem: Memory, a: Word, d: Word, e: bv4
      ensures ACCESS.store(ACCESS.store(mem, a, d, e), a, d, e) == ACCESS.store(mem, a, d, e)
    {
      WriteTwice(mem, a, d, e);
    }
  }

  // ------------------------------------------------------------ processor and bench together

  type RvMem = Bench<Memory, Word, Word>

  const ACCESS: Access<Memory, Word, Word, bv4> := Access(WordAround, WriteBytes)

  datatype System = System(core: Core, bench: RvMem)

  function Step(s: System, delay: nat): System {
    System(CoreStep(s.core, s.bench.resp, s.bench.rdata), BenchStep(ACCESS, s.bench, PortOf(s.core), delay))
  }

  /** n clock edges from clock t, where latency(u) is the latency of a request noticed at clock u. */
  function Run(s: System, latency: nat -> nat, t: nat, n: nat): System { Clock.Iterate(Step, s, latency, t, n) }

  // ------------------------------------------------------------ the bus protocol

  predicate Requesting(st: State) { st == Fetch2 || st == Ldr1 || st == Str1 }

  /** The bench as it must be when the controller is in state st and drives p. */
  predicate BenchFits(st: State, p: RvPort, m: RvMem) {
    if st == Fetch2 || st == Ldr1 then ReadInv(ACCESS, m, p)
    else if st == Str1 then WriteInv(ACCESS, m, p)
    else
      && Quiet(m)
      && (m.prevRead ==> st == Fetch3 || st == Ldr2)
      && (m.prevWrite ==> st == Str2)
  }

  /**
   * The joint invariant of controller and bench. Outside the three requesting states the bench is idle and
   * a strobe was high in the previous cycle only right after a request; inside them the bench is about to
   * notice, is serving, or has just answered exactly the request on the port.
   */
  predicate BusInv(s: System) { BenchFits(s.core.state, PortOf(s.core), s.bench) }

  /** What the controller drives in each state, as far as the bus is concerned. */
  lemma OutputStrobes(z: Control, st: State, lane: Option<RegMux>, enable: bv4, brEn: bool)
    requires !z.memRead && !z.memWrite && !z.loadMdr
    ensures var k := Outputs(z, st, lane, enable, brEn);
            (k.memRead <==> st == Fetch2 || st == Ldr1) && (k.memWrite <==> st == Str1) && k.loadMdr == k.memRead
  {
    match st { case Fetch1 => case Fetch2 => case Fetch3 => case Ldr1 => case Ldr2 => case Str1 => case BrSt => case _ => }
  }

  lemma Strobes(u: Units, st: State, w: Wires)
    ensures Signals(u, st, w).memRead <==> st == Fetch2 || st == Ldr1
    ensures Signals(u, st, w).memWrite <==> st == Str1
  {
    OutputStrobes(Defaults(w.f3), st, LoadMuxOf(w.f3), StoreEnable(w.f3, w.lsb), BrEn(u, st, w));
  }

  /** Outside a read the memory's data lines are not looked at. */
  lemma DataIgnored(u: Units, c: Core, w: Wires, resp: bool, rdata: Word, other: Word)
    requires c.state != Fetch2 && c.state != Ldr1
    ensures Latch(u, c, w, resp, rdata) == Latch(u, c, w, resp, other)
  {
    OutputStrobes(Defaults(w.f3), c.state, LoadMuxOf(w.f3), StoreEnable(w.f3, w.lsb), BrEn(u, c.state, w));
  }

  lemma PortByState(c: Core)
    ensures PortOf(c).read <==> c.state == Fetch2 || c.state == Ldr1
    ensures PortOf(c).write <==> c.state == Str1
    ensures PortOf(c).addr == c.mar
  {
    Strobes(UNITS, c.state, WiresOf(c));
  }

  /** An edge in a requesting state moves the control state and, for a read, the memory data register. */
  lemma RequestLatch(u: Units, c: Core, w: Wires, resp: bool, rdata: Word)
    requires Requesting(c.state)
    ensures Latch(u, c, w, resp, rdata) ==
            c.(state := NextState(c.state, w.opcode, w.f3, w.f7, resp), mdr := if c.state == Str1 then c.mdr else rdata)
  {
  }

  /** While a request is outstanding nothing the port shows can change. */
  lemma PortHeld(c: Core, rdata: Word)
    requires Requesting(c.state)
    ensures var d := CoreStep(c, false, rdata); PortOf(d) == PortOf(c) && d.state == c.state
  {
    RequestLatch(UNITS, c, WiresOf(c), false, rdata);
    assert WiresOf(c.(mdr := if c.state == Str1 then c.mdr else rdata)) == WiresOf(c);
  }

  /** The successors that matter: a request is left only on a response, and entered only from a quiet state. */
  predicate Follows(st: State, resp: bool, next: State) {
    && (st == Fetch2 ==> next == if resp then Fetch3 else Fetch2)
    && (st == Ldr1 ==> next == if resp then Ldr2 else Ldr1)
    && (st == Str1 ==> next == if resp then Str2 else Str1)
    && (Requesting(next) && !Requesting(st) ==> st == Fetch1 || st == LwCalcAddr || st == SwCalcAddr)
  }

  lemma DispatchIsQuiet(op: bv7, f3: bv3, f7: bv7)
    ensures !Requesting(Dispatch(op, f3, f7))
  {
  }

  lemma FollowsOutsideDecode(st: State, op: bv7, f3: bv3, f7: bv7, resp: bool)
    requires st != DecodeSt
    ensures Follows(st, resp, NextState(st, op, f3, f7, resp))
  {
  }

  lemma NextFollows(st: State, w: Wires, resp: bool)
    ensures Follows(st, resp, NextState(st, w.opcode, w.f3, w.f7, resp))
  {
    if st == DecodeSt {
      DispatchIsQuiet(w.opcode, w.f3, w.f7);
    } else {
      FollowsOutsideDecode(st, w.opcode, w.f3, w.f7, resp);
    }
  }

  lemma BenchFitsStep(st: State, p: RvPort, m: RvMem, delay: nat, next: State, q: RvPort)
    requires BenchFits(st, p, m)
    requires p.read <==> st == Fetch2 || st == Ldr1
    requires p.write <==> st == Str1
    requires Follows(st, m.resp, next)
    requires Requesting(st) && !m.resp ==> q == p
    ensures BenchFits(next, q, BenchStep(ACCESS, m, p, delay))
  {
    if p.read {
      ReadInvStep(ACCESS, m, p, delay);
    } else if p.write {
      AccessIdempotent();
      WriteInvStep(ACCESS, m, p, delay);
    } else {
      QuietStep(ACCESS, m, p, delay);
    }
  }

  /** Every clock edge keeps the protocol, whatever is executed and whatever the latency. */
  lemma BusInvStep(s: System, delay: nat)
    requires BusInv(s)
    ensures BusInv(Step(s, delay))
  {
    var c, m := s.core, s.bench;
    var d := CoreStep(c, m.resp, m.rdata);
    PortByState(c);
    NextFollows(c.state, WiresOf(c), m.resp);
    if Requesting(c.state) && !m.resp {
      PortHeld(c, m.rdata);
    }
    BenchFitsStep(c.state, PortOf(c), m, delay, d.state, PortOf(d));
  }

  /** Over every run none of the bench's error conditions fires. */
  lemma NoProtocolError(s: System, latency: nat -> nat, t: nat, n: nat)
    requires BusInv(s)
    ensures BusInv(Run(s, latency, t, n))
    ensures !Run(s, latency, t, n).bench.error
  {
    forall x: System, d: nat | BusInv(x)
      ensures BusInv(Step(x, d))
    {
      BusInvStep(x, d);
    }
    Clock.IterateKeeps(Step, BusInv, s, latency, t, n);
  }

  lemma AnswerTaken(c: Core, rdata: Word)
    requires Requesting(c.state)
    ensures !Requesting(CoreStep(c, true, rdata).state)
  {
    NextFollows(c.state, WiresOf(c), true);
  }

  lemma AnswerFits(st: State, p: RvPort, m: RvMem, delay: nat)
    requires BenchFits(st, p, m) && m.resp
    requires p.read <==> st == Fetch2 || st == Ldr1
    requires p.write <==> st == Str1
    ensures Requesting(st) && !BenchStep(ACCESS, m, p, delay).resp
    ensures p.read ==> m.rdata == ACCESS.load(m.mem, p.addr)
    ensures p.write ==> m.mem == ACCESS.store(m.mem, p.addr, p.wdata, p.byteEnable)
  {
  }

  /**
   * A response reaches the request that caused it: it is high only while a request is on the port, a read
   * is answered with the word at the requested address, a write with its enabled bytes in memory, and the next
   * edge takes the controller on and lowers the response.
   */
  lemma ResponseMeetsRequest(s: System, delay: nat)
    requires BusInv(s) && s.bench.resp
    ensures Requesting(s.core.state)
    ensures PortOf(s.core).read ==> s.bench.rdata == WordAround(s.bench.mem, PortOf(s.core).addr)
    ensures var p := PortOf(s.core);
            p.write ==> s.bench.mem == WriteBytes(s.bench.mem, p.addr, p.wdata, p.byteEnable)
    ensures !Step(s, delay).bench.resp && !Requesting(Step(s, delay).core.state)
  {
    PortByState(s.core);
    AnswerFits(s.core.state, PortOf(s.core), s.bench, delay);
    AnswerTaken(s.core, s.bench.rdata);
  }
}

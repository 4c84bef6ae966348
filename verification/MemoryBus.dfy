/**
 * The memory bench: a request is noticed on the rising edge of a strobe, served after an arbitrary number
 * of clock events, answered by a response that is high for one cycle, and watched for protocol errors.
 * The protocol never looks inside addresses, data or enables, so it is stated for any memory M.
 */
module MemoryBus {
  datatype Port<A, D, E> = Port(read: bool, write: bool, addr: A, wdata: D, byteEnable: E)

  /** How a memory is read and written at one address. */
  datatype Access<!M, !A, !D, !E> = Access(load: (M, A) -> D, store: (M, A, D, E) -> M)

  datatype Phase<A, D> =
    | Idle
    | Reading(raddr: A, buffer: D, left: nat)
    | Writing(waddr: A, wbuffer: D, left: nat)
    | Finishing

  datatype Bench<M, A, D> =
    Bench(mem: M, prevRead: bool, prevWrite: bool, resp: bool, rdata: D, error: bool, phase: Phase<A, D>)

  function Answer<M, A, D>(m: Bench<M, A, D>, data: D): Bench<M, A, D> {
    m.(rdata := data, resp := true, phase := Finishing)
  }

  function Commit<M, A, D>(m: Bench<M, A, D>, mem: M): Bench<M, A, D> {
    m.(mem := mem, resp := true, phase := Finishing)
  }

  /** A monitor that fires raises the error flag and abandons the request. */
  function Fault<M, A, D>(m: Bench<M, A, D>): Bench<M, A, D> { m.(error := true, phase := Finishing) }

  predicate ReadFault<A(==), D, E>(p: Port<A, D, E>, a: A) { !p.read || p.write || p.addr != a }

  predicate WriteFault<A(==), D(==), E>(p: Port<A, D, E>, a: A, data: D) {
    p.addr != a || p.wdata != data || !p.write || p.read
  }

  function Serve<M, A(==), D(==), E>(x: Access<M, A, D, E>, m: Bench<M, A, D>, p: Port<A, D, E>, delay: nat): Bench<M, A, D> {
    match m.phase
    case Idle =>
      if p.write && !m.prevWrite then
        (if delay == 0 then Commit(m, x.store(m.mem, p.addr, p.wdata, p.byteEnable))
         else m.(phase := Writing(p.addr, p.wdata, delay)))
      else if p.read && !m.prevRead then
        (if delay == 0 then Answer(m, x.load(m.mem, p.addr))
         else m.(phase := Reading(p.addr, x.load(m.mem, p.addr), delay)))
      else m
    case Reading(a, buffer, left) =>
      if ReadFault(p, a) then Fault(m)
      else if left <= 1 then Answer(m, buffer)
      else m.(phase := Reading(a, buffer, left - 1))
    case Writing(a, data, left) =>
      if WriteFault(p, a, data) then Fault(m)
      else if left <= 1 then Commit(m, x.store(m.mem, a, data, p.byteEnable))
      else m.(phase := Writing(a, data, left - 1))
    case Finishing => m.(resp := false, phase := Idle)
  }

  /** One clock event; delay is the latency of a request that starts at this event. */
  function BenchStep<M, A(==), D(==), E>(x: Access<M, A, D, E>, m: Bench<M, A, D>, p: Port<A, D, E>, delay: nat): Bench<M, A, D> {
    Serve(x, m, p, delay).(prevRead := p.read, prevWrite := p.write)
  }

  predicate Sound<M, A, D>(m: Bench<M, A, D>) { !m.error && (m.resp <==> m.phase.Finishing?) }

  predicate Quiet<M, A, D>(m: Bench<M, A, D>) { Sound(m) && m.phase.Idle? }

  /** A read is on the port and is about to be noticed, being served, or just answered. */
  predicate ReadInv<M, A(==), D(==), E>(x: Access<M, A, D, E>, m: Bench<M, A, D>, p: Port<A, D, E>) {
    && Sound(m)
    && match m.phase
       case Idle => !m.prevRead && !m.prevWrite
       case Reading(a, buffer, left) => a == p.addr && buffer == x.load(m.mem, p.addr) && left > 0
       case Finishing => m.rdata == x.load(m.mem, p.addr)
       case Writing(_, _, _) => false
  }

  /** The same for a write; once it is answered, the memory holds what the port asks to be stored. */
  predicate WriteInv<M(==), A(==), D(==), E>(x: Access<M, A, D, E>, m: Bench<M, A, D>, p: Port<A, D, E>) {
    && Sound(m)
    && match m.phase
       case Idle => !m.prevRead && !m.prevWrite
       case Writing(a, data, left) => a == p.addr && data == p.wdata && left > 0
       case Finishing => m.mem == x.store(m.mem, p.addr, p.wdata, p.byteEnable)
       case Reading(_, _, _) => false
  }

  /** Storing the same thing twice is storing it once. */
  ghost predicate Idempotent<M(!new), A(!new), D(!new), E(!new)>(x: Access<M, A, D, E>) {
    forall mem: M, a: A, d: D, e: E :: x.store(x.store(mem, a, d, e), a, d, e) == x.store(mem, a, d, e)
  }

  lemma ReadInvStep<M, A, D, E>(x: Access<M, A, D, E>, m: Bench<M, A, D>, p: Port<A, D, E>, delay: nat)
    requires p.read && !p.write && ReadInv(x, m, p)
    ensures var n := BenchStep(x, m, p, delay);
            && n.mem == m.mem
            && if m.resp then Quiet(n) && n.prevRead && !n.prevWrite else ReadInv(x, n, p) && !n.phase.Idle?
  {
  }

  lemma WriteInvStep<M(!new), A(!new), D(!new), E(!new)>(
      x: Access<M, A, D, E>, m: Bench<M, A, D>, p: Port<A, D, E>, delay: nat)
    requires Idempotent(x) && p.write && !p.read && WriteInv(x, m, p)
    ensures var n := BenchStep(x, m, p, delay);
            && n.mem == (if n.resp then x.store(m.mem, p.addr, p.wdata, p.byteEnable) else m.mem)
            && if m.resp then Quiet(n) && !n.prevRead && n.prevWrite else WriteInv(x, n, p) && !n.phase.Idle?
  {
  }

  lemma QuietStep<M, A, D, E>(x: Access<M, A, D, E>, m: Bench<M, A, D>, p: Port<A, D, E>, delay: nat)
    requires !p.read && !p.write && m.phase.Idle?
    ensures BenchStep(x, m, p, delay) == m.(prevRead := false, prevWrite := false)
  {
  }

  /** The three kinds of event a read goes through: noticed, counted down, lowered. */
  lemma ReadEvents<M, A, D, E>(x: Access<M, A, D, E>, m: Bench<M, A, D>, p: Port<A, D, E>, delay: nat)
    requires p.read && !p.write
    ensures m.phase.Idle? && !m.prevRead ==>
              BenchStep(x, m, p, delay) ==
              (if delay == 0 then Answer(m, x.load(m.mem, p.addr))
               else m.(phase := Reading(p.addr, x.load(m.mem, p.addr), delay))).(prevRead := true, prevWrite := false)
    ensures m.phase.Reading? && m.phase.raddr == p.addr && m.phase.left > 0 ==>
              BenchStep(x, m, p, delay) ==
              (if m.phase.left == 1 then Answer(m, m.phase.buffer)
               else m.(phase := Reading(p.addr, m.phase.buffer, m.phase.left - 1))).(prevRead := true, prevWrite := false)
    ensures m.phase.Finishing? ==>
              BenchStep(x, m, p, delay) == m.(resp := false, phase := Idle, prevRead := true, prevWrite := false)
  {
  }

  lemma WriteEvents<M, A, D, E>(x: Access<M, A, D, E>, m: Bench<M, A, D>, p: Port<A, D, E>, delay: nat)
    requires p.write && !p.read
    ensures m.phase.Idle? && !m.prevWrite ==>
              BenchStep(x, m, p, delay) ==
              (if delay == 0 then Commit(m, x.store(m.mem, p.addr, p.wdata, p.byteEnable))
               else m.(phase := Writing(p.addr, p.wdata, delay))).(prevRead := false, prevWrite := true)
    ensures m.phase.Writing? && m.phase.waddr == p.addr && m.phase.wbuffer == p.wdata && m.phase.left > 0 ==>
              BenchStep(x, m, p, delay) ==
              (if m.phase.left == 1 then Commit(m, x.store(m.mem, p.addr, p.wdata, p.byteEnable))
               else m.(phase := Writing(p.addr, p.wdata, m.phase.left - 1))).(prevRead := false, prevWrite := true)
    ensures m.phase.Finishing? ==>
              BenchStep(x, m, p, delay) == m.(resp := false, phase := Idle, prevRead := false, prevWrite := true)
  {
  }
}

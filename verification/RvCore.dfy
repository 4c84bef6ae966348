/**
 * The multicycle processor: instruction register fields, ALU, comparator, register file, the 20-state
 * controller with its control signals, the datapath multiplexers and the clock edge.
 */
module RvCore {
  import opened RvIsa
  import MemoryBus

  // ------------------------------------------------------------ instruction register (ir.sv)

  predicate Bit31(d: Word) { d & 0x80000000 != 0 }

  function IImm(d: Word): Word { (if Bit31(d) then 0xfffff800 else 0) | ((d >> 20) & 0x7ff) }

  function SImm(d: Word): Word {
    (if Bit31(d) then 0xfffff800 else 0) | (((d >> 25) & 0x3f) << 5) | ((d >> 7) & 0x1f)
  }

  function BImm(d: Word): Word {
    (if Bit31(d) then 0xfffff000 else 0) | (((d >> 7) & 1) << 11) | (((d >> 25) & 0x3f) << 5) | (((d >> 8) & 0xf) << 1)
  }

  function UImm(d: Word): Word { d & 0xfffff000 }

  function JImm(d: Word): Word {
    (if Bit31(d) then 0xfff00000 else 0) | (((d >> 12) & 0xff) << 12) | (((d >> 20) & 1) << 11) | (((d >> 21) & 0x3ff) << 1)
  }

  // ------------------------------------------------------------ ALU and comparator (alu.sv, cmp.sv)

  datatype AluOp = AluAdd | AluSll | AluSra | AluSub | AluXor | AluSrl | AluOr | AluAnd

  /** The cast of funct3 to an ALU operation. */
  function AluOpOf(f3: bv3): AluOp {
    if f3 == 0 then AluAdd else if f3 == 1 then AluSll else if f3 == 2 then AluSra else if f3 == 3 then AluSub
    else if f3 == 4 then AluXor else if f3 == 5 then AluSrl else if f3 == 6 then AluOr else AluAnd
  }

  function Alu(op: AluOp, a: Word, b: Word): Word {
    match op
    case AluAdd => Plus(a, b)
    case AluSll => ShiftLeft(a, Amount(b))
    case AluSra => ShiftRightArith(a, Amount(b))
    case AluSub => Minus(a, b)
    case AluXor => BitXor(a, b)
    case AluSrl => ShiftRight(a, Amount(b))
    case AluOr => BitOr(a, b)
    case AluAnd => BitAnd(a, b)
  }

  /** Signed comparison by flipping the sign bits. */
  predicate SignedBelow(a: Word, b: Word) { (a ^ 0x80000000) < (b ^ 0x80000000) }

  /** Codes 2 and 3 name no comparison; the comparator then drives nothing meaningful, modelled as false. */
  predicate Cmp(op: bv3, a: Word, b: Word) {
    if op == 0 then a == b
    else if op == 1 then a != b
    else if op == 4 then SignedBelow(a, b)
    else if op == 5 then !SignedBelow(a, b)
    else if op == 6 then Less(a, b)
    else if op == 7 then !Less(a, b)
    else false
  }

  // ------------------------------------------------------------ controller (control.sv)

  datatype State =
    | Fetch1 | Fetch2 | Fetch3 | DecodeSt | SltiSt | SltiuSt | SraiSt | ImmSt | BrSt | LwCalcAddr
    | Ldr1 | Ldr2 | SwCalcAddr | Str1 | Str2 | AuipcSt | LuiSt | RegSt | JalSt | JalrSt

  datatype PcMux = PcPlus4 | PcAluOut | PcAluMod2
  datatype MarMux = MarPc | MarAlu
  datatype RegMux = RegAlu | RegBrEn | RegUImm | RegLw | RegPcPlus4 | RegLb | RegLbu | RegLh | RegLhu
  datatype AluMux1 = Mux1Rs1 | Mux1Pc
  datatype AluMux2 = Mux2I | Mux2U | Mux2B | Mux2S | Mux2J | Mux2Rs2
  datatype CmpMux = CmpRs2 | CmpI

  datatype Control = Control(
    pcmux: PcMux, marmux: MarMux, regmux: RegMux, mux1: AluMux1, mux2: AluMux2, cmpmux: CmpMux,
    aluop: AluOp, cmpop: bv3,
    loadPc: bool, loadIr: bool, loadReg: bool, loadMar: bool, loadMdr: bool, loadDataOut: bool,
    memRead: bool, memWrite: bool, byteEnable: bv4)

  function Defaults(f3: bv3): Control {
    Control(PcPlus4, MarPc, RegAlu, Mux1Rs1, Mux2I, CmpRs2, AluOpOf(f3), f3,
            false, false, false, false, false, false, false, false, 0xf)
  }

  function StoreEnable(f3: bv3, lsb: bv2): bv4 {
    if f3 == 0 then (if lsb == 0 then 1 else if lsb == 1 then 2 else if lsb == 2 then 4 else 8)
    else if f3 == 1 then (if lsb == 2 then 0xc else 3)
    else 0xf
  }

  function LoadMuxOf(f3: bv3): Option<RegMux> {
    if f3 == 2 then Some(RegLw) else if f3 == 1 then Some(RegLh) else if f3 == 5 then Some(RegLhu)
    else if f3 == 0 then Some(RegLb) else if f3 == 4 then Some(RegLbu) else None
  }

  /** state_actions: what each state changes in the defaults z, given a load's lane and a store's enables. */
  function Outputs(z: Control, st: State, lane: Option<RegMux>, enable: bv4, brEn: bool): Control {
    match st
    case Fetch1 => z.(loadMar := true)
    case Fetch2 => z.(loadMdr := true, memRead := true)
    case Fetch3 => z.(loadIr := true)
    case DecodeSt => z
    case SltiSt => z.(loadReg := true, regmux := RegBrEn, loadPc := true, cmpmux := CmpI, cmpop := 4)
    case SltiuSt => z.(loadReg := true, regmux := RegBrEn, loadPc := true, cmpmux := CmpI, cmpop := 6)
    case SraiSt => z.(loadReg := true, loadPc := true, aluop := AluSra)
    case ImmSt => z.(loadReg := true, loadPc := true)
    case BrSt => z.(loadPc := true, pcmux := if brEn then PcAluOut else PcPlus4,
                    mux1 := Mux1Pc, mux2 := Mux2B, aluop := AluAdd)
    case LwCalcAddr => z.(aluop := AluAdd, loadMar := true, marmux := MarAlu)
    case Ldr1 => z.(loadMdr := true, memRead := true)
    case Ldr2 =>
      (match lane
       case Some(m) => z.(loadReg := true, regmux := m, loadPc := true)
       case None => z.(loadPc := true))
    case SwCalcAddr => z.(mux2 := Mux2S, aluop := AluAdd, loadMar := true, marmux := MarAlu, loadDataOut := true)
    case Str1 => z.(memWrite := true, byteEnable := enable)
    case Str2 => z.(loadPc := true)
    case AuipcSt => z.(mux1 := Mux1Pc, mux2 := Mux2U, aluop := AluAdd, loadReg := true, loadPc := true)
    case LuiSt => z.(loadReg := true, regmux := RegUImm, loadPc := true)
    case RegSt => z.(mux2 := Mux2Rs2, loadReg := true, loadPc := true)
    case JalSt => z.(mux1 := Mux1Pc, mux2 := Mux2J, aluop := AluAdd, loadReg := true, regmux := RegPcPlus4,
                     loadPc := true, pcmux := PcAluOut)
    case JalrSt => z.(aluop := AluAdd, loadReg := true, regmux := RegPcPlus4, loadPc := true, pcmux := PcAluMod2)
  }

  function Actions(st: State, f3: bv3, lsb: bv2, brEn: bool): Control {
    Outputs(Defaults(f3), st, LoadMuxOf(f3), StoreEnable(f3, lsb), brEn)
  }

  /** next_state_logic in the decode state. */
  function Dispatch(op: bv7, f3: bv3, f7: bv7): State {
    if op == OP_IMM then
      (if f3 == 2 then SltiSt else if f3 == 3 then SltiuSt
       else if f3 == 5 && f7 & 0x20 != 0 then SraiSt else ImmSt)
    else if op == OP_BR then BrSt
    else if op == OP_LOAD then LwCalcAddr
    else if op == OP_STORE then SwCalcAddr
    else if op == OP_AUIPC then AuipcSt
    else if op == OP_LUI then LuiSt
    else if op == OP_REG then RegSt
    else if op == OP_JAL then JalSt
    else if op == OP_JALR then JalrSt
    else Fetch1
  }

  function NextState(st: State, op: bv7, f3: bv3, f7: bv7, resp: bool): State {
    match st
    case Fetch1 => Fetch2
    case Fetch2 => if resp then Fetch3 else Fetch2
    case Fetch3 => DecodeSt
    case DecodeSt => Dispatch(op, f3, f7)
    case LwCalcAddr => Ldr1
    case Ldr1 => if resp then Ldr2 else Ldr1
    case SwCalcAddr => Str1
    case Str1 => if resp then Str2 else Str1
    case _ => Fetch1
  }

  // ------------------------------------------------------------ datapath (datapath.sv, regfile.sv)

  datatype Core = Core(state: State, pc: Word, ir: Word, mar: Word, mdr: Word, dataOut: Word, regs: RegFile)

  function Lsb(c: Core): bv2 { (c.mar & 3) as bv2 }

  /** The store-data lanes: the register shifted to the byte position of the address. */
  function StoreLanes(data: Word, lsb: bv2): Word {
    if lsb == 0 then data else if lsb == 1 then data << 8 else if lsb == 2 then data << 16 else data << 24
  }

  function LaneByte(mdr: Word, lsb: bv2): Byte {
    if lsb == 0 then ByteOf0(mdr) else if lsb == 1 then ByteOf1(mdr) else if lsb == 2 then ByteOf2(mdr) else ByteOf3(mdr)
  }

  function LaneHalf(mdr: Word, lsb: bv2): bv16 {
    if lsb != 0 then ((mdr >> 16) & 0xffff) as bv16 else (mdr & 0xffff) as bv16
  }

  /** The combinational outputs of instruction register, register file and address register. */
  datatype Wires = Wires(
    opcode: bv7, f3: bv3, f7: bv7, rd: Reg, rs1: Word, rs2: Word,
    iImm: Word, sImm: Word, bImm: Word, uImm: Word, jImm: Word, lsb: bv2)

  function WiresOf(c: Core): Wires {
    Wires(OpcodeOf(c.ir), Funct3Of(c.ir), Funct7Of(c.ir), RdOf(c.ir),
          RegRead(c.regs, Rs1Of(c.ir)), RegRead(c.regs, Rs2Of(c.ir)),
          IImm(c.ir), SImm(c.ir), BImm(c.ir), UImm(c.ir), JImm(c.ir), Lsb(c))
  }

  /** The lane a load selects from the memory data register. */
  function Lane(m: RegMux, mdr: Word, lsb: bv2): Word {
    match m
    case RegLb => SignExtend8(LaneByte(mdr, lsb))
    case RegLbu => LaneByte(mdr, lsb) as Word
    case RegLh => SignExtend16(LaneHalf(mdr, lsb))
    case RegLhu => LaneHalf(mdr, lsb) as Word
    case _ => mdr
  }

  /** The arithmetic blocks the datapath is wired around. */
  datatype Units = Units(alu: (AluOp, Word, Word) -> Word, cmp: (bv3, Word, Word) -> bool, lane: (RegMux, Word, bv2) -> Word)

  const UNITS := Units(Alu, Cmp, Lane)

  function CmpIn(w: Wires, k: Control): Word {
    match k.cmpmux case CmpRs2 => w.rs2 case CmpI => w.iImm
  }

  /** The branch flag; cmpmux and cmpop do not depend on it, so any flag may be supplied to read them. */
  predicate BrEn(u: Units, st: State, w: Wires) {
    var k := Actions(st, w.f3, w.lsb, false);
    u.cmp(k.cmpop, w.rs1, CmpIn(w, k))
  }

  function Signals(u: Units, st: State, w: Wires): Control { Actions(st, w.f3, w.lsb, BrEn(u, st, w)) }

  function AluIn1(pc: Word, w: Wires, k: Control): Word {
    match k.mux1 case Mux1Rs1 => w.rs1 case Mux1Pc => pc
  }

  function AluIn2(w: Wires, k: Control): Word {
    match k.mux2
    case Mux2I => w.iImm case Mux2U => w.uImm case Mux2B => w.bImm
    case Mux2S => w.sImm case Mux2J => w.jImm case Mux2Rs2 => w.rs2
  }

  function AluOut(u: Units, pc: Word, w: Wires, k: Control): Word { u.alu(k.aluop, AluIn1(pc, w, k), AluIn2(w, k)) }

  function PcIn(u: Units, pc: Word, w: Wires, k: Control): Word {
    match k.pcmux
    case PcPlus4 => NextPc(pc)
    case PcAluOut => AluOut(u, pc, w, k)
    case PcAluMod2 => EvenTarget(AluOut(u, pc, w, k))
  }

  function RegIn(u: Units, c: Core, w: Wires, k: Control): Word {
    match k.regmux
    case RegAlu => AluOut(u, c.pc, w, k)
    case RegBrEn => if BrEn(u, c.state, w) then 1 else 0
    case RegUImm => w.uImm
    case RegPcPlus4 => NextPc(c.pc)
    case m => u.lane(m, c.mdr, w.lsb)
  }

  /** The memory port as driven during a cycle. */
  type RvPort = MemoryBus.Port<Word, Word, bv4>

  function PortOf(c: Core): RvPort {
    var k := Signals(UNITS, c.state, WiresOf(c));
    MemoryBus.Port(k.memRead, k.memWrite, c.mar, StoreLanes(c.dataOut, Lsb(c)), k.byteEnable)
  }

  function PcReg(u: Units, c: Core, w: Wires, k: Control): Word { if k.loadPc then PcIn(u, c.pc, w, k) else c.pc }

  function IrReg(c: Core, k: Control): Word { if k.loadIr then c.mdr else c.ir }

  function MarReg(u: Units, c: Core, w: Wires, k: Control): Word {
    if !k.loadMar then c.mar else match k.marmux case MarPc => c.pc case MarAlu => AluOut(u, c.pc, w, k)
  }

  function MdrReg(c: Core, k: Control, rdata: Word): Word { if k.loadMdr then rdata else c.mdr }

  function DataOutReg(c: Core, w: Wires, k: Control): Word { if k.loadDataOut then w.rs2 else c.dataOut }

  function Regs(u: Units, c: Core, w: Wires, k: Control): RegFile {
    if k.loadReg then RegWrite(c.regs, w.rd, RegIn(u, c, w, k)) else c.regs
  }

  /** The registers after an edge, given the wires before it: all of them load at once. */
  function Latch(u: Units, c: Core, w: Wires, resp: bool, rdata: Word): Core {
    var k := Signals(u, c.state, w);
    Core(NextState(c.state, w.opcode, w.f3, w.f7, resp), PcReg(u, c, w, k), IrReg(c, k), MarReg(u, c, w, k),
         MdrReg(c, k, rdata), DataOutReg(c, w, k), Regs(u, c, w, k))
  }

  /** One rising clock edge. */
  function CoreStep(c: Core, resp: bool, rdata: Word): Core { Latch(UNITS, c, WiresOf(c), resp, rdata) }
}

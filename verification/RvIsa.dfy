/**
 * The RV32I base integer instruction set (RISC-V User-Level ISA v2.2, sections 2.2 to 2.6), as the
 * reference that the clocked processor is measured against: instructions as values, their encodings,
 * and what one instruction does to the architectural state.
 */
module RvIsa {
  type Word = bv32
  type Byte = bv8
  type Reg = bv5

  datatype Option<+T> = None | Some(value: T)

  // ------------------------------------------------------------ instructions

  datatype BranchOp = Beq | Bne | Blt | Bge | Bltu | Bgeu
  datatype LoadOp = Lb | Lh | Lw | Lbu | Lhu
  datatype StoreOp = Sb | Sh | Sw
  datatype ImmOp = Addi | Slti | Sltiu | Xori | Ori | Andi
  datatype ShiftOp = Slli | Srli | Srai
  datatype RegOp = Add | Sub | Sll | Slt | Sltu | Xor | Srl | Sra | Or | And

  /** Branch and jump offsets are kept in halfwords, as bits 12:1 and 20:1 of the encoded immediate. */
  datatype Instr =
    | Lui(rd: Reg, upper: bv20)
    | Auipc(rd: Reg, upper: bv20)
    | Jal(rd: Reg, halfwords: bv20)
    | Jalr(rd: Reg, rs1: Reg, imm: bv12)
    | Branch(br: BranchOp, rs1: Reg, rs2: Reg, disp: bv12)
    | Load(ld: LoadOp, rd: Reg, rs1: Reg, imm: bv12)
    | Store(st: StoreOp, rs1: Reg, rs2: Reg, imm: bv12)
    | OpImm(iop: ImmOp, rd: Reg, rs1: Reg, imm: bv12)
    | ShiftImm(sop: ShiftOp, rd: Reg, rs1: Reg, shamt: bv5)
    | OpReg(rop: RegOp, rd: Reg, rs1: Reg, rs2: Reg)

  // ------------------------------------------------------------ encodings

  const OP_LUI: bv7 := 0x37
  const OP_AUIPC: bv7 := 0x17
  const OP_JAL: bv7 := 0x6f
  const OP_JALR: bv7 := 0x67
  const OP_BR: bv7 := 0x63
  const OP_LOAD: bv7 := 0x03
  const OP_STORE: bv7 := 0x23
  const OP_IMM: bv7 := 0x13
  const OP_REG: bv7 := 0x33

  function BranchCode(op: BranchOp): bv3 {
    match op case Beq => 0 case Bne => 1 case Blt => 4 case Bge => 5 case Bltu => 6 case Bgeu => 7
  }

  function LoadCode(op: LoadOp): bv3 {
    match op case Lb => 0 case Lh => 1 case Lw => 2 case Lbu => 4 case Lhu => 5
  }

  function StoreCode(op: StoreOp): bv3 {
    match op case Sb => 0 case Sh => 1 case Sw => 2
  }

  function ImmCode(op: ImmOp): bv3 {
    match op case Addi => 0 case Slti => 2 case Sltiu => 3 case Xori => 4 case Ori => 6 case Andi => 7
  }

  function ShiftCode(op: ShiftOp): bv3 {
    match op case Slli => 1 case Srli => 5 case Srai => 5
  }

  function RegCode(op: RegOp): bv3 {
    match op
    case Add => 0 case Sub => 0 case Sll => 1 case Slt => 2 case Sltu => 3
    case Xor => 4 case Srl => 5 case Sra => 5 case Or => 6 case And => 7
  }

  function Pack(hi: bv12, rs1: Reg, f3: bv3, rd: Reg, op: bv7): Word {
    ((hi as Word) << 20) | ((rs1 as Word) << 15) | ((f3 as Word) << 12) | ((rd as Word) << 7) | (op as Word)
  }

  function PackR(f7: bv7, rs2: Reg, rs1: Reg, f3: bv3, rd: Reg, op: bv7): Word {
    Pack(((f7 as bv12) << 5) | (rs2 as bv12), rs1, f3, rd, op)
  }

  function PackU(upper: bv20, rd: Reg, op: bv7): Word {
    ((upper as Word) << 12) | ((rd as Word) << 7) | (op as Word)
  }

  /** disp holds offset bits 12:1; the format scatters them as 12 | 10:5 | 4:1 | 11. */
  function PackB(disp: bv12, rs2: Reg, rs1: Reg, f3: bv3): Word {
    var f7 := (((disp >> 11) & 1) << 6) | ((disp >> 4) & 0x3f);
    var rd := ((disp & 0xf) << 1) | ((disp >> 10) & 1);
    PackR(f7 as bv7, rs2, rs1, f3, rd as Reg, OP_BR)
  }

  /** halfwords holds offset bits 20:1; the format scatters them as 20 | 10:1 | 11 | 19:12. */
  function PackJ(halfwords: bv20, rd: Reg): Word {
    PackU((((halfwords >> 19) & 1) << 19) | ((halfwords & 0x3ff) << 9) |
          (((halfwords >> 10) & 1) << 8) | ((halfwords >> 11) & 0xff), rd, OP_JAL)
  }

  function PackS(imm: bv12, rs2: Reg, rs1: Reg, f3: bv3): Word {
    PackR(((imm >> 5) & 0x7f) as bv7, rs2, rs1, f3, (imm & 0x1f) as Reg, OP_STORE)
  }

  function Encode(i: Instr): Word {
    match i
    case Lui(rd, u) => PackU(u, rd, OP_LUI)
    case Auipc(rd, u) => PackU(u, rd, OP_AUIPC)
    case Jal(rd, h) => PackJ(h, rd)
    case Jalr(rd, rs1, imm) => Pack(imm, rs1, 0, rd, OP_JALR)
    case Branch(c, rs1, rs2, d) => PackB(d, rs2, rs1, BranchCode(c))
    case Load(c, rd, rs1, imm) => Pack(imm, rs1, LoadCode(c), rd, OP_LOAD)
    case Store(c, rs1, rs2, imm) => PackS(imm, rs2, rs1, StoreCode(c))
    case OpImm(c, rd, rs1, imm) => Pack(imm, rs1, ImmCode(c), rd, OP_IMM)
    case ShiftImm(c, rd, rs1, sh) => PackR(if c == Srai then 0x20 else 0, sh, rs1, ShiftCode(c), rd, OP_IMM)
    case OpReg(c, rd, rs1, rs2) => PackR(if c == Sub || c == Sra then 0x20 else 0, rs2, rs1, RegCode(c), rd, OP_REG)
  }

  // ------------------------------------------------------------ decoding

  function OpcodeOf(w: Word): bv7 { (w & 0x7f) as bv7 }
  function RdOf(w: Word): Reg { ((w >> 7) & 0x1f) as Reg }
  function Funct3Of(w: Word): bv3 { ((w >> 12) & 7) as bv3 }
  function Rs1Of(w: Word): Reg { ((w >> 15) & 0x1f) as Reg }
  function Rs2Of(w: Word): Reg { ((w >> 20) & 0x1f) as Reg }
  function Funct7Of(w: Word): bv7 { ((w >> 25) & 0x7f) as bv7 }
  function Hi12Of(w: Word): bv12 { ((w >> 20) & 0xfff) as bv12 }
  function Hi20Of(w: Word): bv20 { ((w >> 12) & 0xfffff) as bv20 }

  function StoreImmOf(w: Word): bv12 { ((((w >> 25) & 0x7f) << 5) | ((w >> 7) & 0x1f)) as bv12 }

  function BranchDispOf(w: Word): bv12 {
    ((((w >> 31) & 1) << 11) | (((w >> 7) & 1) << 10) | (((w >> 25) & 0x3f) << 4) | ((w >> 8) & 0xf)) as bv12
  }

  function JumpDispOf(w: Word): bv20 {
    ((((w >> 31) & 1) << 19) | (((w >> 12) & 0xff) << 11) | (((w >> 20) & 1) << 10) | ((w >> 21) & 0x3ff)) as bv20
  }

  function BranchOpOf(f3: bv3): Option<BranchOp> {
    if f3 == 0 then Some(Beq) else if f3 == 1 then Some(Bne) else if f3 == 4 then Some(Blt)
    else if f3 == 5 then Some(Bge) else if f3 == 6 then Some(Bltu) else if f3 == 7 then Some(Bgeu) else None
  }

  function LoadOpOf(f3: bv3): Option<LoadOp> {
    if f3 == 0 then Some(Lb) else if f3 == 1 then Some(Lh) else if f3 == 2 then Some(Lw)
    else if f3 == 4 then Some(Lbu) else if f3 == 5 then Some(Lhu) else None
  }

  function StoreOpOf(f3: bv3): Option<StoreOp> {
    if f3 == 0 then Some(Sb) else if f3 == 1 then Some(Sh) else if f3 == 2 then Some(Sw) else None
  }

  function RegOpOf(f3: bv3, f7: bv7): Option<RegOp> {
    if f7 == 0x20 then (if f3 == 0 then Some(Sub) else if f3 == 5 then Some(Sra) else None)
    else if f7 != 0 then None
    else if f3 == 0 then Some(Add) else if f3 == 1 then Some(Sll) else if f3 == 2 then Some(Slt)
    else if f3 == 3 then Some(Sltu) else if f3 == 4 then Some(Xor) else if f3 == 5 then Some(Srl)
    else if f3 == 6 then Some(Or) else Some(And)
  }

  function ImmInstrOf(w: Word): Option<Instr> {
    var f3, f7, rd, rs1 := Funct3Of(w), Funct7Of(w), RdOf(w), Rs1Of(w);
    if f3 == 1 then (if f7 == 0 then Some(ShiftImm(Slli, rd, rs1, Rs2Of(w))) else None)
    else if f3 == 5 then
      (if f7 == 0 then Some(ShiftImm(Srli, rd, rs1, Rs2Of(w)))
       else if f7 == 0x20 then Some(ShiftImm(Srai, rd, rs1, Rs2Of(w))) else None)
    else Some(OpImm(if f3 == 0 then Addi else if f3 == 2 then Slti else if f3 == 3 then Sltiu
                    else if f3 == 4 then Xori else if f3 == 6 then Ori else Andi, rd, rs1, Hi12Of(w)))
  }

  /** The instruction a word encodes, or None when the base set (without FENCE and SYSTEM) has none. */
  function Decode(w: Word): Option<Instr> {
    var op, f3, rd, rs1, rs2 := OpcodeOf(w), Funct3Of(w), RdOf(w), Rs1Of(w), Rs2Of(w);
    if op == OP_LUI then Some(Lui(rd, Hi20Of(w)))
    else if op == OP_AUIPC then Some(Auipc(rd, Hi20Of(w)))
    else if op == OP_JAL then Some(Jal(rd, JumpDispOf(w)))
    else if op == OP_JALR then (if f3 == 0 then Some(Jalr(rd, rs1, Hi12Of(w))) else None)
    else if op == OP_BR then
      (match BranchOpOf(f3) case None => None case Some(c) => Some(Branch(c, rs1, rs2, BranchDispOf(w))))
    else if op == OP_LOAD then
      (match LoadOpOf(f3) case None => None case Some(c) => Some(Load(c, rd, rs1, Hi12Of(w))))
    else if op == OP_STORE then
      (match StoreOpOf(f3) case None => None case Some(c) => Some(Store(c, rs1, rs2, StoreImmOf(w))))
    else if op == OP_IMM then ImmInstrOf(w)
    else if op == OP_REG then
      (match RegOpOf(f3, Funct7Of(w)) case None => None case Some(c) => Some(OpReg(c, rd, rs1, rs2)))
    else None
  }

  // ------------------------------------------------------------ architectural state

  /** Entries never written read as zero, the value the reset of the register file leaves. */
  datatype RegName = X(n: Reg)
  datatype Address = Address(a: Word)

  type RegFile = map<RegName, Word>
  type Memory = map<Address, Byte>

  datatype Arch = Arch(pc: Word, regs: RegFile, mem: Memory)

  function RegRead(regs: RegFile, r: Reg): Word {
    if r != 0 && X(r) in regs then regs[X(r)] else 0
  }

  function RegWrite(regs: RegFile, r: Reg, v: Word): RegFile {
    if r == 0 then regs else regs[X(r) := v]
  }

  function ByteAt(mem: Memory, a: Word): Byte {
    if Address(a) in mem then mem[Address(a)] else 0
  }

  function SetByte(mem: Memory, a: Word, b: Byte): Memory { mem[Address(a) := b] }

  lemma SetByteAt(mem: Memory, a: Word, b: Byte, x: Word)
    ensures ByteAt(SetByte(mem, a, b), x) == if x == a then b else ByteAt(mem, x)
  {
  }

  predicate Distinct4(a0: Word, a1: Word, a2: Word, a3: Word) {
    a0 != a1 && a0 != a2 && a0 != a3 && a1 != a2 && a1 != a3 && a2 != a3
  }

  lemma ConsecutiveDistinct(a: Word)
    ensures Distinct4(a, a + 1, a + 2, a + 3)
  {
  }

  /** Little-endian composition. */
  function Join4(b3: Byte, b2: Byte, b1: Byte, b0: Byte): Word {
    ((b3 as Word) << 24) | ((b2 as Word) << 16) | ((b1 as Word) << 8) | (b0 as Word)
  }

  function Join2(b1: Byte, b0: Byte): bv16 {
    ((b1 as bv16) << 8) | (b0 as bv16)
  }

  function ReadWord(mem: Memory, a: Word): Word {
    Join4(ByteAt(mem, a + 3), ByteAt(mem, a + 2), ByteAt(mem, a + 1), ByteAt(mem, a))
  }

  function ByteOf0(v: Word): Byte { (v & 0xff) as Byte }
  function ByteOf1(v: Word): Byte { ((v >> 8) & 0xff) as Byte }
  function ByteOf2(v: Word): Byte { ((v >> 16) & 0xff) as Byte }
  function ByteOf3(v: Word): Byte { ((v >> 24) & 0xff) as Byte }

  function SignExtend8(b: Byte): Word { if b & 0x80 != 0 then 0xffffff00 | (b as Word) else b as Word }
  function SignExtend16(h: bv16): Word { if h & 0x8000 != 0 then 0xffff0000 | (h as Word) else h as Word }
  function SignExtend12(i: bv12): Word { if i & 0x800 != 0 then 0xfffff000 | (i as Word) else i as Word }
  function SignExtend20(i: bv20): Word { if i & 0x80000 != 0 then 0xfff00000 | (i as Word) else i as Word }

  // The word operations, each behind a name of its own.

  function Plus(a: Word, b: Word): Word { a + b }
  function Minus(a: Word, b: Word): Word { a - b }
  function BitXor(a: Word, b: Word): Word { a ^ b }
  function BitOr(a: Word, b: Word): Word { a | b }
  function BitAnd(a: Word, b: Word): Word { a & b }
  function Amount(b: Word): (n: Word) ensures n < 32 { b & 31 }
  function ShiftLeft(a: Word, n: Word): Word requires n < 32 { a << n }
  function ShiftRight(a: Word, n: Word): Word requires n < 32 { a >> n }
  predicate Less(a: Word, b: Word) { a < b }

  function NextPc(pc: Word): Word { pc + 4 }
  function EvenTarget(a: Word): Word { a & 0xfffffffe }
  function UpperImm(u: bv20): Word { (u as Word) << 12 }
  function JumpOffset(h: bv20): Word { SignExtend20(h) << 1 }
  function BranchOffset(d: bv12): Word { SignExtend12(d) << 1 }
  function ShiftAmount(sh: bv5): (n: Word) ensures n < 32 { sh as Word }

  predicate Negative(w: Word) { w & 0x80000000 != 0 }

  /** Two's-complement order. */
  predicate SignedLess(a: Word, b: Word) {
    if Negative(a) != Negative(b) then Negative(a) else a < b
  }

  /** Shift right copying the sign bit: shift the complement of a negative number. */
  function ShiftRightArith(a: Word, n: Word): Word
    requires n < 32
  {
    if Negative(a) then !((!a) >> n) else a >> n
  }

  function Flag(b: bool): Word { if b then 1 else 0 }

  predicate Taken(c: BranchOp, a: Word, b: Word) {
    match c
    case Beq => a == b
    case Bne => a != b
    case Blt => SignedLess(a, b)
    case Bge => !SignedLess(a, b)
    case Bltu => Less(a, b)
    case Bgeu => !Less(a, b)
  }

  function RegResult(op: RegOp, a: Word, b: Word): Word {
    match op
    case Add => Plus(a, b)
    case Sub => Minus(a, b)
    case Sll => ShiftLeft(a, Amount(b))
    case Slt => Flag(SignedLess(a, b))
    case Sltu => Flag(Less(a, b))
    case Xor => BitXor(a, b)
    case Srl => ShiftRight(a, Amount(b))
    case Sra => ShiftRightArith(a, Amount(b))
    case Or => BitOr(a, b)
    case And => BitAnd(a, b)
  }

  function ImmResult(op: ImmOp, a: Word, imm: Word): Word {
    match op
    case Addi => Plus(a, imm)
    case Slti => Flag(SignedLess(a, imm))
    case Sltiu => Flag(Less(a, imm))
    case Xori => BitXor(a, imm)
    case Ori => BitOr(a, imm)
    case Andi => BitAnd(a, imm)
  }

  function ShiftResult(op: ShiftOp, a: Word, n: Word): Word
    requires n < 32
  {
    match op case Slli => ShiftLeft(a, n) case Srli => ShiftRight(a, n) case Srai => ShiftRightArith(a, n)
  }

  /** A load keeps a byte, a half or a word and extends it. */
  function Widen(op: LoadOp, b: Byte, h: bv16, w: Word): Word {
    match op
    case Lb => SignExtend8(b)
    case Lh => SignExtend16(h)
    case Lw => w
    case Lbu => b as Word
    case Lhu => h as Word
  }

  /** The value of a load from the bytes at and after its address. */
  function LoadFrom(op: LoadOp, b0: Byte, b1: Byte, b2: Byte, b3: Byte): Word {
    Widen(op, b0, Join2(b1, b0), Join4(b3, b2, b1, b0))
  }

  function LoadResult(op: LoadOp, mem: Memory, a: Word): Word {
    LoadFrom(op, ByteAt(mem, a), ByteAt(mem, a + 1), ByteAt(mem, a + 2), ByteAt(mem, a + 3))
  }

  /** The memory after a store to the consecutive addresses a0 to a3, of which narrow stores use a prefix. */
  function StoreTo(op: StoreOp, mem: Memory, a0: Word, a1: Word, a2: Word, a3: Word, v: Word): Memory {
    match op
    case Sb => SetByte(mem, a0, ByteOf0(v))
    case Sh => SetByte(SetByte(mem, a0, ByteOf0(v)), a1, ByteOf1(v))
    case Sw => SetByte(SetByte(SetByte(SetByte(mem, a0, ByteOf0(v)), a1, ByteOf1(v)), a2, ByteOf2(v)), a3, ByteOf3(v))
  }

  function StoreResult(op: StoreOp, mem: Memory, a: Word, v: Word): Memory {
    StoreTo(op, mem, a, a + 1, a + 2, a + 3, v)
  }

  /** The effective address of a load or store. */
  function DataAddress(s: Arch, i: Instr): Word
    requires i.Load? || i.Store?
  {
    Plus(RegRead(s.regs, i.rs1), SignExtend12(i.imm))
  }

  predicate AlignedLoad(op: LoadOp, a: Word) {
    match op case Lw => a & 3 == 0 case Lh => a & 1 == 0 case Lhu => a & 1 == 0 case _ => true
  }

  predicate AlignedStore(op: StoreOp, a: Word) {
    match op case Sw => a & 3 == 0 case Sh => a & 1 == 0 case Sb => true
  }

  /** Data accesses on their natural boundary. */
  predicate NaturallyAligned(s: Arch, i: Instr) {
    match i
    case Load(c, _, _, _) => AlignedLoad(c, DataAddress(s, i))
    case Store(c, _, _, _) => AlignedStore(c, DataAddress(s, i))
    case _ => true
  }

  function WriteAndAdvance(s: Arch, rd: Reg, v: Word): Arch {
    Arch(NextPc(s.pc), RegWrite(s.regs, rd, v), s.mem)
  }

  /** What one instruction does. */
  function Execute(s: Arch, i: Instr): Arch {
    match i
    case Lui(rd, u) => WriteAndAdvance(s, rd, UpperImm(u))
    case Auipc(rd, u) => WriteAndAdvance(s, rd, Plus(s.pc, UpperImm(u)))
    case Jal(rd, h) => Arch(Plus(s.pc, JumpOffset(h)), RegWrite(s.regs, rd, NextPc(s.pc)), s.mem)
    case Jalr(rd, rs1, imm) =>
      Arch(EvenTarget(Plus(RegRead(s.regs, rs1), SignExtend12(imm))), RegWrite(s.regs, rd, NextPc(s.pc)), s.mem)
    case Branch(c, rs1, rs2, d) =>
      if Taken(c, RegRead(s.regs, rs1), RegRead(s.regs, rs2)) then s.(pc := Plus(s.pc, BranchOffset(d)))
      else s.(pc := NextPc(s.pc))
    case Load(c, rd, _, _) => WriteAndAdvance(s, rd, LoadResult(c, s.mem, DataAddress(s, i)))
    case Store(c, _, rs2, _) =>
      Arch(NextPc(s.pc), s.regs, StoreResult(c, s.mem, DataAddress(s, i), RegRead(s.regs, rs2)))
    case OpImm(c, rd, rs1, imm) => WriteAndAdvance(s, rd, ImmResult(c, RegRead(s.regs, rs1), SignExtend12(imm)))
    case ShiftImm(c, rd, rs1, sh) => WriteAndAdvance(s, rd, ShiftResult(c, RegRead(s.regs, rs1), ShiftAmount(sh)))
    case OpReg(c, rd, rs1, rs2) =>
      WriteAndAdvance(s, rd, RegResult(c, RegRead(s.regs, rs1), RegRead(s.regs, rs2)))
  }

  // ------------------------------------------------------------ the two directions of the encoding

  lemma PackFields(hi: bv12, rs1: Reg, f3: bv3, rd: Reg, op: bv7)
    ensures var w := Pack(hi, rs1, f3, rd, op);
            Hi12Of(w) == hi && Rs1Of(w) == rs1 && Funct3Of(w) == f3 && RdOf(w) == rd && OpcodeOf(w) == op
  {
  }

  lemma PackRFields(f7: bv7, rs2: Reg, rs1: Reg, f3: bv3, rd: Reg, op: bv7)
    ensures var w := PackR(f7, rs2, rs1, f3, rd, op);
            && Funct7Of(w) == f7 && Rs2Of(w) == rs2 && Rs1Of(w) == rs1
            && Funct3Of(w) == f3 && RdOf(w) == rd && OpcodeOf(w) == op
  {
  }

  lemma PackUFields(u: bv20, rd: Reg, op: bv7)
    ensures var w := PackU(u, rd, op); Hi20Of(w) == u && RdOf(w) == rd && OpcodeOf(w) == op
  {
  }

  lemma PackBFields(d: bv12, rs2: Reg, rs1: Reg, f3: bv3)
    ensures var w := PackB(d, rs2, rs1, f3);
            BranchDispOf(w) == d && Rs2Of(w) == rs2 && Rs1Of(w) == rs1 && Funct3Of(w) == f3 && OpcodeOf(w) == OP_BR
  {
  }

  lemma PackSFields(imm: bv12, rs2: Reg, rs1: Reg, f3: bv3)
    ensures var w := PackS(imm, rs2, rs1, f3);
            StoreImmOf(w) == imm && Rs2Of(w) == rs2 && Rs1Of(w) == rs1 && Funct3Of(w) == f3 && OpcodeOf(w) == OP_STORE
  {
  }

  lemma PackJFields(h: bv20, rd: Reg)
    ensures var w := PackJ(h, rd); JumpDispOf(w) == h && RdOf(w) == rd && OpcodeOf(w) == OP_JAL
  {
  }

  lemma DecodeEncodeU(i: Instr)
    requires i.Lui? || i.Auipc? || i.Jal?
    ensures Decode(Encode(i)) == Some(i)
  {
    match i
    case Lui(rd, u) => PackUFields(u, rd, OP_LUI);
    case Auipc(rd, u) => PackUFields(u, rd, OP_AUIPC);
    case Jal(rd, h) => PackJFields(h, rd);
  }

  lemma DecodeEncodeMem(i: Instr)
    requires i.Jalr? || i.Load? || i.Store?
    ensures Decode(Encode(i)) == Some(i)
  {
    match i
    case Jalr(rd, rs1, imm) => PackFields(imm, rs1, 0, rd, OP_JALR);
    case Load(c, rd, rs1, imm) => PackFields(imm, rs1, LoadCode(c), rd, OP_LOAD);
    case Store(c, rs1, rs2, imm) => PackSFields(imm, rs2, rs1, StoreCode(c));
  }

  lemma DecodeEncodeBranch(i: Instr)
    requires i.Branch?
    ensures Decode(Encode(i)) == Some(i)
  {
    PackBFields(i.disp, i.rs2, i.rs1, BranchCode(i.br));
  }

  lemma DecodeEncodeImm(i: Instr)
    requires i.OpImm? || i.ShiftImm?
    ensures Decode(Encode(i)) == Some(i)
  {
    match i
    case OpImm(c, rd, rs1, imm) => PackFields(imm, rs1, ImmCode(c), rd, OP_IMM);
    case ShiftImm(c, rd, rs1, sh) => PackRFields(if c == Srai then 0x20 else 0, sh, rs1, ShiftCode(c), rd, OP_IMM);
  }

  lemma DecodeEncodeReg(i: Instr)
    requires i.OpReg?
    ensures Decode(Encode(i)) == Some(i)
  {
    PackRFields(if i.rop == Sub || i.rop == Sra then 0x20 else 0, i.rs2, i.rs1, RegCode(i.rop), i.rd, OP_REG);
  }

  /** Every instruction survives encoding and decoding. */
  lemma DecodeEncode(i: Instr)
    ensures Decode(Encode(i)) == Some(i)
  {
    if i.Lui? || i.Auipc? || i.Jal? {
      DecodeEncodeU(i);
    } else if i.Jalr? || i.Load? || i.Store? {
      DecodeEncodeMem(i);
    } else if i.Branch? {
      DecodeEncodeBranch(i);
    } else if i.OpReg? {
      DecodeEncodeReg(i);
    } else {
      DecodeEncodeImm(i);
    }
  }

  lemma RepackI(w: Word)
    ensures Pack(Hi12Of(w), Rs1Of(w), Funct3Of(w), RdOf(w), OpcodeOf(w)) == w
  {
  }

  lemma RepackR(w: Word)
    ensures PackR(Funct7Of(w), Rs2Of(w), Rs1Of(w), Funct3Of(w), RdOf(w), OpcodeOf(w)) == w
  {
  }

  lemma RepackU(w: Word)
    ensures PackU(Hi20Of(w), RdOf(w), OpcodeOf(w)) == w
  {
  }

  lemma RepackB(w: Word)
    requires OpcodeOf(w) == OP_BR
    ensures PackB(BranchDispOf(w), Rs2Of(w), Rs1Of(w), Funct3Of(w)) == w
  {
  }

  lemma RepackS(w: Word)
    requires OpcodeOf(w) == OP_STORE
    ensures PackS(StoreImmOf(w), Rs2Of(w), Rs1Of(w), Funct3Of(w)) == w
  {
  }

  lemma RepackJ(w: Word)
    requires OpcodeOf(w) == OP_JAL
    ensures PackJ(JumpDispOf(w), RdOf(w)) == w
  {
  }

  predicate Wide(op: bv7) { op == OP_LUI || op == OP_AUIPC || op == OP_JAL || op == OP_BR || op == OP_STORE }

  lemma EncodeDecodeWide(w: Word)
    requires Decode(w).Some? && Wide(OpcodeOf(w))
    ensures Encode(Decode(w).value) == w
  {
    var op := OpcodeOf(w);
    if op == OP_LUI || op == OP_AUIPC {
      RepackU(w);
    } else if op == OP_JAL {
      RepackJ(w);
    } else if op == OP_BR {
      RepackB(w);
    } else {
      RepackS(w);
    }
  }

  lemma EncodeDecodeNarrow(w: Word)
    requires Decode(w).Some? && !Wide(OpcodeOf(w))
    ensures Encode(Decode(w).value) == w
  {
    RepackI(w);
    RepackR(w);
  }

  /** Conversely a decodable word is the encoding of what it decodes to, so decoding loses nothing. */
  lemma EncodeDecode(w: Word)
    requires Decode(w).Some?
    ensures Encode(Decode(w).value) == w
  {
    if Wide(OpcodeOf(w)) {
      EncodeDecodeWide(w);
    } else {
      EncodeDecodeNarrow(w);
    }
  }
}

/**
 * What the instructions mean in numbers. A step is described by integer arithmetic on the numbers of program counter,
 * registers and memory bytes, without any word operation; the steps of the instruction set, and so those of the
 * processor, have this meaning and no other.
 */
module RvMeaning {
  import opened RvIsa
  import opened Binary
  import opened RvNumbers
  import opened RvFields
  import RvRefine

  // ------------------------------------------------------------ operations

  /** r is x combined with y digit by digit. */
  ghost predicate Combined(g: (bool, bool) -> bool, x: int, y: int, r: int) {
    0 <= x && 0 <= y && 0 <= r && forall n: nat | n < 32 :: DigitAt(r, n) == g(DigitAt(x, n), DigitAt(y, n))
  }

  function Truth(b: bool): int { if b then 1 else 0 }

  /** r is the number an operation on the numbers x and y delivers; the shifts use the last five digits of y. */
  ghost predicate Operates(op: RegOp, x: int, y: int, r: int) {
    match op
    case Add => r == (x + y) % TWO32
    case Sub => r == (x - y) % TWO32
    case Sll => r == x * Pow2(y % 32) % TWO32
    case Slt => r == Truth(InTwosComplement(x) < InTwosComplement(y))
    case Sltu => r == Truth(x < y)
    case Xor => Combined(One, x, y, r)
    case Srl => r == x / Pow2(y % 32)
    case Sra => InTwosComplement(r) == InTwosComplement(x) / Pow2(y % 32)
    case Or => Combined(Any, x, y, r)
    case And => Combined(Both, x, y, r)
  }

  lemma FlagValue(b: bool)
    ensures Value(Flag(b)) == Truth(b)
  {
    ValueIsInt(Flag(b));
  }

  lemma XorMeans(a: Word, b: Word)
    ensures Combined(One, Value(a), Value(b), Value(BitXor(a, b)))
  {
    forall n: nat | n < 32
      ensures DigitAt(Value(BitXor(a, b)), n) == One(DigitAt(Value(a), n), DigitAt(Value(b), n))
    {
      XorBits(a, b, n);
    }
  }

  lemma OrMeans(a: Word, b: Word)
    ensures Combined(Any, Value(a), Value(b), Value(BitOr(a, b)))
  {
    forall n: nat | n < 32
      ensures DigitAt(Value(BitOr(a, b)), n) == Any(DigitAt(Value(a), n), DigitAt(Value(b), n))
    {
      OrBits(a, b, n);
    }
  }

  lemma AndMeans(a: Word, b: Word)
    ensures Combined(Both, Value(a), Value(b), Value(BitAnd(a, b)))
  {
    forall n: nat | n < 32
      ensures DigitAt(Value(BitAnd(a, b)), n) == Both(DigitAt(Value(a), n), DigitAt(Value(b), n))
    {
      AndBits(a, b, n);
    }
  }

  lemma ShiftMeans(op: RegOp, a: Word, n: Word, b: Word)
    requires (op == Sll || op == Srl || op == Sra) && n < 32 && Value(n) == Value(b) % 32
    ensures Operates(op, Value(a), Value(b), Value(match op case Sll => ShiftLeft(a, n) case Srl => ShiftRight(a, n) case _ => ShiftRightArith(a, n)))
  {
    match op
    case Sll => ShiftLeftValue(a, n);
    case Srl => ShiftRightValue(a, n);
    case _ => ShiftRightArithValue(a, n);
  }

  lemma SumMeans(op: RegOp, a: Word, b: Word)
    requires op == Add || op == Sub
    ensures Operates(op, Value(a), Value(b), Value(RegResult(op, a, b)))
  {
    if op == Add {
      PlusValue(a, b);
    } else {
      MinusValue(a, b);
    }
  }

  lemma OrderMeans(op: RegOp, a: Word, b: Word)
    requires op == Slt || op == Sltu
    ensures Operates(op, Value(a), Value(b), Value(RegResult(op, a, b)))
  {
    if op == Slt {
      SignedLessValue(a, b);
      FlagValue(SignedLess(a, b));
    } else {
      LessValue(a, b);
      FlagValue(Less(a, b));
    }
  }

  lemma BitwiseMeans(op: RegOp, a: Word, b: Word)
    requires op == Xor || op == Or || op == And
    ensures Operates(op, Value(a), Value(b), Value(RegResult(op, a, b)))
  {
    match op
    case Xor => XorMeans(a, b);
    case Or => OrMeans(a, b);
    case And => AndMeans(a, b);
  }

  lemma ShiftedMeans(op: RegOp, a: Word, b: Word)
    requires op == Sll || op == Srl || op == Sra
    ensures Operates(op, Value(a), Value(b), Value(RegResult(op, a, b)))
  {
    AmountValue(b);
    ShiftMeans(op, a, Amount(b), b);
  }

  /** The result of a register operation is the number the operation delivers. */
  lemma RegResultMeans(op: RegOp, a: Word, b: Word)
    ensures Operates(op, Value(a), Value(b), Value(RegResult(op, a, b)))
  {
    if op == Add || op == Sub {
      SumMeans(op, a, b);
    } else if op == Slt || op == Sltu {
      OrderMeans(op, a, b);
    } else if op == Xor || op == Or || op == And {
      BitwiseMeans(op, a, b);
    } else {
      ShiftedMeans(op, a, b);
    }
  }

  /** The operation an immediate form carries out. */
  function RegOpOfImm(op: ImmOp): RegOp {
    match op case Addi => Add case Slti => Slt case Sltiu => Sltu case Xori => Xor case Ori => Or case Andi => And
  }

  function RegOpOfShift(op: ShiftOp): RegOp { match op case Slli => Sll case Srli => Srl case Srai => Sra }

  lemma ImmResultMeans(op: ImmOp, a: Word, imm: Word)
    ensures Operates(RegOpOfImm(op), Value(a), Value(imm), Value(ImmResult(op, a, imm)))
  {
    ImmIsReg(op, a, imm);
    RegResultMeans(RegOpOfImm(op), a, imm);
  }

  lemma ImmIsReg(op: ImmOp, a: Word, imm: Word)
    ensures ImmResult(op, a, imm) == RegResult(RegOpOfImm(op), a, imm)
  {
  }

  lemma SmallAmount(n: Word)
    requires n < 32
    ensures Value(n) == Value(n) % 32
  {
    ShiftWordValue(n);
  }

  lemma ShiftResultMeans(op: ShiftOp, a: Word, n: Word)
    requires n < 32
    ensures Operates(RegOpOfShift(op), Value(a), Value(n), Value(ShiftResult(op, a, n)))
  {
    SmallAmount(n);
    ShiftMeans(RegOpOfShift(op), a, n, n);
  }

  predicate Holds(c: BranchOp, x: int, y: int) {
    match c
    case Beq => x == y
    case Bne => x != y
    case Blt => InTwosComplement(x) < InTwosComplement(y)
    case Bge => InTwosComplement(x) >= InTwosComplement(y)
    case Bltu => x < y
    case Bgeu => x >= y
  }

  lemma TakenMeans(c: BranchOp, a: Word, b: Word)
    ensures Taken(c, a, b) <==> Holds(c, Value(a), Value(b))
  {
    LessValue(a, b);
    SignedLessValue(a, b);
    if Value(a) == Value(b) {
      ValueInjective(a, b);
    }
  }

  // ------------------------------------------------------------ memory

  /** The number of the n bytes from a on, the first one lowest. */
  function NumberAt(mem: Memory, a: Word, n: nat): nat
    decreases n
  {
    if n == 0 then 0 else ByteAt(mem, a) as int + 0x100 * NumberAt(mem, Next(a), n - 1)
  }

  function LoadWidth(op: LoadOp): nat { match op case Lb => 1 case Lbu => 1 case Lh => 2 case Lhu => 2 case Lw => 4 }
  function StoreWidth(op: StoreOp): nat { match op case Sb => 1 case Sh => 2 case Sw => 4 }

  /** r is what a load makes of the number n in memory. */
  predicate Loads(op: LoadOp, n: int, r: int) {
    match op
    case Lb => InTwosComplement(r) == Narrow(n, 0x80)
    case Lh => InTwosComplement(r) == Narrow(n, 0x8000)
    case _ => r == n
  }

  /** The digit of v to the base 256 at place n. */
  function Place(v: int, n: nat): int { v / Pow2(8 * n) % 0x100 }

  function ByteNumber(b: Byte): int { b as int }

  /** The byte at x after a store: a digit of v from a on, and elsewhere the one before. */
  ghost predicate StoredAt(mem: Memory, mem2: Memory, a: Word, width: nat, v: int, x: Word) {
    if 0 <= Value(x) - Value(a) < width then ByteNumber(ByteAt(mem2, x)) == Place(v, Value(x) - Value(a))
    else ByteAt(mem2, x) == ByteAt(mem, x)
  }

  /** Afterwards the bytes from a on are the digits of v to the base 256, and all others are as before. */
  ghost predicate Stores(mem: Memory, mem2: Memory, a: Word, width: nat, v: int) {
    forall x: Word :: StoredAt(mem, mem2, a, width, v, x)
  }

  // ------------------------------------------------------------ steps

  /** What an instruction delivers to its destination register. */
  datatype Result = Exactly(n: int) | Computed(op: RegOp, x: int, y: int) | Loaded(ld: LoadOp, m: int)

  ghost predicate Delivers(o: Result, v: int) {
    match o
    case Exactly(n) => v == n
    case Computed(op, x, y) => Operates(op, x, y, v)
    case Loaded(ld, m) => Loads(ld, m, v)
  }

  function At(regs: RegFile, r: Reg): int { Value(RegRead(regs, r)) }

  /** Register rd receives the result, unless it is the zero register, and the others are as before. */
  ghost predicate Receives(regs: RegFile, regs2: RegFile, rd: Reg, o: Result) {
    && (forall r: Reg :: r != rd || r == 0 ==> RegRead(regs2, r) == RegRead(regs, r))
    && (rd != 0 ==> Delivers(o, At(regs2, rd)))
  }

  ghost predicate Follows(pc: Word, pc2: Word) { Value(pc2) == (Value(pc) + 4) % TWO32 }

  /** The next instruction follows, memory is as before, and rd receives the result. */
  ghost predicate Computes(s: Arch, t: Arch, rd: Reg, o: Result) {
    Follows(s.pc, t.pc) && t.mem == s.mem && Receives(s.regs, t.regs, rd, o)
  }

  /** Control goes on at the number target, and rd receives the number of the next instruction. */
  ghost predicate Links(s: Arch, t: Arch, rd: Reg, target: int) {
    Value(t.pc) == target && t.mem == s.mem && Receives(s.regs, t.regs, rd, Exactly((Value(s.pc) + 4) % TWO32))
  }

  /** The word a is the address of a memory access. */
  ghost predicate Addresses(regs: RegFile, rs1: Reg, imm: bv12, a: Word) {
    Value(a) == (At(regs, rs1) + Signed12(imm)) % TWO32
  }

  function EvenBelow(n: int): int { n - n % 2 }

  predicate IsPlain(i: Instr) { i.Lui? || i.Auipc? || i.OpImm? || i.ShiftImm? || i.OpReg? }

  /** What the instructions without jump and memory access deliver. */
  function ResultOf(s: Arch, i: Instr): Result
    requires IsPlain(i)
  {
    match i
    case Lui(_, u) => Exactly(0x1000 * (u as int))
    case Auipc(_, u) => Exactly((Value(s.pc) + 0x1000 * (u as int)) % TWO32)
    case OpImm(c, _, rs1, imm) => Computed(RegOpOfImm(c), At(s.regs, rs1), Signed12(imm) % TWO32)
    case ShiftImm(c, _, rs1, sh) => Computed(RegOpOfShift(c), At(s.regs, rs1), sh as int)
    case OpReg(c, _, rs1, rs2) => Computed(c, At(s.regs, rs1), At(s.regs, rs2))
  }

  /** Where a jump goes; an indirect one to the largest even number not above its sum. */
  function TargetOf(s: Arch, i: Instr): int
    requires i.Jal? || i.Jalr?
  {
    match i
    case Jal(_, h) => (Value(s.pc) + 2 * Signed20(h)) % TWO32
    case Jalr(_, rs1, imm) => EvenBelow((At(s.regs, rs1) + Signed12(imm)) % TWO32)
  }

  /** What instruction i makes of state s is state t. */
  ghost predicate Means(s: Arch, i: Instr, t: Arch) {
    match i
    case Branch(c, rs1, rs2, d) =>
      && t.mem == s.mem && t.regs == s.regs
      && if Holds(c, At(s.regs, rs1), At(s.regs, rs2)) then Value(t.pc) == (Value(s.pc) + 2 * Signed12(d)) % TWO32
         else Follows(s.pc, t.pc)
    case Load(c, rd, rs1, imm) =>
      forall a: Word | Addresses(s.regs, rs1, imm, a) :: Computes(s, t, rd, Loaded(c, NumberAt(s.mem, a, LoadWidth(c))))
    case Store(c, rs1, rs2, imm) =>
      && Follows(s.pc, t.pc) && t.regs == s.regs
      && forall a: Word | Addresses(s.regs, rs1, imm, a) :: Stores(s.mem, t.mem, a, StoreWidth(c), At(s.regs, rs2))
    case Jal(rd, _) => Links(s, t, rd, TargetOf(s, i))
    case Jalr(rd, _, _) => Links(s, t, rd, TargetOf(s, i))
    case _ => Computes(s, t, i.rd, ResultOf(s, i))
  }

  // ------------------------------------------------------------ the instruction set means this

  lemma WriteReceives(regs: RegFile, rd: Reg, v: Word, o: Result)
    requires Delivers(o, Value(v))
    ensures Receives(regs, RegWrite(regs, rd, v), rd, o)
  {
  }

  lemma Advances(s: Arch, rd: Reg, v: Word, o: Result)
    requires Delivers(o, Value(v))
    ensures Computes(s, WriteAndAdvance(s, rd, v), rd, o)
  {
    NextPcValue(s.pc);
    WriteReceives(s.regs, rd, v, o);
  }

  lemma LuiMeans(s: Arch, i: Instr)
    requires i.Lui?
    ensures Means(s, i, Execute(s, i))
  {
    UpperImmValue(i.upper);
    Advances(s, i.rd, UpperImm(i.upper), ResultOf(s, i));
  }

  lemma AuipcValue(pc: Word, u: bv20)
    ensures Value(Plus(pc, UpperImm(u))) == (Value(pc) + 0x1000 * (u as int)) % TWO32
  {
    UpperImmValue(u);
    PlusValue(pc, UpperImm(u));
  }

  lemma AuipcMeans(s: Arch, i: Instr)
    requires i.Auipc?
    ensures Means(s, i, Execute(s, i))
  {
    AuipcValue(s.pc, i.upper);
    Advances(s, i.rd, Plus(s.pc, UpperImm(i.upper)), ResultOf(s, i));
  }

  lemma LinksTo(s: Arch, rd: Reg, pc: Word, next: Word, target: int)
    requires Value(pc) == target && Value(next) == (Value(s.pc) + 4) % TWO32
    ensures Links(s, Arch(pc, RegWrite(s.regs, rd, next), s.mem), rd, target)
  {
    WriteReceives(s.regs, rd, next, Exactly((Value(s.pc) + 4) % TWO32));
  }

  lemma JumpLinks(s: Arch, rd: Reg, pc: Word, target: int)
    requires Value(pc) == target
    ensures Links(s, Arch(pc, RegWrite(s.regs, rd, NextPc(s.pc)), s.mem), rd, target)
  {
    NextPcValue(s.pc);
    LinksTo(s, rd, pc, NextPc(s.pc), target);
  }

  lemma JalMeans(s: Arch, i: Instr)
    requires i.Jal?
    ensures Means(s, i, Execute(s, i))
  {
    JumpOffsetValue(i.halfwords);
    PlusSigned(s.pc, JumpOffset(i.halfwords), 2 * Signed20(i.halfwords), Value(s.pc), Value(Plus(s.pc, JumpOffset(i.halfwords))));
    JumpLinks(s, i.rd, Plus(s.pc, JumpOffset(i.halfwords)), TargetOf(s, i));
  }

  lemma AddressMeans(regs: RegFile, rs1: Reg, imm: bv12)
    ensures Addresses(regs, rs1, imm, Plus(RegRead(regs, rs1), SignExtend12(imm)))
  {
    SignExtend12Value(imm);
    var a := RegRead(regs, rs1);
    PlusSigned(a, SignExtend12(imm), Signed12(imm), Value(a), Value(Plus(a, SignExtend12(imm))));
  }

  lemma JalrTarget(regs: RegFile, rs1: Reg, imm: bv12, a: Word)
    requires a == Plus(RegRead(regs, rs1), SignExtend12(imm))
    ensures Value(EvenTarget(a)) == EvenBelow((At(regs, rs1) + Signed12(imm)) % TWO32)
  {
    AddressMeans(regs, rs1, imm);
    EvenTargetValue(a);
  }

  lemma JalrMeans(s: Arch, i: Instr)
    requires i.Jalr?
    ensures Means(s, i, Execute(s, i))
  {
    var a := Plus(RegRead(s.regs, i.rs1), SignExtend12(i.imm));
    JalrTarget(s.regs, i.rs1, i.imm, a);
    JumpLinks(s, i.rd, EvenTarget(a), TargetOf(s, i));
  }

  lemma BranchMeans(s: Arch, i: Instr)
    requires i.Branch?
    ensures Means(s, i, Execute(s, i))
  {
    NextPcValue(s.pc);
    TakenMeans(i.br, RegRead(s.regs, i.rs1), RegRead(s.regs, i.rs2));
    BranchOffsetValue(i.disp);
    PlusSigned(s.pc, BranchOffset(i.disp), 2 * Signed12(i.disp), Value(s.pc), Value(Plus(s.pc, BranchOffset(i.disp))));
  }

  lemma SignedIsMod(v: int)
    requires 0 <= v < TWO32
    ensures InTwosComplement(v) % TWO32 == v
  {
  }

  lemma ImmediateMeans(imm: bv12)
    ensures Value(SignExtend12(imm)) == Signed12(imm) % TWO32
  {
    SignExtend12Value(imm);
    ValueRange(SignExtend12(imm));
    SignedIsMod(Value(SignExtend12(imm)));
  }

  lemma OpImmMeans(s: Arch, i: Instr)
    requires i.OpImm?
    ensures Means(s, i, Execute(s, i))
  {
    var x, e := RegRead(s.regs, i.rs1), SignExtend12(i.imm);
    ImmediateMeans(i.imm);
    ImmResultMeans(i.iop, x, e);
    Advances(s, i.rd, ImmResult(i.iop, x, e), ResultOf(s, i));
  }

  lemma ShiftImmMeans(s: Arch, i: Instr)
    requires i.ShiftImm?
    ensures Means(s, i, Execute(s, i))
  {
    var x, n := RegRead(s.regs, i.rs1), ShiftAmount(i.shamt);
    ShiftAmountValue(i.shamt);
    ShiftResultMeans(i.sop, x, n);
    Advances(s, i.rd, ShiftResult(i.sop, x, n), ResultOf(s, i));
  }

  lemma OpRegMeans(s: Arch, i: Instr)
    requires i.OpReg?
    ensures Means(s, i, Execute(s, i))
  {
    var x, y := RegRead(s.regs, i.rs1), RegRead(s.regs, i.rs2);
    RegResultMeans(i.rop, x, y);
    Advances(s, i.rd, RegResult(i.rop, x, y), ResultOf(s, i));
  }

  // ------------------------------------------------------------ loads and stores

  lemma RawNext(a: Word)
    ensures Next(a) == a + 1 && Next(a + 1) == a + 2 && Next(a + 2) == a + 3
  {
  }

  lemma NumberAtIs(mem: Memory, a: Word)
    ensures NumberAt(mem, a, 1) == ByteAt(mem, a) as int
    ensures NumberAt(mem, a, 2) == ByteAt(mem, a) as int + 0x100 * (ByteAt(mem, a + 1) as int)
    ensures NumberAt(mem, a, 4) == ByteAt(mem, a) as int + 0x100 * (ByteAt(mem, a + 1) as int) +
                                   0x10000 * (ByteAt(mem, a + 2) as int) + 0x1000000 * (ByteAt(mem, a + 3) as int)
  {
    RawNext(a);
    assert NumberAt(mem, a + 3, 1) == ByteAt(mem, a + 3) as int;
    assert NumberAt(mem, a + 2, 2) == ByteAt(mem, a + 2) as int + 0x100 * NumberAt(mem, a + 3, 1);
    assert NumberAt(mem, a + 1, 3) == ByteAt(mem, a + 1) as int + 0x100 * NumberAt(mem, a + 2, 2);
    assert NumberAt(mem, a + 1, 1) == ByteAt(mem, a + 1) as int;
  }

  lemma WidenMeans(op: LoadOp, b: Byte, h: bv16, w: Word)
    ensures Loads(op, if LoadWidth(op) == 1 then b as int else if LoadWidth(op) == 2 then h as int else Value(w),
                  Value(Widen(op, b, h, w)))
  {
    match op
    case Lb => SignExtend8Value(b);
    case Lh => SignExtend16Value(h);
    case Lw =>
    case Lbu => Cast8(b); ValueIsInt(b as Word);
    case Lhu => Cast16(h); ValueIsInt(h as Word);
  }

  lemma LoadResultMeans(op: LoadOp, mem: Memory, a: Word)
    ensures Loads(op, NumberAt(mem, a, LoadWidth(op)), Value(LoadResult(op, mem, a)))
  {
    var b0, b1, b2, b3 := ByteAt(mem, a), ByteAt(mem, a + 1), ByteAt(mem, a + 2), ByteAt(mem, a + 3);
    NumberAtIs(mem, a);
    Join2Value(b1, b0);
    Join4Value(b3, b2, b1, b0);
    WidenMeans(op, b0, Join2(b1, b0), Join4(b3, b2, b1, b0));
  }

  lemma AddressIs(regs: RegFile, rs1: Reg, imm: bv12, a: Word)
    requires Addresses(regs, rs1, imm, a)
    ensures a == Plus(RegRead(regs, rs1), SignExtend12(imm))
  {
    AddressMeans(regs, rs1, imm);
    ValueInjective(a, Plus(RegRead(regs, rs1), SignExtend12(imm)));
  }

  lemma LoadMeans(s: Arch, i: Instr)
    requires i.Load?
    ensures Means(s, i, Execute(s, i))
  {
    forall a: Word | Addresses(s.regs, i.rs1, i.imm, a)
      ensures Computes(s, Execute(s, i), i.rd, Loaded(i.ld, NumberAt(s.mem, a, LoadWidth(i.ld))))
    {
      AddressIs(s.regs, i.rs1, i.imm, a);
      LoadResultMeans(i.ld, s.mem, a);
      Advances(s, i.rd, LoadResult(i.ld, s.mem, a), Loaded(i.ld, NumberAt(s.mem, a, LoadWidth(i.ld))));
    }
  }

  lemma OffsetValue(a: Word, k: Word, n: int)
    requires Value(k) == n && Value(a) + n < TWO32
    ensures Value(a + k) == Value(a) + n
  {
    SmallSum(a, k, Value(a) + n);
    assert Plus(a, k) == a + k;
  }

  /** The word x is k bytes after a exactly when its number is k more. */
  lemma OffsetIs(a: Word, k: Word, n: int, x: Word)
    requires Value(k) == n && Value(a) + n < TWO32
    ensures x == a + k <==> Value(x) == Value(a) + n
  {
    OffsetValue(a, k, n);
    if Value(x) == Value(a) + n {
      ValueInjective(x, a + k);
    }
  }

  lemma MultipleFits(v: int, width: int)
    requires v < TWO32 && (width == 1 || (width == 2 && v % 2 == 0) || (width == 4 && v % 4 == 0))
    ensures v + width <= TWO32
  {
  }

  lemma AlignedFits(op: StoreOp, a: Word)
    requires AlignedStore(op, a)
    ensures Value(a) + StoreWidth(op) <= TWO32
  {
    AlignedValue(a);
    ValueRange(a);
    MultipleFits(Value(a), StoreWidth(op));
  }

  lemma Pow256()
    ensures Pow2(0) == 1 && Pow2(8) == 0x100 && Pow2(16) == 0x10000 && Pow2(24) == 0x1000000
  {
    assert Pow2(4) == 16 && Pow2(12) == 0x1000 && Pow2(20) == 0x100000 by {
      assert Pow2(2) == 4 && Pow2(6) == 64 && Pow2(10) == 1024 && Pow2(14) == 0x4000 && Pow2(18) == 0x40000;
    }
    assert Pow2(22) == 0x400000;
  }

  lemma PlaceNumbers(v: int)
    ensures Place(v, 0) == v % 0x100 && Place(v, 1) == v / 0x100 % 0x100
    ensures Place(v, 2) == v / 0x10000 % 0x100 && Place(v, 3) == v / 0x1000000 % 0x100
  {
    Pow256();
  }

  lemma PlacesOf(v: Word)
    ensures ByteOf0(v) as int == Place(Value(v), 0) && ByteOf1(v) as int == Place(Value(v), 1)
    ensures ByteOf2(v) as int == Place(Value(v), 2) && ByteOf3(v) as int == Place(Value(v), 3)
  {
    BytesValue(v);
    PlaceNumbers(Value(v));
  }

  /** What a store of the given width, of the bytes b0 to b3, leaves at an address that is its k-th when e_k holds. */
  function Kept<B>(width: nat, e0: bool, e1: bool, e2: bool, e3: bool, b0: B, b1: B, b2: B, b3: B, old0: B): B {
    if e0 then b0
    else if width > 1 && e1 then b1
    else if width > 2 && e2 then b2
    else if width > 3 && e3 then b3
    else old0
  }

  lemma StoreLeaves(op: StoreOp, mem: Memory, a: Word, v: Word, x: Word)
    ensures ByteAt(StoreResult(op, mem, a, v), x) ==
            Kept(StoreWidth(op), x == a, x == a + 1, x == a + 2, x == a + 3,
                 ByteOf0(v), ByteOf1(v), ByteOf2(v), ByteOf3(v), ByteAt(mem, x))
  {
    ConsecutiveDistinct(a);
    RvRefine.StoredByte(op, mem, a, a + 1, a + 2, a + 3, v, x);
  }

  lemma KeptMeans<B>(
      num: B -> int, place: nat -> int, width: nat, k: int, e0: bool, e1: bool, e2: bool, e3: bool, b0: B, b1: B, b2: B, b3: B, old0: B)
    requires 0 < width <= 4 && num(b0) == place(0) && num(b1) == place(1) && num(b2) == place(2) && num(b3) == place(3)
    requires (e0 <==> k == 0) && (width > 1 ==> (e1 <==> k == 1)) && (width > 2 ==> (e2 <==> k == 2))
    requires width > 3 ==> (e3 <==> k == 3)
    ensures var kept := Kept(width, e0, e1, e2, e3, b0, b1, b2, b3, old0);
            if 0 <= k < width then num(kept) == place(k) else kept == old0
  {
  }

  lemma BytesKept(width: nat, v: Word, k: int, e0: bool, e1: bool, e2: bool, e3: bool, old0: Byte)
    requires 0 < width <= 4
    requires (e0 <==> k == 0) && (width > 1 ==> (e1 <==> k == 1)) && (width > 2 ==> (e2 <==> k == 2))
    requires width > 3 ==> (e3 <==> k == 3)
    ensures var kept := Kept(width, e0, e1, e2, e3, ByteOf0(v), ByteOf1(v), ByteOf2(v), ByteOf3(v), old0);
            if 0 <= k < width then ByteNumber(kept) == Place(Value(v), k) else kept == old0
  {
    var place := (n: nat) => Place(Value(v), n);
    PlacesOf(v);
    KeptMeans(ByteNumber, place, width, k, e0, e1, e2, e3, ByteOf0(v), ByteOf1(v), ByteOf2(v), ByteOf3(v), old0);
  }

  lemma Offsets(a: Word, width: nat, x: Word)
    requires width <= 4 && Value(a) + width <= TWO32
    ensures width > 1 ==> (x == a + 1 <==> Value(x) - Value(a) == 1)
    ensures width > 2 ==> (x == a + 2 <==> Value(x) - Value(a) == 2)
    ensures width > 3 ==> (x == a + 3 <==> Value(x) - Value(a) == 3)
  {
    if width > 1 { Offset1(a, x); }
    if width > 2 { Offset2(a, x); }
    if width > 3 { Offset3(a, x); }
  }

  lemma Offset1(a: Word, x: Word)
    requires Value(a) + 1 < TWO32
    ensures x == a + 1 <==> Value(x) - Value(a) == 1
  {
    WideNumber(1, 1);
    OffsetIs(a, 1, 1, x);
  }

  lemma Offset2(a: Word, x: Word)
    requires Value(a) + 2 < TWO32
    ensures x == a + 2 <==> Value(x) - Value(a) == 2
  {
    WideNumber(2, 2);
    OffsetIs(a, 2, 2, x);
  }

  lemma Offset3(a: Word, x: Word)
    requires Value(a) + 3 < TWO32
    ensures x == a + 3 <==> Value(x) - Value(a) == 3
  {
    WideNumber(3, 3);
    OffsetIs(a, 3, 3, x);
  }

  lemma SameWord(x: Word, a: Word)
    ensures x == a <==> Value(x) - Value(a) == 0
  {
    if Value(x) == Value(a) {
      ValueInjective(x, a);
    }
  }

  lemma StoreAtMeans(op: StoreOp, mem: Memory, a: Word, v: Word, x: Word)
    requires Value(a) + StoreWidth(op) <= TWO32
    ensures StoredAt(mem, StoreResult(op, mem, a, v), a, StoreWidth(op), Value(v), x)
  {
    StoreLeaves(op, mem, a, v, x);
    SameWord(x, a);
    Offsets(a, StoreWidth(op), x);
    BytesKept(StoreWidth(op), v, Value(x) - Value(a), x == a, x == a + 1, x == a + 2, x == a + 3, ByteAt(mem, x));
  }

  lemma StoresAt(op: StoreOp, mem: Memory, a: Word, v: Word)
    requires Value(a) + StoreWidth(op) <= TWO32
    ensures Stores(mem, StoreResult(op, mem, a, v), a, StoreWidth(op), Value(v))
  {
    forall x: Word
      ensures StoredAt(mem, StoreResult(op, mem, a, v), a, StoreWidth(op), Value(v), x)
    {
      StoreAtMeans(op, mem, a, v, x);
    }
  }

  lemma StoreAtAddress(s: Arch, i: Instr, a: Word)
    requires i.Store? && NaturallyAligned(s, i) && Addresses(s.regs, i.rs1, i.imm, a)
    ensures Stores(s.mem, StoreResult(i.st, s.mem, DataAddress(s, i), RegRead(s.regs, i.rs2)), a, StoreWidth(i.st), At(s.regs, i.rs2))
  {
    AddressIs(s.regs, i.rs1, i.imm, a);
    AlignedFits(i.st, a);
    StoresAt(i.st, s.mem, a, RegRead(s.regs, i.rs2));
  }

  lemma StoreMeans(s: Arch, i: Instr)
    requires i.Store? && NaturallyAligned(s, i)
    ensures Means(s, i, Execute(s, i))
  {
    NextPcValue(s.pc);
    forall a: Word | Addresses(s.regs, i.rs1, i.imm, a)
      ensures Stores(s.mem, Execute(s, i).mem, a, StoreWidth(i.st), At(s.regs, i.rs2))
    {
      StoreAtAddress(s, i, a);
    }
  }

  /** Every step of the instruction set has the meaning the instruction has in numbers. */
  lemma ExecuteMeans(s: Arch, i: Instr)
    requires NaturallyAligned(s, i)
    ensures Means(s, i, Execute(s, i))
  {
    match i
    case Lui(_, _) => LuiMeans(s, i);
    case Auipc(_, _) => AuipcMeans(s, i);
    case Jal(_, _) => JalMeans(s, i);
    case Jalr(_, _, _) => JalrMeans(s, i);
    case Branch(_, _, _, _) => BranchMeans(s, i);
    case Load(_, _, _, _) => LoadMeans(s, i);
    case Store(_, _, _, _) => StoreMeans(s, i);
    case OpImm(_, _, _, _) => OpImmMeans(s, i);
    case ShiftImm(_, _, _, _) => ShiftImmMeans(s, i);
    case OpReg(_, _, _, _) => OpRegMeans(s, i);
  }

  // ------------------------------------------------------------ and the meaning leaves no choice

  lemma Pow32()
    ensures Pow2(32) == TWO32
  {
    Pow256();
    assert Pow2(26) == 0x4000000 && Pow2(28) == 0x10000000 && Pow2(30) == 0x40000000;
  }

  lemma CombinedOnce(g: (bool, bool) -> bool, x: int, y: int, r: int, q: int)
    requires 0 <= r < TWO32 && 0 <= q < TWO32 && Combined(g, x, y, r) && Combined(g, x, y, q)
    ensures r == q
  {
    Pow32();
    DigitsDecide(r, q, 32);
  }

  lemma OperatesOnce(op: RegOp, x: int, y: int, r: int, q: int)
    requires 0 <= r < TWO32 && 0 <= q < TWO32 && Operates(op, x, y, r) && Operates(op, x, y, q)
    ensures r == q
  {
    match op
    case Xor => CombinedOnce(One, x, y, r, q);
    case Or => CombinedOnce(Any, x, y, r, q);
    case And => CombinedOnce(Both, x, y, r, q);
    case _ =>
  }

  lemma DeliversOnce(o: Result, r: int, q: int)
    requires 0 <= r < TWO32 && 0 <= q < TWO32 && Delivers(o, r) && Delivers(o, q)
    ensures r == q
  {
    if o.Computed? {
      OperatesOnce(o.op, o.x, o.y, r, q);
    }
  }

  lemma ReceivesOnce(regs: RegFile, t: RegFile, u: RegFile, rd: Reg, o: Result, r: Reg)
    requires Receives(regs, t, rd, o) && Receives(regs, u, rd, o)
    ensures RegRead(t, r) == RegRead(u, r)
  {
    if r == rd && rd != 0 {
      ValueRange(RegRead(t, rd));
      ValueRange(RegRead(u, rd));
      DeliversOnce(o, At(t, rd), At(u, rd));
      ValueInjective(RegRead(t, rd), RegRead(u, rd));
    }
  }

  lemma SameByte(b: Byte, c: Byte)
    requires ByteNumber(b) == ByteNumber(c)
    ensures b == c
  {
    Cast8(b);
    Cast8(c);
    ValueIsInt(b as Word);
    ValueIsInt(c as Word);
    ValueInjective(b as Word, c as Word);
  }

  lemma StoresOnce(mem: Memory, t: Memory, u: Memory, a: Word, width: nat, v: int, x: Word)
    requires Stores(mem, t, a, width, v) && Stores(mem, u, a, width, v)
    ensures ByteAt(t, x) == ByteAt(u, x)
  {
    assert StoredAt(mem, t, a, width, v, x) && StoredAt(mem, u, a, width, v, x);
    if 0 <= Value(x) - Value(a) < width {
      SameByte(ByteAt(t, x), ByteAt(u, x));
    }
  }

  /** Two states that look the same: program counter, every register, every byte. */
  ghost predicate Same(t: Arch, u: Arch) {
    && t.pc == u.pc
    && (forall r: Reg :: RegRead(t.regs, r) == RegRead(u.regs, r))
    && (forall x: Word :: ByteAt(t.mem, x) == ByteAt(u.mem, x))
  }

  lemma ComputesOnce(s: Arch, t: Arch, u: Arch, rd: Reg, o: Result)
    requires Computes(s, t, rd, o) && Computes(s, u, rd, o)
    ensures Same(t, u)
  {
    ValueInjective(t.pc, u.pc);
    forall r: Reg ensures RegRead(t.regs, r) == RegRead(u.regs, r) { ReceivesOnce(s.regs, t.regs, u.regs, rd, o, r); }
  }

  lemma LinksOnce(s: Arch, t: Arch, u: Arch, rd: Reg, target: int)
    requires Links(s, t, rd, target) && Links(s, u, rd, target)
    ensures Same(t, u)
  {
    var o := Exactly((Value(s.pc) + 4) % TWO32);
    ValueInjective(t.pc, u.pc);
    forall r: Reg ensures RegRead(t.regs, r) == RegRead(u.regs, r) { ReceivesOnce(s.regs, t.regs, u.regs, rd, o, r); }
  }

  lemma StoreOnce(s: Arch, i: Instr, t: Arch, u: Arch)
    requires i.Store? && Means(s, i, t) && Means(s, i, u)
    ensures Same(t, u)
  {
    var a := Plus(RegRead(s.regs, i.rs1), SignExtend12(i.imm));
    AddressMeans(s.regs, i.rs1, i.imm);
    ValueInjective(t.pc, u.pc);
    forall x: Word
      ensures ByteAt(t.mem, x) == ByteAt(u.mem, x)
    {
      StoresOnce(s.mem, t.mem, u.mem, a, StoreWidth(i.st), At(s.regs, i.rs2), x);
    }
  }

  lemma LoadOnce(s: Arch, i: Instr, t: Arch, u: Arch)
    requires i.Load? && Means(s, i, t) && Means(s, i, u)
    ensures Same(t, u)
  {
    var a := Plus(RegRead(s.regs, i.rs1), SignExtend12(i.imm));
    AddressMeans(s.regs, i.rs1, i.imm);
    ComputesOnce(s, t, u, i.rd, Loaded(i.ld, NumberAt(s.mem, a, LoadWidth(i.ld))));
  }

  lemma BranchOnce(s: Arch, i: Instr, t: Arch, u: Arch)
    requires i.Branch? && Means(s, i, t) && Means(s, i, u)
    ensures Same(t, u)
  {
    ValueInjective(t.pc, u.pc);
  }

  /** The meaning of an instruction leaves only one state, so it describes the step completely. */
  lemma MeansOnce(s: Arch, i: Instr, t: Arch, u: Arch)
    requires Means(s, i, t) && Means(s, i, u)
    ensures Same(t, u)
  {
    if i.Store? {
      StoreOnce(s, i, t, u);
    } else if i.Load? {
      LoadOnce(s, i, t, u);
    } else if i.Branch? {
      BranchOnce(s, i, t, u);
    } else if i.Jal? || i.Jalr? {
      LinksOnce(s, t, u, i.rd, TargetOf(s, i));
    } else {
      ComputesOnce(s, t, u, i.rd, ResultOf(s, i));
    }
  }

  /** The fetched word is the number of the four bytes at its address. */
  lemma FetchMeans(mem: Memory, pc: Word)
    ensures Value(ReadWord(mem, pc)) == NumberAt(mem, pc, 4)
  {
    NumberAtIs(mem, pc);
    Join4Value(ByteAt(mem, pc + 3), ByteAt(mem, pc + 2), ByteAt(mem, pc + 1), ByteAt(mem, pc));
  }
}

/**
 * The datapath against the standard: immediates, comparisons, register operations, byte lanes, and what each
 * control state latches for the instruction it executes.
 */
module RvRefine {
  import opened RvIsa
  import opened RvCore
  import opened RvBench

  // ------------------------------------------------------------ combinational blocks against the standard

  lemma ImmediateI(w: Word)
    ensures IImm(w) == SignExtend12(Hi12Of(w))
  {
  }

  lemma ImmediateS(w: Word)
    ensures SImm(w) == SignExtend12(StoreImmOf(w))
  {
  }

  lemma ImmediateBNegative(w: Word)
    requires Bit31(w)
    ensures BImm(w) == BranchOffset(BranchDispOf(w))
  {
  }

  lemma ImmediateBPositive(w: Word)
    requires !Bit31(w)
    ensures BImm(w) == BranchOffset(BranchDispOf(w))
  {
  }

  lemma ImmediateB(w: Word)
    ensures BImm(w) == BranchOffset(BranchDispOf(w))
  {
    if Bit31(w) {
      ImmediateBNegative(w);
    } else {
      ImmediateBPositive(w);
    }
  }

  lemma ImmediateU(w: Word)
    ensures UImm(w) == UpperImm(Hi20Of(w))
  {
  }

  lemma ImmediateJNegative(w: Word)
    requires Bit31(w)
    ensures JImm(w) == JumpOffset(JumpDispOf(w))
  {
  }

  lemma ImmediateJPositive(w: Word)
    requires !Bit31(w)
    ensures JImm(w) == JumpOffset(JumpDispOf(w))
  {
  }

  lemma ImmediateJ(w: Word)
    ensures JImm(w) == JumpOffset(JumpDispOf(w))
  {
    if Bit31(w) {
      ImmediateJNegative(w);
    } else {
      ImmediateJPositive(w);
    }
  }

  /** The five immediate decoders deliver the sign-extended immediates of the instruction formats. */
  lemma Immediates(w: Word)
    ensures IImm(w) == SignExtend12(Hi12Of(w))
    ensures SImm(w) == SignExtend12(StoreImmOf(w))
    ensures BImm(w) == BranchOffset(BranchDispOf(w))
    ensures UImm(w) == UpperImm(Hi20Of(w))
    ensures JImm(w) == JumpOffset(JumpDispOf(w))
  {
    ImmediateI(w);
    ImmediateS(w);
    ImmediateB(w);
    ImmediateU(w);
    ImmediateJ(w);
  }

  lemma SignedAgree(a: Word, b: Word)
    ensures SignedBelow(a, b) == SignedLess(a, b)
  {
  }

  /** Each branch code makes the comparator decide as the standard says. */
  lemma CmpAgrees(c: BranchOp, a: Word, b: Word)
    ensures Cmp(BranchCode(c), a, b) == Taken(c, a, b)
  {
    SignedAgree(a, b);
  }

  // ------------------------------------------------------------ register-register operations

  /** What the register form really computes: the ALU operation is chosen by funct3 alone. */
  function RegComputed(op: RegOp, a: Word, b: Word): Word { Alu(AluOpOf(RegCode(op)), a, b) }

  /** Operands on which the register form nevertheless agrees with the standard. */
  predicate RegAgrees(op: RegOp, a: Word, b: Word) {
    match op
    case Sub => b == 0 || b == 0x80000000
    case Sra => !Negative(a) || Amount(b) == 0
    case Sltu => a == b || (a == 0 && b == 0xffffffff)
    case Slt => !Negative(a) && if SignedLess(a, b) then TopBitAt(a, Amount(b)) else Below(a, Amount(b))
    case _ => true
  }

  /** The number needs no more than n bits. */
  predicate Below(a: Word, n: Word)
    requires n < 32
  {
    a < 1 << n
  }

  /** The highest one of the number is bit n. */
  predicate TopBitAt(a: Word, n: Word)
    requires n < 32
  {
    1 << n <= a && a - (1 << n) < 1 << n
  }

  lemma SumIsDifference(a: Word, b: Word)
    requires a + b == a - b
    ensures b == 0 || b == 0x80000000
  {
  }

  lemma SubAgrees(a: Word)
    ensures Plus(a, 0) == Minus(a, 0)
    ensures Plus(a, 0x80000000) == Minus(a, 0x80000000)
  {
    assert a + 0x80000000 == a - 0x80000000;
  }

  lemma SubDiffers(a: Word, b: Word)
    requires Plus(a, b) == Minus(a, b)
    ensures b == 0 || b == 0x80000000
  {
    SumIsDifference(a, b);
  }

  lemma SubAgreesExactly(a: Word, b: Word)
    ensures Plus(a, b) == Minus(a, b) <==> b == 0 || b == 0x80000000
  {
    if b == 0 || b == 0x80000000 {
      SubAgrees(a);
    } else if Plus(a, b) == Minus(a, b) {
      SubDiffers(a, b);
    }
  }

  lemma OneAbove(a: Word, b: Word)
    requires a - b == 1
    ensures a == b + 1
  {
  }

  lemma NoWrap(b: Word)
    requires b != 0xffffffff
    ensures b < b + 1
  {
  }

  lemma WrapsToZero(a: Word, b: Word)
    requires a < b && a - b == 1
    ensures a == 0 && b == 0xffffffff
  {
    OneAbove(a, b);
    if b != 0xffffffff {
      NoWrap(b);
    }
  }

  lemma BelowByOne(a: Word, b: Word)
    requires a < b
    ensures a - b == 1 <==> a == 0 && b == 0xffffffff
  {
    if a - b == 1 {
      WrapsToZero(a, b);
    }
  }

  lemma NoDifference(a: Word, b: Word)
    ensures a - b == 0 <==> a == b
  {
  }

  lemma SltuAgreesExactly(a: Word, b: Word)
    ensures Minus(a, b) == Flag(Less(a, b)) <==> a == b || (a == 0 && b == 0xffffffff)
  {
    if a < b {
      BelowByOne(a, b);
    } else {
      NoDifference(a, b);
    }
  }

  lemma SraAgreesExactly(a: Word, n: Word)
    requires n < 32
    ensures ShiftRight(a, n) == ShiftRightArith(a, n) <==> !Negative(a) || n == 0
  {
  }

  lemma ShiftIsZero(a: Word, n: Word)
    requires n < 32
    ensures ShiftRight(a, n) == 0 <==> Below(a, n)
  {
  }

  lemma ShiftIsOne(a: Word, n: Word)
    requires n < 32
    ensures ShiftRight(a, n) == 1 <==> TopBitAt(a, n)
  {
  }

  /** A negative number stays negative in an arithmetic shift. */
  lemma ShiftedStaysNegative(a: Word, n: Word)
    requires n < 32
    ensures if Negative(a) then Negative(ShiftRightArith(a, n)) else ShiftRightArith(a, n) == ShiftRight(a, n)
  {
  }

  lemma FlagIsNotNegative(b: bool)
    ensures !Negative(Flag(b))
  {
  }

  lemma SltAgreesExactly(a: Word, b: Word)
    ensures ShiftRightArith(a, Amount(b)) == Flag(SignedLess(a, b)) <==>
            !Negative(a) && if SignedLess(a, b) then TopBitAt(a, Amount(b)) else Below(a, Amount(b))
  {
    ShiftedStaysNegative(a, Amount(b));
    FlagIsNotNegative(SignedLess(a, b));
    ShiftIsZero(a, Amount(b));
    ShiftIsOne(a, Amount(b));
  }

  /** The register form meets the standard on exactly these operands. */
  lemma RegAgreesExactly(op: RegOp, a: Word, b: Word)
    ensures RegComputed(op, a, b) == RegResult(op, a, b) <==> RegAgrees(op, a, b)
  {
    match op
    case Sub => SubAgreesExactly(a, b);
    case Sltu => SltuAgreesExactly(a, b);
    case Sra => SraAgreesExactly(a, Amount(b));
    case Slt => SltAgreesExactly(a, b);
    case _ =>
  }

  predicate Faulty(op: RegOp) { op == Sub || op == Sra || op == Slt || op == Sltu }

  /** So a register operation can be relied on, for all operands, exactly when it is not one of the four. */
  lemma FaultyExactly(op: RegOp)
    ensures (forall a: Word, b: Word :: RegComputed(op, a, b) == RegResult(op, a, b)) <==> !Faulty(op)
  {
    forall a: Word, b: Word
      ensures RegComputed(op, a, b) == RegResult(op, a, b) <==> RegAgrees(op, a, b)
    {
      RegAgreesExactly(op, a, b);
    }
    if Faulty(op) {
      var a: Word := if op == Sra then 0x80000000 else 3;
      var b: Word := 1;
      assert !RegAgrees(op, a, b);
    }
  }

  // ------------------------------------------------------------ what the processor executes

  /** Execute with the register form as the hardware computes it. */
  function Machine(s: Arch, i: Instr): Arch {
    match i
    case OpReg(c, rd, rs1, rs2) =>
      WriteAndAdvance(s, rd, RegComputed(c, RegRead(s.regs, rs1), RegRead(s.regs, rs2)))
    case _ => Execute(s, i)
  }

  /** The instructions on which the processor is right, in state s. */
  predicate Conforms(s: Arch, i: Instr) {
    i.OpReg? && i.rd != 0 ==> RegAgrees(i.rop, RegRead(s.regs, i.rs1), RegRead(s.regs, i.rs2))
  }

  lemma WrittenReads(regs: RegFile, r: Reg, v: Word)
    requires r != 0
    ensures RegRead(RegWrite(regs, r, v), r) == v
  {
  }

  /** The processor's step is the standard's step exactly on conforming instructions. */
  lemma ConformsExactly(s: Arch, i: Instr)
    ensures Machine(s, i) == Execute(s, i) <==> Conforms(s, i)
  {
    if i.OpReg? {
      var a, b := RegRead(s.regs, i.rs1), RegRead(s.regs, i.rs2);
      RegAgreesExactly(i.rop, a, b);
      if i.rd != 0 {
        WrittenReads(s.regs, i.rd, RegComputed(i.rop, a, b));
        WrittenReads(s.regs, i.rd, RegResult(i.rop, a, b));
      }
    }
  }

  // ------------------------------------------------------------ byte lanes

  lemma ByteFromLane(b3: Byte, b2: Byte, b1: Byte, b0: Byte, k: bv2)
    ensures LaneByte(Join4(b3, b2, b1, b0), k) == if k == 0 then b0 else if k == 1 then b1 else if k == 2 then b2 else b3
  {
  }

  lemma LowHalf(b3: Byte, b2: Byte, b1: Byte, b0: Byte)
    ensures (Join4(b3, b2, b1, b0) & 0xffff) as bv16 == Join2(b1, b0)
  {
  }

  lemma HighHalf(b3: Byte, b2: Byte, b1: Byte, b0: Byte)
    ensures ((Join4(b3, b2, b1, b0) >> 16) & 0xffff) as bv16 == Join2(b3, b2)
  {
  }

  lemma HalfLane(b3: Byte, b2: Byte, b1: Byte, b0: Byte, k: bv2)
    ensures LaneHalf(Join4(b3, b2, b1, b0), k) == if k == 0 then Join2(b1, b0) else Join2(b3, b2)
  {
    if k == 0 {
      LowHalf(b3, b2, b1, b0);
    } else {
      HighHalf(b3, b2, b1, b0);
    }
  }

  /** The addresses n0, n1, ... are lane k, lane k+1, ... of the aligned word at a0 to a3, as far as it goes. */
  predicate LaneOf(k: bv2, n0: Word, n1: Word, n2: Word, n3: Word, a0: Word, a1: Word, a2: Word, a3: Word) {
    && (k == 0 ==> n0 == a0 && n1 == a1 && n2 == a2 && n3 == a3)
    && (k == 1 ==> n0 == a1)
    && (k == 2 ==> n0 == a2 && n1 == a3)
    && (k == 3 ==> n0 == a3)
  }

  function LaneIndex(a: Word): bv2 { (a & 3) as bv2 }

  lemma AddressLane(a: Word)
    ensures LaneOf(LaneIndex(a), a, a + 1, a + 2, a + 3, AlignDown(a), AlignDown(a) + 1, AlignDown(a) + 2, AlignDown(a) + 3)
  {
  }

  predicate LoadLane(op: LoadOp, k: bv2) {
    match op case Lw => k == 0 case Lh => k == 0 || k == 2 case Lhu => k == 0 || k == 2 case _ => true
  }

  predicate StoreLane(op: StoreOp, k: bv2) {
    match op case Sw => k == 0 case Sh => k == 0 || k == 2 case Sb => true
  }

  lemma LoadAligned(op: LoadOp, a: Word)
    requires AlignedLoad(op, a)
    ensures LoadLane(op, LaneIndex(a))
  {
  }

  lemma StoreAligned(op: StoreOp, a: Word)
    requires AlignedStore(op, a)
    ensures StoreLane(op, LaneIndex(a))
  {
  }

  /** The value the register multiplexer selects for a load whose word is in the memory data register. */
  function LoadMux(op: LoadOp, mdr: Word, lsb: bv2): Word { Widen(op, LaneByte(mdr, lsb), LaneHalf(mdr, lsb), mdr) }

  lemma PickByte(rd: Word -> Byte, k: bv2, n0: Word, n1: Word, n2: Word, n3: Word, a0: Word, a1: Word, a2: Word, a3: Word)
    requires LaneOf(k, n0, n1, n2, n3, a0, a1, a2, a3)
    ensures LaneByte(Join4(rd(a3), rd(a2), rd(a1), rd(a0)), k) == rd(n0)
  {
    ByteFromLane(rd(a3), rd(a2), rd(a1), rd(a0), k);
  }

  lemma PickHalf(rd: Word -> Byte, k: bv2, n0: Word, n1: Word, n2: Word, n3: Word, a0: Word, a1: Word, a2: Word, a3: Word)
    requires LaneOf(k, n0, n1, n2, n3, a0, a1, a2, a3) && (k == 0 || k == 2)
    ensures LaneHalf(Join4(rd(a3), rd(a2), rd(a1), rd(a0)), k) == Join2(rd(n1), rd(n0))
  {
    HalfLane(rd(a3), rd(a2), rd(a1), rd(a0), k);
  }

  lemma WidenByte(op: LoadOp, b: Byte, h: bv16, w: Word, c: Byte, g: bv16, v: Word)
    requires (op == Lb || op == Lbu) && b == c
    ensures Widen(op, b, h, w) == Widen(op, c, g, v)
  {
  }

  lemma WidenHalf(op: LoadOp, b: Byte, h: bv16, w: Word, c: Byte, g: bv16, v: Word)
    requires (op == Lh || op == Lhu) && h == g
    ensures Widen(op, b, h, w) == Widen(op, c, g, v)
  {
  }

  lemma MuxByte(op: LoadOp, rd: Word -> Byte, k: bv2, n0: Word, n1: Word, n2: Word, n3: Word, a0: Word, a1: Word, a2: Word, a3: Word)
    requires LaneOf(k, n0, n1, n2, n3, a0, a1, a2, a3) && (op == Lb || op == Lbu)
    ensures LoadMux(op, Join4(rd(a3), rd(a2), rd(a1), rd(a0)), k) == LoadFrom(op, rd(n0), rd(n1), rd(n2), rd(n3))
  {
    PickByte(rd, k, n0, n1, n2, n3, a0, a1, a2, a3);
    WidenByte(op, LaneByte(Join4(rd(a3), rd(a2), rd(a1), rd(a0)), k), LaneHalf(Join4(rd(a3), rd(a2), rd(a1), rd(a0)), k),
              Join4(rd(a3), rd(a2), rd(a1), rd(a0)), rd(n0), Join2(rd(n1), rd(n0)), Join4(rd(n3), rd(n2), rd(n1), rd(n0)));
  }

  lemma MuxHalf(op: LoadOp, rd: Word -> Byte, k: bv2, n0: Word, n1: Word, n2: Word, n3: Word, a0: Word, a1: Word, a2: Word, a3: Word)
    requires LaneOf(k, n0, n1, n2, n3, a0, a1, a2, a3) && (op == Lh || op == Lhu) && (k == 0 || k == 2)
    ensures LoadMux(op, Join4(rd(a3), rd(a2), rd(a1), rd(a0)), k) == LoadFrom(op, rd(n0), rd(n1), rd(n2), rd(n3))
  {
    PickHalf(rd, k, n0, n1, n2, n3, a0, a1, a2, a3);
    WidenHalf(op, LaneByte(Join4(rd(a3), rd(a2), rd(a1), rd(a0)), k), LaneHalf(Join4(rd(a3), rd(a2), rd(a1), rd(a0)), k),
              Join4(rd(a3), rd(a2), rd(a1), rd(a0)), rd(n0), Join2(rd(n1), rd(n0)), Join4(rd(n3), rd(n2), rd(n1), rd(n0)));
  }

  lemma MuxLane(op: LoadOp, rd: Word -> Byte, k: bv2, n0: Word, n1: Word, n2: Word, n3: Word, a0: Word, a1: Word, a2: Word, a3: Word)
    requires LaneOf(k, n0, n1, n2, n3, a0, a1, a2, a3) && LoadLane(op, k)
    ensures LoadMux(op, Join4(rd(a3), rd(a2), rd(a1), rd(a0)), k) == LoadFrom(op, rd(n0), rd(n1), rd(n2), rd(n3))
  {
    if op == Lb || op == Lbu {
      MuxByte(op, rd, k, n0, n1, n2, n3, a0, a1, a2, a3);
    } else if op == Lh || op == Lhu {
      MuxHalf(op, rd, k, n0, n1, n2, n3, a0, a1, a2, a3);
    }
  }

  lemma MuxWord(op: LoadOp, rd: Word -> Byte, a: Word)
    requires LoadLane(op, LaneIndex(a))
    ensures LoadMux(op, Join4(rd(AlignDown(a) + 3), rd(AlignDown(a) + 2), rd(AlignDown(a) + 1), rd(AlignDown(a))), LaneIndex(a)) ==
            LoadFrom(op, rd(a), rd(a + 1), rd(a + 2), rd(a + 3))
  {
    AddressLane(a);
    MuxLane(op, rd, LaneIndex(a), a, a + 1, a + 2, a + 3, AlignDown(a), AlignDown(a) + 1, AlignDown(a) + 2, AlignDown(a) + 3);
  }

  /** An aligned load delivers the addressed bytes. */
  lemma LoadMuxLoads(op: LoadOp, mem: Memory, a: Word)
    requires AlignedLoad(op, a)
    ensures LoadMux(op, WordAround(mem, a), LaneIndex(a)) == LoadResult(op, mem, a)
  {
    LoadAligned(op, a);
    MuxWord(op, x => ByteAt(mem, x), a);
  }

  lemma ShiftedLanes(v: Word)
    ensures ByteOf1(v << 8) == ByteOf0(v)
    ensures ByteOf2(v << 16) == ByteOf0(v) && ByteOf3(v << 16) == ByteOf1(v)
    ensures ByteOf3(v << 24) == ByteOf0(v)
  {
  }

  /** The memory a store leaves: lane shift, byte enables and the bench's write together. */
  function StoreThrough(op: StoreOp, mem: Memory, a: Word, v: Word): Memory {
    WriteBytes(mem, a, StoreLanes(v, LaneIndex(a)), StoreEnable(StoreCode(op), LaneIndex(a)))
  }

  lemma PutStores(op: StoreOp, mem: Memory, v: Word, k: bv2, n0: Word, n1: Word, n2: Word, n3: Word, a0: Word, a1: Word, a2: Word, a3: Word)
    requires LaneOf(k, n0, n1, n2, n3, a0, a1, a2, a3) && StoreLane(op, k)
    ensures PutWord(mem, a0, a1, a2, a3, StoreLanes(v, k), StoreEnable(StoreCode(op), k)) == StoreTo(op, mem, n0, n1, n2, n3, v)
  {
    ShiftedLanes(v);
  }

  lemma StoreThroughLane(op: StoreOp, mem: Memory, a: Word, v: Word)
    requires StoreLane(op, LaneIndex(a))
    ensures StoreThrough(op, mem, a, v) == StoreResult(op, mem, a, v)
  {
    AddressLane(a);
    PutStores(op, mem, v, LaneIndex(a), a, a + 1, a + 2, a + 3, AlignDown(a), AlignDown(a) + 1, AlignDown(a) + 2, AlignDown(a) + 3);
  }

  /** An aligned store changes exactly the addressed bytes. */
  lemma StoreThroughStores(op: StoreOp, mem: Memory, a: Word, v: Word)
    requires AlignedStore(op, a)
    ensures StoreThrough(op, mem, a, v) == StoreResult(op, mem, a, v)
  {
    StoreAligned(op, a);
    StoreThroughLane(op, mem, a, v);
  }

  lemma Rejoin(v: Word)
    ensures Join4(ByteOf3(v), ByteOf2(v), ByteOf1(v), ByteOf0(v)) == v
    ensures Join2(ByteOf1(v), ByteOf0(v)) == (v & 0xffff) as bv16
  {
  }

  predicate SameWidth(ld: LoadOp, st: StoreOp) {
    match st case Sb => ld == Lb || ld == Lbu case Sh => ld == Lh || ld == Lhu case Sw => ld == Lw
  }

  /** The bytes a store leaves: its own at the addresses it covers, the old ones everywhere else. */
  lemma StoredByte(op: StoreOp, mem: Memory, a0: Word, a1: Word, a2: Word, a3: Word, v: Word, x: Word)
    requires Distinct4(a0, a1, a2, a3)
    ensures ByteAt(StoreTo(op, mem, a0, a1, a2, a3, v), x) ==
            if x == a0 then ByteOf0(v)
            else if op != Sb && x == a1 then ByteOf1(v)
            else if op == Sw && x == a2 then ByteOf2(v)
            else if op == Sw && x == a3 then ByteOf3(v)
            else ByteAt(mem, x)
  {
    var m0 := SetByte(mem, a0, ByteOf0(v));
    var m1 := SetByte(m0, a1, ByteOf1(v));
    var m2 := SetByte(m1, a2, ByteOf2(v));
    SetByteAt(mem, a0, ByteOf0(v), x);
    SetByteAt(m0, a1, ByteOf1(v), x);
    SetByteAt(m1, a2, ByteOf2(v), x);
    SetByteAt(m2, a3, ByteOf3(v), x);
  }

  lemma StoredLoads(ld: LoadOp, op: StoreOp, mem: Memory, a0: Word, a1: Word, a2: Word, a3: Word, v: Word)
    requires Distinct4(a0, a1, a2, a3) && SameWidth(ld, op)
    ensures var m := StoreTo(op, mem, a0, a1, a2, a3, v);
            LoadFrom(ld, ByteAt(m, a0), ByteAt(m, a1), ByteAt(m, a2), ByteAt(m, a3)) ==
            Widen(ld, ByteOf0(v), (v & 0xffff) as bv16, v)
  {
    StoredByte(op, mem, a0, a1, a2, a3, v, a0);
    StoredByte(op, mem, a0, a1, a2, a3, v, a1);
    StoredByte(op, mem, a0, a1, a2, a3, v, a2);
    StoredByte(op, mem, a0, a1, a2, a3, v, a3);
    Rejoin(v);
  }

  lemma SameAlignment(ld: LoadOp, st: StoreOp, a: Word)
    requires SameWidth(ld, st) && AlignedStore(st, a)
    ensures AlignedLoad(ld, a)
  {
  }

  /**
   * A later load of the same width returns the stored value, extended as the load says; lane shift, byte
   * enables, the bench's write and read, and the load multiplexer compose to the identity on the bytes.
   */
  lemma StoreThenLoad(ld: LoadOp, st: StoreOp, mem: Memory, a: Word, v: Word)
    requires SameWidth(ld, st) && AlignedStore(st, a)
    ensures LoadMux(ld, WordAround(StoreThrough(st, mem, a, v), a), LaneIndex(a)) ==
            Widen(ld, ByteOf0(v), (v & 0xffff) as bv16, v)
  {
    SameAlignment(ld, st, a);
    StoreThroughStores(st, mem, a, v);
    LoadMuxLoads(ld, StoreThrough(st, mem, a, v), a);
    ConsecutiveDistinct(a);
    StoredLoads(ld, st, mem, a, a + 1, a + 2, a + 3, v);
  }

  // ------------------------------------------------------------ single edges of the processor

  lemma LatchFetch1(u: Units, c: Core, w: Wires, resp: bool, rdata: Word)
    requires c.state == Fetch1
    ensures Latch(u, c, w, resp, rdata) == c.(state := Fetch2, mar := c.pc)
  {
  }

  lemma LatchFetch3(u: Units, c: Core, w: Wires, resp: bool, rdata: Word)
    requires c.state == Fetch3
    ensures Latch(u, c, w, resp, rdata) == c.(state := DecodeSt, ir := c.mdr)
  {
  }

  lemma LatchDecode(u: Units, c: Core, w: Wires, resp: bool, rdata: Word)
    requires c.state == DecodeSt
    ensures Latch(u, c, w, resp, rdata) == c.(state := Dispatch(w.opcode, w.f3, w.f7))
  {
  }

  lemma LatchLwCalc(u: Units, c: Core, w: Wires, resp: bool, rdata: Word)
    requires c.state == LwCalcAddr
    ensures Latch(u, c, w, resp, rdata) == c.(state := Ldr1, mar := u.alu(AluAdd, w.rs1, w.iImm))
  {
  }

  lemma LatchSwCalc(u: Units, c: Core, w: Wires, resp: bool, rdata: Word)
    requires c.state == SwCalcAddr
    ensures Latch(u, c, w, resp, rdata) == c.(state := Str1, mar := u.alu(AluAdd, w.rs1, w.sImm), dataOut := w.rs2)
  {
  }

  lemma LatchStr2(u: Units, c: Core, w: Wires, resp: bool, rdata: Word)
    requires c.state == Str2
    ensures Latch(u, c, w, resp, rdata) == c.(state := Fetch1, pc := NextPc(c.pc))
  {
  }

  lemma LatchLdr2(u: Units, c: Core, w: Wires, resp: bool, rdata: Word, m: RegMux)
    requires c.state == Ldr2 && LoadMuxOf(w.f3) == Some(m)
    ensures Retires(u, c, w, resp, rdata, NextPc(c.pc), u.lane(m, c.mdr, w.lsb))
  {
  }

  /** The edge finishes the instruction: a value for rd, the next pc, and the first fetch state. */
  predicate Retires(u: Units, c: Core, w: Wires, resp: bool, rdata: Word, pc: Word, v: Word) {
    Latch(u, c, w, resp, rdata) == c.(state := Fetch1, pc := pc, regs := RegWrite(c.regs, w.rd, v))
  }

  lemma LatchSlti(u: Units, c: Core, w: Wires, resp: bool, rdata: Word)
    requires c.state == SltiSt
    ensures Retires(u, c, w, resp, rdata, NextPc(c.pc), Flag(u.cmp(4, w.rs1, w.iImm)))
  {
  }

  lemma LatchSltiu(u: Units, c: Core, w: Wires, resp: bool, rdata: Word)
    requires c.state == SltiuSt
    ensures Retires(u, c, w, resp, rdata, NextPc(c.pc), Flag(u.cmp(6, w.rs1, w.iImm)))
  {
  }

  lemma LatchSrai(u: Units, c: Core, w: Wires, resp: bool, rdata: Word)
    requires c.state == SraiSt
    ensures Retires(u, c, w, resp, rdata, NextPc(c.pc), u.alu(AluSra, w.rs1, w.iImm))
  {
  }

  lemma LatchImm(u: Units, c: Core, w: Wires, resp: bool, rdata: Word)
    requires c.state == ImmSt
    ensures Retires(u, c, w, resp, rdata, NextPc(c.pc), u.alu(AluOpOf(w.f3), w.rs1, w.iImm))
  {
  }

  lemma LatchReg(u: Units, c: Core, w: Wires, resp: bool, rdata: Word)
    requires c.state == RegSt
    ensures Retires(u, c, w, resp, rdata, NextPc(c.pc), u.alu(AluOpOf(w.f3), w.rs1, w.rs2))
  {
  }

  lemma LatchLui(u: Units, c: Core, w: Wires, resp: bool, rdata: Word)
    requires c.state == LuiSt
    ensures Retires(u, c, w, resp, rdata, NextPc(c.pc), w.uImm)
  {
  }

  lemma LatchAuipc(u: Units, c: Core, w: Wires, resp: bool, rdata: Word)
    requires c.state == AuipcSt
    ensures Retires(u, c, w, resp, rdata, NextPc(c.pc), u.alu(AluAdd, c.pc, w.uImm))
  {
  }

  lemma LatchJal(u: Units, c: Core, w: Wires, resp: bool, rdata: Word)
    requires c.state == JalSt
    ensures Retires(u, c, w, resp, rdata, u.alu(AluAdd, c.pc, w.jImm), NextPc(c.pc))
  {
  }

  lemma LatchJalr(u: Units, c: Core, w: Wires, resp: bool, rdata: Word)
    requires c.state == JalrSt
    ensures Retires(u, c, w, resp, rdata, EvenTarget(u.alu(AluAdd, w.rs1, w.iImm)), NextPc(c.pc))
  {
  }

  lemma LatchBr(u: Units, c: Core, w: Wires, resp: bool, rdata: Word)
    requires c.state == BrSt
    ensures Latch(u, c, w, resp, rdata) ==
            c.(state := Fetch1, pc := if u.cmp(w.f3, w.rs1, w.rs2) then u.alu(AluAdd, c.pc, w.bImm) else NextPc(c.pc))
  {
  }

  /** The wires carry instruction i. */
  predicate Carries(w: Wires, regs: RegFile, i: Instr) {
    match i
    case Lui(rd, u) => w.opcode == OP_LUI && w.rd == rd && w.uImm == UpperImm(u)
    case Auipc(rd, u) => w.opcode == OP_AUIPC && w.rd == rd && w.uImm == UpperImm(u)
    case Jal(rd, h) => w.opcode == OP_JAL && w.rd == rd && w.jImm == JumpOffset(h)
    case Jalr(rd, rs1, imm) =>
      w.opcode == OP_JALR && w.rd == rd && w.rs1 == RegRead(regs, rs1) && w.iImm == SignExtend12(imm)
    case Branch(c, rs1, rs2, d) =>
      w.opcode == OP_BR && w.f3 == BranchCode(c) && w.rs1 == RegRead(regs, rs1) && w.rs2 == RegRead(regs, rs2) &&
      w.bImm == BranchOffset(d)
    case Load(c, rd, rs1, imm) =>
      w.opcode == OP_LOAD && w.f3 == LoadCode(c) && w.rd == rd && w.rs1 == RegRead(regs, rs1) && w.iImm == SignExtend12(imm)
    case Store(c, rs1, rs2, imm) =>
      w.opcode == OP_STORE && w.f3 == StoreCode(c) && w.rs1 == RegRead(regs, rs1) && w.rs2 == RegRead(regs, rs2) &&
      w.sImm == SignExtend12(imm)
    case OpImm(c, rd, rs1, imm) =>
      w.opcode == OP_IMM && w.f3 == ImmCode(c) && w.rd == rd && w.rs1 == RegRead(regs, rs1) && w.iImm == SignExtend12(imm)
    case ShiftImm(c, rd, rs1, sh) =>
      w.opcode == OP_IMM && w.f3 == ShiftCode(c) && w.f7 == (if c == Srai then 0x20 else 0) &&
      w.rd == rd && w.rs1 == RegRead(regs, rs1) && Amount(w.iImm) == ShiftAmount(sh)
    case OpReg(c, rd, rs1, rs2) =>
      w.opcode == OP_REG && w.f3 == RegCode(c) && w.rd == rd && w.rs1 == RegRead(regs, rs1) && w.rs2 == RegRead(regs, rs2)
  }

  // ------------------------------------------------------------ the executing edge, instruction by instruction

  /** The state in which an instruction is executed, or in which its address is computed. */
  function ExecState(i: Instr): State {
    match i
    case Lui(_, _) => LuiSt
    case Auipc(_, _) => AuipcSt
    case Jal(_, _) => JalSt
    case Jalr(_, _, _) => JalrSt
    case Branch(_, _, _, _) => BrSt
    case Load(_, _, _, _) => LwCalcAddr
    case Store(_, _, _, _) => SwCalcAddr
    case OpImm(c, _, _, _) => if c == Slti then SltiSt else if c == Sltiu then SltiuSt else ImmSt
    case ShiftImm(c, _, _, _) => if c == Srai then SraiSt else ImmSt
    case OpReg(_, _, _, _) => RegSt
  }

  lemma DispatchedImm(w: Wires, regs: RegFile, i: Instr)
    requires Carries(w, regs, i) && (i.OpImm? || i.ShiftImm?)
    ensures Dispatch(w.opcode, w.f3, w.f7) == ExecState(i)
  {
  }

  lemma DispatchedOther(w: Wires, regs: RegFile, i: Instr)
    requires Carries(w, regs, i) && !i.OpImm? && !i.ShiftImm?
    ensures Dispatch(w.opcode, w.f3, w.f7) == ExecState(i)
  {
  }

  /** The decode state sends every instruction to its state. */
  lemma Dispatched(w: Wires, regs: RegFile, i: Instr)
    requires Carries(w, regs, i)
    ensures Dispatch(w.opcode, w.f3, w.f7) == ExecState(i)
  {
    if i.OpImm? || i.ShiftImm? {
      DispatchedImm(w, regs, i);
    } else {
      DispatchedOther(w, regs, i);
    }
  }

  lemma AluAdds(a: Word, b: Word)
    ensures Alu(AluAdd, a, b) == Plus(a, b)
  {
  }

  lemma AluImmediate(op: ImmOp, a: Word, b: Word)
    requires op != Slti && op != Sltiu
    ensures Alu(AluOpOf(ImmCode(op)), a, b) == ImmResult(op, a, b)
  {
  }

  lemma AluShift(op: ShiftOp, a: Word, b: Word)
    ensures Alu(if op == Srai then AluSra else AluOpOf(ShiftCode(op)), a, b) == ShiftResult(op, a, Amount(b))
  {
  }

  lemma CmpSets(op: ImmOp, a: Word, b: Word)
    requires op == Slti || op == Sltiu
    ensures Flag(Cmp(if op == Slti then 4 else 6, a, b)) == ImmResult(op, a, b)
  {
    SignedAgree(a, b);
  }

  /** The arithmetic blocks do what instruction i asks of them. */
  predicate UnitsFit(u: Units, pc: Word, w: Wires, i: Instr) {
    match i
    case Lui(_, _) => true
    case Auipc(_, _) => u.alu(AluAdd, pc, w.uImm) == Plus(pc, w.uImm)
    case Jal(_, _) => u.alu(AluAdd, pc, w.jImm) == Plus(pc, w.jImm)
    case Jalr(_, _, _) => u.alu(AluAdd, w.rs1, w.iImm) == Plus(w.rs1, w.iImm)
    case Branch(c, _, _, _) =>
      u.alu(AluAdd, pc, w.bImm) == Plus(pc, w.bImm) && u.cmp(BranchCode(c), w.rs1, w.rs2) == Taken(c, w.rs1, w.rs2)
    case Load(_, _, _, _) => u.alu(AluAdd, w.rs1, w.iImm) == Plus(w.rs1, w.iImm)
    case Store(_, _, _, _) => u.alu(AluAdd, w.rs1, w.sImm) == Plus(w.rs1, w.sImm)
    case OpImm(c, _, _, _) =>
      if c == Slti then Flag(u.cmp(4, w.rs1, w.iImm)) == ImmResult(c, w.rs1, w.iImm)
      else if c == Sltiu then Flag(u.cmp(6, w.rs1, w.iImm)) == ImmResult(c, w.rs1, w.iImm)
      else u.alu(AluOpOf(ImmCode(c)), w.rs1, w.iImm) == ImmResult(c, w.rs1, w.iImm)
    case ShiftImm(c, _, _, _) =>
      u.alu(if c == Srai then AluSra else AluOpOf(ShiftCode(c)), w.rs1, w.iImm) == ShiftResult(c, w.rs1, Amount(w.iImm))
    case OpReg(c, _, _, _) => u.alu(AluOpOf(RegCode(c)), w.rs1, w.rs2) == RegComputed(c, w.rs1, w.rs2)
  }

  lemma UnitsFitShift(pc: Word, w: Wires, i: Instr)
    requires i.ShiftImm?
    ensures UnitsFit(UNITS, pc, w, i)
  {
    AluShift(i.sop, w.rs1, w.iImm);
  }

  lemma UnitsFitImm(pc: Word, w: Wires, i: Instr)
    requires i.OpImm?
    ensures UnitsFit(UNITS, pc, w, i)
  {
    if i.iop == Slti || i.iop == Sltiu {
      CmpSets(i.iop, w.rs1, w.iImm);
    } else {
      AluImmediate(i.iop, w.rs1, w.iImm);
    }
  }

  lemma UnitsFitBranch(pc: Word, w: Wires, i: Instr)
    requires i.Branch?
    ensures UnitsFit(UNITS, pc, w, i)
  {
    AluAdds(pc, w.bImm);
    CmpAgrees(i.br, w.rs1, w.rs2);
  }

  lemma UnitsFitPcRelative(pc: Word, w: Wires, i: Instr)
    requires i.Auipc? || i.Jal?
    ensures UnitsFit(UNITS, pc, w, i)
  {
    AluAdds(pc, if i.Jal? then w.jImm else w.uImm);
  }

  lemma UnitsFitAddress(pc: Word, w: Wires, i: Instr)
    requires i.Jalr? || i.Load? || i.Store?
    ensures UnitsFit(UNITS, pc, w, i)
  {
    AluAdds(w.rs1, if i.Store? then w.sImm else w.iImm);
  }

  lemma UnitsFitAll(pc: Word, w: Wires, i: Instr)
    ensures UnitsFit(UNITS, pc, w, i)
  {
    if i.ShiftImm? {
      UnitsFitShift(pc, w, i);
    } else if i.OpImm? {
      UnitsFitImm(pc, w, i);
    } else if i.Branch? {
      UnitsFitBranch(pc, w, i);
    } else if i.Auipc? || i.Jal? {
      UnitsFitPcRelative(pc, w, i);
    } else if !i.Lui? && !i.OpReg? {
      UnitsFitAddress(pc, w, i);
    }
  }

  /** The next pc and the registers that the executing edge latches for instruction i. */
  function RetirePc(u: Units, pc: Word, w: Wires, i: Instr): Word {
    match i
    case Jal(_, _) => u.alu(AluAdd, pc, w.jImm)
    case Jalr(_, _, _) => EvenTarget(u.alu(AluAdd, w.rs1, w.iImm))
    case Branch(_, _, _, _) => if u.cmp(w.f3, w.rs1, w.rs2) then u.alu(AluAdd, pc, w.bImm) else NextPc(pc)
    case _ => NextPc(pc)
  }

  function RetireValue(u: Units, pc: Word, w: Wires, i: Instr): Word {
    match i
    case Lui(_, _) => w.uImm
    case Auipc(_, _) => u.alu(AluAdd, pc, w.uImm)
    case OpImm(c, _, _, _) =>
      if c == Slti then Flag(u.cmp(4, w.rs1, w.iImm))
      else if c == Sltiu then Flag(u.cmp(6, w.rs1, w.iImm))
      else u.alu(AluOpOf(w.f3), w.rs1, w.iImm)
    case ShiftImm(c, _, _, _) => u.alu(if c == Srai then AluSra else AluOpOf(w.f3), w.rs1, w.iImm)
    case OpReg(_, _, _, _) => u.alu(AluOpOf(w.f3), w.rs1, w.rs2)
    case _ => NextPc(pc)
  }

  function RetireRegs(u: Units, pc: Word, regs: RegFile, w: Wires, i: Instr): RegFile {
    if i.Branch? then regs else RegWrite(regs, w.rd, RetireValue(u, pc, w, i))
  }

  lemma RetireUpper(u: Units, c: Core, w: Wires, resp: bool, rdata: Word, regs: RegFile, i: Instr)
    requires (i.Lui? || i.Auipc?) && c.state == ExecState(i) && Carries(w, regs, i)
    ensures Latch(u, c, w, resp, rdata) ==
            c.(state := Fetch1, pc := RetirePc(u, c.pc, w, i), regs := RetireRegs(u, c.pc, c.regs, w, i))
  {
    if i.Lui? {
      LatchLui(u, c, w, resp, rdata);
    } else {
      LatchAuipc(u, c, w, resp, rdata);
    }
  }

  lemma RetireJump(u: Units, c: Core, w: Wires, resp: bool, rdata: Word, regs: RegFile, i: Instr)
    requires (i.Jal? || i.Jalr?) && c.state == ExecState(i) && Carries(w, regs, i)
    ensures Latch(u, c, w, resp, rdata) ==
            c.(state := Fetch1, pc := RetirePc(u, c.pc, w, i), regs := RetireRegs(u, c.pc, c.regs, w, i))
  {
    if i.Jal? {
      LatchJal(u, c, w, resp, rdata);
    } else {
      LatchJalr(u, c, w, resp, rdata);
    }
  }

  lemma RetireBranch(u: Units, c: Core, w: Wires, resp: bool, rdata: Word, regs: RegFile, i: Instr)
    requires i.Branch? && c.state == ExecState(i) && Carries(w, regs, i)
    ensures Latch(u, c, w, resp, rdata) ==
            c.(state := Fetch1, pc := RetirePc(u, c.pc, w, i), regs := RetireRegs(u, c.pc, c.regs, w, i))
  {
    LatchBr(u, c, w, resp, rdata);
  }

  lemma RetireImm(u: Units, c: Core, w: Wires, resp: bool, rdata: Word, regs: RegFile, i: Instr)
    requires i.OpImm? && c.state == ExecState(i) && Carries(w, regs, i)
    ensures Latch(u, c, w, resp, rdata) ==
            c.(state := Fetch1, pc := RetirePc(u, c.pc, w, i), regs := RetireRegs(u, c.pc, c.regs, w, i))
  {
    if i.iop == Slti {
      LatchSlti(u, c, w, resp, rdata);
    } else if i.iop == Sltiu {
      LatchSltiu(u, c, w, resp, rdata);
    } else {
      LatchImm(u, c, w, resp, rdata);
    }
  }

  lemma RetireShift(u: Units, c: Core, w: Wires, resp: bool, rdata: Word, regs: RegFile, i: Instr)
    requires i.ShiftImm? && c.state == ExecState(i) && Carries(w, regs, i)
    ensures Latch(u, c, w, resp, rdata) ==
            c.(state := Fetch1, pc := RetirePc(u, c.pc, w, i), regs := RetireRegs(u, c.pc, c.regs, w, i))
  {
    if i.sop == Srai {
      LatchSrai(u, c, w, resp, rdata);
    } else {
      LatchImm(u, c, w, resp, rdata);
    }
  }

  lemma RetireReg(u: Units, c: Core, w: Wires, resp: bool, rdata: Word, regs: RegFile, i: Instr)
    requires i.OpReg? && c.state == ExecState(i) && Carries(w, regs, i)
    ensures Latch(u, c, w, resp, rdata) ==
            c.(state := Fetch1, pc := RetirePc(u, c.pc, w, i), regs := RetireRegs(u, c.pc, c.regs, w, i))
  {
    LatchReg(u, c, w, resp, rdata);
  }

  /** What the edge latches for instruction i in state s is the state b. */
  predicate RetiresAs(u: Units, w: Wires, s: Arch, i: Instr, b: Arch) {
    b == Arch(RetirePc(u, s.pc, w, i), RetireRegs(u, s.pc, s.regs, w, i), s.mem)
  }

  lemma ValueUpper(u: Units, w: Wires, s: Arch, i: Instr)
    requires (i.Lui? || i.Auipc?) && Carries(w, s.regs, i) && UnitsFit(u, s.pc, w, i)
    ensures RetiresAs(u, w, s, i, Machine(s, i))
  {
    match i { case Lui(_, _) => case Auipc(_, _) => }
  }

  lemma ValueJump(u: Units, w: Wires, s: Arch, i: Instr)
    requires (i.Jal? || i.Jalr?) && Carries(w, s.regs, i) && UnitsFit(u, s.pc, w, i)
    ensures RetiresAs(u, w, s, i, Machine(s, i))
  {
    match i { case Jal(_, _) => case Jalr(_, _, _) => }
  }

  lemma ValueBranch(u: Units, w: Wires, s: Arch, i: Instr)
    requires i.Branch? && Carries(w, s.regs, i) && UnitsFit(u, s.pc, w, i)
    ensures RetiresAs(u, w, s, i, Machine(s, i))
  {
  }

  lemma ImmValue(u: Units, pc: Word, w: Wires, regs: RegFile, i: Instr)
    requires i.OpImm? && Carries(w, regs, i) && UnitsFit(u, pc, w, i)
    ensures RetireValue(u, pc, w, i) == ImmResult(i.iop, RegRead(regs, i.rs1), SignExtend12(i.imm)) && w.rd == i.rd
  {
  }

  lemma ShiftValue(u: Units, pc: Word, w: Wires, regs: RegFile, i: Instr)
    requires i.ShiftImm? && Carries(w, regs, i) && UnitsFit(u, pc, w, i)
    ensures RetireValue(u, pc, w, i) == ShiftResult(i.sop, RegRead(regs, i.rs1), ShiftAmount(i.shamt)) && w.rd == i.rd
  {
  }

  lemma ValueImm(u: Units, w: Wires, s: Arch, i: Instr)
    requires i.OpImm? && Carries(w, s.regs, i) && UnitsFit(u, s.pc, w, i)
    ensures RetiresAs(u, w, s, i, Machine(s, i))
  {
    ImmValue(u, s.pc, w, s.regs, i);
  }

  lemma ValueShift(u: Units, w: Wires, s: Arch, i: Instr)
    requires i.ShiftImm? && Carries(w, s.regs, i) && UnitsFit(u, s.pc, w, i)
    ensures RetiresAs(u, w, s, i, Machine(s, i))
  {
    ShiftValue(u, s.pc, w, s.regs, i);
  }

  lemma ValueReg(u: Units, w: Wires, s: Arch, i: Instr)
    requires i.OpReg? && Carries(w, s.regs, i) && UnitsFit(u, s.pc, w, i)
    ensures RetiresAs(u, w, s, i, Machine(s, i))
  {
  }

  /** Every instruction without memory access retires in its executing edge ... */
  lemma RetireEdge(u: Units, c: Core, w: Wires, resp: bool, rdata: Word, i: Instr)
    requires !i.Load? && !i.Store? && c.state == ExecState(i) && Carries(w, c.regs, i)
    ensures Latch(u, c, w, resp, rdata) ==
            c.(state := Fetch1, pc := RetirePc(u, c.pc, w, i), regs := RetireRegs(u, c.pc, c.regs, w, i))
  {
    if i.Lui? || i.Auipc? {
      RetireUpper(u, c, w, resp, rdata, c.regs, i);
    } else if i.Jal? || i.Jalr? {
      RetireJump(u, c, w, resp, rdata, c.regs, i);
    } else if i.Branch? {
      RetireBranch(u, c, w, resp, rdata, c.regs, i);
    } else if i.OpImm? {
      RetireImm(u, c, w, resp, rdata, c.regs, i);
    } else if i.ShiftImm? {
      RetireShift(u, c, w, resp, rdata, c.regs, i);
    } else {
      RetireReg(u, c, w, resp, rdata, c.regs, i);
    }
  }

  /** ... and what it retires is what the machine's step prescribes. */
  lemma ValueOf(u: Units, w: Wires, s: Arch, i: Instr)
    requires !i.Load? && !i.Store? && Carries(w, s.regs, i) && UnitsFit(u, s.pc, w, i)
    ensures RetiresAs(u, w, s, i, Machine(s, i))
  {
    if i.Lui? || i.Auipc? {
      ValueUpper(u, w, s, i);
    } else if i.Jal? || i.Jalr? {
      ValueJump(u, w, s, i);
    } else if i.Branch? {
      ValueBranch(u, w, s, i);
    } else if i.OpImm? {
      ValueImm(u, w, s, i);
    } else if i.ShiftImm? {
      ValueShift(u, w, s, i);
    } else {
      ValueReg(u, w, s, i);
    }
  }

  // ------------------------------------------------------------ address and completion edges of loads and stores

  lemma LaneSelected(op: LoadOp, mdr: Word, lsb: bv2)
    ensures LoadMuxOf(LoadCode(op)).Some?
    ensures UNITS.lane(LoadMuxOf(LoadCode(op)).value, mdr, lsb) == LoadMux(op, mdr, lsb)
  {
  }

  /** The raw fields of a word that encodes instruction i. */
  predicate FieldsAre(w: Word, i: Instr) {
    match i
    case Lui(rd, u) => OpcodeOf(w) == OP_LUI && RdOf(w) == rd && Hi20Of(w) == u
    case Auipc(rd, u) => OpcodeOf(w) == OP_AUIPC && RdOf(w) == rd && Hi20Of(w) == u
    case Jal(rd, h) => OpcodeOf(w) == OP_JAL && RdOf(w) == rd && JumpDispOf(w) == h
    case Jalr(rd, rs1, imm) => OpcodeOf(w) == OP_JALR && RdOf(w) == rd && Rs1Of(w) == rs1 && Hi12Of(w) == imm
    case Branch(c, rs1, rs2, d) =>
      OpcodeOf(w) == OP_BR && Funct3Of(w) == BranchCode(c) && Rs1Of(w) == rs1 && Rs2Of(w) == rs2 && BranchDispOf(w) == d
    case Load(c, rd, rs1, imm) =>
      OpcodeOf(w) == OP_LOAD && Funct3Of(w) == LoadCode(c) && RdOf(w) == rd && Rs1Of(w) == rs1 && Hi12Of(w) == imm
    case Store(c, rs1, rs2, imm) =>
      OpcodeOf(w) == OP_STORE && Funct3Of(w) == StoreCode(c) && Rs1Of(w) == rs1 && Rs2Of(w) == rs2 && StoreImmOf(w) == imm
    case OpImm(c, rd, rs1, imm) =>
      OpcodeOf(w) == OP_IMM && Funct3Of(w) == ImmCode(c) && RdOf(w) == rd && Rs1Of(w) == rs1 && Hi12Of(w) == imm
    case ShiftImm(c, rd, rs1, sh) =>
      OpcodeOf(w) == OP_IMM && Funct3Of(w) == ShiftCode(c) && Funct7Of(w) == (if c == Srai then 0x20 else 0) &&
      RdOf(w) == rd && Rs1Of(w) == rs1 && Rs2Of(w) == sh
    case OpReg(c, rd, rs1, rs2) =>
      OpcodeOf(w) == OP_REG && Funct3Of(w) == RegCode(c) && RdOf(w) == rd && Rs1Of(w) == rs1 && Rs2Of(w) == rs2
  }

  lemma DecodedFields(w: Word, i: Instr)
    requires Decode(w) == Some(i)
    ensures FieldsAre(w, i)
  {
  }

  lemma ShamtOf(w: Word)
    ensures Amount(IImm(w)) == ShiftAmount(Rs2Of(w))
  {
  }

  lemma CarryU(c: Core, i: Instr)
    requires (i.Lui? || i.Auipc?) && FieldsAre(c.ir, i)
    ensures Carries(WiresOf(c), c.regs, i)
  {
    ImmediateU(c.ir);
  }

  lemma CarryJ(c: Core, i: Instr)
    requires i.Jal? && FieldsAre(c.ir, i)
    ensures Carries(WiresOf(c), c.regs, i)
  {
    ImmediateJ(c.ir);
  }

  lemma CarryJalr(c: Core, i: Instr)
    requires i.Jalr? && FieldsAre(c.ir, i)
    ensures Carries(WiresOf(c), c.regs, i)
  {
    ImmediateI(c.ir);
  }

  lemma CarryLoad(c: Core, i: Instr)
    requires i.Load? && FieldsAre(c.ir, i)
    ensures Carries(WiresOf(c), c.regs, i)
  {
    ImmediateI(c.ir);
  }

  lemma CarryImm(c: Core, i: Instr)
    requires i.OpImm? && FieldsAre(c.ir, i)
    ensures Carries(WiresOf(c), c.regs, i)
  {
    ImmediateI(c.ir);
  }

  lemma CarryB(c: Core, i: Instr)
    requires i.Branch? && FieldsAre(c.ir, i)
    ensures Carries(WiresOf(c), c.regs, i)
  {
    ImmediateB(c.ir);
  }

  lemma CarryS(c: Core, i: Instr)
    requires i.Store? && FieldsAre(c.ir, i)
    ensures Carries(WiresOf(c), c.regs, i)
  {
    ImmediateS(c.ir);
  }

  lemma CarryShift(c: Core, i: Instr)
    requires i.ShiftImm? && FieldsAre(c.ir, i)
    ensures Carries(WiresOf(c), c.regs, i)
  {
    ShamtOf(c.ir);
  }

  /** A decodable instruction register drives the wires of the instruction it decodes to. */
  lemma FieldsCarry(c: Core, i: Instr)
    requires FieldsAre(c.ir, i)
    ensures Carries(WiresOf(c), c.regs, i)
  {
    if i.Lui? || i.Auipc? {
      CarryU(c, i);
    } else if i.Jal? {
      CarryJ(c, i);
    } else if i.Jalr? {
      CarryJalr(c, i);
    } else if i.Load? {
      CarryLoad(c, i);
    } else if i.OpImm? {
      CarryImm(c, i);
    } else if i.Branch? {
      CarryB(c, i);
    } else if i.Store? {
      CarryS(c, i);
    } else if i.ShiftImm? {
      CarryShift(c, i);
    }
  }
}

/** The instruction formats in numbers: where the standard puts the fields of an instruction in its word. */
module RvFormats {
  import opened RvIsa
  import opened Binary
  import opened RvNumbers

  /** The six formats share the places of opcode, rd, funct3 and rs1; hi is everything from bit 20 on. */
  function Placed(hi: int, rs1: int, f3: int, rd: int, op: int): int {
    0x100000 * hi + 0x8000 * rs1 + 0x1000 * f3 + 0x80 * rd + op
  }

  /** The number of the word of an instruction. */
  function Format(i: Instr): int {
    match i
    case Lui(rd, u) => 0x1000 * (u as int) + 0x80 * (rd as int) + 0x37
    case Auipc(rd, u) => 0x1000 * (u as int) + 0x80 * (rd as int) + 0x17
    case Jal(rd, h) => 0x1000 * JumpPlaces(h as int) + 0x80 * (rd as int) + 0x6f
    case Jalr(rd, rs1, imm) => Placed(imm as int, rs1 as int, 0, rd as int, 0x67)
    case Branch(c, rs1, rs2, d) =>
      Placed(0x20 * BranchHigh(d as int) + rs2 as int, rs1 as int, BranchCode(c) as int, BranchLow(d as int), 0x63)
    case Load(c, rd, rs1, imm) => Placed(imm as int, rs1 as int, LoadCode(c) as int, rd as int, 0x03)
    case Store(c, rs1, rs2, imm) =>
      Placed(0x20 * (imm as int / 0x20) + rs2 as int, rs1 as int, StoreCode(c) as int, imm as int % 0x20, 0x23)
    case OpImm(c, rd, rs1, imm) => Placed(imm as int, rs1 as int, ImmCode(c) as int, rd as int, 0x13)
    case ShiftImm(c, rd, rs1, sh) =>
      Placed(0x20 * (if c == Srai then 0x20 else 0) + sh as int, rs1 as int, ShiftCode(c) as int, rd as int, 0x13)
    case OpReg(c, rd, rs1, rs2) =>
      Placed(0x20 * (if c == Sub || c == Sra then 0x20 else 0) + rs2 as int, rs1 as int, RegCode(c) as int, rd as int, 0x33)
  }

  // Branch displacements d and jump displacements h count halfwords: their last digit is bit 1 of the offset.

  function BranchHigh(d: int): int { 0x40 * (d / 0x800) + d / 0x10 % 0x40 }
  function BranchLow(d: int): int { 2 * (d % 0x10) + d / 0x400 % 2 }
  function JumpPlaces(h: int): int { 0x80000 * (h / 0x80000) + 0x200 * (h % 0x400) + 0x100 * (h / 0x400 % 2) + h / 0x800 % 0x100 }

  lemma PackNumber(hi: bv12, rs1: Reg, f3: bv3, rd: Reg, op: bv7)
    ensures (((hi as Word) << 20) | ((rs1 as Word) << 15) | ((f3 as Word) << 12) | ((rd as Word) << 7) | (op as Word)) as int ==
            0x100000 * (hi as int) + 0x8000 * (rs1 as int) + 0x1000 * (f3 as int) + 0x80 * (rd as int) + op as int
  {
  }

  lemma PackValue(hi: bv12, rs1: Reg, f3: bv3, rd: Reg, op: bv7)
    ensures Value(Pack(hi, rs1, f3, rd, op)) == Placed(hi as int, rs1 as int, f3 as int, rd as int, op as int)
  {
    PackNumber(hi, rs1, f3, rd, op);
    ValueIsInt(((hi as Word) << 20) | ((rs1 as Word) << 15) | ((f3 as Word) << 12) | ((rd as Word) << 7) | (op as Word));
  }

  lemma HighNumber(f7: bv7, rs2: Reg)
    ensures (((f7 as bv12) << 5) | (rs2 as bv12)) as int == 0x20 * (f7 as int) + rs2 as int
  {
  }

  lemma PackRValue(f7: bv7, rs2: Reg, rs1: Reg, f3: bv3, rd: Reg, op: bv7)
    ensures Value(PackR(f7, rs2, rs1, f3, rd, op)) ==
            Placed(0x20 * (f7 as int) + rs2 as int, rs1 as int, f3 as int, rd as int, op as int)
  {
    HighNumber(f7, rs2);
    PackValue(((f7 as bv12) << 5) | (rs2 as bv12), rs1, f3, rd, op);
  }

  lemma PackUNumber(u: bv20, rd: Reg, op: bv7)
    ensures (((u as Word) << 12) | ((rd as Word) << 7) | (op as Word)) as int == 0x1000 * (u as int) + 0x80 * (rd as int) + op as int
  {
  }

  lemma PackUValue(u: bv20, rd: Reg, op: bv7)
    ensures Value(PackU(u, rd, op)) == 0x1000 * (u as int) + 0x80 * (rd as int) + op as int
  {
    PackUNumber(u, rd, op);
    ValueIsInt(((u as Word) << 12) | ((rd as Word) << 7) | (op as Word));
  }

  lemma StoreDigits(imm: bv12)
    ensures imm as int == 0x20 * ((((imm >> 5) & 0x7f) as bv7) as int) + ((imm & 0x1f) as Reg) as int
    ensures 0 <= ((imm & 0x1f) as Reg) as int < 0x20
  {
  }

  lemma StoreParts(imm: bv12)
    ensures (((imm >> 5) & 0x7f) as bv7) as int == imm as int / 0x20 && ((imm & 0x1f) as Reg) as int == imm as int % 0x20
  {
    StoreDigits(imm);
    DivUnique(imm as int, 0x20, (((imm >> 5) & 0x7f) as bv7) as int, ((imm & 0x1f) as Reg) as int);
  }

  lemma PackSValue(imm: bv12, rs2: Reg, rs1: Reg, f3: bv3)
    ensures Value(PackS(imm, rs2, rs1, f3)) ==
            Placed(0x20 * (imm as int / 0x20) + rs2 as int, rs1 as int, f3 as int, imm as int % 0x20, 0x23)
  {
    StoreParts(imm);
    PackRValue(((imm >> 5) & 0x7f) as bv7, rs2, rs1, f3, (imm & 0x1f) as Reg, OP_STORE);
  }

  // The two scattered displacements, first by the digit groups they consist of.

  lemma BranchDigits(d: bv12)
    ensures d as int == 0x800 * (((d >> 11) & 1) as int) + 0x400 * (((d >> 10) & 1) as int) + 0x10 * (((d >> 4) & 0x3f) as int) + (d & 0xf) as int
    ensures 0 <= ((d >> 11) & 1) as int < 2 && 0 <= ((d >> 10) & 1) as int < 2
    ensures 0 <= ((d >> 4) & 0x3f) as int < 0x40 && 0 <= (d & 0xf) as int < 0x10
  {
  }

  lemma BranchFields(d: bv12)
    ensures (((((d >> 11) & 1) << 6) | ((d >> 4) & 0x3f)) as bv7) as int == 0x40 * (((d >> 11) & 1) as int) + ((d >> 4) & 0x3f) as int
    ensures ((((d & 0xf) << 1) | ((d >> 10) & 1)) as Reg) as int == 2 * ((d & 0xf) as int) + ((d >> 10) & 1) as int
  {
  }

  lemma BranchNumbers(d: int, s: int, e: int, m: int, l: int)
    requires d == 0x800 * s + 0x400 * e + 0x10 * m + l && 0 <= s < 2 && 0 <= e < 2 && 0 <= m < 0x40 && 0 <= l < 0x10
    ensures BranchHigh(d) == 0x40 * s + m && BranchLow(d) == 2 * l + e
  {
    DivUnique(d, 0x800, s, 0x400 * e + 0x10 * m + l);
    DivUnique(d, 0x400, 2 * s + e, 0x10 * m + l);
    DivUnique(2 * s + e, 2, s, e);
    DivUnique(d, 0x10, 0x80 * s + 0x40 * e + m, l);
    DivUnique(0x80 * s + 0x40 * e + m, 0x40, 2 * s + e, m);
  }

  function HighField(d: bv12): bv7 { ((((d >> 11) & 1) << 6) | ((d >> 4) & 0x3f)) as bv7 }
  function LowField(d: bv12): Reg { (((d & 0xf) << 1) | ((d >> 10) & 1)) as Reg }

  lemma RawB(d: bv12, rs2: Reg, rs1: Reg, f3: bv3)
    ensures PackB(d, rs2, rs1, f3) ==
            PackR(((((d >> 11) & 1) << 6) | ((d >> 4) & 0x3f)) as bv7, rs2, rs1, f3, (((d & 0xf) << 1) | ((d >> 10) & 1)) as Reg, OP_BR)
  {
  }

  lemma PackBIs(d: bv12, rs2: Reg, rs1: Reg, f3: bv3)
    ensures PackB(d, rs2, rs1, f3) == PackR(HighField(d), rs2, rs1, f3, LowField(d), OP_BR)
  {
    RawB(d, rs2, rs1, f3);
  }

  lemma BranchPlaces(d: bv12)
    ensures HighField(d) as int == BranchHigh(d as int) && LowField(d) as int == BranchLow(d as int)
  {
    BranchDigits(d);
    BranchFields(d);
    BranchNumbers(d as int, ((d >> 11) & 1) as int, ((d >> 10) & 1) as int, ((d >> 4) & 0x3f) as int, (d & 0xf) as int);
  }

  lemma PackedB(f7: bv7, rd: Reg, high: int, low: int, rs2: Reg, rs1: Reg, f3: bv3)
    requires f7 as int == high && rd as int == low
    ensures Value(PackR(f7, rs2, rs1, f3, rd, OP_BR)) == Placed(0x20 * high + rs2 as int, rs1 as int, f3 as int, low, 0x63)
  {
    PackRValue(f7, rs2, rs1, f3, rd, OP_BR);
  }

  lemma PackBValue(d: bv12, rs2: Reg, rs1: Reg, f3: bv3)
    ensures Value(PackB(d, rs2, rs1, f3)) ==
            Placed(0x20 * BranchHigh(d as int) + rs2 as int, rs1 as int, f3 as int, BranchLow(d as int), 0x63)
  {
    PackBIs(d, rs2, rs1, f3);
    BranchPlaces(d);
    PackedB(HighField(d), LowField(d), BranchHigh(d as int), BranchLow(d as int), rs2, rs1, f3);
  }

  lemma JumpDigits(h: bv20)
    ensures h as int == 0x80000 * (((h >> 19) & 1) as int) + 0x800 * (((h >> 11) & 0xff) as int) + 0x400 * (((h >> 10) & 1) as int) + (h & 0x3ff) as int
    ensures 0 <= ((h >> 19) & 1) as int < 2 && 0 <= ((h >> 11) & 0xff) as int < 0x100
    ensures 0 <= ((h >> 10) & 1) as int < 2 && 0 <= (h & 0x3ff) as int < 0x400
  {
  }

  lemma JumpFields(h: bv20)
    ensures ((((h >> 19) & 1) << 19) | ((h & 0x3ff) << 9) | (((h >> 10) & 1) << 8) | ((h >> 11) & 0xff)) as int ==
            0x80000 * (((h >> 19) & 1) as int) + 0x200 * ((h & 0x3ff) as int) + 0x100 * (((h >> 10) & 1) as int) + ((h >> 11) & 0xff) as int
  {
  }

  lemma JumpNumbers(h: int, s: int, m: int, e: int, l: int)
    requires h == 0x80000 * s + 0x800 * m + 0x400 * e + l && 0 <= s < 2 && 0 <= m < 0x100 && 0 <= e < 2 && 0 <= l < 0x400
    ensures JumpPlaces(h) == 0x80000 * s + 0x200 * l + 0x100 * e + m
  {
    DivUnique(h, 0x80000, s, 0x800 * m + 0x400 * e + l);
    DivUnique(h, 0x400, 0x200 * s + 2 * m + e, l);
    DivUnique(0x200 * s + 2 * m + e, 2, 0x100 * s + m, e);
    DivUnique(h, 0x800, 0x100 * s + m, 0x400 * e + l);
    DivUnique(0x100 * s + m, 0x100, s, m);
  }

  lemma PackJValue(h: bv20, rd: Reg)
    ensures Value(PackJ(h, rd)) == 0x1000 * JumpPlaces(h as int) + 0x80 * (rd as int) + 0x6f
  {
    JumpDigits(h);
    JumpFields(h);
    JumpNumbers(h as int, ((h >> 19) & 1) as int, ((h >> 11) & 0xff) as int, ((h >> 10) & 1) as int, (h & 0x3ff) as int);
    PackUValue((((h >> 19) & 1) << 19) | ((h & 0x3ff) << 9) | (((h >> 10) & 1) << 8) | ((h >> 11) & 0xff), rd, OP_JAL);
  }

  lemma EncodeUpper(i: Instr)
    requires i.Lui? || i.Auipc? || i.Jal?
    ensures Value(Encode(i)) == Format(i)
  {
    match i
    case Lui(rd, u) => PackUValue(u, rd, OP_LUI);
    case Auipc(rd, u) => PackUValue(u, rd, OP_AUIPC);
    case Jal(rd, h) => PackJValue(h, rd);
  }

  lemma EncodeMemory(i: Instr)
    requires i.Jalr? || i.Load? || i.Store? || i.Branch?
    ensures Value(Encode(i)) == Format(i)
  {
    match i
    case Jalr(rd, rs1, imm) => PackValue(imm, rs1, 0, rd, OP_JALR);
    case Branch(c, rs1, rs2, d) => PackBValue(d, rs2, rs1, BranchCode(c));
    case Load(c, rd, rs1, imm) => PackValue(imm, rs1, LoadCode(c), rd, OP_LOAD);
    case Store(c, rs1, rs2, imm) => PackSValue(imm, rs2, rs1, StoreCode(c));
  }

  lemma PackedR(f7: bv7, n: int, rs2: Reg, rs1: Reg, f3: bv3, rd: Reg, op: bv7)
    requires f7 as int == n
    ensures Value(PackR(f7, rs2, rs1, f3, rd, op)) == Placed(0x20 * n + rs2 as int, rs1 as int, f3 as int, rd as int, op as int)
  {
    PackRValue(f7, rs2, rs1, f3, rd, op);
  }

  lemma EncodeImmediate(i: Instr)
    requires i.OpImm? || i.ShiftImm?
    ensures Value(Encode(i)) == Format(i)
  {
    match i
    case OpImm(c, rd, rs1, imm) => PackValue(imm, rs1, ImmCode(c), rd, OP_IMM);
    case ShiftImm(c, rd, rs1, sh) =>
      if c == Srai {
        PackedR(0x20, 0x20, sh, rs1, ShiftCode(c), rd, OP_IMM);
      } else {
        PackedR(0, 0, sh, rs1, ShiftCode(c), rd, OP_IMM);
      }
  }

  lemma EncodeRegister(i: Instr)
    requires i.OpReg?
    ensures Value(Encode(i)) == Format(i)
  {
    if i.rop == Sub || i.rop == Sra {
      PackedR(0x20, 0x20, i.rs2, i.rs1, RegCode(i.rop), i.rd, OP_REG);
    } else {
      PackedR(0, 0, i.rs2, i.rs1, RegCode(i.rop), i.rd, OP_REG);
    }
  }

  /** The encoding puts opcode, registers, function codes and immediates where the formats say. */
  lemma EncodeValue(i: Instr)
    ensures Value(Encode(i)) == Format(i)
  {
    if i.Lui? || i.Auipc? || i.Jal? {
      EncodeUpper(i);
    } else if i.Jalr? || i.Load? || i.Store? || i.Branch? {
      EncodeMemory(i);
    } else if i.OpReg? {
      EncodeRegister(i);
    } else {
      EncodeImmediate(i);
    }
  }

  /** A word decodes to an instruction exactly when its number is the one the formats give it. */
  lemma DecodeValue(w: Word, i: Instr)
    ensures Decode(w) == Some(i) <==> Value(w) == Format(i)
  {
    EncodeValue(i);
    if Decode(w) == Some(i) {
      EncodeDecode(w);
    }
    if Value(w) == Format(i) {
      ValueInjective(w, Encode(i));
      DecodeEncode(i);
    }
  }
}

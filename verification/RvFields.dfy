/** The fields of instructions, the bytes of words and the targets of jumps, in numbers. */
module RvFields {
  import opened RvIsa
  import opened Binary
  import opened RvNumbers

  // ------------------------------------------------------------ narrow numbers read in two's complement

  /** The signed number of the digits of n, when there are numbers below 2 * half. */
  function Narrow(n: int, half: int): int { if n < half then n else n - 2 * half }

  function Signed8(b: Byte): int { Narrow(b as int, 0x80) }
  function Signed16(h: bv16): int { Narrow(h as int, 0x8000) }
  function Signed12(i: bv12): int { Narrow(i as int, 0x800) }
  function Signed20(i: bv20): int { Narrow(i as int, 0x80000) }

  lemma Cast8(b: Byte)
    ensures (b as Word) as int == b as int && 0 <= b as int < 0x100
  {
  }

  lemma Cast16(h: bv16)
    ensures (h as Word) as int == h as int && 0 <= h as int < 0x10000
  {
  }

  lemma Cast12(i: bv12)
    ensures (i as Word) as int == i as int && 0 <= i as int < 0x1000
  {
  }

  lemma Cast20(i: bv20)
    ensures (i as Word) as int == i as int && 0 <= i as int < 0x100000
  {
  }

  lemma Cast5(n: bv5)
    ensures (n as Word) as int == n as int && 0 <= n as int < 32
  {
  }

  lemma WideNumber(w: Word, n: int)
    requires w as int == n
    ensures Value(w) == n
  {
    ValueIsInt(w);
  }

  lemma Raw8(b: Byte)
    ensures SignExtend8(b) == if Less(b as Word, 0x80) then b as Word else Plus(0xffffff00, b as Word)
  {
  }

  lemma Raw16(h: bv16)
    ensures SignExtend16(h) == if Less(h as Word, 0x8000) then h as Word else Plus(0xffff0000, h as Word)
  {
  }

  lemma Raw12(i: bv12)
    ensures SignExtend12(i) == if Less(i as Word, 0x800) then i as Word else Plus(0xfffff000, i as Word)
  {
  }

  lemma Raw20(i: bv20)
    ensures SignExtend20(i) == if Less(i as Word, 0x80000) then i as Word else Plus(0xfff00000, i as Word)
  {
  }

  lemma NoCarry(n: int, sum: int)
    requires 0 <= n < TWO32 && sum == n % TWO32
    ensures sum == n
  {
  }

  lemma SmallSum(a: Word, b: Word, n: int)
    requires Value(a) + Value(b) == n && n < TWO32
    ensures Value(Plus(a, b)) == n
  {
    PlusValue(a, b);
    NoCarry(n, Value(Plus(a, b)));
  }

  /** Filling up a number with ones above it, from half the range on, subtracts the range. */
  lemma Filled(w: Word, ones: Word, half: int)
    requires half <= Value(w) < 2 * half && half <= 0x80000 && Value(ones) == TWO32 - 2 * half
    ensures Signed(Plus(ones, w)) == Value(w) - 2 * half
  {
    SmallSum(ones, w, Value(ones) + Value(w));
  }

  lemma Widened(e: Word, w: Word, limit: Word, ones: Word, half: int)
    requires e == if Less(w, limit) then w else Plus(ones, w)
    requires Value(w) < 2 * half && half <= 0x80000 && Value(limit) == half && Value(ones) == TWO32 - 2 * half
    ensures Signed(e) == Narrow(Value(w), half)
  {
    LessValue(w, limit);
    if Value(w) >= half {
      Filled(w, ones, half);
    }
  }

  lemma SignExtend8Word(b: Byte)
    requires Value(b as Word) < 2 * 0x80
    ensures Signed(SignExtend8(b)) == Narrow(Value(b as Word), 0x80)
  {
    Raw8(b);
    ValueIsInt(0x80);
    ValueIsInt(0xffffff00);
    Widened(SignExtend8(b), b as Word, 0x80, 0xffffff00, 0x80);
  }

  lemma SignExtend8Value(b: Byte)
    ensures Signed(SignExtend8(b)) == Signed8(b)
  {
    Cast8(b);
    ValueIsInt(b as Word);
    SignExtend8Word(b);
  }

  lemma SignExtend16Word(h: bv16)
    requires Value(h as Word) < 2 * 0x8000
    ensures Signed(SignExtend16(h)) == Narrow(Value(h as Word), 0x8000)
  {
    Raw16(h);
    ValueIsInt(0x8000);
    ValueIsInt(0xffff0000);
    Widened(SignExtend16(h), h as Word, 0x8000, 0xffff0000, 0x8000);
  }

  lemma SignExtend16Value(h: bv16)
    ensures Signed(SignExtend16(h)) == Signed16(h)
  {
    Cast16(h);
    ValueIsInt(h as Word);
    SignExtend16Word(h);
  }

  lemma SignExtend12Word(i: bv12)
    requires Value(i as Word) < 2 * 0x800
    ensures Signed(SignExtend12(i)) == Narrow(Value(i as Word), 0x800)
  {
    Raw12(i);
    ValueIsInt(0x800);
    ValueIsInt(0xfffff000);
    Widened(SignExtend12(i), i as Word, 0x800, 0xfffff000, 0x800);
  }

  lemma SignExtend12Value(i: bv12)
    ensures Signed(SignExtend12(i)) == Signed12(i)
  {
    Cast12(i);
    ValueIsInt(i as Word);
    SignExtend12Word(i);
  }

  lemma SignExtend20Word(i: bv20)
    requires Value(i as Word) < 2 * 0x80000
    ensures Signed(SignExtend20(i)) == Narrow(Value(i as Word), 0x80000)
  {
    Raw20(i);
    ValueIsInt(0x80000);
    ValueIsInt(0xfff00000);
    Widened(SignExtend20(i), i as Word, 0x80000, 0xfff00000, 0x80000);
  }

  lemma SignExtend20Value(i: bv20)
    ensures Signed(SignExtend20(i)) == Signed20(i)
  {
    Cast20(i);
    ValueIsInt(i as Word);
    SignExtend20Word(i);
  }

  lemma SignedSum(v: int, b: int, t: int, sum: int)
    requires 0 <= b < TWO32 && t == InTwosComplement(b) && sum == (v + b) % TWO32
    ensures sum == (v + t) % TWO32
  {
  }

  lemma SignedIs(b: Word)
    ensures 0 <= Value(b) < TWO32 && Signed(b) == InTwosComplement(Value(b))
  {
    ValueRange(b);
  }

  lemma SumParts(a: Word, b: Word, t: int, sum: int, va: int, vb: int)
    requires t == Signed(b) && sum == Value(Plus(a, b)) && va == Value(a) && vb == Value(b)
    ensures 0 <= vb < TWO32 && t == InTwosComplement(vb) && sum == (va + vb) % TWO32
  {
    PlusValue(a, b);
    SignedIs(b);
  }

  /** Adding a word adds its signed number t. */
  lemma PlusSigned(a: Word, b: Word, t: int, va: int, sum: int)
    requires t == Signed(b) && va == Value(a) && sum == Value(Plus(a, b))
    ensures sum == (va + t) % TWO32
  {
    SumParts(a, b, t, sum, va, Value(b));
    SignedSum(va, Value(b), t, sum);
  }

  // ------------------------------------------------------------ offsets and targets

  lemma RawUpper(u: bv20)
    ensures ((u as Word) << 12) as int == 4096 * (u as int)
  {
  }

  lemma UpperImmValue(u: bv20)
    ensures Value(UpperImm(u)) == 4096 * (u as int)
  {
    RawUpper(u);
    WideNumber((u as Word) << 12, 4096 * (u as int));
  }

  lemma RawJump(h: bv20, e: Word)
    requires e == SignExtend20(h)
    ensures JumpOffset(h) == Twice(e)
  {
  }

  lemma RawBranch(d: bv12, e: Word)
    requires e == SignExtend12(d)
    ensures BranchOffset(d) == Twice(e)
  {
  }

  lemma TwiceNumber(v: int, sum: int)
    requires 0 <= v < TWO32 && sum == (v + v) % TWO32 && -0x4000_0000 <= InTwosComplement(v) < 0x4000_0000
    ensures InTwosComplement(sum) == 2 * InTwosComplement(v)
  {
  }

  lemma TwiceSigned(w: Word)
    requires -0x4000_0000 <= Signed(w) < 0x4000_0000
    ensures Signed(Twice(w)) == 2 * Signed(w)
  {
    TwiceIsSum(w);
    PlusValue(w, w);
    ValueRange(w);
    TwiceNumber(Value(w), Value(Plus(w, w)));
  }

  lemma JumpOffsetValue(h: bv20)
    ensures Signed(JumpOffset(h)) == 2 * Signed20(h)
  {
    RawJump(h, SignExtend20(h));
    Cast20(h);
    SignExtend20Value(h);
    TwiceSigned(SignExtend20(h));
  }

  lemma BranchOffsetValue(d: bv12)
    ensures Signed(BranchOffset(d)) == 2 * Signed12(d)
  {
    RawBranch(d, SignExtend12(d));
    Cast12(d);
    SignExtend12Value(d);
    TwiceSigned(SignExtend12(d));
  }

  lemma NextPcIs(pc: Word)
    ensures NextPc(pc) == Plus(pc, 4)
  {
  }

  lemma NextPcValue(pc: Word)
    ensures Value(NextPc(pc)) == (Value(pc) + 4) % TWO32
  {
    NextPcIs(pc);
    PlusValue(pc, 4);
    WideNumber(4, 4);
  }

  lemma EvenHalf(a: Word)
    ensures Half(EvenTarget(a)) == Half(a) && !OddWord(EvenTarget(a))
  {
  }

  lemma EvenNumber(v: int, h: int, d: int)
    requires v == 2 * h + d && 0 <= d <= 1
    ensures 2 * h == v - v % 2
  {
  }

  /** The largest even address not above a. */
  lemma EvenTargetValue(a: Word)
    ensures Value(EvenTarget(a)) == Value(a) - Value(a) % 2
  {
    EvenHalf(a);
    ValueStep(a);
    ValueStep(EvenTarget(a));
    EvenNumber(Value(a), Value(Half(a)), Digit(a));
  }

  lemma Even(a: Word)
    ensures a & 1 == 0 <==> !OddWord(a)
    ensures a & 3 == 0 <==> !OddWord(a) && !OddWord(a >> 1)
  {
  }

  lemma FourPlaces(v: int, h: int, q: int, d: int, e: int)
    requires v == 2 * h + d && h == 2 * q + e && 0 <= d <= 1 && 0 <= e <= 1
    ensures v % 2 == d && v % 4 == 2 * e + d
  {
    TwoPlaces(v, h, d);
    assert v == 4 * q + (2 * e + d);
  }

  lemma TwoPlaces(v: int, h: int, d: int)
    requires v == 2 * h + d && 0 <= d <= 1
    ensures v % 2 == d
  {
  }

  lemma AlignedValue(a: Word)
    ensures a & 1 == 0 <==> Value(a) % 2 == 0
    ensures a & 3 == 0 <==> Value(a) % 4 == 0
  {
    var h := Half(a);
    Even(a);
    ValueStep(a);
    ValueStep(h);
    FourPlaces(Value(a), Value(h), Value(Half(h)), Digit(a), Digit(h));
  }

  // ------------------------------------------------------------ amounts

  lemma RawAmount(b: Word)
    ensures b == ((((b >> 5) as bv27) as Word) << 5) | (((b & 31) as bv5) as Word)
    ensures Amount(b) == ((b & 31) as bv5) as Word
  {
  }

  lemma Joined5(high: bv27, low: bv5)
    ensures (((high as Word) << 5) | (low as Word)) as int == 32 * (high as int) + (low as int)
  {
  }

  lemma Remainder(v: int, q: int, r: int)
    requires v == 32 * q + r && 0 <= r < 32
    ensures r == v % 32
  {
  }

  lemma LastFive(b: Word, high: bv27, low: bv5)
    requires b == ((high as Word) << 5) | (low as Word)
    ensures low as int == (b as int) % 32
  {
    Joined5(high, low);
    Cast5(low);
    Remainder(b as int, high as int, low as int);
  }

  /** The shift amount of a word is its remainder by 32. */
  lemma AmountValue(b: Word)
    ensures Value(Amount(b)) == Value(b) % 32
  {
    var low := (b & 31) as bv5;
    RawAmount(b);
    LastFive(b, (b >> 5) as bv27, low);
    ValueIsInt(b);
    Cast5(low);
    WideNumber(low as Word, low as int);
  }

  lemma ShiftAmountValue(n: bv5)
    ensures Value(ShiftAmount(n)) == n as int
  {
    Cast5(n);
    WideNumber(n as Word, n as int);
  }

  // ------------------------------------------------------------ bytes

  function Top2(b3: Byte, b2: Byte): Word { ((b3 as Word) << 24) | ((b2 as Word) << 16) }
  function Top3(b3: Byte, b2: Byte, b1: Byte): Word { ((b3 as Word) << 24) | ((b2 as Word) << 16) | ((b1 as Word) << 8) }

  lemma RawTop2(b3: Byte, b2: Byte)
    ensures Top2(b3, b2) == Plus((b3 as Word) << 24, (b2 as Word) << 16)
  {
  }

  lemma RawTop3(b3: Byte, b2: Byte, b1: Byte)
    ensures Top3(b3, b2, b1) == Plus(((b3 as Word) << 24) | ((b2 as Word) << 16), (b1 as Word) << 8)
  {
  }

  lemma RawJoin(b3: Byte, b2: Byte, b1: Byte, b0: Byte)
    ensures Join4(b3, b2, b1, b0) == Plus(((b3 as Word) << 24) | ((b2 as Word) << 16) | ((b1 as Word) << 8), b0 as Word)
  {
  }

  lemma JoinSums(b3: Byte, b2: Byte, b1: Byte, b0: Byte)
    ensures Top3(b3, b2, b1) == Plus(Top2(b3, b2), (b1 as Word) << 8)
    ensures Join4(b3, b2, b1, b0) == Plus(Top3(b3, b2, b1), b0 as Word)
  {
    RawTop3(b3, b2, b1);
    RawJoin(b3, b2, b1, b0);
  }

  lemma RawLanes(b: Byte)
    ensures ((b as Word) << 24) as int == 0x1000000 * (b as int)
    ensures ((b as Word) << 16) as int == 0x10000 * (b as int)
    ensures ((b as Word) << 8) as int == 0x100 * (b as int)
  {
  }

  lemma LaneValues(b: Byte)
    ensures Value((b as Word) << 24) == 0x1000000 * (b as int)
    ensures Value((b as Word) << 16) == 0x10000 * (b as int)
    ensures Value((b as Word) << 8) == 0x100 * (b as int)
    ensures Value(b as Word) == b as int && 0 <= b as int < 0x100
  {
    RawLanes(b);
    Cast8(b);
    ValueIsInt((b as Word) << 24);
    ValueIsInt((b as Word) << 16);
    ValueIsInt((b as Word) << 8);
    ValueIsInt(b as Word);
  }

  lemma Top2Value(b3: Byte, b2: Byte)
    ensures Value(Top2(b3, b2)) == 0x10000 * (b2 as int) + 0x1000000 * (b3 as int)
  {
    RawTop2(b3, b2);
    LaneValues(b3);
    LaneValues(b2);
    SmallSum((b3 as Word) << 24, (b2 as Word) << 16, 0x10000 * (b2 as int) + 0x1000000 * (b3 as int));
  }

  lemma Top3Value(b3: Byte, b2: Byte, b1: Byte)
    ensures Value(Top3(b3, b2, b1)) == 0x100 * (b1 as int) + 0x10000 * (b2 as int) + 0x1000000 * (b3 as int)
  {
    JoinSums(b3, b2, b1, 0);
    Top2Value(b3, b2);
    LaneValues(b3);
    LaneValues(b2);
    LaneValues(b1);
    SmallSum(Top2(b3, b2), (b1 as Word) << 8, 0x100 * (b1 as int) + 0x10000 * (b2 as int) + 0x1000000 * (b3 as int));
  }

  /** A word is made of its bytes, the first one lowest. */
  lemma Join4Value(b3: Byte, b2: Byte, b1: Byte, b0: Byte)
    ensures Value(Join4(b3, b2, b1, b0)) == b0 as int + 0x100 * (b1 as int) + 0x10000 * (b2 as int) + 0x1000000 * (b3 as int)
  {
    JoinSums(b3, b2, b1, b0);
    Top3Value(b3, b2, b1);
    LaneValues(b3);
    LaneValues(b2);
    LaneValues(b1);
    LaneValues(b0);
    SmallSum(Top3(b3, b2, b1), b0 as Word,
             b0 as int + 0x100 * (b1 as int) + 0x10000 * (b2 as int) + 0x1000000 * (b3 as int));
  }

  lemma RawHalf(b1: Byte, b0: Byte)
    ensures Join2(b1, b0) as Word == Join4(0, 0, b1, b0)
  {
  }

  lemma Join2Value(b1: Byte, b0: Byte)
    ensures Join2(b1, b0) as int == b0 as int + 0x100 * (b1 as int)
  {
    RawHalf(b1, b0);
    Join4Value(0, 0, b1, b0);
    Cast16(Join2(b1, b0));
    WideNumber(Join2(b1, b0) as Word, Join2(b1, b0) as int);
  }

  lemma Rejoined(v: Word)
    ensures Join4(ByteOf3(v), ByteOf2(v), ByteOf1(v), ByteOf0(v)) == v
  {
  }

  lemma Places(v: int, b3: int, b2: int, b1: int, b0: int)
    requires 0 <= b3 < 0x100 && 0 <= b2 < 0x100 && 0 <= b1 < 0x100 && 0 <= b0 < 0x100
    requires v == b0 + 0x100 * b1 + 0x10000 * b2 + 0x1000000 * b3
    ensures b0 == v % 0x100 && b1 == v / 0x100 % 0x100 && b2 == v / 0x10000 % 0x100 && b3 == v / 0x1000000 % 0x100
  {
    DivUnique(v, 0x100, b1 + 0x100 * b2 + 0x10000 * b3, b0);
    DivUnique(b1 + 0x100 * b2 + 0x10000 * b3, 0x100, b2 + 0x100 * b3, b1);
    DivUnique(v, 0x10000, b2 + 0x100 * b3, b0 + 0x100 * b1);
    DivUnique(b2 + 0x100 * b3, 0x100, b3, b2);
    DivUnique(v, 0x1000000, b3, b0 + 0x100 * b1 + 0x10000 * b2);
  }

  /** The bytes of a word are its digits to the base 256. */
  lemma BytesValue(v: Word)
    ensures ByteOf0(v) as int == Value(v) % 0x100
    ensures ByteOf1(v) as int == Value(v) / 0x100 % 0x100
    ensures ByteOf2(v) as int == Value(v) / 0x10000 % 0x100
    ensures ByteOf3(v) as int == Value(v) / 0x1000000 % 0x100
  {
    Rejoined(v);
    Cast8(ByteOf0(v));
    Cast8(ByteOf1(v));
    Cast8(ByteOf2(v));
    Cast8(ByteOf3(v));
    Join4Value(ByteOf3(v), ByteOf2(v), ByteOf1(v), ByteOf0(v));
    Places(Value(v), ByteOf3(v) as int, ByteOf2(v) as int, ByteOf1(v) as int, ByteOf0(v) as int);
  }
}

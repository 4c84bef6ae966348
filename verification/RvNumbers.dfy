/**
 * The word operations in numbers: what each does to the number a word stands for, stated with integer arithmetic and
 * binary digits only. This is the meaning the standard gives the instructions, independent of how a word is computed.
 */
module RvNumbers {
  import opened RvIsa
  import opened Binary

  const TWO31: int := 0x8000_0000

  // ------------------------------------------------------------ the number of a word

  predicate OddWord(w: Word) { w & 1 == 1 }
  function Half(w: Word): Word { w >> 1 }
  function Digit(w: Word): int { if OddWord(w) then 1 else 0 }

  /** The number whose binary digits are the bits of w. */
  function Value(w: Word): nat
    decreases w
  {
    if w == 0 then 0 else 2 * Value(Half(w)) + Digit(w)
  }

  /** The number of a word read in two's complement. */
  function Signed(w: Word): int { InTwosComplement(Value(w)) }

  function InTwosComplement(v: int): int { if v < TWO31 then v else v - TWO32 }

  lemma ValueStep(w: Word)
    ensures Value(w) == 2 * Value(Half(w)) + Digit(w)
  {
  }

  function Twice(w: Word): Word { w << 1 }
  function TwiceAndOne(w: Word): Word { (w << 1) | 1 }
  predicate Small(w: Word) { w < 0x80000000 }

  lemma Rebuilt(w: Word)
    ensures Small(Half(w)) && w == if OddWord(w) then TwiceAndOne(Half(w)) else Twice(Half(w))
  {
  }

  lemma TwiceInt(w: Word)
    requires w < 0x80000000
    ensures (w << 1) as int == 2 * (w as int)
  {
  }

  lemma TwiceAndOneInt(w: Word)
    requires w < 0x80000000
    ensures ((w << 1) | 1) as int == 2 * (w as int) + 1
  {
  }

  lemma {:induction false} ValueIsUnique(num: Word -> int, w: Word)
    requires num(0) == 0
    requires forall x: Word | Small(x) :: num(Twice(x)) == 2 * num(x)
    requires forall x: Word | Small(x) :: num(TwiceAndOne(x)) == 2 * num(x) + 1
    ensures Value(w) == num(w)
    decreases w
  {
    Rebuilt(w);
    if w != 0 {
      ValueIsUnique(num, Half(w));
    }
  }

  lemma ValueIsInt(w: Word)
    ensures Value(w) == w as int
  {
    var num := (x: Word) => x as int;
    forall x: Word | Small(x) ensures num(Twice(x)) == 2 * num(x) { TwiceInt(x); }
    forall x: Word | Small(x) ensures num(TwiceAndOne(x)) == 2 * num(x) + 1 { TwiceAndOneInt(x); }
    ValueIsUnique(num, w);
  }

  lemma ValueRange(w: Word)
    ensures Value(w) < TWO32
  {
    ValueIsInt(w);
  }

  /** Different words stand for different numbers. */
  lemma {:induction false} ValueInjective(a: Word, b: Word)
    requires Value(a) == Value(b)
    ensures a == b
    decreases a, b
  {
    Rebuilt(a);
    Rebuilt(b);
    if a != 0 || b != 0 {
      ValueStep(a);
      ValueStep(b);
      ValueInjective(Half(a), Half(b));
    }
  }

  // ------------------------------------------------------------ words count

  function Next(w: Word): Word { w + 1 }
  function Before(w: Word): Word { w - 1 }
  function Double(w: Word): Word { w + w }
  const LAST: Word := 0xffffffff

  lemma DoubleHalves(h: Word)
    requires Small(h)
    ensures Half(Double(h)) == h && !OddWord(Double(h))
    ensures Half(Next(Double(h))) == h && OddWord(Next(Double(h)))
  {
  }

  lemma EvenOrOdd(w: Word)
    ensures w == if OddWord(w) then Next(Double(Half(w))) else Double(Half(w))
    ensures Small(Half(w))
  {
  }

  lemma NextDouble(h: Word)
    ensures Next(Next(Double(h))) == Double(Next(h))
  {
  }

  lemma NextSmall(w: Word)
    requires OddWord(w) && w != LAST
    ensures Small(Next(Half(w))) && Half(w) < w && Half(w) != LAST
  {
  }

  lemma DoubleValue(h: Word)
    requires Small(h)
    ensures Value(Double(h)) == 2 * Value(h) && Value(Next(Double(h))) == 2 * Value(h) + 1
  {
    DoubleHalves(h);
    ValueStep(Double(h));
    ValueStep(Next(Double(h)));
  }

  lemma {:induction false} NextValue(w: Word)
    requires w != LAST
    ensures Value(Next(w)) == Value(w) + 1
    decreases w
  {
    EvenOrOdd(w);
    DoubleValue(Half(w));
    if OddWord(w) {
      NextSmall(w);
      NextValue(Half(w));
      NextDouble(Half(w));
      DoubleValue(Next(Half(w)));
    }
  }

  lemma LastValue()
    ensures Value(LAST) == TWO32 - 1 && Value(0) == 0 && Next(LAST) == 0
  {
    ValueIsInt(LAST);
  }

  lemma NextWraps(w: Word)
    ensures Value(Next(w)) == (Value(w) + 1) % TWO32
  {
    if w == LAST {
      LastValue();
    } else {
      NextValue(w);
      ValueRange(Next(w));
    }
  }

  lemma BeforeNext(b: Word)
    requires b != 0
    ensures Before(b) != LAST && Next(Before(b)) == b
  {
  }

  lemma BeforeValue(b: Word)
    requires b != 0
    ensures Value(b) == Value(Before(b)) + 1
  {
    BeforeNext(b);
    NextValue(Before(b));
  }

  /** Processor words as binary numbers. */
  const WORDS := Words(Value, 0, Next, Before, Half, OddWord)

  lemma WordsCount()
    ensures Counts(WORDS)
  {
    forall a: Word ensures Value(a) < TWO32 && Value(Next(a)) == (Value(a) + 1) % TWO32 {
      ValueRange(a);
      NextWraps(a);
    }
    forall a: Word | a != 0 ensures Value(a) == Value(Before(a)) + 1 { BeforeValue(a); }
  }

  lemma WordsHalve()
    ensures Halves(WORDS)
  {
    forall a: Word ensures Value(a) == 2 * Value(Half(a)) + (if OddWord(a) then 1 else 0) { ValueStep(a); }
  }

  lemma WordsFaithful()
    ensures Faithful(WORDS)
  {
    forall a: Word, b: Word | Value(a) == Value(b) ensures a == b { ValueInjective(a, b); }
  }

  // ------------------------------------------------------------ sums and differences

  lemma RawPlus(a: Word, b: Word)
    ensures Plus(a, 0) == a && Plus(a, b) == Plus(a + 1, b - 1)
  {
  }

  lemma PlusOneByOne(a: Word, b: Word)
    ensures Plus(a, 0) == a && Plus(a, b) == Plus(Next(a), Before(b))
  {
    RawPlus(a, b);
  }

  lemma PlusAdds()
    ensures Adds(WORDS, Plus)
  {
    forall a: Word ensures Plus(a, 0) == a { PlusOneByOne(a, 0); }
    forall a: Word, b: Word {:trigger Plus(Next(a), Before(b))} | b != 0 ensures Plus(a, b) == Plus(Next(a), Before(b)) { PlusOneByOne(a, b); }
  }

  /** The sum of words is the sum of their numbers, without the digits above the 32nd. */
  lemma PlusValue(a: Word, b: Word)
    ensures Value(Plus(a, b)) == (Value(a) + Value(b)) % TWO32
  {
    WordsCount();
    PlusAdds();
    Sum(WORDS, Plus, a, b);
  }

  lemma RawMinus(a: Word, b: Word)
    ensures Plus(a - b, b) == a
  {
  }

  lemma MinusPlus(a: Word, b: Word)
    ensures Plus(Minus(a, b), b) == a
  {
    RawMinus(a, b);
  }

  lemma MinusValue(a: Word, b: Word)
    ensures Value(Minus(a, b)) == (Value(a) - Value(b)) % TWO32
  {
    WordsCount();
    PlusAdds();
    MinusPlus(a, b);
    Difference(WORDS, Plus, Minus, a, b);
  }

  // ------------------------------------------------------------ order

  lemma HalfLess(a: Word, b: Word)
    requires Less(Half(a), Half(b))
    ensures Less(a, b)
  {
  }

  lemma SameHalfLess(a: Word, b: Word)
    requires Half(a) == Half(b) && !OddWord(a) && OddWord(b)
    ensures Less(a, b)
  {
  }

  lemma LessOneWay(a: Word, b: Word)
    requires Less(a, b)
    ensures !Less(b, a)
  {
  }

  lemma LessOrders()
    ensures Orders(WORDS, Less)
  {
    forall a: Word, b: Word | Less(Half(a), Half(b)) ensures Less(a, b) { HalfLess(a, b); }
    forall a: Word, b: Word | Half(a) == Half(b) && !OddWord(a) && OddWord(b) ensures Less(a, b) { SameHalfLess(a, b); }
    forall a: Word, b: Word | Less(a, b) ensures !Less(b, a) { LessOneWay(a, b); }
  }

  /** The unsigned order of words is the order of their numbers. */
  lemma LessValue(a: Word, b: Word)
    ensures Less(a, b) <==> Value(a) < Value(b)
  {
    WordsHalve();
    WordsFaithful();
    LessOrders();
    Order(WORDS, Less, a, b);
  }

  lemma NegativeLess(a: Word)
    ensures Negative(a) <==> !Less(a, 0x80000000)
  {
  }

  lemma NegativeValue(a: Word)
    ensures Negative(a) <==> Value(a) >= TWO31
  {
    NegativeLess(a);
    LessValue(a, 0x80000000);
    ValueIsInt(0x80000000);
  }

  /** The signed order is the order of the numbers read in two's complement. */
  lemma SignedLessValue(a: Word, b: Word)
    ensures SignedLess(a, b) <==> Signed(a) < Signed(b)
  {
    NegativeValue(a);
    NegativeValue(b);
    LessValue(a, b);
    ValueRange(a);
    ValueRange(b);
  }

  // ------------------------------------------------------------ shifts

  predicate ShiftWord(n: Word) { n < 32 }

  /** The shifts for all amounts; those from 32 on do not occur. */
  function RightBy(a: Word, n: Word): Word { if ShiftWord(n) then ShiftRight(a, n) else a }
  function LeftBy(a: Word, n: Word): Word { if ShiftWord(n) then ShiftLeft(a, n) else a }

  lemma ShiftWordValue(n: Word)
    ensures ShiftWord(n) <==> Value(n) < 32
  {
    LessValue(n, 32);
    ValueIsInt(32);
  }

  lemma RawRight(a: Word, n: Word)
    requires 0 < n < 32
    ensures ShiftRight(a, n) == ShiftRight(a >> 1, n - 1)
  {
  }

  lemma RawLeft(a: Word, n: Word)
    requires 0 < n < 32
    ensures ShiftLeft(a, n) == ShiftLeft(a << 1, n - 1)
  {
  }

  lemma BeforeShift(n: Word)
    requires ShiftWord(n) && n != 0
    ensures ShiftWord(Before(n)) && Before(n) == n - 1 && 0 < n < 32
  {
  }

  lemma RightOneByOne(a: Word, n: Word)
    requires ShiftWord(n) && n != 0
    ensures RightBy(a, n) == RightBy(Half(a), Before(n))
  {
    BeforeShift(n);
    RawRight(a, n);
  }

  lemma LeftOneByOne(a: Word, n: Word)
    requires ShiftWord(n) && n != 0
    ensures LeftBy(a, n) == LeftBy(Twice(a), Before(n))
  {
    BeforeShift(n);
    RawLeft(a, n);
  }

  lemma ShiftNone(a: Word)
    ensures RightBy(a, 0) == a && LeftBy(a, 0) == a
  {
  }

  lemma RightRepeats()
    ensures Repeats(WORDS, 32, RightBy, Half)
  {
    forall a: Word ensures RightBy(a, 0) == a { ShiftNone(a); }
    forall a: Word, n: Word {:trigger RightBy(Half(a), Before(n))} | n != 0 && Value(n) < 32
      ensures RightBy(a, n) == RightBy(Half(a), Before(n))
    {
      ShiftWordValue(n);
      RightOneByOne(a, n);
    }
  }

  lemma LeftRepeats()
    ensures Repeats(WORDS, 32, LeftBy, Twice)
  {
    forall a: Word ensures LeftBy(a, 0) == a { ShiftNone(a); }
    forall a: Word, n: Word {:trigger LeftBy(Twice(a), Before(n))} | n != 0 && Value(n) < 32
      ensures LeftBy(a, n) == LeftBy(Twice(a), Before(n))
    {
      ShiftWordValue(n);
      LeftOneByOne(a, n);
    }
  }

  /** A logical right shift is the quotient by the power of two. */
  lemma ShiftRightValue(a: Word, n: Word)
    requires n < 32
    ensures Value(ShiftRight(a, n)) == Value(a) / Pow2(Value(n))
  {
    ShiftWordValue(n);
    WordsCount();
    WordsHalve();
    RightRepeats();
    Right(WORDS, 32, RightBy, a, n);
  }

  lemma TwiceIsSum(a: Word)
    ensures Plus(a, a) == Twice(a)
  {
  }

  lemma TwiceDoubles()
    ensures Doubles(WORDS, Twice)
  {
    forall a: Word ensures Value(Twice(a)) == (2 * Value(a)) % TWO32 {
      TwiceIsSum(a);
      PlusValue(a, a);
    }
  }

  /** A left shift is the product with the power of two, without the digits above the 32nd. */
  lemma ShiftLeftValue(a: Word, n: Word)
    requires n < 32
    ensures Value(ShiftLeft(a, n)) == (Value(a) * Pow2(Value(n))) % TWO32
  {
    ShiftWordValue(n);
    WordsCount();
    TwiceDoubles();
    LeftRepeats();
    Left(WORDS, 32, LeftBy, Twice, a, n);
  }

  function Complement(a: Word): Word { !a }

  lemma ComplementIs(a: Word)
    ensures Complement(a) == Minus(LAST, a)
  {
  }

  lemma ComplementValue(a: Word)
    ensures Value(Complement(a)) == TWO32 - 1 - Value(a)
  {
    ComplementIs(a);
    LastValue();
    FromLast(a, LAST);
  }

  lemma LastMinus(last: int, v: int, d: int)
    requires last == TWO32 - 1 && 0 <= v < TWO32 && d == (last - v) % TWO32
    ensures d == TWO32 - 1 - v
  {
  }

  lemma FromLast(a: Word, last: Word)
    requires Value(last) == TWO32 - 1
    ensures Value(Minus(last, a)) == TWO32 - 1 - Value(a)
  {
    MinusValue(last, a);
    ValueRange(a);
    LastMinus(Value(last), Value(a), Value(Minus(last, a)));
  }

  lemma RawArith(a: Word, n: Word)
    requires n < 32 && Negative(a)
    ensures ShiftRightArith(a, n) == Complement((!a) >> n) && ShiftRight(!a, n) == (!a) >> n
  {
  }

  lemma ArithNegative(a: Word, n: Word)
    requires n < 32 && Negative(a)
    ensures ShiftRightArith(a, n) == Complement(ShiftRight(Complement(a), n))
  {
    RawArith(a, n);
  }

  lemma ArithOther(a: Word, n: Word)
    requires n < 32 && !Negative(a)
    ensures ShiftRightArith(a, n) == ShiftRight(a, n)
  {
  }

  lemma ArithOfNegative(a: Word, n: Word, c: Word, q: Word)
    requires n < 32 && Negative(a) && c == Complement(a) && q == ShiftRight(c, n)
    ensures Value(ShiftRightArith(a, n)) == TWO32 - 1 - Value(q)
  {
    ArithNegative(a, n);
    ComplementValue(q);
  }

  lemma ArithOfOther(a: Word, n: Word)
    requires n < 32 && !Negative(a)
    ensures Value(ShiftRightArith(a, n)) == Value(a) / Pow2(Value(n))
  {
    ArithOther(a, n);
    ShiftRightValue(a, n);
  }

  lemma QuotientOfNegative(v: int, c: nat, p: nat, q: int, r: int)
    requires TWO31 <= v < TWO32 && p > 0 && c == TWO32 - 1 - v && q == c / p && r == TWO32 - 1 - q
    ensures InTwosComplement(r) == InTwosComplement(v) / p
  {
    QuotientBelow(c, p);
    NegativeQuotient(c, p);
  }

  lemma QuotientOfOther(v: int, p: nat, r: int)
    requires 0 <= v < TWO31 && p > 0 && r == v / p
    ensures InTwosComplement(r) == InTwosComplement(v) / p
  {
    QuotientBelow(v, p);
  }

  lemma ArithSignedNegative(a: Word, n: Word, c: Word, q: Word, r: Word)
    requires n < 32 && Negative(a) && c == Complement(a) && q == ShiftRight(c, n) && r == ShiftRightArith(a, n)
    ensures InTwosComplement(Value(r)) == InTwosComplement(Value(a)) / Pow2(Value(n))
  {
    NegativeValue(a);
    ValueRange(a);
    ComplementValue(a);
    ShiftRightValue(c, n);
    ArithOfNegative(a, n, c, q);
    QuotientOfNegative(Value(a), Value(c), Pow2(Value(n)), Value(q), Value(r));
  }

  lemma ArithSignedOther(a: Word, n: Word, r: Word)
    requires n < 32 && !Negative(a) && r == ShiftRightArith(a, n)
    ensures InTwosComplement(Value(r)) == InTwosComplement(Value(a)) / Pow2(Value(n))
  {
    NegativeValue(a);
    ArithOfOther(a, n);
    QuotientOfOther(Value(a), Pow2(Value(n)), Value(r));
  }

  /** An arithmetic right shift is the quotient of the signed number, rounded towards minus infinity. */
  lemma ShiftRightArithValue(a: Word, n: Word)
    requires n < 32
    ensures Signed(ShiftRightArith(a, n)) == Signed(a) / Pow2(Value(n))
  {
    if Negative(a) {
      ArithSignedNegative(a, n, Complement(a), ShiftRight(Complement(a), n), ShiftRightArith(a, n));
    } else {
      ArithSignedOther(a, n, ShiftRightArith(a, n));
    }
  }

  // ------------------------------------------------------------ binary digits

  /** The n-th binary digit of a word, counted from the right. */
  predicate Bit(w: Word, n: nat) { DigitAt(Value(w), n) }

  predicate One(x: bool, y: bool) { x != y }
  predicate Any(x: bool, y: bool) { x || y }
  predicate Both(x: bool, y: bool) { x && y }

  lemma WordDigits(f: (Word, Word) -> Word, g: (bool, bool) -> bool, a: Word, b: Word, n: nat)
    requires Digitwise(WORDS, f, g)
    ensures Bit(f(a, b), n) == g(Bit(a, n), Bit(b, n))
  {
    WordsHalve();
    Digits(WORDS, f, g, a, b, n);
  }

  lemma RawXor(a: Word, b: Word)
    ensures Half(a ^ b) == BitXor(a >> 1, b >> 1) && OddWord(a ^ b) == One(OddWord(a), OddWord(b))
  {
  }

  lemma XorDigit(a: Word, b: Word)
    ensures Half(BitXor(a, b)) == BitXor(Half(a), Half(b)) && OddWord(BitXor(a, b)) == One(OddWord(a), OddWord(b))
  {
    RawXor(a, b);
  }

  lemma XorDigitwise()
    ensures Digitwise(WORDS, BitXor, One)
  {
    forall a: Word, b: Word {:trigger Half(BitXor(a, b))}
      ensures Half(BitXor(a, b)) == BitXor(Half(a), Half(b))
    {
      XorDigit(a, b);
    }
    forall a: Word, b: Word {:trigger OddWord(BitXor(a, b))}
      ensures OddWord(BitXor(a, b)) == One(OddWord(a), OddWord(b))
    {
      XorDigit(a, b);
    }
  }

  /** A digit of the exclusive or is set when exactly one of the two digits is. */
  lemma XorBits(a: Word, b: Word, n: nat)
    ensures Bit(BitXor(a, b), n) <==> Bit(a, n) != Bit(b, n)
  {
    XorDigitwise();
    WordDigits(BitXor, One, a, b, n);
  }

  lemma RawOr(a: Word, b: Word)
    ensures Half(a | b) == BitOr(a >> 1, b >> 1) && OddWord(a | b) == Any(OddWord(a), OddWord(b))
  {
  }

  lemma OrDigit(a: Word, b: Word)
    ensures Half(BitOr(a, b)) == BitOr(Half(a), Half(b)) && OddWord(BitOr(a, b)) == Any(OddWord(a), OddWord(b))
  {
    RawOr(a, b);
  }

  lemma OrDigitwise()
    ensures Digitwise(WORDS, BitOr, Any)
  {
    forall a: Word, b: Word {:trigger Half(BitOr(a, b))}
      ensures Half(BitOr(a, b)) == BitOr(Half(a), Half(b))
    {
      OrDigit(a, b);
    }
    forall a: Word, b: Word {:trigger OddWord(BitOr(a, b))}
      ensures OddWord(BitOr(a, b)) == Any(OddWord(a), OddWord(b))
    {
      OrDigit(a, b);
    }
  }

  lemma OrBits(a: Word, b: Word, n: nat)
    ensures Bit(BitOr(a, b), n) <==> Bit(a, n) || Bit(b, n)
  {
    OrDigitwise();
    WordDigits(BitOr, Any, a, b, n);
  }

  lemma RawAnd(a: Word, b: Word)
    ensures Half(a & b) == BitAnd(a >> 1, b >> 1) && OddWord(a & b) == Both(OddWord(a), OddWord(b))
  {
  }

  lemma AndDigit(a: Word, b: Word)
    ensures Half(BitAnd(a, b)) == BitAnd(Half(a), Half(b)) && OddWord(BitAnd(a, b)) == Both(OddWord(a), OddWord(b))
  {
    RawAnd(a, b);
  }

  lemma AndDigitwise()
    ensures Digitwise(WORDS, BitAnd, Both)
  {
    forall a: Word, b: Word {:trigger Half(BitAnd(a, b))}
      ensures Half(BitAnd(a, b)) == BitAnd(Half(a), Half(b))
    {
      AndDigit(a, b);
    }
    forall a: Word, b: Word {:trigger OddWord(BitAnd(a, b))}
      ensures OddWord(BitAnd(a, b)) == Both(OddWord(a), OddWord(b))
    {
      AndDigit(a, b);
    }
  }

  lemma AndBits(a: Word, b: Word, n: nat)
    ensures Bit(BitAnd(a, b), n) <==> Bit(a, n) && Bit(b, n)
  {
    AndDigitwise();
    WordDigits(BitAnd, Both, a, b, n);
  }
}

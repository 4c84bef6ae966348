/**
 * Binary numbers of 32 digits over any type that counts around and can be halved: what sums, shifts, comparisons and
 * digitwise operations on such a type do to the numbers.
 */
module Binary {
  const TWO32: int := 0x1_0000_0000

  function Pow2(n: nat): (p: nat)
    ensures p > 0
  {
    if n == 0 then 1 else 2 * Pow2(n - 1)
  }

  // ------------------------------------------------------------ quotients

  lemma DivUnique(v: int, p: int, q: int, r: int)
    requires p > 0 && v == p * q + r && 0 <= r < p
    ensures v / p == q && v % p == r
  {
    var d := v / p - q;
    assert p * d == r - v % p by {
      assert v == p * (v / p) + v % p;
      assert p * (v / p) - p * q == p * d;
    }
    assert d >= 1 ==> p * d >= p;
    assert d <= -1 ==> p * d <= -p;
  }

  lemma DivTwice(v: nat, h: nat, d: int, p: nat)
    requires v == 2 * h + d && 0 <= d <= 1 && p > 0
    ensures v / (2 * p) == h / p
  {
    var q, r := h / p, h % p;
    assert v == (2 * p) * q + (2 * r + d);
    DivUnique(v, 2 * p, q, 2 * r + d);
  }

  lemma ProductNotNegative(x: nat, y: nat)
    ensures x * y >= 0
  {
  }

  lemma QuotientBelow(v: nat, p: nat)
    requires p > 0
    ensures 0 <= v / p <= v
  {
    ProductNotNegative(p - 1, v / p);
    assert p * (v / p) == v / p + (p - 1) * (v / p);
  }

  lemma NegativeQuotient(v: int, p: int)
    requires p > 0
    ensures (-1 - v) / p == -1 - v / p
  {
    assert -1 - v == p * (-1 - v / p) + (p - 1 - v % p) by {
      assert v == p * (v / p) + v % p;
      assert p * (-1 - v / p) == -p - p * (v / p);
    }
    DivUnique(-1 - v, p, -1 - v / p, p - 1 - v % p);
  }

  lemma ModShift(x: int, k: int)
    ensures (TWO32 * k + x) % TWO32 == x % TWO32
  {
  }

  lemma ModTimes(x: int, y: int, p: int)
    requires y == x % TWO32
    ensures (y * p) % TWO32 == (x * p) % TWO32
  {
    var k := x / TWO32;
    assert x * p == TWO32 * (k * p) + y * p by { assert x == TWO32 * k + y; }
    ModShift(y * p, k * p);
  }

  // ------------------------------------------------------------ words

  /** A type of words: the number of a word, counting up and down, half of it and its last digit. */
  datatype Words<!W> = Words(value: W -> nat, zero: W, next: W -> W, before: W -> W, half: W -> W, odd: W -> bool)

  ghost predicate Counts<W(!new)>(x: Words<W>) {
    && x.value(x.zero) == 0
    && (forall a: W :: x.value(a) < TWO32 && x.value(x.next(a)) == (x.value(a) + 1) % TWO32)
    && (forall a: W | a != x.zero :: x.value(a) == x.value(x.before(a)) + 1)
  }

  ghost predicate Halves<W(!new)>(x: Words<W>) {
    forall a: W :: x.value(a) == 2 * x.value(x.half(a)) + (if x.odd(a) then 1 else 0)
  }

  ghost predicate Faithful<W(!new)>(x: Words<W>) { forall a: W, b: W | x.value(a) == x.value(b) :: a == b }

  // ------------------------------------------------------------ sums

  /** Addition counts one operand up while it counts the other down. */
  ghost predicate Adds<W(!new)>(x: Words<W>, plus: (W, W) -> W) {
    && (forall a: W :: plus(a, x.zero) == a)
    && (forall a: W, b: W {:trigger plus(x.next(a), x.before(b))} | b != x.zero :: plus(a, b) == plus(x.next(a), x.before(b)))
  }

  lemma {:induction false} Sum<W(!new)>(x: Words<W>, plus: (W, W) -> W, a: W, b: W)
    requires Counts(x) && Adds(x, plus)
    ensures x.value(plus(a, b)) == (x.value(a) + x.value(b)) % TWO32
    decreases x.value(b)
  {
    if b != x.zero {
      Sum(x, plus, x.next(a), x.before(b));
    }
  }

  lemma Difference<W(!new)>(x: Words<W>, plus: (W, W) -> W, minus: (W, W) -> W, a: W, b: W)
    requires Counts(x) && Adds(x, plus) && plus(minus(a, b), b) == a
    ensures x.value(minus(a, b)) == (x.value(a) - x.value(b)) % TWO32
  {
    Sum(x, plus, minus(a, b), b);
  }

  // ------------------------------------------------------------ order

  ghost predicate Orders<W(!new)>(x: Words<W>, less: (W, W) -> bool) {
    && (forall a: W, b: W | less(x.half(a), x.half(b)) :: less(a, b))
    && (forall a: W, b: W | x.half(a) == x.half(b) && !x.odd(a) && x.odd(b) :: less(a, b))
    && (forall a: W, b: W | less(a, b) :: !less(b, a))
  }

  lemma {:induction false} Below<W(!new)>(x: Words<W>, less: (W, W) -> bool, a: W, b: W)
    requires Halves(x) && Faithful(x) && Orders(x, less) && x.value(a) < x.value(b)
    ensures less(a, b)
    decreases x.value(b)
  {
    if x.value(x.half(a)) < x.value(x.half(b)) {
      Below(x, less, x.half(a), x.half(b));
    }
  }

  lemma Order<W(!new)>(x: Words<W>, less: (W, W) -> bool, a: W, b: W)
    requires Halves(x) && Faithful(x) && Orders(x, less)
    ensures less(a, b) <==> x.value(a) < x.value(b)
  {
    if x.value(a) < x.value(b) {
      Below(x, less, a, b);
    } else if x.value(b) < x.value(a) {
      Below(x, less, b, a);
    }
  }

  // ------------------------------------------------------------ shifts

  /** A shift by an amount below the limit repeats a step that often. */
  ghost predicate Repeats<W(!new)>(x: Words<W>, limit: nat, shift: (W, W) -> W, step: W -> W) {
    && (forall a: W :: shift(a, x.zero) == a)
    && (forall a: W, n: W {:trigger shift(step(a), x.before(n))} | n != x.zero && x.value(n) < limit :: shift(a, n) == shift(step(a), x.before(n)))
  }

  /** result(a, k) is the number of a after k steps. */
  ghost predicate Results<W(!new)>(x: Words<W>, step: W -> W, result: (W, nat) -> int) {
    && (forall a: W :: result(a, 0) == x.value(a))
    && (forall a: W, k: nat | k > 0 :: result(a, k) == result(step(a), k - 1))
  }

  lemma {:induction false} Shifted<W(!new)>(
      x: Words<W>, limit: nat, shift: (W, W) -> W, step: W -> W, result: (W, nat) -> int, a: W, n: W)
    requires Counts(x) && Repeats(x, limit, shift, step) && Results(x, step, result) && x.value(n) < limit
    ensures x.value(shift(a, n)) == result(a, x.value(n))
    decreases x.value(n)
  {
    if n != x.zero {
      Shifted(x, limit, shift, step, result, step(a), x.before(n));
    }
  }

  lemma Right<W(!new)>(x: Words<W>, limit: nat, shift: (W, W) -> W, a: W, n: W)
    requires Counts(x) && Halves(x) && Repeats(x, limit, shift, x.half) && x.value(n) < limit
    ensures x.value(shift(a, n)) == x.value(a) / Pow2(x.value(n))
  {
    var result := (b: W, k: nat) => x.value(b) / Pow2(k);
    forall b: W, k: nat | k > 0
      ensures result(b, k) == result(x.half(b), k - 1)
    {
      DivTwice(x.value(b), x.value(x.half(b)), if x.odd(b) then 1 else 0, Pow2(k - 1));
    }
    Shifted(x, limit, shift, x.half, result, a, n);
  }

  lemma ProductStep(v: int, w: int, p: int)
    requires w == (2 * v) % TWO32
    ensures (w * p) % TWO32 == (v * (2 * p)) % TWO32
  {
    ModTimes(2 * v, w, p);
    assert 2 * v * p == v * (2 * p);
  }

  ghost predicate Doubles<W(!new)>(x: Words<W>, twice: W -> W) {
    forall a: W :: x.value(twice(a)) == (2 * x.value(a)) % TWO32
  }

  lemma Left<W(!new)>(x: Words<W>, limit: nat, shift: (W, W) -> W, twice: W -> W, a: W, n: W)
    requires Counts(x) && Doubles(x, twice) && Repeats(x, limit, shift, twice) && x.value(n) < limit
    ensures x.value(shift(a, n)) == (x.value(a) * Pow2(x.value(n))) % TWO32
  {
    var result := (b: W, k: nat) => (x.value(b) * Pow2(k)) % TWO32;
    forall b: W, k: nat | k > 0
      ensures result(b, k) == result(twice(b), k - 1)
    {
      ProductStep(x.value(b), x.value(twice(b)), Pow2(k - 1));
    }
    Shifted(x, limit, shift, twice, result, a, n);
  }

  // ------------------------------------------------------------ digits

  /** The n-th binary digit of a number, counted from the right. */
  predicate DigitAt(v: nat, n: nat) { (v / Pow2(n)) % 2 == 1 }

  lemma DigitNext(v: nat, h: nat, d: int, n: nat)
    requires v == 2 * h + d && 0 <= d <= 1 && n > 0
    ensures DigitAt(v, n) == DigitAt(h, n - 1)
  {
    DivTwice(v, h, d, Pow2(n - 1));
  }

  lemma DigitFirst(v: nat, h: nat, d: int)
    requires v == 2 * h + d && 0 <= d <= 1
    ensures DigitAt(v, 0) <==> d == 1
  {
  }

  /** f combines words digit by digit as g does booleans. */
  ghost predicate Digitwise<W(!new)>(x: Words<W>, f: (W, W) -> W, g: (bool, bool) -> bool) {
    && (forall a: W, b: W {:trigger x.half(f(a, b))} :: x.half(f(a, b)) == f(x.half(a), x.half(b)))
    && (forall a: W, b: W {:trigger x.odd(f(a, b))} :: x.odd(f(a, b)) == g(x.odd(a), x.odd(b)))
  }

  lemma {:induction false} DigitsVia<W(!new)>(
      x: Words<W>, bit: (W, nat) -> bool, f: (W, W) -> W, g: (bool, bool) -> bool, a: W, b: W, n: nat)
    requires Digitwise(x, f, g)
    requires forall w: W :: bit(w, 0) == x.odd(w)
    requires forall w: W, k: nat | k > 0 :: bit(w, k) == bit(x.half(w), k - 1)
    ensures bit(f(a, b), n) == g(bit(a, n), bit(b, n))
    decreases n
  {
    if n == 0 {
      assert x.odd(f(a, b)) == g(x.odd(a), x.odd(b));
    } else {
      assert x.half(f(a, b)) == f(x.half(a), x.half(b));
      DigitsVia(x, bit, f, g, x.half(a), x.half(b), n - 1);
    }
  }

  lemma Digits<W(!new)>(x: Words<W>, f: (W, W) -> W, g: (bool, bool) -> bool, a: W, b: W, n: nat)
    requires Halves(x) && Digitwise(x, f, g)
    ensures DigitAt(x.value(f(a, b)), n) == g(DigitAt(x.value(a), n), DigitAt(x.value(b), n))
  {
    var bit := (w: W, k: nat) => DigitAt(x.value(w), k);
    forall w: W
      ensures bit(w, 0) == x.odd(w)
    {
      DigitFirst(x.value(w), x.value(x.half(w)), if x.odd(w) then 1 else 0);
    }
    forall w: W, k: nat | k > 0
      ensures bit(w, k) == bit(x.half(w), k - 1)
    {
      DigitNext(x.value(w), x.value(x.half(w)), if x.odd(w) then 1 else 0, k);
    }
    DigitsVia(x, bit, f, g, a, b, n);
  }

  lemma {:induction false} DigitsDecide(v: nat, w: nat, n: nat)
    requires v < Pow2(n) && w < Pow2(n)
    requires forall k: nat | k < n :: DigitAt(v, k) == DigitAt(w, k)
    ensures v == w
    decreases n
  {
    if n > 0 {
      forall k: nat | k < n - 1
        ensures DigitAt(v / 2, k) == DigitAt(w / 2, k)
      {
        DigitNext(v, v / 2, v % 2, k + 1);
        DigitNext(w, w / 2, w % 2, k + 1);
        assert DigitAt(v, k + 1) == DigitAt(w, k + 1);
      }
      DigitsDecide(v / 2, w / 2, n - 1);
      assert DigitAt(v, 0) == DigitAt(w, 0);
    }
  }
}

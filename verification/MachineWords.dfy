/**
  64-bit words and the numbers they stand for: the or, and, and shifts of the varint code
  (cmd/pb/chat.pb.go) compute the sums, remainders and quotients that ChatCodec is written with.
*/
module MachineWords {
  import opened Basics
  import opened ChatCodec

  function Pow2(n: nat): (p: nat)
    ensures p > 0
  {
    if n == 0 then 1 else 2 * Pow2(n - 1)
  }

  predicate Odd(v: bv64) {
    v & 1 == 1
  }

  function Bit(v: bv64): nat {
    if Odd(v) then 1 else 0
  }

  function Half(v: bv64): bv64 {
    v >> 1
  }

  function Shr7(v: bv64): bv64 {
    v >> 7
  }

  function Shl7(v: bv64): bv64 {
    v << 7
  }

  function Mask7(v: bv64): bv64 {
    v & 0x7f
  }

  function Xor(x: bv64, y: bv64): bv64 {
    x ^ y
  }

  /** The number that the lowest n bits of a word stand for. */
  function Low(v: bv64, n: nat): (x: nat)
    ensures x < Pow2(n)
    decreases n
  {
    if n == 0 then 0 else Bit(v) + 2 * Low(Half(v), n - 1)
  }

  /** The number a word stands for. */
  function Value(v: bv64): nat {
    Low(v, 64)
  }

  function Halved(v: bv64, n: nat): bv64
    decreases n
  {
    if n == 0 then v else Halved(Half(v), n - 1)
  }

  // ----- or -----

  function Or(x: bv64, y: bv64): bv64 {
    x | y
  }

  predicate Disjoint(x: bv64, y: bv64) {
    x & y == 0
  }

  lemma OrHalves(x: bv64, y: bv64)
    ensures Half(Or(x, y)) == Or(Half(x), Half(y))
  {
  }

  lemma OrOdd(x: bv64, y: bv64)
    ensures Odd(Or(x, y)) <==> Odd(x) || Odd(y)
  {
    hide Half;
  }

  lemma DisjointHalves(x: bv64, y: bv64)
    requires Disjoint(x, y)
    ensures Disjoint(Half(x), Half(y)) && !(Odd(x) && Odd(y))
  {
  }

  /** Or of words without a common bit is addition. */
  lemma {:induction false} OrIsSum(x: bv64, y: bv64, n: nat)
    requires Disjoint(x, y)
    ensures Low(Or(x, y), n) == Low(x, n) + Low(y, n)
    decreases n
  {
    hide Odd, Half, Or, Disjoint;
    if n > 0 {
      OrHalves(x, y);
      OrOdd(x, y);
      DisjointHalves(x, y);
      LowStep(Or(x, y), n);
      LowStep(x, n);
      LowStep(y, n);
      hide Low;
      OrIsSum(Half(x), Half(y), n - 1);
    }
  }

  // ----- splitting a word -----

  /** The lowest n bits, and the rest at its weight. */
  lemma {:induction false} LowSplits(v: bv64, n: nat, m: nat)
    ensures Low(v, n + m) == Low(v, n) + Pow2(n) * Low(Halved(v, n), m)
    decreases n
  {
    hide Bit, Half;
    if n > 0 {
      LowSplits(Half(v), n - 1, m);
      LowStep(v, n);
      LowStep(v, n + m);
      var (p, rest) := (Pow2(n - 1), Low(Halved(v, n), m));
      assert Halved(Half(v), n - 1) == Halved(v, n);
      assert Pow2(n) == 2 * p;
      hide Low, Pow2, Halved;
      Doubles(p, rest);
    } else {
      assert Low(v, 0) == 0 && Pow2(0) == 1 && Halved(v, 0) == v;
    }
  }

  lemma LowStep(v: bv64, n: nat)
    requires n > 0
    ensures Low(v, n) == Bit(v) + 2 * Low(Half(v), n - 1)
  {
  }

  lemma Doubles(p: nat, rest: nat)
    ensures 2 * (p * rest) == (2 * p) * rest
  {
  }

  lemma {:induction false} NothingLeft(n: nat)
    ensures Low(0, n) == 0
  {
    if n > 0 {
      assert Half(0) == 0 && Bit(0) == 0;
      hide Bit, Half;
      NothingLeft(n - 1);
    }
  }

  /** Words that differ in no low bit have the same low number. */
  lemma {:induction false} LowAgrees(x: bv64, y: bv64, n: nat)
    requires Low(Xor(x, y), n) == 0
    ensures Low(x, n) == Low(y, n)
    decreases n
  {
    hide Odd, Half, Xor;
    if n > 0 {
      XorBits(x, y);
      LowStep(Xor(x, y), n);
      LowStep(x, n);
      LowStep(y, n);
      hide Low;
      LowAgrees(Half(x), Half(y), n - 1);
    }
  }

  lemma XorBits(x: bv64, y: bv64)
    ensures Half(Xor(x, y)) == Xor(Half(x), Half(y)) && (!Odd(Xor(x, y)) ==> (Odd(x) <==> Odd(y)))
  {
  }

  // ----- seven bits at a time -----

  function Half7(v: bv64): bv64 {
    Half(Half(Half(Half(Half(Half(Half(v)))))))
  }

  lemma SevenIs(v: bv64)
    ensures Half7(v) == Shr7(v)
  {
  }

  lemma HalvedSeven(v: bv64)
    ensures Halved(v, 7) == Shr7(v)
  {
    SevenIs(v);
    hide Half, Shr7;
    HalvedMore(v, 6);
    HalvedMore(v, 5);
    HalvedMore(v, 4);
    HalvedMore(v, 3);
    HalvedMore(v, 2);
    HalvedMore(v, 1);
    HalvedMore(v, 0);
    assert Halved(v, 0) == v;
    hide Halved;
  }

  lemma {:induction false} HalvedMore(v: bv64, n: nat)
    ensures Halved(v, n + 1) == Half(Halved(v, n))
    decreases n
  {
    hide Half;
    if n > 0 {
      HalvedMore(Half(v), n - 1);
    }
  }

  lemma SplitSeven(v: bv64, m: nat)
    ensures Low(v, 7 + m) == Low(v, 7) + 128 * Low(Shr7(v), m)
  {
    HalvedSeven(v);
    Pow2Seven();
    hide Bit, Half, Low, Halved, Shr7;
    LowSplits(v, 7, m);
  }

  lemma Pow2Seven()
    ensures Pow2(7) == 128
  {
    assert Pow2(4) == 16;
    assert Pow2(7) == 8 * Pow2(4);
  }

  /** The low seven bits are those that 0x7f selects. */
  lemma LowOfMask(v: bv64)
    ensures Low(Mask7(v), 7) == Low(v, 7)
  {
    MaskDiffers(v);
    hide Low, Mask7, Xor;
    LowZero(Xor(Mask7(v), v));
    LowAgrees(Mask7(v), v, 7);
  }

  lemma MaskDiffers(v: bv64)
    ensures Mask7(Xor(Mask7(v), v)) == 0
  {
  }

  /** Seven clear bits. */
  lemma LowZero(d: bv64)
    requires Mask7(d) == 0
    ensures Low(d, 7) == 0
  {
    var d1 := Half(d);
    var d2 := Half(d1);
    var d3 := Half(d2);
    var d4 := Half(d3);
    var d5 := Half(d4);
    var d6 := Half(d5);
    assert d & 1 == 0 && d1 & 1 == 0 && d2 & 1 == 0 && d3 & 1 == 0 && d4 & 1 == 0 && d5 & 1 == 0 && d6 & 1 == 0;
    assert Bit(d) == 0 && Bit(d1) == 0 && Bit(d2) == 0 && Bit(d3) == 0 && Bit(d4) == 0 && Bit(d5) == 0 && Bit(d6) == 0;
    hide Bit, Half;
    assert Low(d6, 1) == 0;
    assert Low(d5, 2) == 0;
    assert Low(d4, 3) == 0;
    assert Low(d3, 4) == 0;
    assert Low(d2, 5) == 0;
    assert Low(d1, 6) == 0;
  }

  // ----- the operations of the varint code -----

  lemma SplitValue(v: bv64)
    ensures Value(v) == Low(v, 7) + 128 * Low(Shr7(v), 57)
  {
    hide Low, Shr7;
    SplitSeven(v, 57);
  }

  function Shr28(v: bv64): bv64 {
    Shr7(Shr7(Shr7(Shr7(v))))
  }

  /** Halved fifty-seven times, a word shifted right by seven is nothing. */
  lemma ShrAll(v: bv64)
    ensures Half(Shr28(Shr28(Shr7(v)))) == 0
  {
  }

  lemma Halved57(v: bv64)
    ensures Halved(Shr7(v), 57) == 0
  {
    ShrAll(v);
    hide Half, Shr7;
    var (w, x) := (Shr7(v), Shr28(Shr7(v)));
    assert Halved(Shr28(x), 1) == Half(Shr28(x));
    Halved28(x, 1);
    Halved28(w, 29);
  }

  lemma Halved28(v: bv64, n: nat)
    ensures Halved(v, 28 + n) == Halved(Shr28(v), n)
  {
    hide Half, Shr7, Halved;
    HalvedOn(v, 21 + n);
    HalvedOn(Shr7(v), 14 + n);
    HalvedOn(Shr7(Shr7(v)), 7 + n);
    HalvedOn(Shr7(Shr7(Shr7(v))), n);
  }

  lemma HalvedOn(v: bv64, n: nat)
    ensures Halved(v, 7 + n) == Halved(Shr7(v), n)
  {
    hide Half, Shr7;
    HalvedSeven(v);
    HalvedTwice(v, 7, n);
  }

  lemma {:induction false} HalvedTwice(v: bv64, m: nat, n: nat)
    ensures Halved(v, m + n) == Halved(Halved(v, m), n)
    decreases m
  {
    hide Half;
    if m > 0 {
      HalvedTwice(Half(v), m - 1, n);
    }
  }

  /** Fifty-seven bits hold a word shifted right by seven. */
  lemma ShortWord(v: bv64)
    ensures Value(Shr7(v)) == Low(Shr7(v), 57)
  {
    hide Low, Half, Halved, Pow2, Shr7;
    Halved57(v);
    NothingLeft(7);
    LowSplits(Shr7(v), 57, 7);
  }

  /** `v >> 7` divides by 128 and `v & 0x7f` is the remainder. */
  lemma ShiftAndMask(v: bv64)
    ensures Value(Shr7(v)) == Value(v) / 128 && Value(Mask7(v)) == Value(v) % 128
  {
    hide Low, Shr7, Mask7, Value;
    MaskIsLow(v);
    NothingLeft(57);
    LowBound(v);
    SplitValue(v);
    ShortWord(v);
    SplitValue(Mask7(v));
    LowOfMask(v);
  }

  lemma LowBound(v: bv64)
    ensures Low(v, 7) < 128
  {
    hide Low, Pow2;
    Pow2Seven();
  }

  lemma MaskIsLow(v: bv64)
    ensures Shr7(Mask7(v)) == 0
  {
  }

  /** The byte that carries seven bits and says that more follow. */
  lemma ContinuationByte(v: bv64)
    ensures Value(Or(Mask7(v), 0x80)) == Value(v) % 128 + 128
  {
    hide Low, Mask7, Or, Disjoint, Shr7;
    HighIsApart(v);
    ShiftAndMask(v);
    OrIsSum(Mask7(v), 0x80, 64);
    EightBit();
  }

  lemma HighIsApart(v: bv64)
    ensures Disjoint(Mask7(v), 0x80)
  {
  }

  lemma HighBit()
    ensures Shr7(0x80) == 1 && Mask7(0x80) == 0
  {
  }

  lemma EightBit()
    ensures Value(0x80) == 128
  {
    hide Low, Shr7, Mask7, Value;
    HighBit();
    SplitValue(0x80);
    LowZero(0x80);
    One(57);
  }

  lemma One(n: nat)
    requires n > 0
    ensures Low(1, n) == 1
  {
    assert Half(1) == 0 && Odd(1);
    NothingLeft(n - 1);
  }

  // ----- shifting left -----

  lemma Zeros(d: bv64)
    requires Shl7(d) == 0
    ensures Clear28(d) && Clear28(Shr28(d)) && !Odd(Shr28(Shr28(d)))
  {
  }

  lemma SkipZeros(d: bv64, n: nat)
    requires Mask7(d) == 0
    ensures Low(d, 7 + n) == 128 * Low(Shr7(d), n)
  {
    hide Low, Mask7, Shr7;
    LowZero(d);
    SplitSeven(d, n);
  }

  predicate Clear28(d: bv64) {
    Mask7(d) == 0 && Mask7(Shr7(d)) == 0 && Mask7(Shr7(Shr7(d))) == 0 && Mask7(Shr7(Shr7(Shr7(d)))) == 0
  }

  lemma SkipZeros28(d: bv64, n: nat)
    requires Clear28(d) && Low(Shr28(d), n) == 0
    ensures Low(d, 28 + n) == 0
  {
    hide Low, Mask7, Shr7;
    SkipZeros(Shr7(Shr7(Shr7(d))), n);
    SkipZeros(Shr7(Shr7(d)), 7 + n);
    SkipZeros(Shr7(d), 14 + n);
    SkipZeros(d, 21 + n);
  }

  lemma EvenLow(v: bv64)
    requires !Odd(v)
    ensures Low(v, 1) == 0
  {
  }

  /** Fifty-seven clear bits. */
  lemma LowZero57(d: bv64)
    requires Shl7(d) == 0
    ensures Low(d, 57) == 0
  {
    Zeros(d);
    hide Low, Shr28, Clear28, Odd, Shl7;
    EvenLow(Shr28(Shr28(d)));
    SkipZeros28(Shr28(d), 1);
    SkipZeros28(d, 29);
  }

  lemma BackAndForth(v: bv64)
    ensures Shl7(Xor(Shr7(Shl7(v)), v)) == 0 && Mask7(Shl7(v)) == 0
  {
  }

  lemma BottomKept(v: bv64)
    ensures Low(Shr7(Shl7(v)), 57) == Low(v, 57)
  {
    BackAndForth(v);
    hide Low, Shl7, Shr7, Xor;
    LowZero57(Xor(Shr7(Shl7(v)), v));
    LowAgrees(Shr7(Shl7(v)), v, 57);
  }

  lemma {:induction false} Pow2More(m: nat, n: nat)
    ensures Pow2(m + n) == Pow2(m) * Pow2(n)
  {
    if m > 0 {
      Pow2More(m - 1, n);
      Doubles(Pow2(m - 1), Pow2(n));
    }
  }

  lemma Pow2Eight()
    ensures Pow2(8) == 256
  {
    assert Pow2(4) == 16;
  }

  lemma Pow2Big()
    ensures Pow2(57) * 128 == TWO_64
  {
    hide Pow2;
    Pow2Seven();
    Pow2Eight();
    Pow2More(8, 8);
    Pow2More(16, 16);
    Pow2More(32, 32);
    Pow2More(57, 7);
  }

  lemma ValueTop(v: bv64) returns (top: nat)
    ensures Value(v) == Low(v, 57) + Pow2(57) * top && Low(v, 57) < Pow2(57)
  {
    hide Low, Half, Halved, Pow2;
    LowSplits(v, 57, 7);
    top := Low(Halved(v, 57), 7);
  }

  /** `v << 7` multiplies by 128 and drops what does not fit. */
  lemma ShiftLeft(v: bv64)
    ensures Value(Shl7(v)) == (Value(v) * 128) % TWO_64
  {
    BackAndForth(v);
    hide Low, Half, Halved, Pow2, Value, Shl7, Shr7, Mask7, Xor;
    SplitValue(Shl7(v));
    LowZero(Shl7(v));
    BottomKept(v);
    Pow2Big();
    var top := ValueTop(v);
    Dropped(Low(v, 57), Pow2(57), top);
  }

  lemma Dropped(low: nat, p: nat, top: nat)
    requires p * 128 == TWO_64 && low < p
    ensures ((low + p * top) * 128) % TWO_64 == 128 * low
  {
    assert (low + p * top) * 128 == 128 * low + (p * 128) * top;
    ModDrops(128 * low, top);
  }

  lemma ModDrops(x: nat, top: nat)
    requires x < TWO_64
    ensures (x + TWO_64 * top) % TWO_64 == x
  {
  }

  // ----- one turn of the shift loop -----

  /** `y << 7 * k`, seven bits at a time. */
  function Shifted(y: bv64, k: nat): bv64 {
    if k == 0 then y else Shl7(Shifted(y, k - 1))
  }

  lemma ShiftChain(y: bv64)
    ensures y == y << 0 && Shl7(y << 0) == y << 7 && Shl7(y << 7) == y << 14 && Shl7(y << 14) == y << 21
    ensures Shl7(y << 21) == y << 28 && Shl7(y << 28) == y << 35 && Shl7(y << 35) == y << 42
    ensures Shl7(y << 42) == y << 49 && Shl7(y << 49) == y << 56 && Shl7(y << 56) == y << 63
  {
  }

  /** It is the shift by `shift` of the source for every value that variable takes. */
  lemma ShiftedIs(y: bv64)
    ensures Shifted(y, 0) == y << 0 && Shifted(y, 1) == y << 7 && Shifted(y, 2) == y << 14 && Shifted(y, 3) == y << 21
    ensures Shifted(y, 4) == y << 28 && Shifted(y, 5) == y << 35 && Shifted(y, 6) == y << 42 && Shifted(y, 7) == y << 49
    ensures Shifted(y, 8) == y << 56 && Shifted(y, 9) == y << 63
  {
    ShiftChain(y);
    hide Shl7;
    assert Shifted(y, 0) == y << 0;
    assert Shifted(y, 1) == y << 7;
    assert Shifted(y, 2) == y << 14;
    assert Shifted(y, 3) == y << 21;
    assert Shifted(y, 4) == y << 28;
    assert Shifted(y, 5) == y << 35;
    assert Shifted(y, 6) == y << 42;
    assert Shifted(y, 7) == y << 49;
    assert Shifted(y, 8) == y << 56;
  }

  lemma {:induction false} ShiftedValue(y: bv64, k: nat)
    ensures Value(Shifted(y, k)) == (Value(y) * Pow128(k)) % TWO_64
  {
    hide Value, Shl7;
    if k == 0 {
      assert Value(y) * Pow128(0) == Value(y);
      ValueFits(y);
    } else {
      ShiftedValue(y, k - 1);
      ShiftLeft(Shifted(y, k - 1));
      ModTimes(Value(y) * Pow128(k - 1));
      PowNext(k - 1);
      Times128(Value(y), Pow128(k - 1));
    }
  }

  lemma Times128(x: nat, p: nat)
    ensures x * p * 128 == x * (128 * p)
  {
  }

  lemma ValueFits(y: bv64)
    ensures Value(y) < TWO_64
  {
    hide Pow2, Low;
    Pow2Big();
    Pow2Seven();
    Pow2More(57, 7);
  }

  lemma ModTimes(x: nat)
    ensures (x % TWO_64 * 128) % TWO_64 == (x * 128) % TWO_64
  {
    var q := x / TWO_64;
    assert x * 128 == x % TWO_64 * 128 + TWO_64 * (q * 128);
    ModAdds(x % TWO_64 * 128, q * 128);
  }

  lemma ModAdds(x: nat, top: nat)
    ensures (x + TWO_64 * top) % TWO_64 == x % TWO_64
  {
    var r := x % TWO_64;
    assert x + TWO_64 * top == r + TWO_64 * (x / TWO_64 + top);
    ModDrops(r, x / TWO_64 + top);
  }

  /**
    `acc |= (b & 0x7f) << shift`, with no bit of acc in the way: the sum modulo 2^64 that
    GetVarint is written with.
  */
  lemma OrStep(acc: bv64, b: bv64, k: nat)
    requires Disjoint(acc, Shifted(Mask7(b), k))
    ensures Value(Or(acc, Shifted(Mask7(b), k))) == (Value(acc) + (Value(b) % 128) * Pow128(k)) % TWO_64
  {
    hide Low, Or, Mask7, Disjoint, Shifted, Pow128, Shr7;
    var y := Shifted(Mask7(b), k);
    OrIsSum(acc, y, 64);
    assert Value(Or(acc, y)) == Value(acc) + Value(y);
    hide Value;
    ShiftAndMask(b);
    ShiftedValue(Mask7(b), k);
    ValueFits(Or(acc, y));
    SumFits(Value(Or(acc, y)), Value(acc), Value(y), Value(Mask7(b)), Pow128(k));
  }

  lemma SumFits(v: nat, a: nat, y: nat, m: nat, p: nat)
    requires v == a + y && y == (m * p) % TWO_64 && v < TWO_64
    ensures v == (a + m * p) % TWO_64
  {
    ModSum(a, m * p);
  }

  lemma ModSum(a: nat, x: nat)
    requires a + x % TWO_64 < TWO_64
    ensures a + x % TWO_64 == (a + x) % TWO_64
  {
    assert a + x == (a + x % TWO_64) + TWO_64 * (x / TWO_64);
    ModDrops(a + x % TWO_64, x / TWO_64);
  }

  /** Whether the loop has set no bit at or above shift k. */
  predicate Below(acc: bv64, k: nat)
    decreases k
  {
    if k == 0 then acc == 0 else Below(Shr7(acc), k - 1)
  }

  /** So no bit of acc is ever in the way, for every shift the loop reaches. */
  lemma {:induction false} NeverInTheWay(acc: bv64, y: bv64, k: nat)
    requires Below(acc, k)
    ensures Disjoint(acc, Shifted(y, k))
    decreases k
  {
    if k == 0 {
      NoneInTheWay(y);
    } else {
      hide Shr7, Shl7, Disjoint;
      NeverInTheWay(Shr7(acc), y, k - 1);
      DisjointUp(acc, Shifted(y, k - 1));
    }
  }

  lemma NoneInTheWay(y: bv64)
    ensures Disjoint(0, y)
  {
  }

  lemma DisjointUp(acc: bv64, z: bv64)
    requires Disjoint(Shr7(acc), z)
    ensures Disjoint(acc, Shl7(z))
  {
  }

  /** And each turn but the last leaves room for the next. */
  lemma {:induction false} StaysBelow(acc: bv64, b: bv64, k: nat)
    requires Below(acc, k) && k < 9
    ensures Below(Or(acc, Shifted(Mask7(b), k)), k + 1)
    decreases k
  {
    if k == 0 {
      OneByte(b);
    } else {
      var z := Shifted(Mask7(b), k - 1);
      NoLoss(b, k - 1);
      ShrOr(acc, z);
      hide Shr7, Shl7, Or, Mask7;
      StaysBelow(Shr7(acc), b, k - 1);
    }
  }

  lemma OneByte(b: bv64)
    ensures Shr7(Or(0, Mask7(b))) == 0
  {
  }

  lemma ShrOr(x: bv64, z: bv64)
    ensures Shr7(Or(x, Shl7(z))) == Or(Shr7(x), Shr7(Shl7(z)))
  {
  }

  lemma NoLoss(b: bv64, j: nat)
    requires j < 8
    ensures var z := Shifted(Mask7(b), j); Shr7(Shl7(z)) == z
  {
    ShiftedIs(Mask7(b));
    NoLossAt(b);
    hide Shifted, Shl7, Shr7, Mask7;
  }

  lemma NoLossAt(b: bv64)
    ensures var y := Mask7(b);
            && Shr7(Shl7(y << 0)) == y << 0 && Shr7(Shl7(y << 7)) == y << 7 && Shr7(Shl7(y << 14)) == y << 14
            && Shr7(Shl7(y << 21)) == y << 21 && Shr7(Shl7(y << 28)) == y << 28 && Shr7(Shl7(y << 35)) == y << 35
            && Shr7(Shl7(y << 42)) == y << 42 && Shr7(Shl7(y << 49)) == y << 49
  {
  }

  // ----- a byte as a word -----

  function Doubled(w: bv64, odd: bool): bv64 {
    if odd then (w << 1) | 1 else w << 1
  }

  /** The word that stands for a number. */
  function Word(n: nat): bv64 {
    if n == 0 then 0 else Doubled(Word(n / 2), n % 2 == 1)
  }

  lemma HasRoom(w: bv64, odd: bool)
    requires Shr7(w) == 0
    ensures Half(Doubled(w, odd)) == w && (Odd(Doubled(w, odd)) <==> odd)
  {
  }

  lemma {:induction false} HalvedZero(n: nat)
    ensures Halved(0, n) == 0
  {
    if n > 0 {
      assert Half(0) == 0;
      hide Half;
      HalvedZero(n - 1);
    }
  }

  /** A number below 2^j is a word of j bits, which stand for it. */
  lemma {:induction false} WordFits(n: nat, j: nat, m: nat)
    requires j <= 8 && n < Pow2(j) && j <= m
    ensures Halved(Word(n), j) == 0 && Low(Word(n), m) == n
    decreases j
  {
    if n == 0 {
      HalvedZero(j);
      NothingLeft(m);
    } else {
      var w := Word(n / 2);
      WordFits(n / 2, j - 1, m - 1);
      HalvedTwice(w, j - 1, 8 - j);
      HalvedZero(8 - j);
      HalvedSeven(w);
      HasRoom(w, n % 2 == 1);
      hide Doubled, Half, Odd, Shr7;
    }
  }

  lemma ByteWord(b: byte)
    ensures Value(Word(b as nat)) == b as nat
  {
    Pow2Eight();
    hide Pow2, Low, Word;
    WordFits(b as nat, 8, 64);
  }

  lemma StartsBelow()
    ensures Below(0, 0) && Value(0) == 0
  {
    hide Low;
    NothingLeft(64);
  }

  /** One turn of the loop at shift 7k: the word it leaves, and that the next turn finds room. */
  lemma LoopTurn(acc: bv64, b: byte, k: nat)
    requires Below(acc, k) && k <= 9
    ensures var acc' := Or(acc, Shifted(Mask7(Word(b as nat)), k));
            && Value(acc') == (Value(acc) + (b as nat % 128) * Pow128(k)) % TWO_64
            && (k < 9 ==> Below(acc', k + 1))
  {
    hide Value, Or, Mask7, Below, Shifted, Word;
    ByteWord(b);
    NeverInTheWay(acc, Mask7(Word(b as nat)), k);
    OrStep(acc, Word(b as nat), k);
    if k < 9 { StaysBelow(acc, Word(b as nat), k); }
  }
}

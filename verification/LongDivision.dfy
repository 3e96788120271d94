/** CRC-32 by its definition: long division of the message, as a polynomial over two
    elements, by the generator, with the first 32 bits and the remainder inverted
    (section 8 of RFC 1952). Nothing here mentions registers, tables or bytes' order
    in memory; the theorem ties it to the loop of src/peer/pipes.cpp. */
module LongDivision {
  import opened BitFacts
  import opened Crc32

  type Poly = seq<bool>  // coefficients, highest power first

  /** The powers below x^32 in the generator polynomial. */
  predicate InGenerator(k: int) {
    k == 26 || k == 23 || k == 22 || k == 16 || k == 12 || k == 11 || k == 10 ||
    k == 8 || k == 7 || k == 5 || k == 4 || k == 2 || k == 1 || k == 0
  }

  /** Coefficients of x^(n-1) ... x^0 of the generator; that of x^32 is 1. */
  function Generator(n: nat := 32): (p: Poly)
    ensures |p| == n
    decreases n
  {
    if n == 0 then [] else [InGenerator(n - 1)] + Generator(n - 1)
  }

  /** Subtract (that is, xor) q from the highest coefficients of p. */
  function Minus(p: Poly, q: Poly): (d: Poly)
    requires |q| <= |p|
    ensures |d| == |p|
  {
    seq(|p|, i requires 0 <= i < |p| => if i < |q| then p[i] != q[i] else p[i])
  }

  /** Schoolbook division: cancel the leading coefficient until 32 are left. */
  function Remainder(p: Poly): (r: Poly)
    requires |p| >= 32
    ensures |r| == 32
    decreases |p|
  {
    if |p| == 32 then p
    else Remainder(if p[0] then Minus(p[1..], Generator()) else p[1..])
  }

  /** The message as a polynomial: each byte contributes its lowest bit first. */
  function Message(s: string): (p: Poly)
    ensures |p| == 8 * |s|
  {
    if s == [] then [] else ByteBits(s[0]) + Message(s[1..])
  }

  function ByteBits(c: char): (p: Poly)
    ensures |p| == 8
  {
    var n := (c as int) % 256;
    [NthBit(n, 0), NthBit(n, 1), NthBit(n, 2), NthBit(n, 3), NthBit(n, 4), NthBit(n, 5), NthBit(n, 6), NthBit(n, 7)]
  }

  function Times32(p: Poly): (q: Poly)
    ensures |q| == |p| + 32
  {
    p + seq(32, i => false)
  }

  function Ones(n: nat := 32): (p: Poly)
    ensures |p| == n
    decreases n
  {
    if n == 0 then [] else [true] + Ones(n - 1)
  }

  /** The checksum as RFC 1952 defines it. */
  function Definition(s: string): Poly {
    Minus(Remainder(Minus(Times32(Message(s)), Ones())), Ones())
  }

  /** The coefficients a register stands for: lowest bit, highest power. */
  function Bits(w: Word): (p: Poly)
    ensures |p| == 32
  {
    LowBits(w, 32)
  }

  function LowBits(w: Word, n: nat): (p: Poly)
    ensures |p| == n
    decreases n
  {
    if n == 0 then [] else [Low(w)] + LowBits(Half(w), n - 1)
  }

  lemma {:induction false} LowBitsXor(a: Word, b: Word, n: nat)
    ensures LowBits(Xor(a, b), n) == Minus(LowBits(a, n), LowBits(b, n))
    decreases n
  {
    hide Xor, Half, Low;
    if n > 0 {
      XorHalf(a, b);
      XorLow(a, b);
      LowBitsXor(Half(a), Half(b), n - 1);
    }
  }

  lemma BitsXor(a: Word, b: Word)
    ensures Bits(Xor(a, b)) == Minus(Bits(a), Bits(b))
  {
    hide *;
    LowBitsXor(a, b, 32);
    assert Bits(a) == LowBits(a, 32) && Bits(b) == LowBits(b, 32) && Bits(Xor(a, b)) == LowBits(Xor(a, b), 32) by {
      BitsAre(a);
      BitsAre(b);
      BitsAre(Xor(a, b));
    }
  }

  lemma BitsAre(w: Word)
    ensures Bits(w) == LowBits(w, 32)
  {}

  function HalvedWord(w: Word, n: nat): Word
    decreases n
  {
    if n == 0 then w else HalvedWord(Half(w), n - 1)
  }

  lemma {:induction false} LowBitsSnoc(w: Word, n: nat)
    ensures LowBits(w, n + 1) == LowBits(w, n) + [Low(HalvedWord(w, n))]
    decreases n
  {
    hide Half, Low;
    if n > 0 {
      LowBitsSnoc(Half(w), n - 1);
    }
  }

  lemma Halved8(w: Word, n: nat)
    ensures HalvedWord(w, n + 8) == HalvedWord(Drop8(w), n)
  {
    hide Half, Drop8;
    var w1 := Half(w);
    var w2 := Half(w1);
    var w3 := Half(w2);
    var w4 := Half(w3);
    assert HalvedWord(w, n + 8) == HalvedWord(w1, n + 7) == HalvedWord(w2, n + 6) == HalvedWord(w4, n + 4);
    var w5 := Half(w4);
    var w6 := Half(w5);
    var w7 := Half(w6);
    assert HalvedWord(w4, n + 4) == HalvedWord(w5, n + 3) == HalvedWord(w6, n + 2) == HalvedWord(Half(w7), n);
    HalfEight(w);
  }

  lemma HalfEight(w: Word)
    ensures Half(Half(Half(Half(Half(Half(Half(Half(w)))))))) == Drop8(w)
  {}

  lemma Drop32(w: Word)
    ensures Drop8(Drop8(Drop8(Drop8(w)))) == ZERO && !Low(ZERO)
  {}

  lemma BitsHalf(a: Word)
    ensures Bits(Half(a)) == Bits(a)[1..] + [false]
  {
    hide Half, Drop8, Low;
    LowBitsSnoc(Half(a), 31);
    Halved8(a, 24);
    Halved8(Drop8(a), 16);
    Halved8(Drop8(Drop8(a)), 8);
    Halved8(Drop8(Drop8(Drop8(a))), 0);
    Drop32(a);
    assert HalvedWord(Half(a), 31) == HalvedWord(a, 32) == ZERO;
  }

  lemma BitsLow(a: Word)
    ensures Bits(a)[0] == Low(a)
  {}

  /** One more coefficient of the constant 0xEDB88320 agrees with the generator. */
  lemma GeneratorBit(c: bv32, half: bv32, n: nat)
    requires half == c >> 1 && LowBits(Word(half), n) == Generator(n)
    requires (c & 1 == 1) == InGenerator(n)
    ensures LowBits(Word(c), n + 1) == Generator(n + 1)
  {}

  lemma GeneratorPowers()
    ensures InGenerator(0) && InGenerator(1) && InGenerator(2) && !InGenerator(3) && InGenerator(4) && InGenerator(5) && !InGenerator(6) && InGenerator(7)
    ensures InGenerator(8) && !InGenerator(9) && InGenerator(10) && InGenerator(11) && InGenerator(12) && !InGenerator(13) && !InGenerator(14) && !InGenerator(15)
    ensures InGenerator(16) && !InGenerator(17) && !InGenerator(18) && !InGenerator(19) && !InGenerator(20) && !InGenerator(21) && InGenerator(22) && InGenerator(23)
    ensures !InGenerator(24) && !InGenerator(25) && InGenerator(26) && !InGenerator(27) && !InGenerator(28) && !InGenerator(29) && !InGenerator(30) && !InGenerator(31)
  {}

  lemma BitsGenerator()
    ensures Bits(POLYNOMIAL) == Generator()
  {
    hide LowBits, Generator, InGenerator;
    GeneratorPowers();
    NoCoefficients();
    GeneratorBit(0x1, 0x0, 0);
    GeneratorBit(0x3, 0x1, 1);
    GeneratorBit(0x7, 0x3, 2);
    GeneratorBit(0xE, 0x7, 3);
    GeneratorBit(0x1D, 0xE, 4);
    GeneratorBit(0x3B, 0x1D, 5);
    GeneratorBit(0x76, 0x3B, 6);
    GeneratorBit(0xED, 0x76, 7);
    GeneratorBit(0x1DB, 0xED, 8);
    GeneratorBit(0x3B6, 0x1DB, 9);
    GeneratorBit(0x76D, 0x3B6, 10);
    GeneratorBit(0xEDB, 0x76D, 11);
    GeneratorBit(0x1DB7, 0xEDB, 12);
    GeneratorBit(0x3B6E, 0x1DB7, 13);
    GeneratorBit(0x76DC, 0x3B6E, 14);
    GeneratorBit(0xEDB8, 0x76DC, 15);
    GeneratorBit(0x1DB71, 0xEDB8, 16);
    GeneratorBit(0x3B6E2, 0x1DB71, 17);
    GeneratorBit(0x76DC4, 0x3B6E2, 18);
    GeneratorBit(0xEDB88, 0x76DC4, 19);
    GeneratorBit(0x1DB710, 0xEDB88, 20);
    GeneratorBit(0x3B6E20, 0x1DB710, 21);
    GeneratorBit(0x76DC41, 0x3B6E20, 22);
    GeneratorBit(0xEDB883, 0x76DC41, 23);
    GeneratorBit(0x1DB7106, 0xEDB883, 24);
    GeneratorBit(0x3B6E20C, 0x1DB7106, 25);
    GeneratorBit(0x76DC419, 0x3B6E20C, 26);
    GeneratorBit(0xEDB8832, 0x76DC419, 27);
    GeneratorBit(0x1DB71064, 0xEDB8832, 28);
    GeneratorBit(0x3B6E20C8, 0x1DB71064, 29);
    GeneratorBit(0x76DC4190, 0x3B6E20C8, 30);
    GeneratorBit(0xEDB88320, 0x76DC4190, 31);
  }

  lemma OnesBit(c: bv32, half: bv32, n: nat)
    requires half == c >> 1 && LowBits(Word(half), n) == Ones(n)
    requires c & 1 == 1
    ensures LowBits(Word(c), n + 1) == Ones(n + 1)
  {}

  lemma BitsOnes()
    ensures Bits(ALL_ONES) == Ones()
  {
    hide LowBits, Ones;
    NoCoefficients();
    OnesBit(0x1, 0x0, 0);
    OnesBit(0x3, 0x1, 1);
    OnesBit(0x7, 0x3, 2);
    OnesBit(0xF, 0x7, 3);
    OnesBit(0x1F, 0xF, 4);
    OnesBit(0x3F, 0x1F, 5);
    OnesBit(0x7F, 0x3F, 6);
    OnesBit(0xFF, 0x7F, 7);
    OnesBit(0x1FF, 0xFF, 8);
    OnesBit(0x3FF, 0x1FF, 9);
    OnesBit(0x7FF, 0x3FF, 10);
    OnesBit(0xFFF, 0x7FF, 11);
    OnesBit(0x1FFF, 0xFFF, 12);
    OnesBit(0x3FFF, 0x1FFF, 13);
    OnesBit(0x7FFF, 0x3FFF, 14);
    OnesBit(0xFFFF, 0x7FFF, 15);
    OnesBit(0x1FFFF, 0xFFFF, 16);
    OnesBit(0x3FFFF, 0x1FFFF, 17);
    OnesBit(0x7FFFF, 0x3FFFF, 18);
    OnesBit(0xFFFFF, 0x7FFFF, 19);
    OnesBit(0x1FFFFF, 0xFFFFF, 20);
    OnesBit(0x3FFFFF, 0x1FFFFF, 21);
    OnesBit(0x7FFFFF, 0x3FFFFF, 22);
    OnesBit(0xFFFFFF, 0x7FFFFF, 23);
    OnesBit(0x1FFFFFF, 0xFFFFFF, 24);
    OnesBit(0x3FFFFFF, 0x1FFFFFF, 25);
    OnesBit(0x7FFFFFF, 0x3FFFFFF, 26);
    OnesBit(0xFFFFFFF, 0x7FFFFFF, 27);
    OnesBit(0x1FFFFFFF, 0xFFFFFFF, 28);
    OnesBit(0x3FFFFFFF, 0x1FFFFFFF, 29);
    OnesBit(0x7FFFFFFF, 0x3FFFFFFF, 30);
    OnesBit(0xFFFFFFFF, 0x7FFFFFFF, 31);
  }

  lemma NoCoefficients()
    ensures LowBits(Word(0), 0) == Generator(0) == Ones(0)
  {}

  function BitWord(b: bool): Word {
    if b then Word(1) else ZERO
  }

  lemma BitWordFacts(r: Word, b: bool)
    ensures Half(Xor(r, BitWord(b))) == Half(r)
    ensures Low(Xor(r, BitWord(b))) == (Low(r) != b)
  {}

  /** The register after one message bit, and after several. */
  function FeedBits(r: Word, p: Poly): Word
    decreases |p|
  {
    if p == [] then r else FeedBits(Shift(Xor(r, BitWord(p[0]))), p[1..])
  }

  lemma {:induction false} FeedBitsConcat(r: Word, p: Poly, q: Poly)
    ensures FeedBits(r, p + q) == FeedBits(FeedBits(r, p), q)
    decreases |p|
  {
    hide Shift, Xor;
    if p == [] {
      assert p + q == q;
    } else {
      assert (p + q)[0] == p[0] && (p + q)[1..] == p[1..] + q;
      FeedBitsConcat(Shift(Xor(r, BitWord(p[0]))), p[1..], q);
    }
  }

  // ---- a byte at a time is eight bits one by one ----

  lemma PeelBit(r: Word, v: Word)
    ensures Shift(Xor(r, v)) == Xor(Shift(Xor(r, BitWord(Low(v)))), Half(v))
  {
    hide Shift, Xor, Low, Half;
    LowestApart(v);
    XorAssoc(r, BitWord(Low(v)), High31(v));
    ShiftLinear(Xor(r, BitWord(Low(v))), High31(v));
    ShiftEven(v);
  }

  function High31(v: Word): Word {
    Word(v.bits & 0xFFFFFFFE)
  }

  lemma LowestApart(v: Word)
    ensures v == Xor(BitWord(Low(v)), High31(v))
  {}

  lemma ShiftEven(v: Word)
    ensures Shift(High31(v)) == Half(v)
  {}

  lemma PeelByte(b0: bool, b1: bool, b2: bool, b3: bool, b4: bool, b5: bool, b6: bool, b7: bool)
    ensures Low(FromBits(b0, b1, b2, b3, b4, b5, b6, b7)) == b0
    ensures Half(FromBits(b0, b1, b2, b3, b4, b5, b6, b7)) == FromBits(b1, b2, b3, b4, b5, b6, b7, false)
  {}

  lemma NoBits()
    ensures FromPoly([]) == ZERO
  {}

  predicate At(b: Poly, i: nat) {
    i < |b| && b[i]
  }

  /** Up to eight bits as the word they make. */
  function FromPoly(b: Poly): Word {
    FromBits(At(b, 0), At(b, 1), At(b, 2), At(b, 3), At(b, 4), At(b, 5), At(b, 6), At(b, 7))
  }

  lemma PeelPoly(b: Poly)
    requires 0 < |b| <= 8
    ensures Low(FromPoly(b)) == b[0] && Half(FromPoly(b)) == FromPoly(b[1..])
  {
    hide Low, Half, FromBits;
    PeelByte(At(b, 0), At(b, 1), At(b, 2), At(b, 3), At(b, 4), At(b, 5), At(b, 6), At(b, 7));
  }

  lemma {:induction false} BitsFed(r: Word, b: Poly)
    requires |b| <= 8
    ensures Shifts(Xor(r, FromPoly(b)), |b|) == FeedBits(r, b)
    decreases |b|
  {
    hide Shift, Xor, BitWord, FromPoly, Low, Half;
    if b == [] {
      NoBits();
      XorZero(r);
    } else {
      PeelPoly(b);
      PeelBit(r, FromPoly(b));
      BitsFed(Shift(Xor(r, BitWord(b[0]))), b[1..]);
    }
  }

  lemma {:induction false} FeedByBits(r: Word, s: string)
    ensures Feed(r, s) == FeedBits(r, Message(s))
    decreases |s|
  {
    hide Shift8, Xor, Val, ByteBits, FromPoly, FeedBits;
    if s == [] {
      FeedNoBits(r);
    } else {
      var c := s[0];
      ByteIsPoly(c);
      BitsFed(r, ByteBits(c));
      EightShifts(Xor(r, Val(c)));
      var r' := Shift8(Xor(r, Val(c)));
      FeedByBits(r', s[1..]);
      FeedBitsConcat(r, ByteBits(c), Message(s[1..]));
    }
  }

  lemma ByteIsPoly(c: char)
    ensures Val(c) == FromPoly(ByteBits(c))
  {
    hide FromBits, NthBit;
  }

  lemma FeedNoBits(r: Word)
    ensures FeedBits(r, []) == r
  {}

  // ---- one register step is one step of the division ----

  lemma DivisionStep(r: Word, b: bool, p: Poly)
    requires |p| >= 32
    ensures var d := Minus([b] + p, Bits(r));
            Minus(p, Bits(Shift(Xor(r, BitWord(b))))) == if d[0] then Minus(d[1..], Generator()) else d[1..]
  {
    hide Xor, Half, Low, Bits, Generator, BitWord;
    var d := Minus([b] + p, Bits(r));
    BitsLow(r);
    BitsHalf(r);
    BitWordFacts(r, b);
    BitsGenerator();
    BitsXor(POLYNOMIAL, Half(r));
    assert d[1..] == Minus(p, Bits(Half(r))) by {
      forall i | 0 <= i < |p|
        ensures d[1..][i] == Minus(p, Bits(Half(r)))[i]
      {
        assert d[1..][i] == d[i + 1] && ([b] + p)[i + 1] == p[i];
      }
    }
    MinusMinus(p, Bits(Half(r)), Generator());
  }

  lemma MinusMinus(p: Poly, q: Poly, g: Poly)
    requires |p| >= 32 && |q| == 32 && |g| == 32
    ensures Minus(Minus(p, q), g) == Minus(p, Minus(g, q))
  {}

  lemma {:induction false} RegisterDivides(r: Word, p: Poly)
    ensures Bits(FeedBits(r, p)) == Remainder(Minus(Times32(p), Bits(r)))
    decreases |p|
  {
    hide Shift, Xor, Bits, BitWord, Generator, Minus;
    if p == [] {
      assert Times32(p) == seq(32, i => false);
      NothingMinus(Bits(r));
    } else {
      var r' := Shift(Xor(r, BitWord(p[0])));
      RegisterDivides(r', p[1..]);
      assert Times32(p) == [p[0]] + Times32(p[1..]);
      DivisionStep(r, p[0], Times32(p[1..]));
    }
  }

  lemma NothingMinus(q: Poly)
    requires |q| == 32
    ensures Minus(seq(32, i => false), q) == q
  {}

  /** The checksum of any file is its defining long division. */
  lemma ChecksumIsDivision(s: string)
    ensures Bits(Update(ZERO, s)) == Definition(s)
  {
    hide Xor, Bits, Feed, FeedBits, Minus, Remainder, Message, Ones;
    XorZero(ALL_ONES);
    FeedByBits(ALL_ONES, s);
    RegisterDivides(ALL_ONES, Message(s));
    BitsOnes();
    BitsXor(Feed(ALL_ONES, s), ALL_ONES);
  }
}

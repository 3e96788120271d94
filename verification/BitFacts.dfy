/** 32-bit words (uint32_t) and the identities the checksum needs, each small enough
    for the solver on its own. Words are wrapped so that larger proofs reason about
    the operations by name and not bit by bit. */
module BitFacts {
  datatype Word = Word(bits: bv32)

  const ZERO := Word(0)
  const ALL_ONES := Word(0xFFFFFFFF)
  const POLYNOMIAL := Word(0xEDB88320)

  function Xor(a: Word, b: Word): Word {
    Word(a.bits ^ b.bits)
  }

  function Half(a: Word): Word {
    Word(a.bits >> 1)
  }

  function Drop8(a: Word): Word {
    Word(a.bits >> 8)
  }

  predicate Low(a: Word) {
    a.bits & 1 == 1
  }

  function Low8(a: Word): Word {
    Word(a.bits & 0xFF)
  }

  function High24(a: Word): Word {
    Word(a.bits & 0xFFFFFF00)
  }

  lemma XorAssoc(a: Word, b: Word, c: Word)
    ensures Xor(Xor(a, b), c) == Xor(a, Xor(b, c))
  {}

  lemma XorFlip(a: Word, b: Word)
    ensures Xor(a, b) == Xor(b, a)
  {}

  lemma XorTwice(a: Word, b: Word)
    ensures Xor(Xor(a, b), b) == a
  {}

  lemma XorPairs(a: Word, b: Word, c: Word, d: Word)
    ensures Xor(Xor(a, b), Xor(c, d)) == Xor(Xor(a, c), Xor(b, d))
  {
    hide Xor;
    XorAssoc(a, b, Xor(c, d));
    XorAssoc(b, c, d);
    XorFlip(b, c);
    XorAssoc(c, b, d);
    XorAssoc(a, c, Xor(b, d));
  }

  lemma XorZero(a: Word)
    ensures Xor(a, ZERO) == a && Xor(ZERO, a) == a && Xor(a, a) == ZERO
  {}

  lemma XorHalf(a: Word, b: Word)
    ensures Half(Xor(a, b)) == Xor(Half(a), Half(b))
  {}

  lemma XorLow(a: Word, b: Word)
    ensures Low(Xor(a, b)) == (Low(a) != Low(b))
  {}

  lemma SplitLow8(a: Word)
    ensures Xor(Low8(a), High24(a)) == a && Low8(High24(a)) == ZERO
  {}

  lemma HighDrop(r: Word, v: Word)
    requires Low8(v) == v
    ensures Drop8(High24(Xor(r, v))) == Drop8(r)
  {}

  /** The upper three bytes of a little-endian word. */
  function Upper(v1: Word, v2: Word, v3: Word): Word {
    Word((v1.bits << 8) ^ (v2.bits << 16) ^ (v3.bits << 24))
  }

  /** Four bytes as the little-endian word they make. */
  function Pack(v0: Word, v1: Word, v2: Word, v3: Word): Word {
    Xor(v0, Upper(v1, v2, v3))
  }

  lemma UpperDrops(v1: Word, v2: Word, v3: Word)
    requires Low8(v1) == v1 && Low8(v2) == v2 && Low8(v3) == v3
    ensures Low8(Upper(v1, v2, v3)) == ZERO
    ensures Drop8(Upper(v1, v2, v3)) == Pack(v1, v2, v3, ZERO)
  {}

  lemma PackOne(v: Word)
    ensures Pack(v, ZERO, ZERO, ZERO) == v
  {}

  lemma PackInjective(a0: Word, a1: Word, a2: Word, a3: Word, b0: Word, b1: Word, b2: Word, b3: Word)
    requires Low8(a0) == a0 && Low8(a1) == a1 && Low8(a2) == a2 && Low8(a3) == a3
    requires Low8(b0) == b0 && Low8(b1) == b1 && Low8(b2) == b2 && Low8(b3) == b3
    requires Pack(a0, a1, a2, a3) == Pack(b0, b1, b2, b3)
    ensures a0 == b0 && a1 == b1 && a2 == b2 && a3 == b3
  {}

  // ---- bytes ----

  function Bit(on: bool, place: bv32): bv32 {
    if on then place else 0
  }

  function FromBits(b0: bool, b1: bool, b2: bool, b3: bool, b4: bool, b5: bool, b6: bool, b7: bool): Word {
    Word(Bit(b0, 1) | Bit(b1, 2) | Bit(b2, 4) | Bit(b3, 8) | Bit(b4, 16) | Bit(b5, 32) | Bit(b6, 64) | Bit(b7, 128))
  }

  lemma FromBitsInjective(a0: bool, a1: bool, a2: bool, a3: bool, a4: bool, a5: bool, a6: bool, a7: bool,
                          b0: bool, b1: bool, b2: bool, b3: bool, b4: bool, b5: bool, b6: bool, b7: bool)
    requires FromBits(a0, a1, a2, a3, a4, a5, a6, a7) == FromBits(b0, b1, b2, b3, b4, b5, b6, b7)
    ensures a0 == b0 && a1 == b1 && a2 == b2 && a3 == b3 && a4 == b4 && a5 == b5 && a6 == b6 && a7 == b7
  {}

  predicate Odd(n: int) {
    n % 2 == 1
  }

  function Halved(n: int, times: nat): int
    decreases times
  {
    if times == 0 then n else Halved(n / 2, times - 1)
  }

  /** The eight bits of an unsigned byte, lowest first. */
  predicate NthBit(n: int, k: nat) {
    Odd(Halved(n, k))
  }

  /** The value a C++ byte contributes when widened to a word. */
  function Val(c: char): Word {
    var n := (c as int) % 256;
    FromBits(NthBit(n, 0), NthBit(n, 1), NthBit(n, 2), NthBit(n, 3), NthBit(n, 4), NthBit(n, 5), NthBit(n, 6), NthBit(n, 7))
  }

  lemma FromBitsLow8(b0: bool, b1: bool, b2: bool, b3: bool, b4: bool, b5: bool, b6: bool, b7: bool)
    ensures Low8(FromBits(b0, b1, b2, b3, b4, b5, b6, b7)) == FromBits(b0, b1, b2, b3, b4, b5, b6, b7)
  {}

  lemma ValLow8(c: char)
    ensures Low8(Val(c)) == Val(c)
  {
    hide Low8, FromBits, NthBit;
    var n := (c as int) % 256;
    FromBitsLow8(NthBit(n, 0), NthBit(n, 1), NthBit(n, 2), NthBit(n, 3), NthBit(n, 4), NthBit(n, 5), NthBit(n, 6), NthBit(n, 7));
  }

  function Power2(k: nat): nat {
    if k == 0 then 1 else 2 * Power2(k - 1)
  }

  lemma {:induction false} SameBits(n: int, m: int, k: nat)
    requires 0 <= n < Power2(k) && 0 <= m < Power2(k)
    requires forall j: nat :: j < k ==> NthBit(n, j) == NthBit(m, j)
    ensures n == m
  {
    if k > 0 {
      forall j: nat | j < k - 1
        ensures NthBit(n / 2, j) == NthBit(m / 2, j)
      {
        assert NthBit(n, j + 1) == NthBit(m, j + 1);
      }
      SameBits(n / 2, m / 2, k - 1);
      assert NthBit(n, 0) == NthBit(m, 0);
    }
  }

  lemma ValInjective(a: char, b: char)
    requires a as int < 256 && b as int < 256 && Val(a) == Val(b)
    ensures a == b
  {
    hide FromBits, NthBit;
    var n, m := a as int, b as int;
    FromBitsInjective(
      NthBit(n, 0), NthBit(n, 1), NthBit(n, 2), NthBit(n, 3), NthBit(n, 4), NthBit(n, 5), NthBit(n, 6), NthBit(n, 7),
      NthBit(m, 0), NthBit(m, 1), NthBit(m, 2), NthBit(m, 3), NthBit(m, 4), NthBit(m, 5), NthBit(m, 6), NthBit(m, 7));
    assert Power2(8) == 2 * Power2(7) == 256 by {
      assert Power2(4) == 16;
    }
    SameBits(n, m, 8);
  }

  /** A word as the unsigned number it stands for. */
  function Number(w: Word): (n: nat)
    ensures n < 0x1_0000_0000
  {
    w.bits as int
  }

  lemma NumberInjective(a: Word, b: Word)
    requires Number(a) == Number(b)
    ensures a == b
  {
    assert (a.bits as int) as bv32 == a.bits;
    assert (b.bits as int) as bv32 == b.bits;
  }

  function FromNumber(n: int): Word
    requires 0 <= n < 256
  {
    Word(n as bv32)
  }

  lemma IndexRound(a: Word)
    requires Low8(a) == a
    ensures Number(a) < 256 && FromNumber(Number(a)) == a
  {}
}

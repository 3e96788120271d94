/** The CRC-32 of src/peer/pipes.cpp: a table-driven loop, proved equal to long
    division of the message by the CRC polynomial, chunk by chunk, and shown to see
    every change confined to four consecutive bytes. */
module Crc32 {
  import opened Wrappers
  import opened BitFacts

  /** One bit of the reflected division register. */
  function Shift(c: Word): Word {
    if Low(c) then Xor(POLYNOMIAL, Half(c)) else Half(c)
  }

  function Shift8(c: Word): Word {
    Shift(Shift(Shift(Shift(Shift(Shift(Shift(Shift(c))))))))
  }

  /** The register after the bytes of s, without the conditioning at either end. */
  function Feed(r: Word, s: string): Word
    decreases |s|
  {
    if s == [] then r else Feed(Shift8(Xor(r, Val(s[0]))), s[1..])
  }

  /** What crc32_update(crc, s) stands for. */
  function Update(crc: Word, s: string): Word {
    Xor(Feed(Xor(crc, ALL_ONES), s), ALL_ONES)
  }

  /** The checksum of a whole file, as the unsigned number put in headers. */
  function Of(s: string): (n: nat)
    ensures n < 0x1_0000_0000
  {
    Number(Update(ZERO, s))
  }

  // ---- chunks ----

  lemma {:induction false} FeedConcat(r: Word, a: string, b: string)
    ensures Feed(r, a + b) == Feed(Feed(r, a), b)
    decreases |a|
  {
    hide Shift8, Val, Xor;
    if a == [] {
      assert a + b == b;
    } else {
      assert (a + b)[0] == a[0] && (a + b)[1..] == a[1..] + b;
      FeedConcat(Shift8(Xor(r, Val(a[0]))), a[1..], b);
    }
  }

  /** The checksum of a concatenation is the checksum of the first part updated with
      the second: what lets a resumed transfer carry on from the kept bytes. */
  lemma UpdateComposes(crc: Word, a: string, b: string)
    ensures Update(crc, a + b) == Update(Update(crc, a), b)
  {
    hide Feed, Xor;
    FeedConcat(Xor(crc, ALL_ONES), a, b);
    XorTwice(Feed(Xor(crc, ALL_ONES), a), ALL_ONES);
  }

  lemma UpdateNothing(crc: Word)
    ensures Update(crc, []) == crc
  {
    hide Xor;
    XorTwice(crc, ALL_ONES);
  }

  // ---- the register is linear and loses nothing ----

  lemma ShiftLinear(a: Word, b: Word)
    ensures Shift(Xor(a, b)) == Xor(Shift(a), Shift(b))
  {
    hide Xor, Half, Low;
    XorLow(a, b);
    XorHalf(a, b);
    XorPairs(POLYNOMIAL, Half(a), POLYNOMIAL, Half(b));
    XorZero(POLYNOMIAL);
    XorZero(Xor(Half(a), Half(b)));
    XorAssoc(POLYNOMIAL, Half(a), Half(b));
    XorFlip(POLYNOMIAL, Half(b));
    XorAssoc(Half(a), Half(b), POLYNOMIAL);
    XorFlip(Xor(Half(a), Half(b)), POLYNOMIAL);
  }

  lemma Shift8Linear(a: Word, b: Word)
    ensures Shift8(Xor(a, b)) == Xor(Shift8(a), Shift8(b))
  {
    hide Shift, Xor;
    ShiftLinear(a, b);
    var a1, b1 := Shift(a), Shift(b);
    ShiftLinear(a1, b1);
    var a2, b2 := Shift(a1), Shift(b1);
    ShiftLinear(a2, b2);
    var a3, b3 := Shift(a2), Shift(b2);
    ShiftLinear(a3, b3);
    var a4, b4 := Shift(a3), Shift(b3);
    ShiftLinear(a4, b4);
    var a5, b5 := Shift(a4), Shift(b4);
    ShiftLinear(a5, b5);
    var a6, b6 := Shift(a5), Shift(b5);
    ShiftLinear(a6, b6);
    ShiftLinear(Shift(a6), Shift(b6));
  }

  lemma ShiftInjective(a: Word, b: Word)
    requires Shift(a) == Shift(b)
    ensures a == b
  {}

  lemma Shift8Injective(a: Word, b: Word)
    requires Shift8(a) == Shift8(b)
    ensures a == b
  {
    hide Shift;
    var a1, b1 := Shift(a), Shift(b);
    var a2, b2 := Shift(a1), Shift(b1);
    var a3, b3 := Shift(a2), Shift(b2);
    var a4, b4 := Shift(a3), Shift(b3);
    var a5, b5 := Shift(a4), Shift(b4);
    var a6, b6 := Shift(a5), Shift(b5);
    ShiftInjective(Shift(a6), Shift(b6));
    ShiftInjective(a6, b6);
    ShiftInjective(a5, b5);
    ShiftInjective(a4, b4);
    ShiftInjective(a3, b3);
    ShiftInjective(a2, b2);
    ShiftInjective(a1, b1);
    ShiftInjective(a, b);
  }

  /** Only the low byte goes through the polynomial; the rest is just shifted. */
  lemma Shift8High(a: Word)
    requires Low8(a) == ZERO
    ensures Shift8(a) == Drop8(a)
  {}

  /** The table step: look up the low byte, shift the rest. */
  lemma TableStep(r: Word, c: char)
    ensures Shift8(Xor(r, Val(c))) == Xor(Shift8(Low8(Xor(r, Val(c)))), Drop8(r))
  {
    hide *;
    var x := Xor(r, Val(c));
    SplitLow8(x);
    Shift8Linear(Low8(x), High24(x));
    Shift8High(High24(x));
    ValLow8(c);
    HighDrop(r, Val(c));
  }

  // ---- four damaged bytes are always seen ----

  lemma {:induction false} FeedInjective(r1: Word, r2: Word, s: string)
    requires Feed(r1, s) == Feed(r2, s)
    ensures r1 == r2
    decreases |s|
  {
    hide Shift8, Val, Xor;
    if s != [] {
      var v := Val(s[0]);
      FeedInjective(Shift8(Xor(r1, v)), Shift8(Xor(r2, v)), s[1..]);
      Shift8Injective(Xor(r1, v), Xor(r2, v));
      XorTwice(r1, v);
      XorTwice(r2, v);
    }
  }

  /** Feeding the low byte leaves the other three to be xored in afterwards. */
  lemma FeedLow(r: Word, v0: Word, v1: Word, v2: Word, v3: Word)
    requires Low8(v0) == v0 && Low8(v1) == v1 && Low8(v2) == v2 && Low8(v3) == v3
    ensures Shift8(Xor(r, Pack(v0, v1, v2, v3))) == Xor(Shift8(Xor(r, v0)), Pack(v1, v2, v3, ZERO))
  {
    hide Shift8, Xor, Low8, Upper, Drop8;
    var rest := Upper(v1, v2, v3);
    XorAssoc(r, v0, rest);
    Shift8Linear(Xor(r, v0), rest);
    UpperDrops(v1, v2, v3);
    Shift8High(rest);
  }

  function PackFour(s: string): Word
    requires |s| == 4
  {
    Pack(Val(s[0]), Val(s[1]), Val(s[2]), Val(s[3]))
  }

  lemma FeedFour(r: Word, s: string)
    requires |s| == 4
    ensures Feed(r, s) == Shift8(Shift8(Shift8(Shift8(Xor(r, PackFour(s))))))
  {
    hide Shift8, Val, Xor, Pack, Low8;
    var v0, v1, v2, v3 := Val(s[0]), Val(s[1]), Val(s[2]), Val(s[3]);
    ValLow8(s[0]);
    ValLow8(s[1]);
    ValLow8(s[2]);
    ValLow8(s[3]);
    assert Low8(ZERO) == ZERO by {
      SplitLow8(ZERO);
      LowOfZero();
    }
    var r1 := Shift8(Xor(r, v0));
    var r2 := Shift8(Xor(r1, v1));
    var r3 := Shift8(Xor(r2, v2));
    FeedLow(r, v0, v1, v2, v3);
    FeedLow(r1, v1, v2, v3, ZERO);
    FeedLow(r2, v2, v3, ZERO, ZERO);
    PackOne(v3);
    assert Feed(r, s) == Feed(r1, s[1..]);
    assert s[1..][1..] == s[2..] && s[1..][0] == s[1];
    assert Feed(r1, s[1..]) == Feed(r2, s[2..]);
    assert s[2..][1..] == s[3..] && s[2..][0] == s[2];
    assert Feed(r2, s[2..]) == Feed(r3, s[3..]);
    assert s[3..][1..] == [] && s[3..][0] == s[3];
    assert Feed(r3, s[3..]) == Feed(Shift8(Xor(r3, v3)), []);
  }

  lemma LowOfZero()
    ensures Low8(ZERO) == ZERO
  {}

  lemma FourBytesSeen(r: Word, a: string, b: string)
    requires |a| == |b| == 4 && AreBytes(a) && AreBytes(b)
    requires Feed(r, a) == Feed(r, b)
    ensures a == b
  {
    hide Shift8, Val, Xor, Pack, Feed, Low8;
    FeedFour(r, a);
    FeedFour(r, b);
    var x, y := Xor(r, PackFour(a)), Xor(r, PackFour(b));
    Shift8Injective(Shift8(Shift8(Shift8(x))), Shift8(Shift8(Shift8(y))));
    Shift8Injective(Shift8(Shift8(x)), Shift8(Shift8(y)));
    Shift8Injective(Shift8(x), Shift8(y));
    Shift8Injective(x, y);
    XorFlip(r, PackFour(a));
    XorFlip(r, PackFour(b));
    XorTwice(PackFour(a), r);
    XorTwice(PackFour(b), r);
    forall i | 0 <= i < 4
      ensures Low8(Val(a[i])) == Val(a[i]) && Low8(Val(b[i])) == Val(b[i])
    {
      ValLow8(a[i]);
      ValLow8(b[i]);
    }
    PackInjective(Val(a[0]), Val(a[1]), Val(a[2]), Val(a[3]), Val(b[0]), Val(b[1]), Val(b[2]), Val(b[3]));
    forall i | 0 <= i < 4
      ensures a[i] == b[i]
    {
      ValInjective(a[i], b[i]);
    }
  }

  predicate AreBytes(s: string) {
    forall i :: 0 <= i < |s| ==> s[i] as int < 256
  }

  /** a and b agree everywhere but (perhaps) at positions i, i+1, i+2, i+3. */
  predicate DifferWithinFour(a: string, b: string, i: nat) {
    && |a| == |b|
    && forall k :: 0 <= k < |a| && !(i <= k < i + 4) ==> a[k] == b[k]
  }

  lemma WindowSeen(p: string, a: string, b: string, q: string)
    requires |a| == |b| == 4 && AreBytes(a) && AreBytes(b)
    requires Feed(ALL_ONES, p + a + q) == Feed(ALL_ONES, p + b + q)
    ensures a == b
  {
    hide Feed;
    FeedConcat(ALL_ONES, p + a, q);
    FeedConcat(ALL_ONES, p + b, q);
    FeedConcat(ALL_ONES, p, a);
    FeedConcat(ALL_ONES, p, b);
    var r := Feed(ALL_ONES, p);
    FeedInjective(Feed(r, a), Feed(r, b), q);
    FourBytesSeen(r, a, b);
  }

  /** Two byte strings of one length that differ only inside four consecutive bytes
      never share a checksum. */
  lemma BurstSeen(a: string, b: string, i: nat)
    requires AreBytes(a) && AreBytes(b)
    requires DifferWithinFour(a, b, i)
    ensures a != b ==> Of(a) != Of(b)
  {
    hide Feed, Number, Xor;
    if Of(a) == Of(b) {
      NumberInjective(Update(ZERO, a), Update(ZERO, b));
      XorTwice(Feed(Xor(ZERO, ALL_ONES), a), ALL_ONES);
      XorTwice(Feed(Xor(ZERO, ALL_ONES), b), ALL_ONES);
      XorZero(ALL_ONES);
      // Pad with zero bytes so that the window fits: equal checksums stay equal.
      var pad := ['\0', '\0', '\0', '\0'];
      FeedConcat(ALL_ONES, a, pad);
      FeedConcat(ALL_ONES, b, pad);
      var x, y := a + pad, b + pad;
      var j := Least(i, |a|);
      var p, q := x[..j], x[j + 4..];
      assert p == y[..j] && q == y[j + 4..];
      assert x == p + x[j..j + 4] + q;
      assert y == p + y[j..j + 4] + q;
      WindowSeen(p, x[j..j + 4], y[j..j + 4], q);
      assert a == x[..|a|] && b == y[..|b|];
    }
  }

  // ---- the loops of the source ----

  /** crc32_update with its lazily built static table. */
  class Table {
    var table: array<Word>
    var init: bool

    ghost predicate Valid()
      reads this, table
    {
      table.Length == 256 &&
      (init ==> forall i :: 0 <= i < 256 ==> table[i] == Shift8(FromNumber(i)))
    }

    constructor ()
      ensures Valid() && !init && fresh(table)
    {
      table := new Word[256](i => ZERO);
      init := false;
    }

    method Build()
      requires Valid() && !init
      modifies this`init, table
      ensures Valid() && init
    {
      hide Shift8, Shift, FromNumber;
      var i := 0;
      while i < 256
        invariant 0 <= i <= 256
        invariant forall k :: 0 <= k < i ==> table[k] == Shift8(FromNumber(k))
      {
        var c := FromNumber(i);
        var k := 0;
        while k < 8
          invariant 0 <= k <= 8
          invariant forall j :: 0 <= j < i ==> table[j] == Shift8(FromNumber(j))
          invariant Shifts(c, 8 - k) == Shifts(FromNumber(i), 8)
        {
          ShiftCases(c);
          c := if Low(c) then Xor(POLYNOMIAL, Half(c)) else Half(c);
          k := k + 1;
        }
        EightShifts(FromNumber(i));
        assert Shifts(c, 0) == c;
        table[i] := c;
        i := i + 1;
      }
      init := true;
    }

    /** crc32_update: the table-driven loop computes the bit-by-bit checksum. */
    method CrcUpdate(crc0: Word, p: string) returns (crc: Word)
      requires Valid()
      modifies this`init, table
      ensures Valid() && init
      ensures crc == Update(crc0, p)
    {
      hide Shift8, Val, Xor, Low8, Drop8, FromNumber, Number;
      if !init {
        Build();
      }
      crc := Xor(crc0, ALL_ONES);
      var i := 0;
      while i < |p|
        invariant 0 <= i <= |p|
        invariant Valid() && init
        invariant Feed(crc, p[i..]) == Feed(Xor(crc0, ALL_ONES), p)
      {
        TableStep(crc, p[i]);
        LowOfLow(Xor(crc, Val(p[i])));
        IndexRound(Low8(Xor(crc, Val(p[i]))));
        assert p[i..][0] == p[i] && p[i..][1..] == p[i + 1..];
        crc := Xor(table[Number(Low8(Xor(crc, Val(p[i]))))], Drop8(crc));
        i := i + 1;
      }
      crc := Xor(crc, ALL_ONES);
    }

    /** crc32_file: at most `upto` bytes, read in chunks of whatever size fread hands
        back; a file that cannot be opened counts as 0. */
    method CrcFile(content: Option<string>, upto: nat, chunks: seq<nat>) returns (crc: Word)
      requires Valid()
      modifies this`init, table
      ensures Valid()
      ensures content.None? ==> crc == ZERO
      ensures content.Some? ==> crc == Update(ZERO, content.value[..Least(upto, |content.value|)])
    {
      hide Update;
      if content.None? {
        return ZERO;
      }
      var f := content.value;
      crc := ZERO;
      UpdateNothing(ZERO);
      var left, pos, turn := upto, 0, 0;
      while left > 0
        invariant Valid()
        invariant 0 <= pos <= |f| && left == upto - pos
        invariant crc == Update(ZERO, f[..pos])
        decreases left
      {
        var want := Least(left, CHUNK);
        // fread may return less than asked, but nothing only at the end of the file
        var n := Least(want, |f| - pos);
        if turn < |chunks| && 1 <= chunks[turn] < n {
          n := chunks[turn];
        }
        turn := turn + 1;
        if n == 0 {
          break;
        }
        UpdateComposes(ZERO, f[..pos], f[pos..pos + n]);
        assert f[..pos] + f[pos..pos + n] == f[..pos + n];
        crc := CrcUpdate(crc, f[pos..pos + n]);
        pos := pos + n;
        left := left - n;
      }
    }
  }

  const CHUNK: nat := 16384

  lemma LowOfLow(a: Word)
    ensures Low8(Low8(a)) == Low8(a)
  {}

  lemma ShiftCases(c: Word)
    ensures Shift(c) == if Low(c) then Xor(POLYNOMIAL, Half(c)) else Half(c)
  {}

  function Shifts(c: Word, n: nat): Word
    decreases n
  {
    if n == 0 then c else Shifts(Shift(c), n - 1)
  }

  lemma EightShifts(c: Word)
    ensures Shifts(c, 8) == Shift8(c)
  {
    hide Shift;
    var c1 := Shift(c);
    var c2 := Shift(c1);
    var c3 := Shift(c2);
    var c4 := Shift(c3);
    assert Shifts(c, 8) == Shifts(c1, 7) == Shifts(c2, 6) == Shifts(c3, 5) == Shifts(c4, 4);
    var c5 := Shift(c4);
    var c6 := Shift(c5);
    var c7 := Shift(c6);
    assert Shifts(c4, 4) == Shifts(c5, 3) == Shifts(c6, 2) == Shifts(c7, 1) == Shifts(Shift(c7), 0);
  }
}

/** The text lines of the file protocol (src/peer/pipes.cpp): the sender's offers, the
    receiver's RESUME answers, the .part.meta record kept beside a partial file. */
module FileLines {
  import opened Text

  const MAX_HEADER: nat := 8192
  const END_LINE := "SPLF2-END"
  const OFFER_WORD := "SPLF2 "
  const RESUME_WORD := "RESUME "

  predicate StartsWith(s: string, w: string) {
    |w| <= |s| && s[..|w|] == w
  }

  /** No newline and no NUL. */
  predicate Plain(s: string) {
    forall k :: 0 <= k < |s| ==> s[k] != '\n' && s[k] as int != 0
  }

  /** A relative path that survives a line of text. */
  predicate PlainPath(rel: string) {
    rel != [] && Plain(rel)
  }

  lemma PlainConcat(a: string, b: string)
    requires Plain(a) && Plain(b)
    ensures Plain(a + b)
  {}

  lemma DigitsPlain(s: string, base: nat)
    requires base <= 16 && forall k :: 0 <= k < |s| ==> IsDigit(s[k], base)
    ensures Plain(s)
  {
    forall k | 0 <= k < |s|
      ensures s[k] != '\n' && s[k] as int != 0
    {
      DigitShape(s[k], base);
    }
  }

  // ---- offers ----

  function OfferLine(size: nat, crc: nat, rel: string): string {
    OFFER_WORD + Dec(size) + " " + Hex8(crc) + " " + rel
  }

  /** Why a header is refused: another protocol, or a malformed offer. */
  datatype HeaderError = NotFileProtocol | BadHeader

  datatype Header = End | Bad(why: HeaderError) | Offer(size: nat, crc: nat, rel: string)

  predicate SpaceAt(c: string, i: nat) {
    i < |c| && c[i] == ' '
  }

  /** handle_header's reading of one line (without its newline). */
  function ParseHeader(line: string): (h: Header)
    ensures h.Offer? ==> h.rel != [] && h.size <= MAX64 && h.crc < 0x1_0000_0000
  {
    if line == END_LINE then End
    else if !StartsWith(line, OFFER_WORD) then Bad(NotFileProtocol)
    else
      CStrKeeps(line, OFFER_WORD);
      ParseOffer(CStr(line))
  }

  /** SPLF2 <size> <crc8hex> <relpath> */
  function ParseOffer(c: string): (h: Header)
    requires |c| >= 6
    ensures h.Offer? ==> h.rel != [] && h.size <= MAX64 && h.crc < 0x1_0000_0000
  {
    var p := ParseInt(c, 6, 10);
    if p.end == 6 || !SpaceAt(c, p.end) then Bad(BadHeader)
    else
      var q := ParseInt(c, p.end + 1, 16);
      if !SpaceAt(c, q.end) then Bad(BadHeader)
      else if q.end + 1 == |c| then Bad(BadHeader)
      else Offer(p.value, q.value % 0x1_0000_0000, c[q.end + 1..])
  }

  lemma {:induction false} CStrKeeps(s: string, w: string)
    requires StartsWith(s, w)
    requires forall k :: 0 <= k < |w| ==> w[k] as int != 0
    ensures |w| <= |CStr(s)|
  {
    forall k | 0 <= k < |w|
      ensures s[k] as int != 0
    {
      assert s[..|w|][k] == w[k];
    }
  }

  /** Whatever the receiver offers to store is exactly what the sender announced. */
  lemma HeaderRoundTrip(size: nat, crc: nat, rel: string)
    requires size <= MAX64 && crc < 0x1_0000_0000 && PlainPath(rel)
    ensures ParseHeader(OfferLine(size, crc, rel)) == Offer(size, crc, rel)
    ensures '\n' !in OfferLine(size, crc, rel)
  {
    hide Dec, Hex8, ParseOffer;
    var a, b := Dec(size), Hex8(crc);
    OfferPlain(a, b, rel) by {
      DecReads(size);
      HexNumber(crc);
    }
    var line := OfferLine(size, crc, rel);
    CStrWhole(line);
    Pieces(OFFER_WORD, a, b, rel);
    NotEnd(line);
    OfferParsed(size, crc, rel);
  }

  lemma OfferParsed(size: nat, crc: nat, rel: string)
    requires size <= MAX64 && crc < 0x1_0000_0000 && rel != []
    ensures ParseOffer(OfferLine(size, crc, rel)) == Offer(size, crc, rel)
  {
    hide Dec, Hex8, ParseInt, Value;
    DecReads(size);
    HexNumber(crc);
    NumbersOf(OFFER_WORD, Dec(size), Hex8(crc), rel);
    Pieces(OFFER_WORD, Dec(size), Hex8(crc), rel);
  }

  lemma NotEnd(line: string)
    requires StartsWith(line, OFFER_WORD)
    ensures line != END_LINE
  {
    assert line[..6][5] == ' ';
  }

  lemma HexNumber(crc: nat)
    requires crc < 0x1_0000_0000
    ensures Value(Hex8(crc), 16) == crc && |Hex8(crc)| == 8
    ensures forall i :: 0 <= i < 8 ==> IsDigit(Hex8(crc)[i], 16)
  {
    assert Power16(8) == 0x1_0000_0000 by {
      assert Power16(4) == 0x1_0000;
    }
    HexReads(crc, 8);
  }

  lemma OfferPlain(a: string, b: string, rel: string)
    requires forall k :: 0 <= k < |a| ==> IsDigit(a[k], 10)
    requires forall k :: 0 <= k < |b| ==> IsDigit(b[k], 16)
    requires Plain(rel)
    ensures Plain(OFFER_WORD + a + " " + b + " " + rel) && Plain(a + " " + b + " " + rel)
  {
    DigitsPlain(a, 10);
    DigitsPlain(b, 16);
    PlainConcat(OFFER_WORD, a);
    PlainConcat(OFFER_WORD + a, " ");
    PlainConcat(OFFER_WORD + a + " ", b);
    PlainConcat(OFFER_WORD + a + " " + b, " ");
    PlainConcat(OFFER_WORD + a + " " + b + " ", rel);
    PlainConcat(a, " ");
    PlainConcat(a + " ", b);
    PlainConcat(a + " " + b, " ");
    PlainConcat(a + " " + b + " ", rel);
  }

  /** Where the pieces of an offer or a record stand. */
  lemma Pieces(word: string, a: string, b: string, rest: string)
    ensures var line := word + a + " " + b + " " + rest;
            var i := |word| + |a|;
            var j := i + 1 + |b|;
            && |line| == j + 1 + |rest|
            && line[..|word|] == word && line[|word|..i] == a && line[i] == ' '
            && line[i + 1..j] == b && line[j] == ' ' && line[j + 1..] == rest
  {
    var p := word + a + " ";
    var q := p + b + " ";
    var line := q + rest;
    assert line[..|q|] == q && line[|q|..] == rest;
    assert q[..|p|] == p && q[|p|..|p| + |b|] == b;
    assert p[..|word|] == word && p[|word|..|word| + |a|] == a;
  }

  /** Both numbers are read back, wherever they stand. */
  lemma TwoNumbers(line: string, w: nat, i: nat, j: nat)
    requires w < i < i + 1 < j < |line|
    requires forall k :: w <= k < i ==> IsDigit(line[k], 10)
    requires forall k :: i < k < j ==> IsDigit(line[k], 16)
    requires line[i] == ' ' && line[j] == ' '
    requires Value(line[w..i], 10) <= MAX64 && Value(line[i + 1..j], 16) <= MAX64
    ensures ParseInt(line, w, 10) == Parsed(Value(line[w..i], 10), i)
    ensures ParseInt(line, i + 1, 16) == Parsed(Value(line[i + 1..j], 16), j)
    ensures SkipSpace(line, i) == i + 1 && SkipSpace(line, j) == SkipSpace(line, j + 1)
  {
    hide ParseInt, Value, IsDigit;
    ParseNumber(line, w, line[w..i], 10);
    ParseNumber(line, i + 1, line[i + 1..j], 16);
    DigitShape(line[i + 1], 16);
  }

  lemma NumbersOf(word: string, a: string, b: string, rest: string)
    requires a != [] && (forall k :: 0 <= k < |a| ==> IsDigit(a[k], 10)) && Value(a, 10) <= MAX64
    requires b != [] && (forall k :: 0 <= k < |b| ==> IsDigit(b[k], 16)) && Value(b, 16) <= MAX64
    ensures var line := word + a + " " + b + " " + rest;
            var i := |word| + |a|;
            var j := i + 1 + |b|;
            && |line| == j + 1 + |rest|
            && line[i] == ' ' && line[j] == ' '
            && ParseInt(line, |word|, 10) == Parsed(Value(a, 10), i)
            && ParseInt(line, i + 1, 16) == Parsed(Value(b, 16), j)
            && SkipSpace(line, i) == i + 1 && SkipSpace(line, j) == SkipSpace(line, j + 1)
  {
    hide ParseInt, Value, IsDigit;
    Pieces(word, a, b, rest);
    var line := word + a + " " + b + " " + rest;
    var w, i := |word|, |word| + |a|;
    var j := i + 1 + |b|;
    forall k | w <= k < i
      ensures IsDigit(line[k], 10)
    {
      assert line[k] == line[w..i][k - w] == a[k - w];
    }
    forall k | i < k < j
      ensures IsDigit(line[k], 16)
    {
      assert line[k] == line[i + 1..j][k - i - 1] == b[k - i - 1];
    }
    TwoNumbers(line, w, i, j);
  }

  lemma DecShort(n: nat)
    requires n <= MAX64
    ensures |Dec(n)| <= 20
  {
    assert 0xFFFF_FFFF_FFFF_FFFF < 1_0000_0000_0000_0000_0000;
    assert Power10(20) == 1_0000_0000_0000_0000_0000 by {
      assert Power10(5) == 1_0000_0 && Power10(10) == 1_0000_0000_00 by {
        assert Power10(10) == 1_0000_0 * Power10(5);
      }
      assert Power10(15) == 1_0000_0 * Power10(10);
      assert Power10(20) == 1_0000_0 * Power10(15);
    }
    DecLength(n, 20);
  }

  function Power10(k: nat): nat {
    if k == 0 then 1 else 10 * Power10(k - 1)
  }

  lemma {:induction false} DecLength(n: nat, k: nat)
    requires k >= 1 && n < Power10(k)
    ensures |Dec(n)| <= k
  {
    if n >= 10 {
      assert k >= 2 by {
        assert Power10(1) == 10;
      }
      DecLength(n / 10, k - 1);
    }
  }

  // ---- RESUME answers ----

  function ResumeLine(off: nat): string {
    RESUME_WORD + Dec(off)
  }

  /** The sender's reading of an answer: anything that is not RESUME means 0. */
  function ParseResume(rbuf: string): nat {
    if !StartsWith(rbuf, RESUME_WORD) then 0
    else
      CStrKeeps(rbuf, RESUME_WORD);
      ParseInt(CStr(rbuf), 7, 10).value
  }

  lemma ResumeRoundTrip(off: nat)
    requires off <= MAX64
    ensures ParseResume(ResumeLine(off)) == off
    ensures |ResumeLine(off)| <= 27 && '\n' !in ResumeLine(off)
  {
    var line := ResumeLine(off);
    DecReads(off);
    DecShort(off);
    forall k | 0 <= k < |line|
      ensures line[k] as int != 0 && line[k] != '\n'
    {
      if k < 7 {
        assert line[k] == RESUME_WORD[k];
      } else {
        assert line[k] == Dec(off)[k - 7];
        DigitShape(Dec(off)[k - 7], 10);
      }
    }
    CStrWhole(line);
    assert line[..7] == RESUME_WORD && line[7..7 + |Dec(off)|] == Dec(off);
    ParseNumber(line, 7, Dec(off), 10);
  }

  // ---- .part.meta ----

  const META_LINE: nat := 1023  // fgets into 1024 bytes
  const META_PATH: nat := 767   // %767[^\n]

  function MetaText(size: nat, crc: nat, rel: string): string {
    Dec(size) + " " + Hex8(crc) + " " + rel + "\n"
  }

  /** Up to n characters, stopping before a newline. */
  function UntilNewline(s: string, n: nat): (r: string)
    ensures |r| <= n && |r| <= |s| && r == s[..|r|]
    ensures forall k :: 0 <= k < |r| ==> r[k] != '\n'
    ensures |r| == n || |r| == |s| || s[|r|] == '\n'
  {
    if n == 0 || s == [] || s[0] == '\n' then [] else [s[0]] + UntilNewline(s[1..], n - 1)
  }

  /** Does the record kept in .part.meta describe this offer? */
  predicate MetaMatches(content: string, size: nat, crc: nat, rel: string) {
    content != [] && RecordMatches(CStr(UntilNewline(content, META_LINE)), size, crc, rel)
  }

  /** sscanf(c, "%llu %x %767[^\n]") == 3, and all three agree with the offer. */
  predicate RecordMatches(c: string, size: nat, crc: nat, rel: string) {
    var p := ParseInt(c, 0, 10);
    var i := SkipSpace(c, p.end);
    var q := ParseInt(c, i, 16);
    var r := UntilNewline(c[SkipSpace(c, q.end)..], META_PATH);
    p.end > 0 && q.end > i && r != [] &&
    p.value == size && q.value % 0x1_0000_0000 == crc && r == rel
  }

  /** A kept record is recognised again exactly when the path fits the record's field
      and does not begin with white space; otherwise the file starts over. */
  lemma MetaRecognised(size: nat, crc: nat, rel: string)
    requires size <= MAX64 && crc < 0x1_0000_0000 && PlainPath(rel)
    ensures MetaMatches(MetaText(size, crc, rel), size, crc, rel) <==> |rel| <= META_PATH && !IsSpace(rel[0])
  {
    hide Dec, Hex8, RecordMatches;
    var text := MetaText(size, crc, rel);
    var a, b := Dec(size), Hex8(crc);
    OfferPlain(a, b, rel) by {
      DecReads(size);
      HexNumber(crc);
    }
    DecShort(size);
    HexNumber(crc);
    RecordLine(a, b, rel);
    var line := UntilNewline(text, META_LINE);
    var rest := rel[..|line| - |a| - 10];
    CStrWhole(line);
    Pieces([], a, b, rest);
    assert [] + a == a;
    assert line[|a| + 10..] == rest;
    RecordRead(size, crc, rest, rel);
    RecordedPath(line, |a| + 10, rel);
  }

  lemma RecordRead(size: nat, crc: nat, rest: string, rel: string)
    requires size <= MAX64 && crc < 0x1_0000_0000 && rel != []
    ensures var line := Dec(size) + " " + Hex8(crc) + " " + rest;
            var e := |Dec(size)| + 10;
            e <= |line| &&
            (RecordMatches(line, size, crc, rel) <==> UntilNewline(line[SkipSpace(line, e)..], META_PATH) == rel)
  {
    hide Dec, Hex8, ParseInt, Value, SkipSpace;
    DecReads(size);
    HexNumber(crc);
    NumbersOf([], Dec(size), Hex8(crc), rest);
    assert [] + Dec(size) == Dec(size);
  }

  /** What fgets hands back of a record: all of it, or its first 1023 characters. */
  lemma RecordLine(a: string, b: string, rel: string)
    requires |a| <= 20 && |b| == 8 && Plain(a + " " + b + " " + rel)
    ensures var line := UntilNewline(a + " " + b + " " + rel + "\n", META_LINE);
            && |a| + 10 <= |line| <= |a| + 10 + |rel|
            && line == a + " " + b + " " + rel[..|line| - |a| - 10]
            && Plain(line)
            && (|rel| <= META_PATH ==> |line| == |a| + 10 + |rel|)
  {
    var whole := a + " " + b + " " + rel;
    var text := whole + "\n";
    var line := UntilNewline(text, META_LINE);
    assert text[|whole|] == '\n';
    var front := a + " " + b + " ";
    assert |front| == |a| + 10 && whole == front + rel;
    assert forall k :: 0 <= k < |whole| ==> text[k] == whole[k];
    assert line == whole[..|line|];
    assert whole[..|line|] == front + rel[..|line| - |front|];
  }

  /** The path field as read back equals the path iff it is short and does not begin
      with a space. */
  lemma RecordedPath(line: string, e: nat, rel: string)
    requires e <= |line| && line[e..] <= rel && PlainPath(rel)
    requires |rel| <= META_PATH ==> line[e..] == rel
    ensures UntilNewline(line[SkipSpace(line, e)..], META_PATH) == rel <==> |rel| <= META_PATH && !IsSpace(rel[0])
  {
    var j := SkipSpace(line, e);
    var r := UntilNewline(line[j..], META_PATH);
    SkipStops(line, e);
    if |rel| <= META_PATH {
      assert line[e] == line[e..][0] == rel[0];
      if !IsSpace(rel[0]) {
        assert j == e && line[j..] == rel;
      } else if j < |line| {
        assert r != [] ==> r[0] == line[j];
      }
    }
  }

  lemma {:induction false} SkipStops(s: string, i: nat)
    requires i <= |s|
    ensures SkipSpace(s, i) < |s| ==> !IsSpace(s[SkipSpace(s, i)])
    decreases |s| - i
  {
    if i < |s| && IsSpace(s[i]) {
      SkipStops(s, i + 1);
    }
  }
}

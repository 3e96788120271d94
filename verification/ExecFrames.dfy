/** The frames of an EXEC pipe (src/peer/exec.h, src/peer/shell.cpp:52-56 and
    src/peer/exec.cpp:353-361): a type byte, a two-byte length, the payload. */
module ExecFrames {
  const DATA: nat := 0
  const WINSZ: nat := 1
  const END_OF_INPUT: nat := 2
  const OUT: nat := 16
  const ERR: nat := 17
  const EXIT: nat := 18
  const EXITED: nat := 0
  const SIGNALED: nat := 1
  const MAX_PAYLOAD: nat := 0xffff

  datatype Frame = Frame(kind: nat, payload: string)

  function Byte(c: char): nat {
    c as int % 256
  }

  function Char(n: nat): (c: char)
    ensures Byte(c) == n % 256
  {
    (n % 256) as char
  }

  /** send_frame and ExecEnd::frame: what goes into the tunnel. */
  function Encode(f: Frame): string {
    [Char(f.kind), Char(|f.payload| / 256), Char(|f.payload|)] + f.payload
  }

  function EncodeAll(fs: seq<Frame>): string {
    if fs == [] then "" else Encode(fs[0]) + EncodeAll(fs[1..])
  }

  /** The length field of a header. */
  function LengthOf(s: string): nat
    requires |s| >= 3
  {
    Byte(s[1]) * 256 + Byte(s[2])
  }

  /** Is the first frame here in full? */
  predicate Whole(s: string) {
    |s| >= 3 && |s| - 3 >= LengthOf(s)
  }

  function First(s: string): (f: Frame)
    requires Whole(s)
  {
    Frame(Byte(s[0]), s[3..3 + LengthOf(s)])
  }

  function Tail(s: string): (t: string)
    requires Whole(s)
    ensures |t| < |s|
  {
    s[3 + LengthOf(s)..]
  }

  datatype Parsed = Parsed(frames: seq<Frame>, rest: string)

  /** All whole frames, and what is left of the next one. */
  function Parse(s: string): (p: Parsed)
    ensures !Whole(p.rest)
    decreases |s|
  {
    if !Whole(s) then Parsed([], s)
    else
      var p := Parse(Tail(s));
      Parsed([First(s)] + p.frames, p.rest)
  }

  lemma ParseOnce(s: string)
    ensures Whole(s) ==> 3 + LengthOf(s) <= |s| && Tail(s) == s[3 + LengthOf(s)..]
    ensures Whole(s) ==>
              Parse(s).rest == Parse(Tail(s)).rest && Parse(s).frames != []
              && Parse(s).frames[0] == First(s) && Parse(s).frames[1..] == Parse(Tail(s)).frames
    ensures !Whole(s) ==> Parse(s) == Parsed([], s)
  {}

  /** Bytes that whole frames take. */
  function Size(fs: seq<Frame>): nat {
    if fs == [] then 0 else 3 + |fs[0].payload| + Size(fs[1..])
  }

  lemma {:induction false} ParseSize(s: string)
    ensures |s| == Size(Parse(s).frames) + |Parse(s).rest|
    decreases |s|
  {
    if Whole(s) {
      ParseSize(Tail(s));
      assert ([First(s)] + Parse(Tail(s)).frames)[1..] == Parse(Tail(s)).frames;
    }
  }

  lemma WholeExtends(a: string, b: string)
    requires Whole(a)
    ensures Whole(a + b) && First(a + b) == First(a) && Tail(a + b) == Tail(a) + b
  {
    var n := LengthOf(a);
    assert (a + b)[3..3 + n] == a[3..3 + n];
    assert (a + b)[3 + n..] == a[3 + n..] + b;
  }

  /** The frames recognised are those of the whole stream, however it is cut. */
  lemma {:induction false} ParseCut(a: string, b: string)
    ensures var p := Parse(a);
            var q := Parse(p.rest + b);
            Parse(a + b) == Parsed(p.frames + q.frames, q.rest)
    decreases |a|
  {
    if Whole(a) {
      WholeExtends(a, b);
      ParseCut(Tail(a), b);
      var p := Parse(Tail(a));
      var q := Parse(p.rest + b);
      assert [First(a)] + (p.frames + q.frames) == [First(a)] + p.frames + q.frames;
    } else {
      var q := Parse(a + b);
      assert [] + q.frames == q.frames;
    }
  }

  predicate Sendable(f: Frame) {
    f.kind < 256 && |f.payload| <= MAX_PAYLOAD
  }

  lemma EncodedFirst(f: Frame, tail: string)
    requires Sendable(f)
    ensures Whole(Encode(f) + tail) && First(Encode(f) + tail) == f && Tail(Encode(f) + tail) == tail
  {
    var s := Encode(f) + tail;
    var n := |f.payload|;
    assert s[0] == Char(f.kind) && s[1] == Char(n / 256) && s[2] == Char(n);
    assert LengthOf(s) == n;
    assert s[3..3 + n] == f.payload && s[3 + n..] == tail;
  }

  /** What one side sends as frames is what the other recognises. */
  lemma {:induction false} RoundTrip(fs: seq<Frame>)
    requires forall i :: 0 <= i < |fs| ==> Sendable(fs[i])
    ensures Parse(EncodeAll(fs)) == Parsed(fs, "")
    decreases |fs|
  {
    if fs != [] {
      RoundTrip(fs[1..]);
      EncodedFirst(fs[0], EncodeAll(fs[1..]));
    }
  }

  lemma {:induction false} EncodeConcat(a: seq<Frame>, b: seq<Frame>)
    ensures EncodeAll(a + b) == EncodeAll(a) + EncodeAll(b)
    decreases |a|
  {
    if a == [] {
      assert a + b == b;
    } else {
      assert (a + b)[0] == a[0] && (a + b)[1..] == a[1..] + b;
      EncodeConcat(a[1..], b);
    }
  }
}

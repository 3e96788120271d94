/** Control lines (src/peer/daemon.cpp:63-69, 1265-1286, 1769-1801 and
    src/peer/peer_cmd.cpp:158-165): arguments encoded and joined by the client, split on
    white space and decoded by the daemon. */
module ControlLine {
  import opened Wrappers

  const VT: char := 11 as char
  const FF: char := 12 as char
  /** What istream's >> skips. */
  const WHITE := {' ', '\t', '\n', VT, FF, '\r'}
  /** White space that encoding leaves alone. */
  const BARE := {VT, FF}

  // ---- one argument ----

  predicate Escapes(c: char) {
    c == '%' || c == ' ' || c == '\n' || c == '\r' || c == '\t'
  }

  const HEX := "0123456789ABCDEF"

  function EncodeChar(c: char): string {
    if Escapes(c) then ['%', HEX[c as int / 16], HEX[c as int % 16]] else [c]
  }

  function Encode(s: string): string {
    if s == "" then "" else EncodeChar(s[0]) + Encode(s[1..])
  }

  /** The value of a hexadecimal digit, or -1. */
  function HexValue(c: char): (v: int)
    ensures -1 <= v < 16
  {
    if '0' <= c <= '9' then c as int - '0' as int
    else if 'A' <= c <= 'F' then c as int - 'A' as int + 10
    else if 'a' <= c <= 'f' then c as int - 'a' as int + 10
    else -1
  }

  predicate EscapeAt(s: string) {
    |s| > 2 && s[0] == '%' && HexValue(s[1]) >= 0 && HexValue(s[2]) >= 0
  }

  function Decode(s: string): string {
    if s == "" then ""
    else if EscapeAt(s) then [(HexValue(s[1]) * 16 + HexValue(s[2])) as char] + Decode(s[3..])
    else [s[0]] + Decode(s[1..])
  }

  /** Whatever is no escape of two hexadecimal digits is left as it is. */
  lemma {:induction false} DecodeLeaves(s: string)
    requires forall i :: 0 <= i < |s| ==> !EscapeAt(s[i..])
    ensures Decode(s) == s
  {
    if s != "" {
      assert s[0..] == s && !EscapeAt(s[0..]);
      forall i | 0 <= i < |s[1..]|
        ensures !EscapeAt(s[1..][i..])
      {
        assert s[1..][i..] == s[i + 1..];
      }
      DecodeLeaves(s[1..]);
    }
  }

  method CtlEncode(s: string) returns (out: string)
    ensures out == Encode(s)
  {
    hide Encode;
    out := "";
    var i := 0;
    assert s[0..] == s;
    while i < |s|
      invariant 0 <= i <= |s|
      invariant out + Encode(s[i..]) == Encode(s)
    {
      var c := s[i];
      EncodeOnce(s, i);
      ghost var was := out;
      if Escapes(c) {
        out := out + ['%', HEX[c as int / 16], HEX[c as int % 16]];
      } else {
        out := out + [c];
      }
      assert was + (EncodeChar(c) + Encode(s[i + 1..])) == out + Encode(s[i + 1..]);
      i := i + 1;
    }
    EncodeNothing(s[i..]);
  }

  lemma EncodeOnce(s: string, i: nat)
    requires i < |s|
    ensures Encode(s[i..]) == EncodeChar(s[i]) + Encode(s[i + 1..])
  {
    hide EncodeChar;
    assert s[i..][0] == s[i] && s[i..][1..] == s[i + 1..];
  }

  lemma EncodeNothing(s: string)
    requires s == ""
    ensures Encode(s) == ""
  {}

  method CtlDecode(s: string) returns (out: string)
    ensures out == Decode(s)
  {
    hide Decode, HexValue;
    out := "";
    var i := 0;
    assert s[0..] == s;
    while i < |s|
      invariant 0 <= i <= |s|
      invariant out + Decode(s[i..]) == Decode(s)
    {
      DecodeOnce(s, i);
      if s[i] == '%' && i + 2 < |s| && HexValue(s[i + 1]) >= 0 && HexValue(s[i + 2]) >= 0 {
        out := out + [(HexValue(s[i + 1]) * 16 + HexValue(s[i + 2])) as char];
        i := i + 3;
      } else {
        out := out + [s[i]];
        i := i + 1;
      }
    }
    DecodeNothing(s[i..]);
  }

  lemma DecodeNothing(s: string)
    requires s == ""
    ensures Decode(s) == ""
  {}

  lemma DecodeOnce(s: string, i: nat)
    requires i < |s|
    ensures i + 2 < |s| && s[i] == '%' && HexValue(s[i + 1]) >= 0 && HexValue(s[i + 2]) >= 0 ==>
              Decode(s[i..]) == [(HexValue(s[i + 1]) * 16 + HexValue(s[i + 2])) as char] + Decode(s[i + 3..])
    ensures !(i + 2 < |s| && s[i] == '%' && HexValue(s[i + 1]) >= 0 && HexValue(s[i + 2]) >= 0) ==>
              Decode(s[i..]) == [s[i]] + Decode(s[i + 1..])
  {
    hide HexValue;
    var t := s[i..];
    assert t[0] == s[i] && t[1..] == s[i + 1..];
    assert i + 2 < |s| ==> t[1] == s[i + 1] && t[2] == s[i + 2] && t[3..] == s[i + 3..];
  }

  lemma {:induction false} DecodeEncode(s: string)
    ensures Decode(Encode(s)) == s
  {
    if s != "" {
      var c, rest := s[0], Encode(s[1..]);
      var e := EncodeChar(c) + rest;
      DecodeEncode(s[1..]);
      EscapeReads(c);
      if Escapes(c) {
        assert e[3..] == rest;
      } else {
        assert e[1..] == rest;
      }
    }
  }

  lemma EscapeReads(c: char)
    ensures Escapes(c) ==> HexValue(HEX[c as int / 16]) == c as int / 16 && HexValue(HEX[c as int % 16]) == c as int % 16
  {}

  lemma {:induction false} EncodeConcat(a: string, b: string)
    ensures Encode(a + b) == Encode(a) + Encode(b)
    decreases |a|
  {
    if a == "" {
      assert a + b == b;
    } else {
      assert (a + b)[0] == a[0] && (a + b)[1..] == a[1..] + b;
      EncodeConcat(a[1..], b);
    }
  }

  // ---- splitting ----

  predicate Free(s: string, stops: set<char>) {
    forall i :: 0 <= i < |s| ==> s[i] !in stops
  }

  /** How long the word at the start of s is. */
  function WordEnd(s: string, stops: set<char>): (n: nat)
    ensures n <= |s| && Free(s[..n], stops) && (n < |s| ==> s[n] in stops)
  {
    if s == "" || s[0] in stops then 0 else 1 + WordEnd(s[1..], stops)
  }

  /** The words between stops. */
  function Split(s: string, stops: set<char>): seq<string>
    decreases |s|
  {
    if s == "" then []
    else if s[0] in stops then Split(s[1..], stops)
    else
      var n := WordEnd(s, stops);
      [s[..n]] + Split(s[n..], stops)
  }

  method SplitWs(line: string) returns (out: seq<string>)
    ensures out == Split(line, WHITE)
  {
    out := [];
    var i := 0;
    assert line[0..] == line;
    while i < |line|
      invariant 0 <= i <= |line|
      invariant out + Split(line[i..], WHITE) == Split(line, WHITE)
    {
      ghost var t := line[i..];
      assert t[0] == line[i] && t[1..] == line[i + 1..];
      if line[i] in WHITE {
        i := i + 1;
      } else {
        var k := WordEnd(line[i..], WHITE);
        assert t[..k] == line[i..i + k] && t[k..] == line[i + k..];
        out := out + [line[i..i + k]];
        i := i + k;
      }
    }
  }

  lemma {:induction false} WordEndIs(s: string, stops: set<char>, n: nat)
    requires n <= |s| && Free(s[..n], stops) && (n < |s| ==> s[n] in stops)
    ensures WordEnd(s, stops) == n
    decreases n
  {
    if n > 0 {
      assert s[..n][0] == s[0] && s[1..][..n - 1] == s[..n][1..];
      WordEndIs(s[1..], stops, n - 1);
    }
  }

  lemma {:induction false} SplitAround(a: string, stop: char, b: string, stops: set<char>)
    requires stop in stops
    ensures Split(a + [stop] + b, stops) == Split(a, stops) + Split(b, stops)
    decreases |a|
  {
    var s := a + [stop] + b;
    if a == "" {
      assert s[1..] == b;
    } else if a[0] in stops {
      assert s[1..] == a[1..] + [stop] + b;
      SplitAround(a[1..], stop, b, stops);
    } else {
      var n := WordEnd(a, stops);
      assert s[..n] == a[..n];
      assert s[n] == if n < |a| then a[n] else stop;
      WordEndIs(s, stops, n);
      assert s[n..] == a[n..] + [stop] + b;
      SplitAround(a[n..], stop, b, stops);
    }
  }

  // ---- encoding leaves only two kinds of white space ----

  function EncodeEach(words: seq<string>): seq<string> {
    if words == [] then [] else [Encode(words[0])] + EncodeEach(words[1..])
  }

  function DecodeEach(words: seq<string>): seq<string> {
    if words == [] then [] else [Decode(words[0])] + DecodeEach(words[1..])
  }

  lemma {:induction false} EncodeFree(s: string)
    requires Free(s, BARE)
    ensures Free(Encode(s), WHITE) && (s != "" ==> Encode(s) != "")
  {
    if s != "" {
      assert Free(s[1..], BARE);
      EncodeFree(s[1..]);
      EncodeCharFree(s[0]);
    }
  }

  lemma EncodeCharFree(c: char)
    requires c !in BARE
    ensures Free(EncodeChar(c), WHITE) && EncodeChar(c) != ""
  {
    if Escapes(c) {
      assert forall i :: 0 <= i < 16 ==> HEX[i] !in WHITE;
    }
  }

  /** An encoded argument falls apart exactly at its vertical tabs and form feeds. */
  lemma {:induction false} EncodeSplit(s: string)
    ensures Split(Encode(s), WHITE) == EncodeEach(Split(s, BARE))
    decreases |s|
  {
    hide Encode;
    if s == "" {
      EncodeNothing(s);
    } else {
      var n := WordEnd(s, BARE);
      if n == 0 {
        EncodeBare(s);
        assert Encode(s)[1..] == Encode(s[1..]);
        EncodeSplit(s[1..]);
      } else {
        EncodeWord(s, n);
        EncodeSplit(s[n..]);
        assert EncodeEach([s[..n]] + Split(s[n..], BARE)) == [Encode(s[..n])] + EncodeEach(Split(s[n..], BARE)) by {
          assert ([s[..n]] + Split(s[n..], BARE))[1..] == Split(s[n..], BARE);
        }
      }
    }
  }

  lemma EncodeBare(s: string)
    requires s != "" && s[0] in BARE
    ensures Encode(s) == [s[0]] + Encode(s[1..])
  {}

  /** The first word of an encoded argument is its first word, encoded. */
  lemma EncodeWord(s: string, n: nat)
    requires 0 < n == WordEnd(s, BARE)
    ensures Split(Encode(s), WHITE) == [Encode(s[..n])] + Split(Encode(s[n..]), WHITE)
  {
    hide Encode, Split;
    var w, e, rest := Encode(s[..n]), Encode(s), Encode(s[n..]);
    EncodeConcat(s[..n], s[n..]);
    assert s[..n] + s[n..] == s;
    EncodeFree(s[..n]);
    if n < |s| {
      EncodeBare(s[n..]);
    } else {
      EncodeNothing(s[n..]);
    }
    assert e[..|w|] == w && e[|w|..] == rest;
    assert |w| < |e| ==> e[|w|] == rest[0];
    WordEndIs(e, WHITE, |w|);
    assert e[0] == w[0];
    SplitFirst(e, WHITE);
  }

  lemma SplitFirst(s: string, stops: set<char>)
    requires s != "" && s[0] !in stops
    ensures var n := WordEnd(s, stops); Split(s, stops) == [s[..n]] + Split(s[n..], stops)
  {}

  lemma {:induction false} DecodeEncodeEach(words: seq<string>)
    ensures DecodeEach(EncodeEach(words)) == words
    decreases |words|
  {
    if words != [] {
      DecodeEncode(words[0]);
      DecodeEncodeEach(words[1..]);
    }
  }

  lemma {:induction false} DecodeEachConcat(a: seq<string>, b: seq<string>)
    ensures DecodeEach(a + b) == DecodeEach(a) + DecodeEach(b)
    decreases |a|
  {
    if a == [] {
      assert a + b == b;
    } else {
      assert (a + b)[0] == a[0] && (a + b)[1..] == a[1..] + b;
      DecodeEachConcat(a[1..], b);
    }
  }

  // ---- whole lines ----

  function Spaced(s: string): string {
    if s == "" then s else s + " "
  }

  function Join(args: seq<string>): string {
    if args == [] then ""
    else Spaced(Join(args[..|args| - 1])) + Encode(args[|args| - 1])
  }

  method JoinArgs(v: seq<string>, from: nat) returns (s: string)
    requires from <= |v|
    ensures s == Join(v[from..])
  {
    hide Join, Encode;
    s := "";
    var i := from;
    JoinSteps(v, from, i);
    while i < |v|
      invariant from <= i <= |v|
      invariant s == Join(v[from..i])
    {
      JoinSteps(v, from, i);
      if s != "" {
        s := s + " ";
      }
      var e := CtlEncode(v[i]);
      s := s + e;
      i := i + 1;
    }
    assert v[from..i] == v[from..];
  }

  lemma JoinSteps(v: seq<string>, from: nat, i: nat)
    requires from <= i <= |v|
    ensures i == from ==> Join(v[from..i]) == ""
    ensures i < |v| ==> Join(v[from..i + 1]) == Spaced(Join(v[from..i])) + Encode(v[i])
  {
    hide Encode;
    assert i < |v| ==> v[from..i + 1][..i - from] == v[from..i];
  }

  method SplitAndDecode(line: string) returns (t: seq<string>)
    ensures t == DecodeEach(Split(line, WHITE))
  {
    var words := SplitWs(line);
    t := [];
    var i := 0;
    assert words[0..] == words;
    while i < |words|
      invariant 0 <= i <= |words|
      invariant t + DecodeEach(words[i..]) == DecodeEach(words)
    {
      assert words[i..][0] == words[i] && words[i..][1..] == words[i + 1..];
      var d := CtlDecode(words[i]);
      t := t + [d];
      i := i + 1;
    }
  }

  /** The words of each argument, cut at vertical tabs and form feeds. */
  function Words(args: seq<string>): seq<string> {
    if args == [] then [] else Words(args[..|args| - 1]) + Split(args[|args| - 1], BARE)
  }

  /** What the daemon makes of the client's line: every argument, cut at its vertical
      tabs and form feeds, and without empty words. */
  lemma {:induction false} LineRead(args: seq<string>)
    ensures DecodeEach(Split(Join(args), WHITE)) == Words(args)
    decreases |args|
  {
    if args != [] {
      var front, last := args[..|args| - 1], args[|args| - 1];
      var p, e := Join(front), Encode(last);
      LineRead(front);
      EncodeSplit(last);
      DecodeEncodeEach(Split(last, BARE));
      if p == "" {
        assert Spaced(p) + e == e;
        assert Split(p, WHITE) == [];
      } else {
        SplitAround(p, ' ', e, WHITE);
        assert p + [' '] + e == Spaced(p) + e;
        DecodeEachConcat(Split(p, WHITE), Split(e, WHITE));
      }
    }
  }

  predicate Plain(arg: string) {
    arg != "" && Free(arg, BARE)
  }

  lemma {:induction false} PlainWords(args: seq<string>)
    requires forall i :: 0 <= i < |args| ==> Plain(args[i])
    ensures Words(args) == args
    decreases |args|
  {
    if args != [] {
      var last := args[|args| - 1];
      PlainWords(args[..|args| - 1]);
      assert last[..|last|] == last;
      WordEndIs(last, BARE, |last|);
      assert Split(last[|last|..], BARE) == [];
      assert Split(last, BARE) == [last];
    }
  }

  lemma {:induction false} SplitPlain(s: string)
    ensures forall i :: 0 <= i < |Split(s, BARE)| ==> Plain(Split(s, BARE)[i])
    decreases |s|
  {
    if s != "" {
      if s[0] in BARE {
        SplitPlain(s[1..]);
      } else {
        SplitPlain(s[WordEnd(s, BARE)..]);
      }
    }
  }

  lemma {:induction false} WordsPlain(args: seq<string>)
    ensures forall i :: 0 <= i < |Words(args)| ==> Plain(Words(args)[i])
    decreases |args|
  {
    if args != [] {
      WordsPlain(args[..|args| - 1]);
      SplitPlain(args[|args| - 1]);
    }
  }

  /** A control line round-trips exactly when every argument is non-empty and free of
      vertical tab and form feed. */
  lemma RoundTrip(args: seq<string>)
    ensures DecodeEach(Split(Join(args), WHITE)) == args <==> forall i :: 0 <= i < |args| ==> Plain(args[i])
  {
    LineRead(args);
    WordsPlain(args);
    if forall i :: 0 <= i < |args| ==> Plain(args[i]) {
      PlainWords(args);
    }
  }

  /** The line ends where its newline is: there is none inside. */
  lemma {:induction false} OneLine(args: seq<string>)
    ensures '\n' !in Join(args)
    decreases |args|
  {
    if args != [] {
      OneLine(args[..|args| - 1]);
      EncodeOneLine(args[|args| - 1]);
    }
  }

  lemma {:induction false} EncodeOneLine(s: string)
    ensures '\n' !in Encode(s)
  {
    if s != "" {
      EncodeOneLine(s[1..]);
      assert '\n' !in EncodeChar(s[0]) by {
        if Escapes(s[0]) {
          assert forall i :: 0 <= i < 16 ==> HEX[i] != '\n';
        }
      }
    }
  }

  // ---- the connection the line comes over ----

  const LIMIT: nat := 4096

  /** What becomes of a connection: it waits for more, is dropped, or has a command. */
  datatype Taken = More(acc: string) | Dropped | Command(words: seq<string>)

  /** on_ctl_readable, for bytes read from a connection that is still waiting. */
  function TakeBytes(acc: string, b: string): Taken {
    var all := acc + b;
    if |all| > LIMIT then Dropped
    else if Newline(all) == |all| then More(all)
    else Command(DecodeEach(Split(all[..Newline(all)], WHITE)))
  }

  /** Until the connection is dropped or has its command. */
  function TakePieces(acc: string, pieces: seq<string>): Taken
    decreases |pieces|
  {
    if pieces == [] then More(acc)
    else match TakeBytes(acc, pieces[0])
      case More(all) => TakePieces(all, pieces[1..])
      case t => t
  }

  function Flat(pieces: seq<string>): string {
    if pieces == [] then "" else pieces[0] + Flat(pieces[1..])
  }

  class Connection {
    var acc: string

    constructor ()
      ensures acc == ""
    {
      acc := "";
    }

    method OnReadable(b: string) returns (dropped: bool, words: Option<seq<string>>)
      modifies this
      ensures acc == old(acc) + b
      ensures dropped <==> TakeBytes(old(acc), b).Dropped?
      ensures words == match TakeBytes(old(acc), b) case Command(ws) => Some(ws) case _ => None
    {
      acc := acc + b;
      if |acc| > LIMIT {
        return true, None;
      }
      var nl := Newline(acc);
      if nl == |acc| {
        return false, None;
      }
      var t := SplitAndDecode(acc[..nl]);
      return false, Some(t);
    }
  }

  /** One line, however it is cut on its way, is the command if it fits the limit with its
      newline, and otherwise has the connection dropped. */
  lemma {:induction false} LineTaken(acc: string, pieces: seq<string>, line: string)
    requires acc + Flat(pieces) == line + "\n" && '\n' !in line && |acc| <= |line|
    requires forall i :: 0 <= i < |pieces| ==> pieces[i] != ""
    ensures TakePieces(acc, pieces) == if |line| < LIMIT then Command(DecodeEach(Split(line, WHITE))) else Dropped
    decreases |pieces|
  {
    hide Split, DecodeEach, Newline;
    assert |acc + Flat(pieces)| == |line| + 1;
    assert pieces != [];
    var all, rest := acc + pieces[0], Flat(pieces[1..]);
    assert all + rest == line + "\n";
    if |all| <= |line| {
      StillOpen(all, rest, line);
      if |all| <= LIMIT {
        LineTaken(all, pieces[1..], line);
      }
    } else {
      NothingBehind(pieces[1..]);
      Complete(all, rest, line);
    }
  }

  lemma StillOpen(all: string, rest: string, line: string)
    requires all + rest == line + "\n" && '\n' !in line && |all| <= |line|
    ensures Newline(all) == |all|
  {
    assert forall i :: 0 <= i < |all| ==> (all + rest)[i] == all[i] && (line + "\n")[i] == line[i];
  }

  lemma Complete(all: string, rest: string, line: string)
    requires all + rest == line + "\n" && '\n' !in line && |all| > |line|
    ensures rest == "" && Newline(all) == |line| && all[..|line|] == line && |all| == |line| + 1
  {
    assert |all + rest| == |line| + 1;
    assert rest == "" && all == all + rest;
    assert (line + "\n")[|line|] == '\n';
    assert forall i :: 0 <= i < |line| ==> all[i] == line[i];
  }

  /** No bytes mean no more pieces. */
  lemma NothingBehind(pieces: seq<string>)
    requires forall i :: 0 <= i < |pieces| ==> pieces[i] != ""
    ensures Flat(pieces) == "" <==> pieces == []
  {}

  /** The daemon is given the client's arguments, whatever they hold and however the line
      is cut, exactly when all are plain and the line fits. */
  lemma CommandArrives(args: seq<string>, pieces: seq<string>)
    requires Flat(pieces) == Join(args) + "\n" && forall i :: 0 <= i < |pieces| ==> pieces[i] != ""
    ensures TakePieces("", pieces) == Command(args) <==>
              |Join(args)| < LIMIT && forall i :: 0 <= i < |args| ==> Plain(args[i])
  {
    hide Split, DecodeEach, Join, TakePieces, Flat;
    OneLine(args);
    assert "" + Flat(pieces) == Join(args) + "\n";
    LineTaken("", pieces, Join(args));
    RoundTrip(args);
  }
}

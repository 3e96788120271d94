/** ShareFileEnd (src/peer/pipes.cpp): the sending end of the resumable file protocol. */
module ShareFile {
  import opened Wrappers
  import opened Text
  import opened FileLines
  import Crc32

  const CHUNK: nat := 16384
  const MAX_ANSWER: nat := 64

  /** One file to send: its announced path and size, and what reading it gives (None if
      it cannot be opened). Unchanged for as long as the end lives. */
  datatype Entry = Entry(relpath: string, size: nat, file: Option<string>)

  datatype State = Offering | WaitResume | Streaming | Ending | Done

  datatype Error = NoError | CannotRead | BadResume | ReadError

  datatype Share = Share(
    entries: seq<Entry>, idx: nat, state: State, isOpen: bool,
    remaining: nat, total: nat, sent: nat, rbuf: string, err: Error, shut: bool)

  function TotalSize(entries: seq<Entry>): nat {
    if entries == [] then 0 else TotalSize(entries[..|entries| - 1]) + entries[|entries| - 1].size
  }

  function Fresh(entries: seq<Entry>): Share {
    Share(entries, 0, Offering, false, 0, TotalSize(entries), 0, "", NoError, false)
  }

  /** What crc32_file(path, size) yields. */
  function FileCrc(e: Entry): nat {
    match e.file
    case None => 0
    case Some(f) => Crc32.Of(f[..Least(e.size, |f|)])
  }

  function OfferOf(e: Entry): string {
    OfferLine(e.size, FileCrc(e), e.relpath) + "\n"
  }

  const END_MESSAGE := END_LINE + "\n"

  /** The next chunk fread hands over: at most 16384 bytes, fewer at the end of file. */
  function NextChunk(e: Entry, remaining: nat): string {
    match e.file
    case None => ""
    case Some(f) =>
      var at := if remaining <= e.size then e.size - remaining else 0;
      if at >= |f| then "" else f[at..Least(|f|, at + Least(remaining, CHUNK))]
  }

  datatype Pumped = Pumped(s: Share, bytes: string)

  function Before(b: string, p: Pumped): Pumped {
    Pumped(p.s, b + p.bytes)
  }

  function Rank(s: Share): nat {
    match s.state
    case Offering => 2
    case Streaming => 3
    case Ending => 1
    case _ => 0
  }

  /** pump(): offer, stream and move on until it must wait. `budget` is how many more
      times the tunnel reports room for a chunk. */
  function Pump(s: Share, budget: nat): Pumped
    decreases if s.idx <= |s.entries| then |s.entries| - s.idx else 0, Rank(s), s.remaining
  {
    if s.err != NoError then Pumped(s, "")
    else match s.state
    case Offering =>
      if s.idx >= |s.entries| then Pump(s.(state := Ending), budget)
      else Pumped(s.(state := WaitResume), OfferOf(s.entries[s.idx]))
    case Streaming =>
      if s.idx >= |s.entries| then Pumped(s, "")
      else if s.remaining == 0 then Pump(s.(isOpen := false, idx := s.idx + 1, state := Offering), budget)
      else if budget == 0 then Pumped(s, "")
      else
        var chunk := NextChunk(s.entries[s.idx], s.remaining);
        if chunk == "" || |chunk| > s.remaining then Pumped(s.(err := ReadError, shut := true), "")
        else Before(chunk, Pump(s.(remaining := s.remaining - |chunk|, sent := s.sent + |chunk|), budget - 1))
    case Ending => Pumped(s.(state := Done, shut := true), END_MESSAGE)
    case _ => Pumped(s, "")
  }

  /** A whole RESUME line has arrived: open the entry there and stream on. */
  function Resume(s: Share, budget: nat): Pumped
    requires s.idx < |s.entries|
  {
    var e := s.entries[s.idx];
    var asked := ParseResume(s.rbuf);
    var off := if asked > e.size then 0 else asked;
    var t := s.(rbuf := "");
    if e.file.None? then Pumped(t.(err := CannotRead, shut := true), "")
    else Pump(t.(isOpen := true, remaining := e.size - off, sent := s.sent + off, state := Streaming), budget)
  }

  /** on_tunnel_data: only RESUME lines are expected, and only while waiting for one;
      what follows a line in the same piece is dropped. */
  function OnData(s: Share, b: string, budget: nat): Pumped
    decreases |b|
  {
    if s.state != WaitResume || s.idx >= |s.entries| || b == [] then Pumped(s, "")
    else if b[0] == '\n' then Resume(s, budget)
    else
      var t := s.(rbuf := s.rbuf + [b[0]]);
      if |t.rbuf| > MAX_ANSWER then Pumped(t.(err := BadResume, shut := true), "")
      else OnData(t, b[1..], budget)
  }

  lemma BeforeNothing(p: Pumped)
    ensures Before("", p) == p
  {
    assert "" + p.bytes == p.bytes;
  }

  lemma BeforeBefore(a: string, b: string, p: Pumped)
    ensures Before(a, Before(b, p)) == Before(a + b, p)
  {
    assert a + (b + p.bytes) == a + b + p.bytes;
  }

  lemma BeforeLast(a: string, p: Pumped)
    ensures Before(a, p) == Pumped(p.s, a + p.bytes)
  {}

  lemma BeforeStopped(a: string, s: Share)
    ensures Before(a, Pumped(s, "")) == Pumped(s, a)
  {
    assert a + "" == a;
  }

  /** One unfolding of Pump, state by state. */
  lemma PumpOnce(s: Share, budget: nat)
    ensures s.err != NoError || s.state == WaitResume || s.state == Done ==> Pump(s, budget) == Pumped(s, "")
    ensures s.err == NoError && s.state == Offering ==>
              Pump(s, budget) == if s.idx >= |s.entries| then Pump(s.(state := Ending), budget)
                                 else Pumped(s.(state := WaitResume), OfferOf(s.entries[s.idx]))
    ensures s.err == NoError && s.state == Ending ==> Pump(s, budget) == Pumped(s.(state := Done, shut := true), END_MESSAGE)
    ensures s.err == NoError && s.state == Streaming && s.idx < |s.entries| && s.remaining == 0 ==>
              Pump(s, budget) == Pump(s.(isOpen := false, idx := s.idx + 1, state := Offering), budget)
    ensures s.err == NoError && s.state == Streaming && s.idx < |s.entries| && s.remaining > 0 && budget == 0 ==>
              Pump(s, budget) == Pumped(s, "")
    ensures s.err == NoError && s.state == Streaming && s.idx < |s.entries| && s.remaining > 0 && budget > 0 ==>
              var chunk := NextChunk(s.entries[s.idx], s.remaining);
              Pump(s, budget) == if chunk == "" || |chunk| > s.remaining then Pumped(s.(err := ReadError, shut := true), "")
                                 else Before(chunk, Pump(s.(remaining := s.remaining - |chunk|, sent := s.sent + |chunk|), budget - 1))
  {
    hide NextChunk, OfferOf, END_MESSAGE;
  }

  // ---- answers ----

  predicate Awaits(s: Share) {
    s.state == WaitResume && s.idx < |s.entries| && s.err == NoError
  }

  /** A line is read to its end, however long it has been under way. */
  lemma {:induction false} LineTaken(s: Share, line: string, budget: nat)
    requires Awaits(s) && '\n' !in line && |s.rbuf| + |line| <= MAX_ANSWER
    ensures OnData(s, line + "\n", budget) == Resume(s.(rbuf := s.rbuf + line), budget)
    decreases |line|
  {
    hide Resume;
    if line == "" {
      assert line + "\n" == "\n" && s.rbuf + line == s.rbuf;
    } else {
      assert (line + "\n")[0] == line[0] && (line + "\n")[1..] == line[1..] + "\n";
      assert s.rbuf + [line[0]] + line[1..] == s.rbuf + line;
      LineTaken(s.(rbuf := s.rbuf + [line[0]]), line[1..], budget);
    }
  }

  lemma ResumeStarts(s: Share)
    requires Awaits(s)
    ensures var e, n := s.entries[s.idx], ParseResume(s.rbuf);
            var off := if n > e.size then 0 else n;
            && (e.file.None? ==> Resume(s, 0) == Pumped(s.(rbuf := "", err := CannotRead, shut := true), ""))
            && (e.file.Some? && off < e.size ==>
                  Resume(s, 0) == Pumped(s.(rbuf := "", isOpen := true, remaining := e.size - off, sent := s.sent + off, state := Streaming), ""))
  {
    hide Pump, ParseResume;
    var e, n := s.entries[s.idx], ParseResume(s.rbuf);
    var off := if n > e.size then 0 else n;
    if off <= e.size {
      PumpOnce(s.(rbuf := "", isOpen := true, remaining := e.size - off, sent := s.sent + off, state := Streaming), 0);
    }
  }

  /** The file is sent from where the receiver asks, or from its start when that is past
      its end; what need not be sent counts as sent. A file that cannot be opened ends the
      transfer with nothing sent of it. */
  lemma ResumesAt(s: Share, n: nat)
    requires Awaits(s) && s.rbuf == "" && n <= MAX64
    ensures var e := s.entries[s.idx];
            var off := if n > e.size then 0 else n;
            var p := OnData(s, ResumeLine(n) + "\n", 0);
            && (e.file.None? ==> p == Pumped(s.(err := CannotRead, shut := true), ""))
            && (e.file.Some? && off < e.size ==>
                  p == Pumped(s.(isOpen := true, remaining := e.size - off, sent := s.sent + off, state := Streaming), ""))
  {
    hide Resume, ParseResume, ResumeLine, OnData;
    ResumeRoundTrip(n);
    assert "" + ResumeLine(n) == ResumeLine(n);
    LineTaken(s, ResumeLine(n), 0);
    ResumeStarts(s.(rbuf := ResumeLine(n)));
  }

  /** An answer that is still no line after 64 bytes ends the transfer, whatever follows. */
  lemma {:induction false} AnswerTooLong(s: Share, b: string, budget: nat)
    requires Awaits(s) && |s.rbuf| <= MAX_ANSWER < |s.rbuf| + |b|
    requires forall i :: 0 <= i < MAX_ANSWER + 1 - |s.rbuf| ==> b[i] != '\n'
    ensures var p := OnData(s, b, budget);
            p.bytes == "" && p.s == s.(rbuf := s.rbuf + b[..MAX_ANSWER + 1 - |s.rbuf|], err := BadResume, shut := true)
    decreases |b|
  {
    var t := s.(rbuf := s.rbuf + [b[0]]);
    if |t.rbuf| <= MAX_ANSWER {
      assert forall i :: 0 <= i < |b| - 1 ==> b[1..][i] == b[i + 1];
      AnswerTooLong(t, b[1..], budget);
      assert [b[0]] + b[1..][..MAX_ANSWER + 1 - |t.rbuf|] == b[..MAX_ANSWER + 1 - |s.rbuf|];
      assert s.rbuf + [b[0]] + b[1..][..MAX_ANSWER + 1 - |t.rbuf|] == s.rbuf + b[..MAX_ANSWER + 1 - |s.rbuf|];
    } else {
      assert b[..1] == [b[0]];
    }
  }

  // ---- the class of the source ----

  class ShareFileEnd {
    const entries: seq<Entry>
    var idx: nat
    var state: State
    var isOpen: bool
    var remaining: nat
    var total: nat
    var sent: nat
    var rbuf: string
    var err: Error
    var shut: bool

    ghost function View(): Share
      reads this
    {
      Share(entries, idx, state, isOpen, remaining, total, sent, rbuf, err, shut)
    }

    /** In every state that names an entry there is one. */
    ghost predicate Valid()
      reads this
    {
      state == WaitResume || state == Streaming ==> idx < |entries|
    }

    constructor (entries: seq<Entry>)
      ensures View() == Fresh(entries) && Valid()
    {
      this.entries := entries;
      idx, state, isOpen := 0, Offering, false;
      remaining, sent, rbuf := 0, 0, "";
      err, shut := NoError, false;
      total := 0;
      new;
      var i := 0;
      while i < |entries|
        invariant 0 <= i <= |entries|
        invariant total == TotalSize(entries[..i])
        invariant this.entries == entries && idx == 0 && state == Offering && !isOpen && remaining == 0 && sent == 0
        invariant rbuf == "" && err == NoError && !shut
      {
        assert entries[..i + 1][..i] == entries[..i];
        total := total + entries[i].size;
        i := i + 1;
      }
      assert entries[..i] == entries;
    }

    /** pump(): the source's loop, against the recursive description. */
    method DoPump(budget: nat) returns (bytes: string)
      requires Valid()
      modifies this
      ensures Valid()
      ensures Pumped(View(), bytes) == Pump(old(View()), budget)
    {
      hide OfferOf, END_MESSAGE, Pump, Before;
      bytes := "";
      ghost var s0 := View();
      var room := budget;
      BeforeNothing(Pump(s0, budget));
      while err == NoError
        invariant Valid()
        invariant Pump(s0, budget) == Before(bytes, Pump(View(), room))
        decreases if idx <= |entries| then |entries| - idx else 0, Rank(View())
      {
        ghost var s1 := View();
        PumpOnce(s1, room);
        if state == Offering && idx >= |entries| {
          state := Ending;
        } else if state == Streaming {
          var out;
          room, out := StreamChunks(room);
          BeforeBefore(bytes, out, Pump(View(), room));
          bytes := bytes + out;
          PumpOnce(View(), room);
          if err != NoError || remaining > 0 {
            BeforeStopped(bytes, View());
            return;
          }
          isOpen := false;
          idx := idx + 1;
          state := Offering;
        } else {
          ghost var bytes0 := bytes;
          if state == Offering {
            bytes := bytes + OfferOf(entries[idx]);
            state := WaitResume;
          } else if state == Ending {
            bytes := bytes + END_MESSAGE;
            state := Done;
            shut := true;
          }
          BeforeLast(bytes0, Pump(s1, room));
          return;
        }
      }
      PumpOnce(View(), room);
      BeforeStopped(bytes, View());
    }

    /** The inner loop: chunks for as long as there is something to send and room. */
    method StreamChunks(budget: nat) returns (room: nat, bytes: string)
      requires Valid() && state == Streaming && err == NoError
      modifies this`remaining, this`sent, this`err, this`shut
      ensures Pump(old(View()), budget) == Before(bytes, Pump(View(), room))
      ensures err != NoError || remaining > 0 ==> Pump(View(), room) == Pumped(View(), "")
    {
      hide Pump, Before, NextChunk;
      bytes := "";
      ghost var s0 := View();
      room := budget;
      BeforeNothing(Pump(s0, budget));
      while remaining > 0
        invariant err == NoError
        invariant Pump(s0, budget) == Before(bytes, Pump(View(), room))
        decreases remaining
      {
        PumpOnce(View(), room);
        if room == 0 {
          return;
        }
        room := room - 1;
        var chunk := NextChunk(entries[idx], remaining);
        if chunk == "" || |chunk| > remaining {
          err := ReadError;
          shut := true;
          BeforeNothing(Pump(View(), room));
          PumpOnce(View(), room);
          return;
        }
        remaining := remaining - |chunk|;
        sent := sent + |chunk|;
        BeforeBefore(bytes, chunk, Pump(View(), room));
        bytes := bytes + chunk;
      }
    }

    method OnTunnelData(b: string, budget: nat) returns (bytes: string)
      requires Valid()
      modifies this
      ensures Valid()
      ensures Pumped(View(), bytes) == OnData(old(View()), b, budget)
    {
      hide Pump, ParseResume;
      bytes := "";
      if state != WaitResume {
        return;
      }
      ghost var s0 := View();
      var i := 0;
      assert b[0..] == b;
      while i < |b|
        invariant 0 <= i <= |b| && Valid() && state == WaitResume
        invariant OnData(s0, b, budget) == OnData(View(), b[i..], budget)
      {
        var c := b[i];
        assert b[i..][0] == c && b[i..][1..] == b[i + 1..];
        if c == '\n' {
          var off := ParseResume(rbuf);
          rbuf := "";
          var en := entries[idx];
          if off > en.size {
            off := 0;
          }
          if en.file.None? {
            err := CannotRead;
            shut := true;
            return;
          }
          isOpen := true;
          remaining := en.size - off;
          sent := sent + off;
          state := Streaming;
          bytes := DoPump(budget);
          return;
        }
        rbuf := rbuf + [c];
        if |rbuf| > MAX_ANSWER {
          err := BadResume;
          shut := true;
          return;
        }
        i := i + 1;
      }
    }
  }
}

/** The client of an EXEC pipe (src/peer/shell.cpp:52-56, 85-156): its loop over what the
    connection delivers, and the two ends put together. */
module ExecClient {
  import opened ExecFrames
  import E = ExecEnd

  const SIGPIPE: nat := 13

  /** `status` is -1 until the end is known; `alive` counts the writes to our standard
      output that still succeed, for those that fail. */
  datatype Client = Client(buf: string, out: string, err: string, status: int, alive: nat)

  function Fresh(alive: nat): Client {
    Client("", "", "", -1, alive)
  }

  /** One frame from the program. */
  function Show(c: Client, f: Frame): Client {
    if f.kind == OUT then
      if c.alive == 0 then c.(status := 128 + SIGPIPE) else c.(out := c.out + f.payload, alive := c.alive - 1)
    else if f.kind == ERR then c.(err := c.err + f.payload)
    else if f.kind == EXIT && |f.payload| == 2 then
      c.(status := if Byte(f.payload[0]) == SIGNALED then 128 + Byte(f.payload[1]) else Byte(f.payload[1]))
    else c
  }

  /** The frame loop: until there is a status. */
  function ShowAll(c: Client, fs: seq<Frame>): Client
    decreases |fs|
  {
    if c.status >= 0 || fs == [] then c else ShowAll(Show(c, fs[0]), fs[1..])
  }

  /** One read from the connection. */
  function Read(c: Client, b: string): Client {
    if c.status >= 0 then c
    else
      var p := Parse(c.buf + b);
      ShowAll(c, p.frames).(buf := p.rest)
  }

  function ReadAll(c: Client, pieces: seq<string>): Client
    decreases |pieces|
  {
    if pieces == [] then c else ReadAll(Read(c, pieces[0]), pieces[1..])
  }

  function Flat(pieces: seq<string>): string {
    if pieces == [] then "" else pieces[0] + Flat(pieces[1..])
  }

  /** What the client has shown and decided; its buffer no longer matters at the end. */
  datatype Shown = Shown(out: string, err: string, status: int)

  function ShownBy(c: Client): Shown {
    Shown(c.out, c.err, c.status)
  }

  lemma {:induction false} ShowBuf(c: Client, fs: seq<Frame>, buf: string)
    ensures ShowAll(c.(buf := buf), fs) == ShowAll(c, fs).(buf := buf)
    decreases |fs|
  {
    if c.status < 0 && fs != [] {
      ShowBuf(Show(c, fs[0]), fs[1..], buf);
    }
  }

  lemma {:induction false} ShowConcat(c: Client, a: seq<Frame>, b: seq<Frame>)
    ensures ShowAll(c, a + b) == ShowAll(ShowAll(c, a), b)
    decreases |a|
  {
    if a == [] {
      assert a + b == b;
    } else if c.status < 0 {
      assert (a + b)[0] == a[0] && (a + b)[1..] == a[1..] + b;
      ShowConcat(Show(c, a[0]), a[1..], b);
    }
  }

  /** However the stream is cut, the client shows and returns what the frames of the
      whole stream say. */
  lemma {:induction false} CutAnywhere(c: Client, pieces: seq<string>)
    requires c.status < 0 && !Whole(c.buf)
    ensures ShownBy(ReadAll(c, pieces)) == ShownBy(ShowAll(c, Parse(c.buf + Flat(pieces)).frames))
    decreases |pieces|
  {
    hide ShowAll, Parse, Flat;
    if pieces == [] {
      FlatOnce(pieces);
      assert c.buf + Flat(pieces) == c.buf;
      Unread(c);
    } else {
      var b, more := pieces[0], Flat(pieces[1..]);
      FlatOnce(pieces);
      var p := Parse(c.buf + b);
      ParseCut(c.buf + b, more);
      assert c.buf + b + more == c.buf + Flat(pieces);
      var q := Parse(p.rest + more);
      ShowConcat(c, p.frames, q.frames);
      var e := ShowAll(c, p.frames);
      ShowBuf(e, q.frames, p.rest);
      ReadIs(c, b, e);
      if e.status >= 0 {
        Stopped(e.(buf := p.rest), pieces[1..]);
        ShownStops(e, q.frames);
      } else {
        CutAnywhere(e.(buf := p.rest), pieces[1..]);
      }
    }
  }

  lemma FlatOnce(pieces: seq<string>)
    ensures Flat(pieces) == if pieces == [] then "" else pieces[0] + Flat(pieces[1..])
  {}

  lemma ReadIs(c: Client, b: string, e: Client)
    requires c.status < 0 && e == ShowAll(c, Parse(c.buf + b).frames)
    ensures Read(c, b) == e.(buf := Parse(c.buf + b).rest)
  {
    hide ShowAll, Parse;
  }

  lemma ShownStops(e: Client, fs: seq<Frame>)
    requires e.status >= 0
    ensures ShowAll(e, fs) == e
  {}

  /** Nothing whole is ever left in the buffer. */
  lemma Unread(c: Client)
    ensures Whole(c.buf) || ShowAll(c, Parse(c.buf).frames) == c
  {}

  lemma {:induction false} Stopped(c: Client, pieces: seq<string>)
    requires c.status >= 0
    ensures ReadAll(c, pieces) == c
    decreases |pieces|
  {
    if pieces != [] {
      Stopped(c, pieces[1..]);
    }
  }

  // ---- the two ends together ----

  /** What a program's frames amount to, up to its EXIT. */
  function Output(fs: seq<Frame>, kind: nat): string
    decreases |fs|
  {
    if fs == [] || (fs[0].kind == EXIT && |fs[0].payload| == 2) then ""
    else (if fs[0].kind == kind then fs[0].payload else "") + Output(fs[1..], kind)
  }

  lemma {:induction false} ShowsOutput(c: Client, fs: seq<Frame>)
    requires c.status < 0 && c.alive >= |fs|
    requires forall i :: 0 <= i < |fs| ==> (fs[i].kind == EXIT ==> i == |fs| - 1 && |fs[i].payload| == 2)
    ensures var d := ShowAll(c, fs);
            && d.out == c.out + Output(fs, OUT) && d.err == c.err + Output(fs, ERR)
            && d.status == if fs != [] && fs[|fs| - 1].kind == EXIT then StatusOf(fs[|fs| - 1]) else c.status
    decreases |fs|
  {
    if fs == [] {
      assert c.out + "" == c.out && c.err + "" == c.err;
    } else {
      var d := Show(c, fs[0]);
      if fs[0].kind == EXIT {
        assert c.out + "" == c.out && c.err + "" == c.err;
      } else {
        assert forall i :: 0 <= i < |fs[1..]| ==> fs[1..][i] == fs[i + 1];
        ShowsOutput(d, fs[1..]);
        assert c.out + (if fs[0].kind == OUT then fs[0].payload else "") + Output(fs[1..], OUT) == c.out + Output(fs, OUT);
        assert c.err + (if fs[0].kind == ERR then fs[0].payload else "") + Output(fs[1..], ERR) == c.err + Output(fs, ERR);
      }
    }
  }

  /** The status the client returns for an EXIT. */
  function StatusOf(f: Frame): nat {
    if |f.payload| != 2 then 0
    else if Byte(f.payload[0]) == SIGNALED then 128 + Byte(f.payload[1]) else Byte(f.payload[1])
  }

  /** Frames sent arrive, however cut, as the same output and error bytes and the same
      status (while our own output is open). */
  lemma FramesArrive(fs: seq<Frame>, pieces: seq<string>, alive: nat)
    requires Flat(pieces) == EncodeAll(fs) && alive >= |fs|
    requires forall i :: 0 <= i < |fs| ==> Sendable(fs[i])
    requires forall i :: 0 <= i < |fs| ==> (fs[i].kind == EXIT ==> i == |fs| - 1 && |fs[i].payload| == 2)
    ensures ShownBy(ReadAll(Fresh(alive), pieces)) ==
              Shown(Output(fs, OUT), Output(fs, ERR), if fs != [] && fs[|fs| - 1].kind == EXIT then StatusOf(fs[|fs| - 1]) else -1)
  {
    var c := Fresh(alive);
    CutAnywhere(c, pieces);
    assert c.buf + Flat(pieces) == EncodeAll(fs);
    RoundTrip(fs);
    ShowsOutput(c, fs);
  }

  // ---- what the program's end sends ----

  predicate NoExit(fs: seq<Frame>) {
    forall i :: 0 <= i < |fs| ==> fs[i].kind != EXIT
  }

  lemma {:induction false} OutputSnoc(fs: seq<Frame>, f: Frame, kind: nat)
    requires NoExit(fs) && kind != EXIT
    ensures Output(fs + [f], kind) == Output(fs, kind) + if f.kind == kind then f.payload else ""
    decreases |fs|
  {
    if fs == [] {
      assert fs + [f] == [f] && [f][1..] == [];
      assert f.payload + "" == f.payload;
    } else {
      assert (fs + [f])[0] == fs[0] && (fs + [f])[1..] == fs[1..] + [f];
      OutputSnoc(fs[1..], f, kind);
    }
  }

  /** One event adds to what the frames amount to just what the program printed. */
  lemma EventPrints(s: E.Exec, e: E.Event, d: E.Descriptor)
    requires E.Inv(s) && !d.In?
    ensures var kind := if d.Err? then ERR else OUT;
            Output(E.Happens(s, e).sent, kind) == Output(s.sent, kind) + E.Printed(s, [e], d)
  {
    hide E.Happens, E.Before, E.Balanced, E.Recognised, E.Delivered, E.Faithful;
    var kind := if d.Err? then ERR else OUT;
    E.EventSends(s, e);
    PrintedOne(s, e, d);
    assert Output(s.sent, kind) + "" == Output(s.sent, kind);
    if !(e.Arrives? || (e.Ready? && !E.IsOpen(s, e.d))) {
      OutputAdds(s, E.OutputFrames(s, e), kind);
      var more := s.sent + E.OutputFrames(s, e);
      var exit := E.ExitFrames(E.Before(s, e), E.WaitOf(e));
      ExitAdds(s, e, more, exit, kind);
    }
  }

  lemma PrintedOne(s: E.Exec, e: E.Event, d: E.Descriptor)
    ensures E.Printed(s, [e], d) ==
              if e.Ready? && e.d == d && E.IsOpen(s, d) && e.input.Bytes? then e.input.data else ""
  {
    hide E.Happens;
    assert [e][1..] == [];
    assert forall x: string :: x + "" == x;
  }

  lemma OutputAdds(s: E.Exec, fs: seq<Frame>, kind: nat)
    requires E.ExitLast(s) && kind != EXIT && |fs| <= 1 && (fs != [] ==> NoExit(s.sent))
    ensures Output(s.sent + fs, kind) == Output(s.sent, kind) + if fs != [] && fs[0].kind == kind then fs[0].payload else ""
  {
    if fs == [] {
      assert s.sent + fs == s.sent;
      assert Output(s.sent, kind) + "" == Output(s.sent, kind);
    } else {
      assert fs == [fs[0]];
      OutputSnoc(s.sent, fs[0], kind);
    }
  }

  lemma ExitAdds(s: E.Exec, e: E.Event, more: seq<Frame>, exit: seq<Frame>, kind: nat)
    requires E.ExitLast(s) && (kind == OUT || kind == ERR)
    requires more == s.sent + E.OutputFrames(s, e) && exit == E.ExitFrames(E.Before(s, e), E.WaitOf(e))
    ensures Output(more + exit, kind) == Output(more, kind)
  {
    hide E.Before;
    E.BeforeSends(s, e);
    if exit == [] {
      assert more + exit == more;
    } else {
      assert !s.reaped;
      assert exit == [exit[0]] && exit[0].kind == EXIT;
      OutputSnoc(more, exit[0], kind);
      assert Output(more, kind) + "" == Output(more, kind);
    }
  }

  /** Over a run the frames amount to what the program printed. */
  lemma {:induction false} RunPrints(s: E.Exec, es: seq<E.Event>, d: E.Descriptor)
    requires E.Inv(s) && !d.In?
    ensures var kind := if d.Err? then ERR else OUT;
            Output(E.Run(s, es).sent, kind) == Output(s.sent, kind) + E.Printed(s, es, d)
    decreases |es|
  {
    hide E.Inv, E.Happens, Output;
    var kind := if d.Err? then ERR else OUT;
    if es == [] {
      assert Output(s.sent, kind) + "" == Output(s.sent, kind);
    } else {
      var t := E.Happens(s, es[0]);
      assert [es[0]][1..] == [];
      assert E.Printed(s, [es[0]], d) + "" == E.Printed(s, [es[0]], d);
      EventPrints(s, es[0], d);
      E.EventKeeps(s, es[0]);
      RunPrints(t, es[1..], d);
      PrintedOne(s, es[0], d);
      assert forall a: string, b: string, c: string :: (a + b) + c == a + (b + c);
    }
  }

  /** The status the client makes of the frames sent, once the last is an EXIT. */
  function StatusIn(fs: seq<Frame>): int {
    if fs != [] && fs[|fs| - 1].kind == EXIT then StatusOf(fs[|fs| - 1]) else -1
  }

  /** The EXIT tells how the program ended. */
  lemma EventEnds(s: E.Exec, e: E.Event)
    requires E.Inv(s)
    ensures var t := E.Happens(s, e);
            && (s.reaped ==> t.reaped && StatusIn(t.sent) == StatusIn(s.sent))
            && (!s.reaped && t.reaped ==> StatusIn(t.sent) == E.StatusFor(E.WaitOf(e)))
            && (!t.reaped ==> StatusIn(t.sent) == -1)
  {
    hide E.Happens, E.Before, E.MaybeFinish, E.Balanced, E.Recognised, E.Delivered, E.Faithful;
    E.EventSends(s, e);
    E.BeforeSends(s, e);
    E.MaybeFinishSends(E.Before(s, e), E.WaitOf(e));
    E.EventKeeps(s, e);
    var exit := E.ExitFrames(E.Before(s, e), E.WaitOf(e));
    if !(e.Arrives? || (e.Ready? && !E.IsOpen(s, e.d))) && exit == [] {
      assert s.sent + E.OutputFrames(s, e) + exit == s.sent + E.OutputFrames(s, e);
    }
  }

  lemma {:induction false} RunEnds(s: E.Exec, es: seq<E.Event>)
    requires E.Inv(s)
    ensures StatusIn(E.Run(s, es).sent) == if s.reaped then StatusIn(s.sent) else E.Verdict(s, es)
    decreases |es|
  {
    hide E.Inv, E.Happens, StatusIn, E.StatusFor, E.WaitOf;
    if es == [] {
      if !s.reaped {
        NotEnded(s);
      }
    } else {
      EventEnds(s, es[0]);
      E.EventKeeps(s, es[0]);
      RunEnds(E.Happens(s, es[0]), es[1..]);
    }
  }

  lemma NotEnded(s: E.Exec)
    requires E.Inv(s) && !s.reaped
    ensures StatusIn(s.sent) == -1
  {
    hide E.Balanced, E.Recognised, E.Delivered, E.Faithful;
  }

  lemma {:induction false} RunProper(s: E.Exec, es: seq<E.Event>)
    requires E.Chunked(es) && E.AllProper(s.sent)
    ensures E.AllProper(E.Run(s, es).sent)
    decreases |es|
  {
    hide E.Happens, E.Before;
    if es != [] {
      E.EventSends(s, es[0]);
      assert forall i :: 0 <= i < |es[1..]| ==> es[1..][i] == es[i + 1];
      RunProper(E.Happens(s, es[0]), es[1..]);
    }
  }

  /** What the start itself sends. */
  lemma Started(pty: bool, veof: char, how: E.Start)
    requires |E.Message(how)| <= MAX_PAYLOAD
    ensures var s := E.DoStart(E.Fresh(pty, veof), how);
            && E.AllProper(s.sent) && Output(s.sent, OUT) == "" && Output(s.sent, ERR) == E.Message(how)
            && (s.reaped <==> !how.Started?)
            && StatusIn(s.sent) == (if how.NotFound? then 127 else if how.NotStarted? then 126 else -1)
  {
    hide E.Finish;
    if !how.Started? {
      var code := if how.NotFound? then 127 else 126;
      var said := [Frame(ERR, E.Message(how))];
      var exit := Frame(EXIT, [Char(EXITED), Char(code)]);
      E.FinishSends(E.Send(E.Fresh(pty, veof), said[0]), EXITED, code);
      assert [] + said == said;
      OutputSnoc([], said[0], OUT);
      OutputSnoc([], said[0], ERR);
      OutputSnoc(said, exit, OUT);
      OutputSnoc(said, exit, ERR);
      assert E.DoStart(E.Fresh(pty, veof), how).sent == said + [exit];
    }
  }

  /** How the client is to see the program end. */
  function Ending(s: E.Exec, how: E.Start, es: seq<E.Event>): int {
    if how.NotFound? then 127 else if how.NotStarted? then 126 else E.Verdict(s, es)
  }

  /** End to end: whatever the program prints, in whatever order its output, its input and
      its end are noticed, and however the connection cuts the stream, the client shows
      exactly those output and error bytes and returns the program's status. */
  lemma EndToEnd(pty: bool, veof: char, how: E.Start, es: seq<E.Event>, pieces: seq<string>, alive: nat)
    requires E.Chunked(es) && |E.Message(how)| <= MAX_PAYLOAD
    requires var sent := E.Run(E.DoStart(E.Fresh(pty, veof), how), es).sent;
             Flat(pieces) == EncodeAll(sent) && alive >= |sent|
    ensures var s := E.DoStart(E.Fresh(pty, veof), how);
            ShownBy(ReadAll(Fresh(alive), pieces)) ==
              Shown(E.Printed(s, es, E.Out), E.Message(how) + E.Printed(s, es, E.Err), Ending(s, how, es))
  {
    hide E.DoStart, E.Run, E.Printed, E.Verdict, E.Inv, Output, E.Chunked, Sendable;
    var s := E.DoStart(E.Fresh(pty, veof), how);
    var sent := E.Run(s, es).sent;
    E.StartKeeps(pty, veof, how);
    Started(pty, veof, how);
    RunProper(s, es);
    E.OneExit(pty, veof, how, es);
    FramesArrive(sent, pieces, alive);
    RunPrints(s, es, E.Out);
    RunPrints(s, es, E.Err);
    RunEnds(s, es);
    assert "" + E.Printed(s, es, E.Out) == E.Printed(s, es, E.Out);
  }

  /** The other way: what the client types reaches the program's input whole. */
  lemma InputArrives(fs: seq<Frame>, pty: bool, veof: char, how: E.Start, es: seq<E.Event>)
    requires forall i :: 0 <= i < |fs| ==> Sendable(fs[i])
    requires E.Run(E.DoStart(E.Fresh(pty, veof), how), es).received == EncodeAll(fs)
    ensures var s := E.Run(E.DoStart(E.Fresh(pty, veof), how), es);
            && s.ibuf == "" && s.seen == fs && |EncodeAll(fs)| == s.consumed + |s.inbuf| - s.synthetic
            && (s.running && !s.dropped ==> s.written + s.inbuf == E.InputOf(fs, s.pty, s.veof))
  {
    hide E.Run, E.DoStart, E.InputOf, Parse;
    E.FlowExact(pty, veof, how, es);
    RoundTrip(fs);
  }

  // ---- the loop of the source ----

  class ExecClientLoop {
    var buf: string
    var out: string
    var err: string
    var status: int
    var alive: nat

    ghost function View(): Client
      reads this
    {
      Client(buf, out, err, status, alive)
    }

    constructor (alive: nat)
      ensures View() == Fresh(alive)
    {
      buf, out, err, status := "", "", "", -1;
      this.alive := alive;
    }

    method DoShow(f: Frame)
      modifies this
      ensures View() == Show(old(View()), f)
    {
      if f.kind == OUT {
        if alive == 0 {
          status := 128 + SIGPIPE;
        } else {
          out := out + f.payload;
          alive := alive - 1;
        }
      } else if f.kind == ERR {
        err := err + f.payload;
      } else if f.kind == EXIT && |f.payload| == 2 {
        var how, code := Byte(f.payload[0]), Byte(f.payload[1]);
        status := if how == SIGNALED then 128 + code else code;
      }
    }

    /** One round of run_exec_client's loop: the buffer grows and is consumed frame by
        frame until there is a status. */
    method OnRead(b: string)
      requires status < 0
      modifies this
      ensures ShownBy(View()) == ShownBy(Read(old(View()), b)) && alive == Read(old(View()), b).alive
      ensures status < 0 ==> View() == Read(old(View()), b)
    {
      hide Show, Whole, LengthOf, First, Parse, Tail;
      ghost var c0 := View();
      var whole := buf + b;
      var off := 0;
      assert whole[0..] == whole;
      while status < 0 && Whole(whole[off..])
        invariant 0 <= off <= |whole|
        invariant status < 0 ==> Parse(whole).rest == Parse(whole[off..]).rest
        invariant ShowAll(c0, Parse(whole).frames) == ShowAll(View(), Parse(whole[off..]).frames)
        decreases |whole| - off
      {
        var t := whole[off..];
        ParseOnce(t);
        DoShow(First(t));
        off := off + 3 + LengthOf(t);
        assert whole[off..] == Tail(t);
      }
      ParseOnce(whole[off..]);
      buf := whole[off..];
    }
  }
}

/** ExecEnd (src/peer/exec.cpp:155-361): a program whose input arrives as frames and
    whose output leaves as frames, with exact flow control: every byte from the tunnel
    is reported consumed once, when the program has it or nobody will ever want it. */
module ExecEnd {
  import opened Wrappers
  import opened ExecFrames

  /** What the kernel says to a write, a read, a wait. */
  datatype Answer = Wrote(n: nat) | Full | Gone
  datatype Input = Bytes(data: string) | NothingYet | Closed
  datatype Wait = Running | Exited(code: nat) | Killed(signal: nat) | Unknown

  /** `received` is all that came from the tunnel and `seen` the frames recognised in it;
      `typed` is all that was put into inbuf, `written` what the program got of it, and
      `dropped` that the rest was thrown away. `sent` are the frames sent back. */
  datatype Exec = Exec(
    pty: bool, veof: char, running: bool, inOpen: bool, outOpen: bool, errOpen: bool,
    ibuf: string, inbuf: string, synthetic: nat, eof: bool, reaped: bool, shut: bool, consumed: nat,
    received: string, seen: seq<Frame>, typed: string, written: string, dropped: bool, sent: seq<Frame>)

  function Fresh(pty: bool, veof: char): Exec {
    Exec(pty, veof, false, false, false, false, "", "", 0, false, false, false, 0, "", [], "", "", false, [])
  }

  // ---- flow control ----

  function Account(s: Exec, n: nat): Exec {
    var ours := if s.synthetic <= |s.inbuf| then |s.inbuf| - s.synthetic else 0;
    var k := Least(n, ours);
    s.(synthetic := s.synthetic - Least(s.synthetic, n - k), consumed := s.consumed + k)
  }

  function DropInput(s: Exec): Exec {
    Account(s, |s.inbuf|).(inbuf := "", inOpen := false, dropped := s.dropped || s.inbuf != "" || s.inOpen)
  }

  /** One write to the program took n bytes. */
  function WriteSome(s: Exec, n: nat): Exec {
    var m := Least(if n == 0 then 1 else n, |s.inbuf|);
    Account(s, m).(inbuf := s.inbuf[m..], written := s.written + s.inbuf[..m])
  }

  /** flush_input; no answer left means the pipe is full. */
  function Flush(s: Exec, answers: seq<Answer>): Exec
    decreases |answers|
  {
    if !s.inOpen then s
    else if s.inbuf == "" then (if s.eof && !s.pty then s.(inOpen := false) else s)
    else if answers == [] || answers[0].Full? then s
    else if answers[0].Gone? then DropInput(s)
    else Flush(WriteSome(s, answers[0].n), answers[1..])
  }

  // ---- frames ----

  /** Input: its payload is consumed once the program has read it. */
  function Take(s: Exec, f: Frame): Exec {
    s.(inbuf := s.inbuf + f.payload, typed := s.typed + f.payload, consumed := s.consumed + 3, seen := s.seen + [f])
  }

  function Pass(s: Exec, f: Frame): Exec {
    s.(consumed := s.consumed + 3 + |f.payload|, seen := s.seen + [f])
  }

  /** The end of input; on a terminal it is a keystroke of our own. */
  function EndInput(s: Exec): Exec {
    if s.pty && s.inOpen then
      s.(eof := true, inbuf := s.inbuf + [s.veof], typed := s.typed + [s.veof], synthetic := s.synthetic + 1)
    else s.(eof := true)
  }

  /** One frame from the client. */
  function Handle(s: Exec, f: Frame): Exec {
    if f.kind == DATA && s.inOpen && !s.eof then Take(s, f)
    else if f.kind == END_OF_INPUT && !s.eof then EndInput(Pass(s, f))
    else Pass(s, f)
  }

  function HandleAll(s: Exec, fs: seq<Frame>): Exec
    decreases |fs|
  {
    if fs == [] then s else HandleAll(Handle(s, fs[0]), fs[1..])
  }

  lemma HandleOnce(s: Exec, fs: seq<Frame>)
    ensures HandleAll(s, fs) == if fs == [] then s else HandleAll(Handle(s, fs[0]), fs[1..])
  {
    hide Handle;
  }

  /** on_tunnel_data */
  function TunnelData(s: Exec, b: string, answers: seq<Answer>): Exec {
    var p := Parse(s.ibuf + b);
    Flush(Undecoded(HandleAll(Receive(s, b), p.frames), p.rest), answers)
  }

  function Receive(s: Exec, b: string): Exec {
    s.(received := s.received + b)
  }

  function Undecoded(s: Exec, rest: string): Exec {
    s.(ibuf := rest)
  }

  function Send(s: Exec, f: Frame): Exec {
    s.(sent := s.sent + [f])
  }

  function Finish(s: Exec, how: nat, code: nat): Exec {
    DropInput(SendExit(s, how, code)).(shut := true)
  }

  function SendExit(s: Exec, how: nat, code: nat): Exec {
    s.(reaped := true, sent := s.sent + [Frame(EXIT, [Char(how), Char(code)])])
  }

  function MaybeFinish(s: Exec, w: Wait): Exec {
    if s.reaped || !s.running || s.outOpen || s.errOpen then s
    else match w
      case Running => s
      case Exited(code) => Finish(s, EXITED, code)
      case Killed(signal) => Finish(s, SIGNALED, signal)
      case Unknown => s.(reaped := true, shut := true)
  }

  /** How starting the program went. */
  datatype Start = NotFound(message: string) | NotStarted(message: string) | Started(inOk: bool)

  function DoStart(s: Exec, how: Start): Exec {
    match how
    case NotFound(message) => Finish(Send(s, Frame(ERR, message)), EXITED, 127)
    case NotStarted(message) => Finish(Send(s, Frame(ERR, message)), EXITED, 126)
    case Started(inOk) =>
      var fed := inOk || !s.pty;  // a terminal's input is a second descriptor, which may fail
      s.(running := true, inOpen := fed, dropped := !fed, outOpen := true, errOpen := !s.pty)
  }

  datatype Descriptor = In | Out | Err

  predicate IsOpen(s: Exec, d: Descriptor) {
    match d
    case In => s.inOpen
    case Out => s.outOpen
    case Err => s.errOpen
  }

  /** An output is at its end. */
  function Shut(s: Exec, d: Descriptor): Exec {
    if d.Out? then s.(outOpen := false) else s.(errOpen := false)
  }

  /** The body of on_fd_ready for an output descriptor. */
  function ReadOutput(s: Exec, d: Descriptor, input: Input): Exec {
    match input
    case NothingYet => s
    case Bytes(data) => Send(s, Frame(if d.Err? then ERR else OUT, data))
    case Closed =>
      if s.pty then DropInput(Shut(s, d)) else Shut(s, d)
  }

  function FdReady(s: Exec, d: Descriptor, input: Input, answers: seq<Answer>, w: Wait): Exec {
    if !IsOpen(s, d) then s
    else MaybeFinish(if d.In? then Flush(s, answers) else ReadOutput(s, d, input), w)
  }

  // ---- what always holds ----

  /** The books of flow control with `undecoded` bytes received but not yet looked at. */
  predicate Books(s: Exec, undecoded: nat) {
    && |s.received| == s.consumed + undecoded + |s.inbuf| - s.synthetic
    && s.synthetic <= 1 && s.synthetic <= |s.inbuf|
    && (s.synthetic == 1 ==> s.eof && s.pty)
    && (!s.inOpen ==> s.inbuf == "")
  }

  /** Bytes received are bytes reported consumed, bytes of a frame not yet whole, and
      input not yet written, less the keystroke we added. */
  predicate Balanced(s: Exec) {
    Books(s, |s.ibuf|)
  }

  predicate Recognised(s: Exec) {
    Parse(s.received) == Parsed(s.seen, s.ibuf)
  }

  /** Nothing is lost, added or reordered on the way to the program. */
  predicate Delivered(s: Exec) {
    && s.written <= s.typed && (!s.dropped ==> s.written + s.inbuf == s.typed)
    && (s.dropped ==> !s.inOpen)
  }

  /** An EXIT is the last frame sent, and there is at most one. */
  predicate ExitLast(s: Exec) {
    && (forall i :: 0 <= i < |s.sent| && s.sent[i].kind == EXIT ==> i == |s.sent| - 1)
    && (!s.reaped ==> forall i :: 0 <= i < |s.sent| ==> s.sent[i].kind != EXIT)
    && (s.reaped ==> !s.outOpen && !s.errOpen)
    && (!s.running ==> !s.inOpen && !s.outOpen && !s.errOpen)
  }

  /** What the frames say the program is to read: the data before the end of input, and
      on a terminal the end-of-file keystroke. */
  function InputOf(fs: seq<Frame>, pty: bool, veof: char): string
    decreases |fs|
  {
    if fs == [] then ""
    else if fs[0].kind == DATA then fs[0].payload + InputOf(fs[1..], pty, veof)
    else if fs[0].kind == END_OF_INPUT then (if pty then [veof] else "")
    else InputOf(fs[1..], pty, veof)
  }

  predicate HasEnd(fs: seq<Frame>) {
    exists i :: 0 <= i < |fs| && fs[i].kind == END_OF_INPUT
  }

  /** While the program reads, it is given exactly the client's input. */
  predicate Faithful(s: Exec) {
    && (s.eof <==> HasEnd(s.seen))
    && (!s.running ==> !s.inOpen)
    && (s.running && !s.dropped ==> s.typed == InputOf(s.seen, s.pty, s.veof))
    && (s.running && !s.dropped && (s.pty || !s.eof) ==> s.inOpen)
  }

  predicate Inv(s: Exec) {
    Balanced(s) && Recognised(s) && Delivered(s) && ExitLast(s) && Faithful(s)
  }

  lemma {:induction false} InputSnoc(fs: seq<Frame>, f: Frame, pty: bool, veof: char)
    ensures InputOf(fs + [f], pty, veof) ==
              InputOf(fs, pty, veof) + if HasEnd(fs) then "" else InputOf([f], pty, veof)
    decreases |fs|
  {
    if fs == [] {
      assert fs + [f] == [f];
    } else {
      assert (fs + [f])[1..] == fs[1..] + [f] && (fs + [f])[0] == fs[0];
      InputSnoc(fs[1..], f, pty, veof);
      EndSplits(fs);
    }
  }

  lemma EndSplits(fs: seq<Frame>)
    requires fs != []
    ensures HasEnd(fs) <==> fs[0].kind == END_OF_INPUT || HasEnd(fs[1..])
  {
    assert forall i :: 0 < i < |fs| ==> fs[i] == fs[1..][i - 1];
  }

  lemma EndSnoc(fs: seq<Frame>, f: Frame)
    ensures HasEnd(fs + [f]) <==> HasEnd(fs) || f.kind == END_OF_INPUT
  {
    var gs := fs + [f];
    assert gs[|fs|] == f && forall i :: 0 <= i < |fs| ==> gs[i] == fs[i];
  }

  // ---- every operation keeps it ----

  lemma AccountKeeps(s: Exec, n: nat)
    requires s.synthetic <= 1 && s.synthetic <= |s.inbuf| && n <= |s.inbuf|
    ensures var t := Account(s, n);
            && t == s.(synthetic := t.synthetic, consumed := t.consumed)
            && t.consumed - t.synthetic == s.consumed - s.synthetic + n && t.synthetic <= s.synthetic
            && (n == |s.inbuf| ==> t.synthetic == 0) && (n < |s.inbuf| ==> t.synthetic <= |s.inbuf| - n)
  {}

  lemma DropKeeps(s: Exec, undecoded: nat)
    requires Books(s, undecoded) && Delivered(s)
    ensures Books(DropInput(s), undecoded) && Delivered(DropInput(s))
  {
    hide Account;
    AccountKeeps(s, |s.inbuf|);
  }

  lemma WriteKeeps(s: Exec, n: nat, undecoded: nat)
    requires Books(s, undecoded) && Delivered(s) && s.inbuf != ""
    ensures Books(WriteSome(s, n), undecoded) && Delivered(WriteSome(s, n))
  {
    hide Account;
    var m := Least(if n == 0 then 1 else n, |s.inbuf|);
    AccountKeeps(s, m);
    assert s.inbuf[..m] + s.inbuf[m..] == s.inbuf;
    assert s.written + s.inbuf[..m] + s.inbuf[m..] == s.written + s.inbuf;
  }

  /** flush_input changes nothing but the input side. */
  predicate InputOnly(s: Exec, t: Exec) {
    && t == s.(inOpen := t.inOpen, inbuf := t.inbuf, synthetic := t.synthetic, consumed := t.consumed,
               written := t.written, dropped := t.dropped)
    && (t.inOpen ==> s.inOpen)
    && (s.dropped ==> t.dropped)
    && (!t.dropped && s.inOpen && (s.pty || !s.eof) ==> t.inOpen)
  }

  lemma {:induction false} FlushKeeps(s: Exec, answers: seq<Answer>, undecoded: nat)
    requires Books(s, undecoded) && Delivered(s)
    ensures var t := Flush(s, answers);
            Books(t, undecoded) && Delivered(t) && InputOnly(s, t)
    decreases |answers|
  {
    hide Books, Delivered, WriteSome, DropInput, InputOnly;
    InputOnlySelf(s);
    if s.inOpen {
      if s.inbuf == "" {
        CloseKeeps(s, undecoded);
      } else if answers != [] && answers[0].Gone? {
        DropKeeps(s, undecoded);
        DropOnly(s);
      } else if answers != [] && answers[0].Wrote? {
        var t := WriteSome(s, answers[0].n);
        WriteKeeps(s, answers[0].n, undecoded);
        WriteOnly(s, answers[0].n);
        FlushKeeps(t, answers[1..], undecoded);
        InputOnlyTwice(s, t, Flush(t, answers[1..]));
      }
    }
  }

  lemma InputOnlySelf(s: Exec)
    ensures InputOnly(s, s)
    ensures s.inOpen && s.eof && !s.pty ==> InputOnly(s, s.(inOpen := false))
  {}

  lemma InputOnlyTwice(s: Exec, t: Exec, u: Exec)
    requires InputOnly(s, t) && InputOnly(t, u)
    ensures InputOnly(s, u)
  {}

  lemma WriteOnly(s: Exec, n: nat)
    ensures InputOnly(s, WriteSome(s, n))
  {
    hide Account;
    AccountIs(s, Least(if n == 0 then 1 else n, |s.inbuf|));
  }

  lemma DropOnly(s: Exec)
    ensures InputOnly(s, DropInput(s))
  {
    hide Account;
    AccountIs(s, |s.inbuf|);
  }

  lemma CloseKeeps(s: Exec, undecoded: nat)
    requires Books(s, undecoded) && Delivered(s) && s.inbuf == ""
    ensures Books(s.(inOpen := false), undecoded) && Delivered(s.(inOpen := false))
  {}

  lemma AccountIs(s: Exec, n: nat)
    ensures var t := Account(s, n); t == s.(synthetic := t.synthetic, consumed := t.consumed)
  {}

  lemma InputOnlyKeeps(s: Exec, t: Exec)
    requires InputOnly(s, t)
    ensures ExitLast(s) ==> ExitLast(t)
    ensures Faithful(s) ==> Faithful(t)
    ensures Recognised(s) ==> Recognised(t)
  {}

  /** One frame: its header is consumed at once, its payload too unless it is input. */
  lemma HandleKeeps(s: Exec, f: Frame, undecoded: nat)
    requires Books(s, undecoded + 3 + |f.payload|) && Delivered(s) && ExitLast(s) && Faithful(s)
    ensures var t := Handle(s, f);
            && Books(t, undecoded) && Delivered(t) && ExitLast(t) && Faithful(t)
            && t.seen == s.seen + [f] && t.ibuf == s.ibuf && t.received == s.received
  {
    hide InputOf, HasEnd, Books, Delivered, Faithful, ExitLast, Take, Pass, EndInput;
    HandleFaithful(s, f);
    if s.inOpen {
      TakeKeeps(s, f, undecoded);
    }
    PassKeeps(s, f, undecoded);
    EndKeeps(Pass(s, f), undecoded);
  }

  lemma TakeKeeps(s: Exec, f: Frame, undecoded: nat)
    requires Books(s, undecoded + 3 + |f.payload|) && Delivered(s) && ExitLast(s) && s.inOpen
    ensures var t := Take(s, f);
            && t.seen == s.seen + [f] && t.ibuf == s.ibuf && t.received == s.received
            && Books(t, undecoded) && Delivered(t) && ExitLast(t)
  {
    hide HasEnd, InputOf;
    TakeDelivers(s, f);
  }

  lemma TakeDelivers(s: Exec, f: Frame)
    requires Delivered(s) && s.inOpen
    ensures Delivered(Take(s, f))
  {
    assert s.written + (s.inbuf + f.payload) == s.written + s.inbuf + f.payload;
  }

  lemma PassKeeps(s: Exec, f: Frame, undecoded: nat)
    requires Books(s, undecoded + 3 + |f.payload|) && Delivered(s) && ExitLast(s)
    ensures var t := Pass(s, f);
            && t.seen == s.seen + [f] && t.ibuf == s.ibuf && t.received == s.received && t.eof == s.eof
            && Books(t, undecoded) && Delivered(t) && ExitLast(t)
  {}

  lemma EndKeeps(s: Exec, undecoded: nat)
    requires Books(s, undecoded) && Delivered(s) && ExitLast(s)
    ensures var t := EndInput(s);
            && t.seen == s.seen && t.ibuf == s.ibuf && t.received == s.received
            && (!s.eof ==> Books(t, undecoded)) && Delivered(t) && ExitLast(t)
  {
    assert s.written + (s.inbuf + [s.veof]) == s.written + s.inbuf + [s.veof];
  }

  lemma HandleFaithful(s: Exec, f: Frame)
    requires Faithful(s) && Delivered(s)
    ensures Faithful(Handle(s, f))
  {
    hide InputOf, HasEnd;
    EndSnoc(s.seen, f);
    InputSnoc(s.seen, f, s.pty, s.veof);
    OneInput(f, s.pty, s.veof);
    assert InputOf(s.seen, s.pty, s.veof) + "" == InputOf(s.seen, s.pty, s.veof);
  }

  lemma OneInput(f: Frame, pty: bool, veof: char)
    ensures InputOf([f], pty, veof) ==
              if f.kind == DATA then f.payload else if f.kind == END_OF_INPUT && pty then [veof] else ""
  {
    assert [f][1..] == [];
    assert f.payload + "" == f.payload;
  }

  lemma {:induction false} HandleAllKeeps(s: Exec, fs: seq<Frame>, undecoded: nat)
    requires Books(s, undecoded + Size(fs)) && Delivered(s) && ExitLast(s) && Faithful(s)
    ensures var t := HandleAll(s, fs);
            && Books(t, undecoded) && Delivered(t) && ExitLast(t) && Faithful(t)
            && t.seen == s.seen + fs && t.ibuf == s.ibuf && t.received == s.received
    decreases |fs|
  {
    hide Books, Delivered, ExitLast, Faithful, Handle;
    if fs == [] {
      assert s.seen + fs == s.seen;
    } else {
      HandleKeeps(s, fs[0], undecoded + Size(fs[1..]));
      HandleAllKeeps(Handle(s, fs[0]), fs[1..], undecoded);
      assert s.seen + [fs[0]] + fs[1..] == s.seen + fs;
    }
  }

  lemma TunnelDataKeeps(s: Exec, b: string, answers: seq<Answer>)
    requires Inv(s)
    ensures Inv(TunnelData(s, b, answers))
  {
    hide Parse, Size, HandleAll, Flush, Delivered, ExitLast, Faithful, InputOf, HasEnd;
    var p := Parse(s.ibuf + b);
    ParseSize(s.ibuf + b);
    ParseCut(s.received, b);
    var r := s.(received := s.received + b);
    SameFaith(s, r);
    HandleAllKeeps(r, p.frames, |p.rest|);
    var t := HandleAll(r, p.frames);
    var u := t.(ibuf := p.rest);
    SameFaith(t, u);
    FlushKeeps(u, answers, |p.rest|);
    InputOnlyKeeps(u, Flush(u, answers));
  }

  lemma SameFaith(s: Exec, t: Exec)
    requires t == s.(received := t.received, ibuf := t.ibuf)
    ensures Delivered(s) ==> Delivered(t)
    ensures ExitLast(s) ==> ExitLast(t)
    ensures Faithful(s) ==> Faithful(t)
  {}

  lemma DropFaithful(s: Exec)
    requires Inv(s)
    ensures Inv(DropInput(s))
  {
    hide Parse, Account, InputOf, HasEnd;
    DropKeeps(s, |s.ibuf|);
    AccountIs(s, |s.inbuf|);
  }

  lemma FinishKeeps(s: Exec, how: nat, code: nat)
    requires Inv(s) && !s.reaped && !s.outOpen && !s.errOpen
    ensures Inv(Finish(s, how, code))
  {
    hide Parse, Account, InputOf, HasEnd;
    DropFaithful(SendExit(s, how, code));
  }

  lemma MaybeFinishKeeps(s: Exec, w: Wait)
    requires Inv(s)
    ensures Inv(MaybeFinish(s, w))
  {
    hide Parse, Finish, InputOf, HasEnd;
    if !s.reaped && s.running && !s.outOpen && !s.errOpen {
      match w
      case Running =>
      case Exited(code) => FinishKeeps(s, EXITED, code);
      case Killed(signal) => FinishKeeps(s, SIGNALED, signal);
      case Unknown =>
    }
  }

  lemma FdReadyKeeps(s: Exec, d: Descriptor, input: Input, answers: seq<Answer>, w: Wait)
    requires Inv(s)
    ensures Inv(FdReady(s, d, input, answers, w))
  {
    hide Parse, Flush, MaybeFinish, DropInput, InputOf, HasEnd;
    if IsOpen(s, d) {
      var t := if d.In? then Flush(s, answers) else ReadOutput(s, d, input);
      if d.In? {
        FlushKeeps(s, answers, |s.ibuf|);
        InputOnlyKeeps(s, t);
      } else if input.Closed? && s.pty {
        DropFaithful(if d.Out? then s.(outOpen := false) else s.(errOpen := false));
      }
      MaybeFinishKeeps(t, w);
    }
  }

  lemma StartKeeps(pty: bool, veof: char, how: Start)
    ensures Inv(Fresh(pty, veof)) && Inv(DoStart(Fresh(pty, veof), how))
  {
    hide Finish, InputOf, HasEnd;
    var s := Fresh(pty, veof);
    EmptyInput(pty, veof);
    assert Inv(s);
    match how
    case NotFound(message) => FinishKeeps(Send(s, Frame(ERR, message)), EXITED, 127);
    case NotStarted(message) => FinishKeeps(Send(s, Frame(ERR, message)), EXITED, 126);
    case Started(_) =>
  }

  lemma EmptyInput(pty: bool, veof: char)
    ensures InputOf([], pty, veof) == "" && !HasEnd([])
  {}

  // ---- every run ----

  datatype Event =
    | Arrives(b: string, answers: seq<Answer>)
    | Ready(d: Descriptor, input: Input, answers: seq<Answer>, w: Wait)
    | Ticks(w: Wait)

  function Happens(s: Exec, e: Event): Exec {
    match e
    case Arrives(b, answers) => TunnelData(s, b, answers)
    case Ready(d, input, answers, w) => FdReady(s, d, input, answers, w)
    case Ticks(w) => MaybeFinish(s, w)
  }

  function Run(s: Exec, es: seq<Event>): Exec
    decreases |es|
  {
    if es == [] then s else Run(Happens(s, es[0]), es[1..])
  }

  lemma EventKeeps(s: Exec, e: Event)
    requires Inv(s)
    ensures Inv(Happens(s, e))
  {
    hide Inv, TunnelData, FdReady, MaybeFinish;
    match e
    case Arrives(b, answers) => TunnelDataKeeps(s, b, answers);
    case Ready(d, input, answers, w) => FdReadyKeeps(s, d, input, answers, w);
    case Ticks(w) => MaybeFinishKeeps(s, w);
  }

  lemma {:induction false} RunKeeps(s: Exec, es: seq<Event>)
    requires Inv(s)
    ensures Inv(Run(s, es))
    decreases |es|
  {
    hide Inv, Happens;
    if es != [] {
      EventKeeps(s, es[0]);
      RunKeeps(Happens(s, es[0]), es[1..]);
    }
  }

  /** In every run: the frames recognised are those of the whole stream received; every
      byte of it is consumed, undecoded or waiting input, less the one keystroke that
      never came from the tunnel; and what the program was given and what still waits is,
      as long as it reads, exactly the client's input. */
  lemma FlowExact(pty: bool, veof: char, how: Start, es: seq<Event>)
    ensures var s := Run(DoStart(Fresh(pty, veof), how), es);
            && Parse(s.received) == Parsed(s.seen, s.ibuf)
            && |s.received| == s.consumed + |s.ibuf| + |s.inbuf| - s.synthetic
            && s.synthetic <= 1
            && (s.running && !s.dropped ==> s.written + s.inbuf == InputOf(s.seen, s.pty, s.veof))
  {
    hide DoStart, Run, Parse, InputOf;
    StartKeeps(pty, veof, how);
    RunKeeps(DoStart(Fresh(pty, veof), how), es);
  }

  /** In every run at most one EXIT is sent, and nothing follows it. */
  lemma OneExit(pty: bool, veof: char, how: Start, es: seq<Event>)
    ensures var sent := Run(DoStart(Fresh(pty, veof), how), es).sent;
            forall i :: 0 <= i < |sent| && sent[i].kind == EXIT ==> i == |sent| - 1
  {
    hide DoStart, Run;
    StartKeeps(pty, veof, how);
    RunKeeps(DoStart(Fresh(pty, veof), how), es);
  }

  // ---- what a run sends ----

  /** Bytes read from an output descriptor at a time. */
  const CHUNK: nat := 4096

  predicate Chunked(es: seq<Event>) {
    forall i :: 0 <= i < |es| && es[i].Ready? && es[i].input.Bytes? ==> |es[i].input.data| <= CHUNK
  }

  /** What is said of a program that could not be started. */
  function Message(how: Start): string {
    match how
    case NotFound(message) => message
    case NotStarted(message) => message
    case Started(_) => ""
  }

  /** Frames of output with payloads that fit, and an EXIT of two bytes. */
  predicate Proper(f: Frame) {
    && Sendable(f) && (f.kind == OUT || f.kind == ERR || f.kind == EXIT)
    && (f.kind == EXIT ==> |f.payload| == 2)
  }

  predicate AllProper(fs: seq<Frame>) {
    forall i :: 0 <= i < |fs| ==> Proper(fs[i])
  }

  /** The bytes a program prints on its output (or error output), as long as that is open. */
  function Printed(s: Exec, es: seq<Event>, d: Descriptor): string
    decreases |es|
  {
    if es == [] then ""
    else (if es[0].Ready? && es[0].d == d && IsOpen(s, d) && es[0].input.Bytes? then es[0].input.data else "")
         + Printed(Happens(s, es[0]), es[1..], d)
  }

  /** What waiting for the program says at an event. */
  function WaitOf(e: Event): Wait {
    match e
    case Arrives(_, _) => Running
    case Ready(_, _, _, w) => w
    case Ticks(w) => w
  }

  function StatusFor(w: Wait): int {
    match w
    case Exited(code) => code % 256
    case Killed(signal) => 128 + signal % 256
    case _ => -1
  }

  /** How the program ended, as a shell would put it; -1 while that is not known. */
  function Verdict(s: Exec, es: seq<Event>): int
    decreases |es|
  {
    if es == [] then -1
    else
      var t := Happens(s, es[0]);
      if !s.reaped && t.reaped then StatusFor(WaitOf(es[0])) else Verdict(t, es[1..])
  }

  /** The frame sent at the end of the program, if any. */
  function ExitFrames(s: Exec, w: Wait): seq<Frame> {
    if s.reaped || !s.running || s.outOpen || s.errOpen then []
    else match w
      case Exited(code) => [Frame(EXIT, [Char(EXITED), Char(code)])]
      case Killed(signal) => [Frame(EXIT, [Char(SIGNALED), Char(signal)])]
      case _ => []
  }

  /** The frame of output sent at an event, if any. */
  function OutputFrames(s: Exec, e: Event): seq<Frame> {
    if e.Ready? && !e.d.In? && IsOpen(s, e.d) && e.input.Bytes? then [Frame(if e.d.Err? then ERR else OUT, e.input.data)]
    else []
  }

  /** Nothing is sent, and the end is not noticed. */
  predicate Silent(s: Exec, t: Exec) {
    t.sent == s.sent && t.reaped == s.reaped && t.shut == s.shut && SameKind(s, t) && SameOutputs(s, t)
  }

  predicate SameOutputs(s: Exec, t: Exec) {
    t.outOpen == s.outOpen && t.errOpen == s.errOpen
  }

  predicate SameKind(s: Exec, t: Exec) {
    t.pty == s.pty && t.veof == s.veof && t.running == s.running
  }

  lemma DropSilent(s: Exec)
    ensures Silent(s, DropInput(s))
  {
    hide Account;
    AccountIs(s, |s.inbuf|);
  }

  lemma WriteSilent(s: Exec, n: nat)
    ensures Silent(s, WriteSome(s, n))
  {
    hide Account;
    AccountIs(s, Least(if n == 0 then 1 else n, |s.inbuf|));
  }

  lemma FinishSends(s: Exec, how: nat, code: nat)
    ensures var t := Finish(s, how, code);
            && t.reaped && t.shut && t.sent == s.sent + [Frame(EXIT, [Char(how), Char(code)])]
            && SameKind(s, t) && SameOutputs(s, t)
  {
    hide DropInput;
    DropSilent(SendExit(s, how, code));
  }

  lemma MaybeFinishSends(s: Exec, w: Wait)
    ensures MaybeFinish(s, w).sent == s.sent + ExitFrames(s, w)
    ensures ExitFrames(s, w) != [] ==> !s.reaped && MaybeFinish(s, w).reaped
    ensures !s.reaped && MaybeFinish(s, w).reaped ==> !w.Running? && (ExitFrames(s, w) == [] <==> w.Unknown?)
    ensures s.reaped ==> MaybeFinish(s, w).reaped
    ensures SameKind(s, MaybeFinish(s, w)) && SameOutputs(s, MaybeFinish(s, w))
    ensures (s.shut <==> s.reaped) ==> (MaybeFinish(s, w).shut <==> MaybeFinish(s, w).reaped)
  {
    hide Finish;
    assert s.sent + [] == s.sent;
    match w
    case Exited(code) => FinishSends(s, EXITED, code);
    case Killed(signal) => FinishSends(s, SIGNALED, signal);
    case _ =>
  }

  lemma TakeSilent(s: Exec, f: Frame)
    ensures Silent(s, Take(s, f)) && Silent(s, Pass(s, f))
  {}

  lemma EndSilent(s: Exec)
    ensures Silent(s, EndInput(s))
  {}

  lemma HandleSilent(s: Exec, f: Frame)
    ensures Silent(s, Handle(s, f))
  {
    hide Take, Pass, EndInput;
    TakeSilent(s, f);
    EndSilent(Pass(s, f));
  }

  lemma {:induction false} HandleAllSilent(s: Exec, fs: seq<Frame>)
    ensures Silent(s, HandleAll(s, fs))
    decreases |fs|
  {
    hide Handle;
    if fs != [] {
      HandleSilent(s, fs[0]);
      HandleAllSilent(Handle(s, fs[0]), fs[1..]);
    }
  }

  lemma {:induction false} FlushSilent(s: Exec, answers: seq<Answer>)
    ensures Silent(s, Flush(s, answers))
    decreases |answers|
  {
    hide WriteSome, DropInput;
    if s.inOpen && s.inbuf != "" && answers != [] {
      DropSilent(s);
      if answers[0].Wrote? {
        WriteSilent(s, answers[0].n);
        FlushSilent(WriteSome(s, answers[0].n), answers[1..]);
      }
    }
  }

  /** The state at which an event looks whether the program has ended. */
  function Before(s: Exec, e: Event): Exec {
    match e
    case Ready(d, input, answers, _) =>
      if !IsOpen(s, d) then s else if d.In? then Flush(s, answers) else ReadOutput(s, d, input)
    case _ => s
  }

  lemma BeforeSends(s: Exec, e: Event)
    ensures Before(s, e).sent == s.sent + OutputFrames(s, e) && Before(s, e).reaped == s.reaped && SameKind(s, Before(s, e))
  {
    hide Flush, ReadOutput;
    assert s.sent + [] == s.sent;
    if e.Ready? {
      FlushSilent(s, e.answers);
      ReadSends(s, e.d, e.input);
    }
  }

  /** What is read from an output, case by case. */
  lemma ReadIs(s: Exec, d: Descriptor, input: Input)
    ensures input.NothingYet? ==> ReadOutput(s, d, input) == s
    ensures input.Bytes? ==> ReadOutput(s, d, input) == s.(sent := s.sent + [Frame(if d.Err? then ERR else OUT, input.data)])
    ensures input.Closed? ==> ReadOutput(s, d, input) == if s.pty then DropInput(Shut(s, d)) else Shut(s, d)
  {
    hide DropInput, Shut;
  }

  lemma ReadQuiet(s: Exec, d: Descriptor, input: Input)
    requires !input.Bytes?
    ensures var t := ReadOutput(s, d, input); t.sent == s.sent && t.reaped == s.reaped && SameKind(s, t)
  {
    hide DropInput, Shut, ReadOutput;
    ReadIs(s, d, input);
    ShutIs(s, d);
    DropSilent(Shut(s, d));
  }

  lemma ReadSends(s: Exec, d: Descriptor, input: Input)
    ensures var t := ReadOutput(s, d, input);
            t.reaped == s.reaped && SameKind(s, t)
            && t.sent == s.sent + if input.Bytes? then [Frame(if d.Err? then ERR else OUT, input.data)] else []
  {
    hide ReadOutput;
    ReadIs(s, d, input);
    if !input.Bytes? {
      ReadQuiet(s, d, input);
      assert s.sent + [] == s.sent;
    }
  }

  lemma ShutIs(s: Exec, d: Descriptor)
    ensures Shut(s, d) == s.(outOpen := Shut(s, d).outOpen, errOpen := Shut(s, d).errOpen)
    ensures Shut(s, d).outOpen == (s.outOpen && !d.Out?)
    ensures Shut(s, d).errOpen == (s.errOpen && d.Out?)
  {}

  /** What one event sends: output that was read, then the EXIT. */
  lemma EventSends(s: Exec, e: Event)
    ensures e.Arrives? || (e.Ready? && !IsOpen(s, e.d)) ==> Happens(s, e).sent == s.sent && Happens(s, e).reaped == s.reaped
    ensures !(e.Arrives? || (e.Ready? && !IsOpen(s, e.d))) ==>
              && Happens(s, e) == MaybeFinish(Before(s, e), WaitOf(e))
              && Happens(s, e).sent == s.sent + OutputFrames(s, e) + ExitFrames(Before(s, e), WaitOf(e))
    ensures SameKind(s, Happens(s, e))
  {
    hide Flush, MaybeFinish, ReadOutput, HandleAll, Parse;
    BeforeSends(s, e);
    MaybeFinishSends(Before(s, e), WaitOf(e));
    match e
    case Arrives(b, answers) =>
      var p := Parse(s.ibuf + b);
      HandleAllSilent(Receive(s, b), p.frames);
      FlushSilent(Undecoded(HandleAll(Receive(s, b), p.frames), p.rest), answers);
    case Ready(d, input, answers, w) =>
    case Ticks(w) =>
  }

  // ---- the end of the program's input ----

  /** Through a pipe, the program's input is closed once the end was recognised and
      everything before it is written. */
  predicate EndGiven(s: Exec) {
    s.eof && !s.pty && s.inbuf == "" ==> !s.inOpen
  }

  lemma {:induction false} FlushEnds(s: Exec, answers: seq<Answer>)
    ensures EndGiven(Flush(s, answers)) && Flush(s, answers).eof == s.eof && Flush(s, answers).pty == s.pty
    decreases |answers|
  {
    hide WriteSome, DropInput;
    if s.inOpen && s.inbuf != "" && answers != [] {
      if answers[0].Gone? {
        DropOnly(s);
        DropClosed(s);
      } else if answers[0].Wrote? {
        WriteOnly(s, answers[0].n);
        FlushEnds(WriteSome(s, answers[0].n), answers[1..]);
      }
    }
  }

  lemma DropClosed(s: Exec)
    ensures !DropInput(s).inOpen && DropInput(s).eof == s.eof && DropInput(s).pty == s.pty
  {
    hide Account;
    AccountIs(s, |s.inbuf|);
  }

  lemma MaybeFinishEnds(s: Exec, w: Wait)
    requires EndGiven(s)
    ensures EndGiven(MaybeFinish(s, w))
  {
    hide DropInput;
    if !s.reaped && s.running && !s.outOpen && !s.errOpen {
      match w
      case Exited(code) => DropClosed(SendExit(s, EXITED, code));
      case Killed(signal) => DropClosed(SendExit(s, SIGNALED, signal));
      case _ =>
    }
  }

  lemma ReadEnds(s: Exec, d: Descriptor, input: Input)
    requires EndGiven(s)
    ensures EndGiven(ReadOutput(s, d, input))
  {
    hide DropInput;
    DropClosed(s.(outOpen := false));
    DropClosed(s.(errOpen := false));
  }

  lemma EventEnds(s: Exec, e: Event)
    requires EndGiven(s)
    ensures EndGiven(Happens(s, e))
  {
    hide Flush, MaybeFinish, ReadOutput, HandleAll, Parse, EndGiven;
    match e
    case Arrives(b, answers) =>
      FlushEnds(Undecoded(HandleAll(Receive(s, b), Parse(s.ibuf + b).frames), Parse(s.ibuf + b).rest), answers);
    case Ready(d, input, answers, w) =>
      FlushEnds(s, answers);
      ReadEnds(s, d, input);
      if IsOpen(s, d) {
        MaybeFinishEnds(if d.In? then Flush(s, answers) else ReadOutput(s, d, input), w);
      }
    case Ticks(w) => MaybeFinishEnds(s, w);
  }

  lemma {:induction false} RunEnds(s: Exec, es: seq<Event>)
    requires EndGiven(s)
    ensures EndGiven(Run(s, es))
    decreases |es|
  {
    hide EndGiven, Happens;
    if es != [] {
      EventEnds(s, es[0]);
      RunEnds(Happens(s, es[0]), es[1..]);
    }
  }

  /** In every run: the program's input is open exactly while the program runs, its input
      was not thrown away, and there is more to come: on a terminal always, through a pipe
      until the client's end of input was recognised and all before it is written. */
  lemma InputOpenWhen(pty: bool, veof: char, how: Start, es: seq<Event>)
    ensures var s := Run(DoStart(Fresh(pty, veof), how), es);
            s.inOpen <==> s.running && !s.dropped && (s.pty || !HasEnd(s.seen) || s.inbuf != "")
  {
    hide DoStart, Run, Parse, InputOf, HasEnd, EndGiven;
    StartKeeps(pty, veof, how);
    StartEnds(pty, veof, how);
    RunKeeps(DoStart(Fresh(pty, veof), how), es);
    RunEnds(DoStart(Fresh(pty, veof), how), es);
    OpenWhen(Run(DoStart(Fresh(pty, veof), how), es));
  }

  lemma StartEnds(pty: bool, veof: char, how: Start)
    ensures EndGiven(DoStart(Fresh(pty, veof), how))
  {
    hide DropInput;
    if !how.Started? {
      var s := Send(Fresh(pty, veof), Frame(ERR, Message(how)));
      DropClosed(SendExit(s, EXITED, if how.NotFound? then 127 else 126));
    }
  }

  lemma OpenWhen(s: Exec)
    requires Inv(s) && EndGiven(s)
    ensures s.inOpen <==> s.running && !s.dropped && (s.pty || !HasEnd(s.seen) || s.inbuf != "")
  {
    hide Parse, InputOf, HasEnd;
  }

  /** While the pipe takes bytes the queue empties: as many writes as there are bytes
      write them all, and then close the input if it has ended. */
  lemma {:induction false} FlushEmpties(s: Exec, answers: seq<Answer>)
    requires s.inOpen && |answers| >= |s.inbuf| && forall i :: 0 <= i < |answers| ==> answers[i].Wrote?
    ensures var t := Flush(s, answers);
            && t.inbuf == "" && t.written == s.written + s.inbuf && t.dropped == s.dropped
            && (t.inOpen <==> s.pty || !s.eof)
    decreases |answers|
  {
    hide WriteSome;
    if s.inbuf != "" {
      var t := WriteSome(s, answers[0].n);
      WriteTakes(s, answers[0].n);
      FlushEmpties(t, answers[1..]);
      assert s.inbuf[..|s.inbuf| - |t.inbuf|] + s.inbuf[|s.inbuf| - |t.inbuf|..] == s.inbuf;
      assert s.written + s.inbuf[..|s.inbuf| - |t.inbuf|] + t.inbuf == s.written + s.inbuf;
    } else {
      assert s.written + "" == s.written;
    }
  }

  lemma WriteTakes(s: Exec, n: nat)
    requires s.inbuf != ""
    ensures var t := WriteSome(s, n);
            && |t.inbuf| < |s.inbuf| && t.inbuf == s.inbuf[|s.inbuf| - |t.inbuf|..]
            && t.written == s.written + s.inbuf[..|s.inbuf| - |t.inbuf|]
            && t.inOpen == s.inOpen && t.eof == s.eof && t.pty == s.pty && t.dropped == s.dropped
  {
    hide Account;
    AccountIs(s, Least(if n == 0 then 1 else n, |s.inbuf|));
  }

  /** So a program that reads its input through a pipe sees all of it and then its end. */
  lemma InputEnds(veof: char, how: Start, es: seq<Event>, answers: seq<Answer>, w: Wait)
    requires forall i :: 0 <= i < |answers| ==> answers[i].Wrote?
    requires var s := Run(DoStart(Fresh(false, veof), how), es);
             s.running && !s.dropped && HasEnd(s.seen) && |answers| >= |s.inbuf| && w.Running?
    ensures var s := Run(DoStart(Fresh(false, veof), how), es);
            var t := Happens(s, Ready(In, NothingYet, answers, w));
            !t.inOpen && !t.dropped && t.written == InputOf(s.seen, false, veof)
  {
    hide DoStart, Run, Parse, InputOf, HasEnd, Flush, DropInput;
    StartKeeps(false, veof, how);
    RunKeeps(DoStart(Fresh(false, veof), how), es);
    RunPty(DoStart(Fresh(false, veof), how), es);
    StartPty(false, veof, how);
    var s := Run(DoStart(Fresh(false, veof), how), es);
    InputOpenWhen(false, veof, how, es);
    if s.inOpen {
      FlushEmpties(s, answers);
    } else {
      assert s.written + "" == s.written;
    }
  }

  lemma {:induction false} RunPty(s: Exec, es: seq<Event>)
    ensures SameKind(s, Run(s, es))
    decreases |es|
  {
    hide Happens;
    if es != [] {
      EventSends(s, es[0]);
      RunPty(Happens(s, es[0]), es[1..]);
    }
  }

  lemma StartPty(pty: bool, veof: char, how: Start)
    ensures var s := DoStart(Fresh(pty, veof), how);
            s.pty == pty && s.veof == veof
  {
    hide DropInput;
    if !how.Started? {
      var s := SendExit(Send(Fresh(pty, veof), Frame(ERR, Message(how))), EXITED, if how.NotFound? then 127 else 126);
      DropKind(s);
    }
  }

  lemma DropKind(s: Exec)
    ensures DropInput(s).pty == s.pty && DropInput(s).veof == s.veof
  {
    hide Account;
    AccountIs(s, |s.inbuf|);
  }

  // ---- the end of the program ----

  /** The program has closed an output. */
  predicate Shuts(e: Event, d: Descriptor) {
    e.Ready? && e.d == d && e.input.Closed?
  }

  predicate ShutIn(es: seq<Event>, d: Descriptor) {
    exists i :: 0 <= i < |es| && Shuts(es[i], d)
  }

  /** Its end is noticed only once both outputs are closed, and ends the connection. */
  predicate EndNoticed(s: Exec) {
    (s.reaped ==> !s.outOpen && !s.errOpen) && (s.shut <==> s.reaped)
  }

  lemma ReadShuts(s: Exec, d: Descriptor, input: Input)
    requires !d.In?
    ensures var t := ReadOutput(s, d, input);
            && t.outOpen == (s.outOpen && !(d.Out? && input.Closed?)) && t.errOpen == (s.errOpen && !(d.Err? && input.Closed?))
            && t.reaped == s.reaped && t.shut == s.shut && SameKind(s, t)
  {
    hide DropInput, Shut, ReadOutput;
    ReadIs(s, d, input);
    ShutIs(s, d);
    DropSilent(Shut(s, d));
  }

  lemma EventShuts(s: Exec, e: Event)
    requires EndNoticed(s)
    ensures var t := Happens(s, e);
            && t.outOpen == (s.outOpen && !Shuts(e, Out)) && t.errOpen == (s.errOpen && !Shuts(e, Err))
            && SameKind(s, t) && EndNoticed(t)
  {
    hide Flush, ReadOutput, HandleAll, Parse, DropInput;
    match e
    case Arrives(b, answers) =>
      var p := Parse(s.ibuf + b);
      HandleAllSilent(Receive(s, b), p.frames);
      FlushSilent(Undecoded(HandleAll(Receive(s, b), p.frames), p.rest), answers);
    case Ready(d, input, answers, w) =>
      FlushSilent(s, answers);
      if !d.In? {
        ReadShuts(s, d, input);
      }
      MaybeFinishSends(Before(s, e), w);
    case Ticks(w) => MaybeFinishSends(s, w);
  }

  lemma {:induction false} RunShuts(s: Exec, es: seq<Event>)
    requires EndNoticed(s)
    ensures var t := Run(s, es);
            && t.outOpen == (s.outOpen && !ShutIn(es, Out)) && t.errOpen == (s.errOpen && !ShutIn(es, Err))
            && SameKind(s, t) && EndNoticed(t)
    decreases |es|
  {
    hide Happens, EndNoticed, Shuts;
    if es != [] {
      EventShuts(s, es[0]);
      RunShuts(Happens(s, es[0]), es[1..]);
      ShutFirst(es, Out);
      ShutFirst(es, Err);
    }
  }

  lemma ShutFirst(es: seq<Event>, d: Descriptor)
    requires es != []
    ensures ShutIn(es, d) <==> Shuts(es[0], d) || ShutIn(es[1..], d)
  {
    hide Shuts;
    assert forall i :: 0 <= i < |es[1..]| ==> es[1..][i] == es[i + 1];
    if ShutIn(es, d) && !Shuts(es[0], d) {
      var i :| 0 <= i < |es| && Shuts(es[i], d);
      assert Shuts(es[1..][i - 1], d);
    }
  }

  /** The frame that says how the program ended, if waiting for it told. */
  function EndFrames(w: Wait): seq<Frame> {
    match w
    case Exited(code) => [Frame(EXIT, [Char(EXITED), Char(code)])]
    case Killed(signal) => [Frame(EXIT, [Char(SIGNALED), Char(signal)])]
    case _ => []
  }

  /** In every run: an output stays open until the program closes it; the program's end is
      noticed only once its outputs are closed, and then at the next tick at the latest,
      which sends the EXIT and ends the connection. */
  lemma EndsWhen(pty: bool, veof: char, inOk: bool, es: seq<Event>, w: Wait)
    ensures var s := Run(DoStart(Fresh(pty, veof), Started(inOk)), es);
            var t := Happens(s, Ticks(w));
            var over := ShutIn(es, Out) && (pty || ShutIn(es, Err));
            && (s.outOpen <==> !ShutIn(es, Out)) && (s.errOpen <==> !pty && !ShutIn(es, Err))
            && (s.reaped ==> over) && (s.shut <==> s.reaped)
            && (t.reaped <==> s.reaped || (over && !w.Running?)) && (t.shut <==> t.reaped)
            && t.sent == s.sent + if over && !s.reaped then EndFrames(w) else []
  {
    hide Run, ShutIn, DropInput;
    var s0 := DoStart(Fresh(pty, veof), Started(inOk));
    RunShuts(s0, es);
    MaybeFinishSends(Run(s0, es), w);
    assert Run(s0, es).sent + [] == Run(s0, es).sent;
  }

  // ---- when input is thrown away ----

  predicate GoneIn(answers: seq<Answer>) {
    exists i :: 0 <= i < |answers| && answers[i].Gone?
  }

  /** Nobody will read the program's input any more: a write says so, or a terminal closes. */
  predicate Abandons(e: Event, pty: bool) {
    match e
    case Arrives(_, answers) => GoneIn(answers)
    case Ready(d, input, answers, _) => if d.In? then GoneIn(answers) else pty && input.Closed?
    case Ticks(_) => false
  }

  lemma {:induction false} FlushDrops(s: Exec, answers: seq<Answer>)
    ensures Flush(s, answers).dropped ==> s.dropped || GoneIn(answers)
    decreases |answers|
  {
    hide WriteSome, DropInput;
    if s.inOpen && s.inbuf != "" && answers != [] {
      if answers[0].Gone? {
        assert GoneIn(answers);
      } else if answers[0].Wrote? {
        WriteTakes(s, answers[0].n);
        FlushDrops(WriteSome(s, answers[0].n), answers[1..]);
        assert forall i :: 0 <= i < |answers[1..]| ==> answers[1..][i] == answers[i + 1];
      }
    }
  }

  lemma {:induction false} HandleAllDrops(s: Exec, fs: seq<Frame>)
    ensures HandleAll(s, fs).dropped == s.dropped
    decreases |fs|
  {
    hide Handle;
    if fs != [] {
      HandleDrops(s, fs[0]);
      HandleAllDrops(Handle(s, fs[0]), fs[1..]);
    }
  }

  lemma HandleDrops(s: Exec, f: Frame)
    ensures Handle(s, f).dropped == s.dropped
  {
    hide Take, Pass, EndInput;
    TakeDrops(s, f);
    EndDrops(Pass(s, f));
  }

  lemma TakeDrops(s: Exec, f: Frame)
    ensures Take(s, f).dropped == s.dropped && Pass(s, f).dropped == s.dropped
  {}

  lemma EndDrops(s: Exec)
    ensures EndInput(s).dropped == s.dropped
  {}

  lemma ReadDrops(s: Exec, d: Descriptor, input: Input)
    ensures ReadOutput(s, d, input).dropped ==> s.dropped || (s.pty && input.Closed?)
  {
    hide DropInput;
  }

  lemma EventDrops(s: Exec, e: Event)
    ensures var t := Happens(s, e); t.dropped ==> s.dropped || t.reaped || Abandons(e, s.pty)
  {
    hide Flush, HandleAll, Parse, ReadOutput, MaybeFinish, GoneIn;
    match e
    case Arrives(b, answers) =>
      var p := Parse(s.ibuf + b);
      HandleAllDrops(Receive(s, b), p.frames);
      FlushDrops(Undecoded(HandleAll(Receive(s, b), p.frames), p.rest), answers);
    case Ready(d, input, answers, w) =>
      FlushDrops(s, answers);
      ReadDrops(s, d, input);
      MaybeFinishDrops(Before(s, e), w);
    case Ticks(w) => MaybeFinishDrops(s, w);
  }

  lemma MaybeFinishDrops(s: Exec, w: Wait)
    ensures MaybeFinish(s, w).dropped ==> s.dropped || MaybeFinish(s, w).reaped
  {
    hide DropInput;
    DropSilent(SendExit(s, EXITED, if w.Exited? then w.code else 0));
    DropSilent(SendExit(s, SIGNALED, if w.Killed? then w.signal else 0));
  }

  lemma {:induction false} RunDrops(s: Exec, es: seq<Event>)
    ensures var t := Run(s, es);
            t.dropped ==> s.dropped || t.reaped || exists i :: 0 <= i < |es| && Abandons(es[i], s.pty)
    decreases |es|
  {
    hide Happens, Abandons;
    if es != [] {
      var u := Happens(s, es[0]);
      EventDrops(s, es[0]);
      EventSends(s, es[0]);
      if u.reaped {
        ReapedStays(u, es[1..]);
      }
      RunDrops(u, es[1..]);
      assert forall i :: 0 <= i < |es[1..]| ==> es[1..][i] == es[i + 1];
    }
  }

  lemma {:induction false} ReapedStays(s: Exec, es: seq<Event>)
    requires s.reaped
    ensures Run(s, es).reaped
    decreases |es|
  {
    hide Happens;
    if es != [] {
      EventReaped(s, es[0]);
      ReapedStays(Happens(s, es[0]), es[1..]);
    }
  }

  lemma EventReaped(s: Exec, e: Event)
    requires s.reaped
    ensures Happens(s, e).reaped
  {
    hide Happens, MaybeFinish, Before;
    EventSends(s, e);
    BeforeSends(s, e);
    MaybeFinishSends(Before(s, e), WaitOf(e));
  }

  /** In every run input is thrown away only when a write finds nobody there, a terminal
      closes, there was no input to open, or the program has ended. */
  lemma DroppedWhen(pty: bool, veof: char, inOk: bool, es: seq<Event>)
    ensures var s := Run(DoStart(Fresh(pty, veof), Started(inOk)), es);
            s.dropped ==> (pty && !inOk) || s.reaped || exists i :: 0 <= i < |es| && Abandons(es[i], pty)
  {
    hide Run, Abandons, DropInput;
    RunDrops(DoStart(Fresh(pty, veof), Started(inOk)), es);
  }

  // ---- the class of the source ----

  class ExecPipeEnd {
    const pty: bool
    const veof: char
    var running: bool
    var inOpen: bool
    var outOpen: bool
    var errOpen: bool
    var ibuf: string
    var inbuf: string
    var synthetic: nat
    var eof: bool
    var reaped: bool
    var shut: bool
    var consumed: nat
    var received: string
    var seen: seq<Frame>
    var typed: string
    var written: string
    var dropped: bool
    var sent: seq<Frame>

    ghost function View(): Exec
      reads this
    {
      Exec(pty, veof, running, inOpen, outOpen, errOpen, ibuf, inbuf, synthetic, eof, reaped, shut, consumed,
           received, seen, typed, written, dropped, sent)
    }

    constructor (pty: bool, veof: char)
      ensures View() == Fresh(pty, veof)
    {
      this.pty, this.veof := pty, veof;
      running, inOpen, outOpen, errOpen := false, false, false, false;
      ibuf, inbuf, synthetic, eof := "", "", 0, false;
      reaped, shut, consumed, received, seen := false, false, 0, "", [];
      typed, written, dropped, sent := "", "", false, [];
    }

    method DoAccount(n: nat)
      modifies this`synthetic, this`consumed
      ensures View() == Account(old(View()), n)
    {
      var ours := if synthetic <= |inbuf| then |inbuf| - synthetic else 0;
      var k := Least(n, ours);
      synthetic := synthetic - Least(synthetic, n - k);
      consumed := consumed + k;
    }

    method DoDropInput()
      modifies this
      ensures View() == DropInput(old(View()))
    {
      hide Account;
      var lost := dropped || inbuf != "" || inOpen;
      DoAccount(|inbuf|);
      inbuf := "";
      inOpen := false;
      dropped := lost;
    }

    method DoWriteSome(n: nat)
      modifies this
      ensures View() == WriteSome(old(View()), n)
    {
      hide Account;
      var m := Least(if n == 0 then 1 else n, |inbuf|);
      DoAccount(m);
      written := written + inbuf[..m];
      inbuf := inbuf[m..];
    }

    /** flush_input: write what is held, as far as the program takes it. */
    method FlushInput(answers: seq<Answer>)
      modifies this
      ensures View() == Flush(old(View()), answers)
    {
      hide WriteSome, DropInput;
      ghost var s0 := View();
      var left := answers;
      while inOpen && inbuf != ""
        invariant Flush(s0, answers) == Flush(View(), left)
        decreases |left|
      {
        if left == [] || left[0].Full? {
          return;
        }
        if left[0].Gone? {
          DoDropInput();
          return;
        }
        DoWriteSome(left[0].n);
        left := left[1..];
      }
      if inOpen && eof && !pty {
        inOpen := false;
      }
    }

    method DoTake(f: Frame)
      modifies this`inbuf, this`typed, this`consumed, this`seen
      ensures View() == Take(old(View()), f)
    {
      inbuf := inbuf + f.payload;
      typed := typed + f.payload;
      consumed := consumed + 3;
      seen := seen + [f];
    }

    method DoPass(f: Frame)
      modifies this`consumed, this`seen
      ensures View() == Pass(old(View()), f)
    {
      consumed := consumed + 3 + |f.payload|;
      seen := seen + [f];
    }

    method DoEndInput()
      modifies this`eof, this`inbuf, this`typed, this`synthetic
      ensures View() == EndInput(old(View()))
    {
      eof := true;
      if pty && inOpen {
        inbuf := inbuf + [veof];
        typed := typed + [veof];
        synthetic := synthetic + 1;
      }
    }

    /** The body of on_tunnel_data's loop. */
    method DoHandle(f: Frame)
      modifies this`inbuf, this`typed, this`consumed, this`seen, this`eof, this`synthetic
      ensures View() == Handle(old(View()), f)
    {
      hide Take, Pass, EndInput;
      if f.kind == DATA && inOpen && !eof {
        DoTake(f);
        return;
      }
      var ends := f.kind == END_OF_INPUT && !eof;
      DoPass(f);
      if ends {
        DoEndInput();
      }
    }

    /** The decoding loop of on_tunnel_data: over a growing buffer it recognises what
        Parse does. */
    method DecodeFrames(buf: string) returns (rest: string)
      modifies this`inbuf, this`typed, this`consumed, this`seen, this`eof, this`synthetic
      ensures View() == HandleAll(old(View()), Parse(buf).frames) && rest == Parse(buf).rest
    {
      hide Handle, Whole, LengthOf, First, Parse, Tail, HandleAll;
      ghost var s1 := View();
      var done := 0;
      assert buf[0..] == buf;
      while Whole(buf[done..])
        invariant 0 <= done <= |buf|
        invariant Parse(buf).rest == Parse(buf[done..]).rest
        invariant HandleAll(s1, Parse(buf).frames) == HandleAll(View(), Parse(buf[done..]).frames)
        decreases |buf| - done
      {
        var t := buf[done..];
        ParseOnce(t);
        HandleOnce(View(), Parse(t).frames);
        DoHandle(First(t));
        done := done + 3 + LengthOf(t);
        assert buf[done..] == Tail(t);
      }
      ParseOnce(buf[done..]);
      HandleOnce(View(), []);
      rest := buf[done..];
    }

    method OnTunnelData(b: string, answers: seq<Answer>)
      modifies this
      ensures View() == TunnelData(old(View()), b, answers)
    {
      hide Flush, Parse, HandleAll, Receive, Undecoded;
      var buf := ibuf + b;
      DoReceive(b);
      var rest := DecodeFrames(buf);
      SetUndecoded(rest);
      FlushInput(answers);
    }

    method DoReceive(b: string)
      modifies this`received
      ensures View() == Receive(old(View()), b)
    {
      received := received + b;
    }

    method SetUndecoded(rest: string)
      modifies this`ibuf
      ensures View() == Undecoded(old(View()), rest)
    {
      ibuf := rest;
    }

    method DoSend(f: Frame)
      modifies this`sent
      ensures View() == Send(old(View()), f)
    {
      sent := sent + [f];
    }

    method DoFinish(how: nat, code: nat)
      modifies this
      ensures View() == Finish(old(View()), how, code)
    {
      hide DropInput, SendExit;
      DoSendExit(how, code);
      DoDropInput();
      shut := true;
    }

    method DoSendExit(how: nat, code: nat)
      modifies this`reaped, this`sent
      ensures View() == SendExit(old(View()), how, code)
    {
      reaped := true;
      sent := sent + [Frame(EXIT, [Char(how), Char(code)])];
    }

    method DoMaybeFinish(w: Wait)
      modifies this
      ensures View() == MaybeFinish(old(View()), w)
    {
      hide Finish;
      if reaped || !running || outOpen || errOpen {
        return;
      }
      match w
      case Running =>
      case Exited(code) => DoFinish(EXITED, code);
      case Killed(signal) => DoFinish(SIGNALED, signal);
      case Unknown => reaped, shut := true, true;
    }

    method OnFdReady(d: Descriptor, input: Input, answers: seq<Answer>, w: Wait)
      modifies this
      ensures View() == FdReady(old(View()), d, input, answers, w)
    {
      hide Flush, DropInput, MaybeFinish;
      if (d.In? && !inOpen) || (d.Out? && !outOpen) || (d.Err? && !errOpen) {
        return;
      }
      if d.In? {
        FlushInput(answers);
      } else if input.Bytes? {
        DoSend(Frame(if d.Err? then ERR else OUT, input.data));
      } else if input.Closed? {
        if d.Out? {
          outOpen := false;
        } else {
          errOpen := false;
        }
        if pty {
          DoDropInput();
        }
      }
      DoMaybeFinish(w);
    }
  }
}

/** What single events of the splicing daemon lead to, across its methods: the daemon's own
    words stand before the stream and before a closing, a closing client is waited for 30
    seconds, a paused client is watched again, and an owner that ends takes all with it. */
module SpliceOutcomes {
  import opened Wrappers
  import opened Splice
  import B = SpliceBytes
  import C = SpliceCredit
  import F = SpliceSockets
  import N = SpliceCounters
  import P = SplicePolling
  import R = SpliceRuns
  import T = SpliceTerms

  /** A state in which an outbound instance with a client socket of its own reads its
      whole answer, and that client is not reading. */
  ghost predicate AnswerCame(s: State, k: Key, b: string, fd: Fd, env: Env) {
    && R.Inv(s) && k in s.insts && s.insts[k].conn && !s.insts[k].inbound && !s.insts[k].open
    && s.insts[k].cfd == Some(fd) && '\n' in s.insts[k].lbuf + b
    && env.words != "" && env.first == [] && env.second == []
  }

  function Behind(s: State, k: Key, b: string): string
    requires k in s.insts
  {
    B.AfterLine(s.insts[k].lbuf + b)
  }

  /** Bytes for a client that does not read wait behind what waits already. */
  lemma Waits(s: State, k: Key, b: string, accounted: bool, fd: Fd)
    requires k in s.insts && s.insts[k].cfd == Some(fd) && b != "" && (fd in s.outs ==> !s.outs[fd].closing)
    ensures var o := C.OutOf(s, fd);
            ClientWrite(s, k, b, accounted, []) ==
              s.(outs := s.outs[fd := o.(q := o.q + [Chunk(Some(k), b, accounted)])], writing := s.writing + {fd})
  {
    hide Flush;
    var o := C.OutOf(s, fd);
    FlushOnce(s.(outs := s.outs[fd := o.(q := o.q + [Chunk(Some(k), b, accounted)])]), fd, []);
  }

  lemma NotClosing(s: State, k: Key, fd: Fd)
    requires R.Inv(s) && k in s.insts && s.insts[k].cfd == Some(fd)
    ensures fd in s.outs ==> !s.outs[fd].closing
  {
    F.NotDraining(s, k);
  }

  /** A handshake that is no line yet is collected, up to 256 bytes; more is garbage and
      ends the instance. */
  lemma NoLineYet(s: State, k: Key, b: string, env: Env)
    requires k in s.insts && k.session in s.sessions && s.insts[k].conn && !s.insts[k].open && '\n' !in s.insts[k].lbuf + b
    ensures var t := TunnelData(s, k, b, env);
            && (k in t.insts <==> |s.insts[k].lbuf + b| <= 256)
            && (k in t.insts ==> t == s.(insts := s.insts[k := t.insts[k]])
                                 && t.insts[k] == s.insts[k].(lbuf := s.insts[k].lbuf + b, log := t.insts[k].log))
  {
    hide CloseInstance;
    T.NewlineThere(s.insts[k].lbuf + b);
    C.CloseGone(Hear(s, k, b), k, env.now);
  }

  /** What an instance reads as its answer. */
  lemma AnswerLine(s: State, k: Key, b: string, env: Env)
    requires k in s.insts && k.session in s.sessions && s.insts[k].conn && !s.insts[k].open && '\n' in s.insts[k].lbuf + b
    ensures var u := Hear(s, k, b);
            TunnelData(s, k, b, env) == Leftover(Line(u, k, T.Asked(s, k, b), env), k, Behind(s, k, b), env)
  {
    hide Line, Leftover;
    T.NewlineThere(s.insts[k].lbuf + b);
  }

  /** A client learns that it is connected before the first byte of the stream. */
  lemma ReadyFirst(s: State, k: Key, b: string, fd: Fd, env: Env)
    requires AnswerCame(s, k, b, fd, env) && env.reply.Accepted?
    ensures var t := TunnelData(s, k, b, env);
            var rest := Behind(s, k, b);
            && k in t.insts && t.insts[k].open && (s.insts[k].owned ==> fd in t.reading)
            && fd in t.outs && fd in t.writing && t.insts[k].down == |rest|
            && t.outs[fd].q == C.OutOf(s, fd).q + [Chunk(Some(k), env.words, false)] + if rest == "" then [] else [Chunk(Some(k), rest, true)]
  {
    hide C.Credit, F.Sockets, N.Counters, Leftover, Line, ClientWrite, Data, TunnelData, Behind;
    T.SessionThere(s, k);
    NotClosing(s, k, fd);
    AnswerLine(s, k, b, env);
    FreshDown(s, k);
    var u := Hear(s, k, b);
    var v := u.(insts := u.insts[k := u.insts[k].(lbuf := "")]);
    Waits(v, k, env.words, false, fd);
    var w := ClientWrite(v, k, env.words, false, []);
    assert Line(u, k, T.Asked(s, k, b), env) == Bound(w, k) by {
      AcceptedLine(u, k, T.Asked(s, k, b), env);
    }
    LeftoverQueued(Bound(w, k), k, Behind(s, k, b), env, fd);
    assert w.outs[fd].q + [] == w.outs[fd].q;
  }

  lemma FreshDown(s: State, k: Key)
    requires C.Credit(s) && k in s.insts && !s.insts[k].open
    ensures s.insts[k].down == 0
  {
    hide C.Balanced;
    C.BalancedOf(s, k);
    C.FreshBooks(s.insts[k], C.Queued(s, k));
  }

  lemma AcceptedLine(s: State, k: Key, line: string, env: Env)
    requires k in s.insts && k.session in s.sessions && !s.insts[k].inbound && env.reply.Accepted?
    ensures var t := s.(insts := s.insts[k := s.insts[k].(lbuf := "")]);
            var u := ClientWrite(t, k, env.words, false, env.first);
            Line(s, k, line, env) == if k in u.insts then Bound(u, k) else u
  {
    hide ClientWrite, Bound;
  }

  lemma LeftoverQueued(s: State, k: Key, rest: string, env: Env, fd: Fd)
    requires k in s.insts && s.insts[k].open && s.insts[k].down == 0 && s.insts[k].cfd == Some(fd) && env.second == []
    requires fd in s.outs && !s.outs[fd].closing && fd in s.writing
    ensures var t := Leftover(s, k, rest, env);
            && k in t.insts && t.insts[k].open && t.insts[k].down == |rest| && t.reading == s.reading && fd in t.outs && fd in t.writing
            && t.outs[fd].q == s.outs[fd].q + if rest == "" then [] else [Chunk(Some(k), rest, true)]
  {
    hide ClientWrite;
    assert s.outs[fd].q + [] == s.outs[fd].q;
    if rest != "" {
      var u := s.(insts := s.insts[k := s.insts[k].(preacked := |rest|, early := |rest|, down := |rest|)]);
      Waits(u, k, rest, true, fd);
      var early := s.insts[k].(preacked := |rest|, early := |rest|);
      assert s.insts[k := early][k := early.(down := |rest|)] == u.insts;
      assert Leftover(s, k, rest, env) == ClientWrite(u, k, rest, true, []);
    }
  }

  /** Before an instance that cannot be served ends, its client is told why: the words
      wait to be written, and the socket is closed only after that, or 30 seconds on. */
  ghost predicate ToldWhy(s: State, t: State, k: Key, fd: Fd, words: string, now: nat) {
    && k !in t.insts && fd in t.outs && fd !in t.reading && fd in t.writing
    && t.outs[fd] == C.OutOf(s, fd).(q := C.OutOf(s, fd).q + [Chunk(Some(k), words, false)], closing := true, giveUp := now + 30000)
    && t.open == s.open && t.doubled == s.doubled
  }

  lemma FailTells(s: State, k: Key, fd: Fd, why: string, now: nat)
    requires k in s.insts && s.insts[k].owned && s.insts[k].cfd == Some(fd) && why != "" && (fd in s.outs ==> !s.outs[fd].closing)
    ensures ToldWhy(s, FailOpen(s, k, why, now, []), k, fd, why, now)
  {
    hide ClientWrite, Counted;
    Waits(s, k, why, false, fd);
    var t := ClientWrite(s, k, why, false, []);
    F.CountedUse(CloseClient(t, fd, now), k);
  }

  lemma RefusedTold(s: State, k: Key, b: string, fd: Fd, env: Env)
    requires AnswerCame(s, k, b, fd, env) && s.insts[k].owned && (env.reply.WrongKind? || (env.reply.Refused? && !s.insts[k].wait))
    ensures ToldWhy(s, TunnelData(s, k, b, env), k, fd, env.words, env.now)
  {
    hide C.Credit, F.Sockets, N.Counters, FailOpen, TunnelData, Behind;
    T.SessionThere(s, k);
    NotClosing(s, k, fd);
    AnswerLine(s, k, b, env);
    var u := Hear(s, k, b);
    FailTells(u.(insts := u.insts[k := u.insts[k].(lbuf := "")]), k, fd, env.words, env.now);
  }

  /** One that waits for the name to be registered gives up its connection only. */
  lemma RefusedRetries(s: State, k: Key, b: string, fd: Fd, env: Env)
    requires AnswerCame(s, k, b, fd, env) && env.reply.Refused? && s.insts[k].wait
    ensures var t := TunnelData(s, k, b, env);
            && t == s.(insts := s.insts[k := t.insts[k]])
            && t.insts[k] == s.insts[k].(lbuf := "", conn := false, log := t.insts[k].log)
  {
    hide C.Credit, F.Sockets, N.Counters, FailOpen, TunnelData, Behind;
    T.SessionThere(s, k);
    AnswerLine(s, k, b, env);
  }

  /** At its deadline an outbound instance that never got through is told so; one that has
      a connection, or is inbound, goes on. */
  lemma ExpiryTold(s: State, k: Key, fd: Fd, why: string, now: nat)
    requires R.Inv(s) && k in s.insts && why != ""
    ensures var t := Expire(s, k, why, now, []);
            var never := !s.insts[k].inbound && !s.insts[k].open && !s.insts[k].conn;
            && (k in t.insts <==> !never) && (!never ==> t == s)
            && (never && s.insts[k].owned && s.insts[k].cfd == Some(fd) ==> ToldWhy(s, t, k, fd, why, now))
  {
    hide R.Inv, FailOpen;
    B.FailedGone(s, k, why, now, []);
    if s.insts[k].owned && s.insts[k].cfd == Some(fd) {
      NotClosing(s, k, fd);
      FailTells(s, k, fd, why, now);
    }
  }

  /** A client that is closed with output left is waited for exactly 30 seconds. */
  lemma GivenUpWhen(s: State, fd: Fd, closed: nat, now: nat)
    requires fd in s.outs && s.outs[fd].q != [] && fd in s.open
    ensures var t := CloseClient(s, fd, closed);
            var u := GiveUp(t, fd, now);
            && fd in t.open && fd in t.outs && t.outs[fd].q == s.outs[fd].q && t.doubled == s.doubled
            && (fd in u.open <==> now < closed + 30000)
            && (now < closed + 30000 ==> u == t)
            && (now >= closed + 30000 ==> fd !in u.outs && fd !in u.writing && u.doubled == s.doubled)
  {}

  /** A client whose tunnel is full is left alone by the poller until there is room, then
      watched again just as before. */
  lemma PausedThenWatched(s: State, fd: Fd, outcome: Outcome, room: set<Key>, now: nat, later: set<Key>)
    requires fd in s.reading && s.reading[fd].Client?
    requires var k := s.reading[fd].key;
             k in s.insts && s.insts[k].open && s.insts[k].conn && s.insts[k].owned && s.insts[k].cfd == Some(fd) && k !in room
    ensures var k := s.reading[fd].key;
            var t := ClientReadable(s, fd, outcome, room, now);
            var u := ResumeClient(t, k, later);
            && fd !in t.reading && fd !in t.writing && t == s.(reading := t.reading, writing := t.writing)
            && u == if k in later then s.(writing := t.writing) else t
  {
    var k := s.reading[fd].key;
    var t := ClientReadable(s, fd, outcome, room, now);
    assert t.reading[fd := Client(k)] == s.reading;
  }

  /** Who reads an owner's bytes: the open instances of its registration's session that
      the peer started and that are on the socket. */
  predicate ReadsFrom(s: State, session: nat, fd: Fd, k: Key) {
    k in s.insts && k.session == session && s.insts[k].inbound && s.insts[k].open && s.insts[k].cfd == Some(fd)
  }

  /** An owner is read while it has readers and all have room; else it is left alone, and
      watched again just as before once that is so. */
  lemma OwnerPausedThenWatched(s: State, fd: Fd, n: nat, room: set<Key>, users: seq<Key>, now: nat, later: set<Key>)
    requires fd in s.reading && s.reading[fd].Owner? && fd !in s.paused
    ensures var session := s.reading[fd].reg.session;
            var t := OwnerReadable(s, fd, Bytes(n), room, users, now);
            var u := ResumeOwner(t, fd, later);
            var some := exists k :: ReadsFrom(s, session, fd, k);
            && t == (if some && (forall k :: ReadsFrom(s, session, fd, k) ==> k in room) then s
                     else s.(reading := s.reading - {fd}, paused := s.paused[fd := s.reading[fd]]))
            && (t != s ==> u == if some && (forall k :: ReadsFrom(s, session, fd, k) ==> k in later) then s else t)
  {
    hide CanRead, Readers;
    var session := s.reading[fd].reg.session;
    var t := OwnerReadable(s, fd, Bytes(n), room, users, now);
    ReadersRoom(s, session, fd, room);
    ReadersRoom(t, session, fd, later);
    assert forall k :: ReadsFrom(t, session, fd, k) == ReadsFrom(s, session, fd, k);
    if t != s {
      assert t.paused - {fd} == s.paused && t.reading[fd := s.reading[fd]] == s.reading;
    }
  }

  lemma ReadersRoom(s: State, session: nat, fd: Fd, room: set<Key>)
    ensures CanRead(s, session, fd, room) <==>
              (exists k :: ReadsFrom(s, session, fd, k)) && (forall k :: ReadsFrom(s, session, fd, k) ==> k in room)
  {
    assert forall k :: k in Readers(s, session, fd) <==> ReadsFrom(s, session, fd, k);
    if exists k :: ReadsFrom(s, session, fd, k) {
      var k :| ReadsFrom(s, session, fd, k);
      assert k in Readers(s, session, fd);
    }
  }

  /** A client with room that has gone takes its instance with it. */
  lemma ClientEnds(s: State, fd: Fd, room: set<Key>, now: nat)
    requires fd in s.reading && s.reading[fd].Client? && s.reading[fd].key in s.insts
    requires var k := s.reading[fd].key; s.insts[k].conn ==> k in room
    ensures var k := s.reading[fd].key;
            var t := ClientReadable(s, fd, Ended, room, now);
            && t.insts == s.insts - {k} && ClientReadable(s, fd, Nothing, room, now) == s
  {
    hide CloseInstance;
    R.CloseRemoves(s, s.reading[fd].key, now);
  }

  /** A lost connection ends an instance that was spliced, or came from the peer; a dial
      that failed is retried. */
  lemma GoneWhen(s: State, k: Key, now: nat)
    requires k in s.insts
    ensures var t := TunnelGone(s, k, now);
            if s.insts[k].inbound || s.insts[k].open then t.insts == s.insts - {k}
            else t == s.(insts := s.insts[k := s.insts[k].(conn := false)])
  {
    hide CloseInstance;
    R.CloseRemoves(s, k, now);
  }

  lemma {:induction false} AllClosed(s: State, ks: seq<Key>, now: nat)
    ensures CloseAll(s, ks, now).insts == s.insts - (set k | k in ks)
    decreases |ks|
  {
    hide CloseInstance;
    if ks == [] {
      assert s.insts - (set k | k in ks) == s.insts;
    } else {
      R.CloseRemoves(s, ks[0], now);
      AllClosed(CloseInstance(s, ks[0], now), ks[1..], now);
      assert (set k | k in ks) == {ks[0]} + (set k | k in ks[1..]);
    }
  }

  /** An owner that ends takes its registration and everybody on its socket with it, and
      nobody else. */
  lemma OwnerEnds(s: State, fd: Fd, room: set<Key>, users: seq<Key>, now: nat)
    requires fd in s.reading && s.reading[fd].Owner?
    requires forall k :: k in users <==> k in Users(s, s.reading[fd].reg.session, fd)
    ensures var w := s.reading[fd];
            var t := OwnerReadable(s, fd, Ended, room, users, now);
            && t.insts == s.insts - Users(s, w.reg.session, fd)
            && (forall r :: r in t.regs <==> r in s.regs && !(r == w.reg && s.regs[r].serial == w.serial))
            && !InstUsesInbound(t, w.reg.session, fd)
  {
    hide CloseAll, Unregister, Users;
    var w := s.reading[fd];
    var t := s.(paused := s.paused - {fd});
    var u := if w.reg in t.regs && t.regs[w.reg].serial == w.serial then Unregister(t, w.reg, now) else t;
    T.UnregisterIs(t, w.reg, now);
    AllClosed(u, users, now);
    R.AllRemoved(u, users, now);
    assert (set k | k in users) == Users(s, w.reg.session, fd);
    assert forall r :: r in u.regs <==> r in CloseAll(u, users, now).regs.Keys;
    UsersAll(s, w.reg.session, fd);
  }

  predicate InstUsesInbound(s: State, session: nat, fd: Fd) {
    exists k :: k in s.insts && k.session == session && s.insts[k].inbound && s.insts[k].cfd == Some(fd)
  }

  lemma UsersAll(s: State, session: nat, fd: Fd)
    ensures forall k :: k in s.insts && k.session == session && s.insts[k].inbound && s.insts[k].cfd == Some(fd) ==> k in Users(s, session, fd)
  {}

  // ---- whose line it is ----

  function FirstLine(b: string): string {
    b[..Newline(b)]
  }

  /** The line an instance reads is the first line of its connection exactly when no
      connection before left anything in the line buffer. */
  lemma OwnLineWhen(es: seq<R.Event>, k: Key, b: string)
    requires R.PossibleRun(EMPTY, es) && k in R.Run(EMPTY, es).insts
    requires var i := R.Run(EMPTY, es).insts[k]; i.conn && !i.open && '\n' in i.lbuf + b
    ensures var s := R.Run(EMPTY, es);
            var heard := B.Arrived(EMPTY, es, k, "");
            '\n' in heard + b && (T.Asked(s, k, b) == FirstLine(heard + b) <==> |s.insts[k].lbuf| == |heard|)
  {
    hide R.Run, R.PossibleRun, R.Inv, B.Arrived, B.Given, B.AfterLine;
    R.EmptyInv();
    B.RunTells(EMPTY, es, k, "");
    LineOfBoth(R.Run(EMPTY, es).insts[k].lbuf, B.Arrived(EMPTY, es, k, ""), b);
  }

  lemma LineOfBoth(lbuf: string, heard: string, b: string)
    requires B.EndsWith(lbuf, heard) && '\n' !in lbuf && '\n' in lbuf + b
    ensures '\n' in heard + b && (FirstLine(lbuf + b) == FirstLine(heard + b) <==> |lbuf| == |heard|)
  {
    var before := lbuf[..|lbuf| - |heard|];
    assert lbuf == before + heard;
    assert '\n' !in before && '\n' in b;
    B.EndsWithMore(before, heard, b);
    B.NewlineBehind(before, heard + b);
    if before == "" {
      assert lbuf == heard;
    } else {
      assert |FirstLine(lbuf + b)| == |before| + |FirstLine(heard + b)|;
    }
  }

  const STALE: seq<R.Event> := [R.Arrives(P.CALL, "UN", P.WELCOME), R.Goes(P.CALL, 0), R.Dials(P.CALL, true)]

  /** A connection that is lost after "UN" leaves that for the next: the peer's "OK PIPE"
      is then read as "UNOK PIPE". */
  lemma StaleLine()
    ensures R.PossibleRun(EMPTY, P.CONNECTING + STALE)
    ensures var s := R.Run(EMPTY, P.CONNECTING + STALE);
            P.CALL in s.insts && s.insts[P.CALL].conn && T.Asked(s, P.CALL, "OK PIPE\n") == "UNOK PIPE"
  {
    P.Connected();
    var s3 := P.Calling(P.Caller(false, 0, ""), map[], map[], {});
    var left := P.Caller(false, 0, "UN").(lbuf := "UN");
    var s4 := P.Calling(left, map[], map[], {});
    Collected(s3, s4);
    var s5 := R.Happens(s4, STALE[1]);
    var s6 := R.Happens(s5, STALE[2]);
    assert s6.insts[P.CALL] == left.(log := NO_LOG);
    P.OneMore(s5, STALE[2..]);
    P.OneMore(s4, STALE[1..]);
    P.OneMore(s3, STALE);
    UnokPipe();
    hide R.Run, R.PossibleRun;
    P.RunThen(EMPTY, P.CONNECTING, STALE);
  }

  lemma Collected(s: State, t: State)
    requires s == P.Calling(P.Caller(false, 0, ""), map[], map[], {})
    requires t == P.Calling(P.Caller(false, 0, "UN").(lbuf := "UN"), map[], map[], {})
    ensures R.Happens(s, STALE[0]) == t
  {
    assert "" + "UN" == "UN" && "UN"[1..] == "N" && "N"[1..] == "";
    assert Newline("UN") == 2;
  }

  lemma UnokPipe()
    ensures FirstLine("UN" + "OK PIPE\n") == "UNOK PIPE"
  {
    B.NewlineBehind("UNOK PIPE", "\n");
    assert "UN" + "OK PIPE\n" == "UNOK PIPE" + "\n";
    assert ("UNOK PIPE" + "\n")[..9] == "UNOK PIPE";
  }
}

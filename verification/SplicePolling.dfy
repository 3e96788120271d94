/** When the output queued for a client is polled for (src/peer/daemon.cpp:655-680,
    791-838, 1144-1158). A client whose tunnel is full is taken off the poller altogether,
    for writing too, and only its reader comes back: its output then waits until the next
    bytes arrive for it, and for ever if it is closed before that. */
module SplicePolling {
  import opened Wrappers
  import opened Splice
  import F = SpliceSockets
  import R = SpliceRuns
  import C = SpliceCredit

  // ---- one operation and one socket ----

  /** Whatever is queued is polled for. */
  predicate Polled(s: State, fd: Fd) {
    fd in s.outs ==> fd in s.writing
  }

  predicate Closing(s: State, fd: Fd) {
    fd in s.outs && s.outs[fd].closing && s.outs[fd].q != []
  }

  /** The same bytes, none of them written. */
  predicate Unwritten(o: Out, p: Out) {
    p.off == o.off && |p.q| == |o.q| && forall i :: 0 <= i < |o.q| ==> p.q[i].data == o.q[i].data
  }

  /** No output was queued for the socket, polled for or written; a closing socket that
      has output left still has all of it. */
  ghost predicate Quiet(s: State, t: State, fd: Fd) {
    && (fd in t.outs ==> fd in s.outs && (fd in t.writing <==> fd in s.writing))
    && (Closing(s, fd) ==> Closing(t, fd) && Unwritten(s.outs[fd], t.outs[fd]))
  }

  /** That, or output was queued and flushed. */
  ghost predicate Moves(s: State, t: State, fd: Fd) {
    Quiet(s, t, fd) || (Polled(t, fd) && !Closing(s, fd))
  }

  /** No instance is new, none goes back, and only an open one's socket is watched. */
  ghost predicate Onward(s: State, t: State) {
    && (forall k :: k in t.insts ==> k in s.insts && Later(s.insts[k], t.insts[k]))
    && (forall f :: f in t.reading && t.reading[f].Client? ==>
          (f in s.reading && s.reading[f] == t.reading[f]) || OpenIn(t, t.reading[f].key))
  }

  predicate Later(i: Instance, j: Instance) {
    i.open ==> j.open
  }

  predicate OpenIn(s: State, k: Key) {
    k in s.insts ==> s.insts[k].open
  }

  /** Nobody joins the socket. */
  ghost predicate NoneJoins(s: State, t: State, fd: Fd) {
    && (forall k :: k in t.insts && t.insts[k].cfd == Some(fd) ==> k in s.insts && s.insts[k].cfd == Some(fd))
    && (forall r :: r in t.regs && t.regs[r].owner == Some(fd) ==> r in s.regs && s.regs[r].owner == Some(fd))
  }

  /** All three. */
  ghost predicate Passes(s: State, t: State, fd: Fd) {
    Quiet(s, t, fd) && Onward(s, t) && NoneJoins(s, t, fd)
  }

  lemma PassesThen(s: State, t: State, u: State, fd: Fd)
    requires Passes(s, t, fd) && Passes(t, u, fd)
    ensures Passes(s, u, fd)
  {
    assert Quiet(s, u, fd) by {
      hide Onward, NoneJoins;
    }
    assert Onward(s, u) && NoneJoins(s, u, fd) by {
      hide Quiet;
    }
  }

  lemma MovesThen(s: State, t: State, u: State, fd: Fd)
    requires Moves(s, t, fd) && Moves(t, u, fd)
    ensures Moves(s, u, fd)
  {}

  lemma OnwardThen(s: State, t: State, u: State)
    requires Onward(s, t) && Onward(t, u)
    ensures Onward(s, u)
  {}

  /** The same registrations and instances, and nothing new is watched. */
  lemma SameUsersPass(s: State, t: State, fd: Fd)
    requires t.insts == s.insts && t.regs == s.regs
    requires forall f :: f in t.reading ==> f in s.reading && t.reading[f] == s.reading[f]
    ensures Onward(s, t) && NoneJoins(s, t, fd)
  {}

  // ---- closing ----

  lemma CloseClientPasses(s: State, fd: Fd, now: nat, x: Fd)
    ensures Passes(s, CloseClient(s, fd, now), x)
  {
    hide CloseClient, Quiet, Onward, NoneJoins;
    CloseClientFrame(s, fd, now);
    SameUsersPass(s, CloseClient(s, fd, now), x);
    CloseClientQuiet(s, fd, now, x);
  }

  lemma CloseClientQuiet(s: State, fd: Fd, now: nat, x: Fd)
    ensures Quiet(s, CloseClient(s, fd, now), x)
  {
    if x != fd {
      hide CloseClient, Unwritten;
      var t := CloseClient(s, fd, now);
      CloseClientFrame(s, fd, now);
      F.OffByMap(s.outs, t.outs, fd, x);
      assert x in t.writing - {fd} <==> x in s.writing - {fd};
      SelfUnwritten(if x in s.outs then s.outs[x] else Out([], 0, false, 0));
    }
  }

  lemma SelfUnwritten(o: Out)
    ensures Unwritten(o, o)
  {}

  lemma ReleasePasses(s: State, session: nat, fd: Fd, now: nat, x: Fd)
    ensures Passes(s, Release(s, session, fd, now), x)
  {
    hide CloseClient;
    var t := s.(reading := s.reading - {fd});
    CloseClientPasses(t, fd, now, x);
    PassesThen(s, t, CloseClient(t, fd, now), x);
  }

  lemma UnregisterPasses(s: State, r: Name, now: nat, x: Fd)
    ensures Passes(s, Unregister(s, r, now), x)
  {
    hide Release;
    if r in s.regs {
      var t := s.(regs := s.regs - {r});
      var fd := if s.regs[r].owner.Some? then s.regs[r].owner.value else 0;
      ReleasePasses(t, r.session, fd, now, x);
      PassesThen(s, t, Release(t, r.session, fd, now), x);
    }
  }

  lemma CountedPasses(s: State, k: Key, x: Fd)
    ensures var t := Counted(s, k);
            Passes(s, t.(insts := t.insts - {k}), x)
  {}

  lemma CloseInstancePasses(s: State, k: Key, now: nat, x: Fd)
    ensures Passes(s, CloseInstance(s, k, now), x)
  {
    hide CloseClient, Release, Counted, Passes;
    if k in s.insts {
      var i := s.insts[k];
      var fd := if i.cfd.Some? then i.cfd.value else 0;
      CloseClientPasses(s, fd, now, x);
      var t := if i.cfd.Some? && i.owned then CloseClient(s, fd, now) else s;
      SelfPasses(s, x);
      var u := Counted(t, k);
      var v := u.(insts := u.insts - {k});
      CountedPasses(t, k, x);
      PassesThen(s, t, v, x);
      ReleasePasses(v, k.session, fd, now, x);
      PassesThen(s, v, Release(v, k.session, fd, now), x);
    } else {
      SelfPasses(s, x);
    }
  }

  lemma SelfPasses(s: State, fd: Fd)
    ensures Passes(s, s, fd)
  {}

  lemma {:induction false} CloseAllPasses(s: State, ks: seq<Key>, now: nat, x: Fd)
    ensures Passes(s, CloseAll(s, ks, now), x)
    decreases |ks|
  {
    hide CloseInstance, Passes;
    if ks == [] {
      SelfPasses(s, x);
    } else {
      CloseInstancePasses(s, ks[0], now, x);
      CloseAllPasses(CloseInstance(s, ks[0], now), ks[1..], now, x);
      PassesThen(s, CloseInstance(s, ks[0], now), CloseAll(s, ks, now), x);
    }
  }

  lemma {:induction false} CloseOwnersPasses(s: State, names: seq<Name>, now: nat, x: Fd)
    ensures Passes(s, CloseOwners(s, names, now), x)
    decreases |names|
  {
    hide CloseClient, Passes;
    SelfPasses(s, x);
    if names != [] {
      var fd := if names[0] in s.regs && s.regs[names[0]].owner.Some? then s.regs[names[0]].owner.value else 0;
      CloseClientPasses(s, fd, now, x);
      var t := if names[0] in s.regs && s.regs[names[0]].owner.Some? then CloseClient(s, fd, now) else s;
      CloseOwnersPasses(t, names[1..], now, x);
      PassesThen(s, t, CloseOwners(s, names, now), x);
    }
  }

  lemma DropPasses(s: State, session: nat, ids: seq<Key>, names: seq<Name>, now: nat, x: Fd)
    ensures Passes(s, DropSession(s, session, ids, names, now), x)
  {
    hide CloseAll, CloseOwners;
    if session in s.sessions {
      CloseAllPasses(s, ids, now, x);
      var c := CloseAll(s, ids, now);
      CloseOwnersPasses(c, names, now, x);
      var o := CloseOwners(c, names, now);
      PassesThen(s, c, o, x);
      LeavesPasses(o, session, DropSession(s, session, ids, names, now), x);
      hide DropSession, Passes;
      PassesThen(s, o, DropSession(s, session, ids, names, now), x);
    } else {
      SelfPasses(s, x);
    }
  }

  /** The tables of a session go, and its chunks lose their names. */
  lemma LeavesPasses(s: State, session: nat, t: State, x: Fd)
    requires t.insts == s.insts && t.reading == s.reading && t.writing == s.writing
    requires forall r :: r in t.regs ==> r in s.regs && t.regs[r] == s.regs[r]
    requires t.outs == map fd | fd in s.outs :: s.outs[fd].(q := Unlinked(s.outs[fd].q, session))
    ensures Passes(s, t, x)
  {}

  lemma {:induction false} RetirePasses(s: State, session: nat, serials: seq<nat>, now: nat, x: Fd)
    ensures Passes(s, Retire(s, session, serials, now), x)
    decreases |serials|
  {
    hide Unregister, Passes;
    SelfPasses(s, x);
    if serials != [] {
      if exists r :: Serves(s, session, serials[0], r) {
        var r :| Serves(s, session, serials[0], r) && Retire(s, session, serials, now) == Retire(Unregister(s, r, now), session, serials[1..], now);
        var t := Unregister(s, r, now);
        UnregisterPasses(s, r, now, x);
        RetirePasses(t, session, serials[1..], now, x);
        PassesThen(s, t, Retire(t, session, serials[1..], now), x);
      } else {
        RetirePasses(s, session, serials[1..], now, x);
      }
    }
  }

  lemma RetireTickPasses(s: State, session: nat, now: nat, x: Fd)
    requires session in s.sessions
    ensures Passes(s, RetireTick(s, session, now), x)
  {
    hide Retire;
    RetirePasses(s, session, s.sessions[session].retire, now, x);
  }

  // ---- reading ----

  lemma OwnerReadablePasses(s: State, fd: Fd, outcome: Outcome, room: set<Key>, users: seq<Key>, now: nat, x: Fd)
    ensures Passes(s, OwnerReadable(s, fd, outcome, room, users, now), x)
  {
    hide CanRead, Unregister, CloseAll;
    if fd in s.reading && s.reading[fd].Owner? && outcome.Ended? {
      var w := s.reading[fd];
      var t := s.(paused := s.paused - {fd});
      var u := if w.reg in t.regs && t.regs[w.reg].serial == w.serial then Unregister(t, w.reg, now) else t;
      assert Passes(s, t, x);
      SelfPasses(t, x);
      UnregisterPasses(t, w.reg, now, x);
      assert Passes(t, u, x);
      PassesThen(s, t, u, x);
      CloseAllPasses(u, users, now, x);
      PassesThen(s, u, CloseAll(u, users, now), x);
    }
  }

  lemma ResumeOwnerPasses(s: State, fd: Fd, room: set<Key>, x: Fd)
    ensures Passes(s, ResumeOwner(s, fd, room), x)
  {
    hide CanRead;
  }

  /** The socket of an open instance is watched. */
  lemma WatchPasses(s: State, t: State, fd: Fd, k: Key, x: Fd)
    requires t == s.(reading := s.reading[fd := Client(k)]) && OpenIn(s, k)
    ensures Passes(s, t, x)
  {
    assert Onward(s, t) && NoneJoins(s, t, x) by {
      hide Quiet;
    }
    assert Quiet(s, t, x) by {
      hide Onward, NoneJoins;
    }
  }

  lemma ResumeClientPasses(s: State, k: Key, room: set<Key>, x: Fd)
    ensures Passes(s, ResumeClient(s, k, room), x)
  {
    hide Passes;
    SelfPasses(s, x);
    if k in s.insts && s.insts[k].open && s.insts[k].cfd.Some? {
      var fd := s.insts[k].cfd.value;
      WatchPasses(s, s.(reading := s.reading[fd := Client(k)]), fd, k, x);
    }
  }

  // ---- writing ----

  lemma {:induction false} FlushMoves(s: State, fd: Fd, answers: seq<Answer>, x: Fd)
    ensures var t := Flush(s, fd, answers);
            && Onward(s, t) && NoneJoins(s, t, x)
            && (x != fd ==> Quiet(s, t, x))
            && (fd in s.outs ==> Polled(t, fd))
    decreases |answers|
  {
    hide Flush, AccountRest, Written, Flushed, Forfeited, Onward, NoneJoins, Quiet;
    FlushOnce(s, fd, answers);
    SelfPasses(s, x);
    if fd in s.outs {
      F.FlushPolls(s, fd, answers);
      if s.outs[fd].q == [] {
        FlushedMoves(s, fd, x);
      } else if answers == [] || answers[0].Again? {
        WaitsMoves(s, fd, x);
      } else if answers[0].Dead? {
        var f := Forfeited(s, s.outs[fd].q);
        LogPasses(s, f, x) by { ForfeitedLog(s, s.outs[fd].q); }
        var t := AccountRest(f, s.outs[fd].q, s.outs[fd].off);
        RestMoves(f, s.outs[fd].q, s.outs[fd].off, x);
        FlushThen(s, f, t, fd, x);
        FlushedMoves(t, fd, x);
        FlushThen(s, t, Flushed(t, fd), fd, x);
      } else {
        var t := Written(s, fd, Taken(s.outs[fd], answers[0].n));
        WrittenMoves(s, fd, Taken(s.outs[fd], answers[0].n), x);
        FlushMoves(t, fd, answers[1..], x);
        FlushThen(s, t, Flush(t, fd, answers[1..]), fd, x);
      }
    }
  }

  lemma FlushThen(s: State, t: State, u: State, fd: Fd, x: Fd)
    requires Onward(s, t) && NoneJoins(s, t, x) && (x != fd ==> Quiet(s, t, x))
    requires Onward(t, u) && NoneJoins(t, u, x) && (x != fd ==> Quiet(t, u, x))
    ensures Onward(s, u) && NoneJoins(s, u, x) && (x != fd ==> Quiet(s, u, x))
  {
    OnwardThen(s, t, u);
    if x != fd {
      PassesThen(s, t, u, x);
    }
  }

  lemma FlushedMoves(s: State, fd: Fd, x: Fd)
    requires fd in s.outs
    ensures var t := Flushed(s, fd);
            Onward(s, t) && NoneJoins(s, t, x) && (x != fd ==> Quiet(s, t, x))
  {
    var t := Flushed(s, fd);
    hide Onward, NoneJoins, Quiet;
    assert t.insts == s.insts && t.regs == s.regs && t.reading == s.reading;
    SameUsersPass(s, t, x);
    F.ErasedOff(s.writing, fd);
    F.UpdatedOff(s.outs, fd, s.outs[fd]);
    QuietOff(s, Flushed(s, fd), fd, x);
  }

  /** Only one socket's output changes. */
  lemma QuietOff(s: State, t: State, fd: Fd, x: Fd)
    requires t.outs - {fd} == s.outs - {fd} && t.writing - {fd} == s.writing - {fd}
    ensures x != fd ==> Quiet(s, t, x)
  {
    if x != fd {
      F.OffByMap(s.outs, t.outs, fd, x);
      F.OffBySet(s.writing, t.writing, fd, x);
    }
  }

  lemma WaitsMoves(s: State, fd: Fd, x: Fd)
    ensures var t := s.(writing := s.writing + {fd});
            Onward(s, t) && NoneJoins(s, t, x) && (x != fd ==> Quiet(s, t, x))
  {
    SameUsersPass(s, s.(writing := s.writing + {fd}), x);
    hide Onward, NoneJoins;
  }

  /** Accounting changes neither users nor queues. */
  lemma ChunkMoves(s: State, c: Chunk, n: nat, fd: Fd)
    ensures Passes(s, AccountChunk(s, c, n), fd)
  {}

  lemma {:induction false} RestMoves(s: State, q: seq<Chunk>, off: nat, fd: Fd)
    ensures Passes(s, AccountRest(s, q, off), fd)
    decreases |q|
  {
    hide AccountChunk, Passes;
    SelfPasses(s, fd);
    if q != [] {
      var t := AccountChunk(s, q[0], Left(q[0], off));
      ChunkMoves(s, q[0], Left(q[0], off), fd);
      RestMoves(t, q[1..], 0, fd);
      PassesThen(s, t, AccountRest(t, q[1..], 0), fd);
    }
  }

  lemma MovedMoves(s: State, fd: Fd, n: nat, x: Fd)
    requires fd in s.outs && s.outs[fd].q != []
    ensures var t := Moved(s, fd, n);
            Onward(s, t) && NoneJoins(s, t, x) && (x != fd ==> Quiet(s, t, x))
  {
    hide AccountChunk;
    var t := AccountChunk(s, s.outs[fd].q[0], n);
    ChunkMoves(s, s.outs[fd].q[0], n, x);
    F.ChunkUse(s, s.outs[fd].q[0], n);
    var u := t.(outs := s.outs[fd := Advance(s.outs[fd], n)]);
    SameUsersPass(t, u, x);
    assert x != fd ==> Quiet(t, u, x) by {
      hide Onward, NoneJoins;
    }
    FlushThen(s, t, u, fd, x);
  }

  lemma WrittenMoves(s: State, fd: Fd, n: nat, x: Fd)
    requires fd in s.outs && s.outs[fd].q != []
    ensures var t := Written(s, fd, n);
            Onward(s, t) && NoneJoins(s, t, x) && (x != fd ==> Quiet(s, t, x))
  {
    hide Moved, Handed, Piece, Onward, NoneJoins, Quiet;
    var o, m := s.outs[fd], Moved(s, fd, n);
    MovedMoves(s, fd, n, x);
    LogPasses(m, Written(s, fd, n), x) by { HandedLog(m, o.q[0], Piece(o.q[0].data, o.off, n)); }
    FlushThen(s, m, Written(s, fd, n), fd, x);
  }

  /** Logs have nothing to do with polling. */
  lemma LogPasses(s: State, t: State, fd: Fd)
    requires LogOnly(s, t)
    ensures Passes(s, t, fd)
  {
    assert Onward(s, t) && NoneJoins(s, t, fd) by {
      hide Quiet;
      assert forall k :: k in s.insts ==> t.insts[k] == s.insts[k].(log := t.insts[k].log);
    }
    assert Quiet(s, t, fd) by {
      hide Onward, NoneJoins;
    }
  }

  /** The instance is not on the socket, and no registration is. */
  ghost predicate Apart(s: State, k: Key, fd: Fd) {
    !(k in s.insts && s.insts[k].cfd == Some(fd)) && forall r :: r in s.regs ==> s.regs[r].owner != Some(fd)
  }

  /** What an instance's operations do to any socket. */
  ghost predicate Writes(s: State, t: State, k: Key, fd: Fd) {
    && Onward(s, t) && Moves(s, t, fd)
    && (Apart(s, k, fd) ==> Quiet(s, t, fd) && NoneJoins(s, t, fd))
  }

  lemma PassesWrite(s: State, t: State, k: Key, fd: Fd)
    requires Passes(s, t, fd)
    ensures Writes(s, t, k, fd)
  {
    hide Quiet, Onward, NoneJoins;
  }

  lemma WritesThen(s: State, t: State, u: State, k: Key, fd: Fd)
    requires Writes(s, t, k, fd) && Writes(t, u, k, fd)
    ensures Writes(s, u, k, fd)
  {
    OnwardThen(s, t, u);
    assert Moves(s, u, fd) by {
      MovesThen(s, t, u, fd);
    }
    if Apart(s, k, fd) {
      assert Apart(t, k, fd) by {
        hide Onward, Quiet;
      }
      PassesThen(s, t, u, fd);
    }
  }

  lemma ClientWriteWrites(s: State, k: Key, b: string, accounted: bool, answers: seq<Answer>, x: Fd)
    ensures var t := ClientWrite(s, k, b, accounted, answers);
            && Writes(s, t, k, x)
            && (k in s.insts && s.insts[k].cfd == Some(x) && b != "" && !(x in s.outs && s.outs[x].closing) ==> Polled(t, x))
  {
    hide Flush, Onward, NoneJoins, Quiet;
    SelfPasses(s, x);
    if k in s.insts && s.insts[k].cfd.Some? && b != "" {
      var fd := s.insts[k].cfd.value;
      var o := if fd in s.outs then s.outs[fd] else Out([], 0, false, 0);
      if o.closing {
        ChunkMoves(s, Chunk(Some(k), b, true), |b|, x);
      } else {
        var t := s.(outs := s.outs[fd := o.(q := o.q + [Chunk(Some(k), b, accounted)])]);
        QueuedMoves(s, t, fd, x);
        FlushMoves(t, fd, answers, x);
        FlushThen(s, t, Flush(t, fd, answers), fd, x);
      }
    }
  }

  lemma QueuedMoves(s: State, t: State, fd: Fd, x: Fd)
    requires fd in t.outs && t == s.(outs := s.outs[fd := t.outs[fd]])
    ensures Onward(s, t) && NoneJoins(s, t, x) && (x != fd ==> Quiet(s, t, x))
  {
    SameUsersPass(s, t, x);
    hide Onward, NoneJoins;
  }

  /** An instance is rewritten where it is. */
  lemma RewriteWrites(s: State, t: State, k: Key, x: Fd)
    requires k in s.insts && k in t.insts && t == s.(insts := s.insts[k := t.insts[k]])
    requires Later(s.insts[k], t.insts[k]) && t.insts[k].cfd == s.insts[k].cfd
    ensures Writes(s, t, k, x) && Passes(s, t, x)
  {
    assert Onward(s, t) && NoneJoins(s, t, x) by {
      hide Quiet;
    }
    assert Quiet(s, t, x) by {
      hide Onward, NoneJoins;
    }
  }

  lemma DataWrites(s: State, k: Key, b: string, answers: seq<Answer>, x: Fd)
    requires k in s.insts
    ensures var t := Data(s, k, b, answers);
            && Writes(s, t, k, x)
            && (s.insts[k].cfd == Some(x) && b != "" && !(x in s.outs && s.outs[x].closing) ==> Polled(t, x))
  {
    hide ClientWrite, Writes;
    var t := s.(insts := s.insts[k := s.insts[k].(down := s.insts[k].down + |b|)]);
    RewriteWrites(s, t, k, x);
    ClientWriteWrites(t, k, b, true, answers, x);
    WritesThen(s, t, ClientWrite(t, k, b, true, answers), k, x);
  }

  lemma CloseWrites(s: State, k: Key, now: nat, x: Fd)
    ensures Writes(s, CloseInstance(s, k, now), k, x)
  {
    hide CloseInstance, Writes, Passes;
    CloseInstancePasses(s, k, now, x);
    PassesWrite(s, CloseInstance(s, k, now), k, x);
  }

  lemma FailOpenWrites(s: State, k: Key, why: string, now: nat, answers: seq<Answer>, x: Fd)
    ensures Writes(s, FailOpen(s, k, why, now, answers), k, x)
  {
    hide CloseInstance, ClientWrite, Writes;
    var t := if k in s.insts && s.insts[k].owned then ClientWrite(s, k, why, false, answers) else s;
    ClientWriteWrites(s, k, why, false, answers, x);
    SelfPasses(s, x);
    PassesWrite(s, s, k, x);
    CloseWrites(t, k, now, x);
    WritesThen(s, t, CloseInstance(t, k, now), k, x);
  }

  lemma BoundWrites(s: State, k: Key, x: Fd)
    requires k in s.insts
    ensures Writes(s, Bound(s, k), k, x)
  {
    hide Writes;
    var t := s.(insts := s.insts[k := s.insts[k].(open := true)]);
    RewriteWrites(s, t, k, x);
    var fd := if s.insts[k].cfd.Some? then s.insts[k].cfd.value else 0;
    var u := t.(reading := t.reading[fd := Client(k)]);
    WatchPasses(t, u, fd, k, x);
    PassesWrite(t, u, k, x);
    WritesThen(s, t, u, k, x);
  }

  /** The instance joins its registration's socket, and no other. */
  lemma ServeWrites(s: State, k: Key, line: string, x: Fd)
    requires k in s.insts && k.session in s.sessions && Name(k.session, line) in s.regs
    ensures Writes(s, Serve(s, k, line), k, x)
  {
    var t := Serve(s, k, line);
    assert Onward(s, t) by {
      hide Quiet, NoneJoins;
    }
    assert Apart(s, k, x) ==> NoneJoins(s, t, x) by {
      hide Quiet, Onward;
    }
    assert Quiet(s, t, x) by {
      hide Onward, NoneJoins;
    }
  }

  lemma InboundWrites(s: State, k: Key, line: string, env: Env, x: Fd)
    requires k in s.insts && k.session in s.sessions && s.insts[k].inbound
    ensures Writes(s, Line(s, k, line, env), k, x)
  {
    hide CloseInstance, Serve, Writes;
    var i := s.insts[k];
    var t := s.(insts := s.insts[k := i.(lbuf := "", reg := if line in META then i.reg else line)]);
    RewriteWrites(s, t, k, x);
    var r := Name(k.session, line);
    if line in META || r !in s.regs || !HasRoom(s.regs[r]) {
      CloseWrites(t, k, env.now, x);
      WritesThen(s, t, CloseInstance(t, k, env.now), k, x);
    } else {
      ServeWrites(t, k, line, x);
      WritesThen(s, t, Serve(t, k, line), k, x);
    }
  }

  lemma OutboundWrites(s: State, k: Key, line: string, env: Env, x: Fd)
    requires k in s.insts && k.session in s.sessions && !s.insts[k].inbound
    ensures Writes(s, Line(s, k, line, env), k, x)
  {
    hide FailOpen, ClientWrite, Bound, Writes;
    var i := s.insts[k];
    var t := s.(insts := s.insts[k := i.(lbuf := "")]);
    RewriteWrites(s, t, k, x);
    FailOpenWrites(t, k, env.words, env.now, env.first, x);
    WritesThen(s, t, FailOpen(t, k, env.words, env.now, env.first), k, x);
    if env.reply.Accepted? {
      var u := ClientWrite(t, k, env.words, false, env.first);
      ClientWriteWrites(t, k, env.words, false, env.first, x);
      WritesThen(s, t, u, k, x);
      if k in u.insts {
        BoundWrites(u, k, x);
        WritesThen(s, u, Bound(u, k), k, x);
      }
    } else if env.reply.Refused? {
      RewriteWrites(t, t.(insts := t.insts[k := t.insts[k].(conn := false)]), k, x);
      WritesThen(s, t, t.(insts := t.insts[k := t.insts[k].(conn := false)]), k, x);
    }
  }

  lemma LeftoverWrites(s: State, k: Key, rest: string, env: Env, x: Fd)
    ensures Writes(s, Leftover(s, k, rest, env), k, x)
  {
    hide Data, Writes;
    if rest == "" || k !in s.insts || !s.insts[k].open {
      SelfPasses(s, x);
      PassesWrite(s, s, k, x);
    } else {
      var t := s.(insts := s.insts[k := s.insts[k].(preacked := |rest|, early := |rest|)]);
      RewriteWrites(s, t, k, x);
      DataWrites(t, k, rest, env.second, x);
      WritesThen(s, t, Data(t, k, rest, env.second), k, x);
    }
  }

  lemma HandleDataWrites(s: State, k: Key, b: string, env: Env, x: Fd)
    requires k in s.insts && k.session in s.sessions && s.insts[k].conn
    ensures Writes(s, HandleData(s, k, b, env), k, x)
  {
    hide CloseInstance, Data, Line, Leftover, Writes;
    SelfPasses(s, x);
    PassesWrite(s, s, k, x);
    if s.insts[k].open {
      DataWrites(s, k, b, env.second, x);
    } else {
      var all := s.insts[k].lbuf + b;
      var nl := Newline(all);
      if nl == |all| {
        CloseWrites(s, k, env.now, x);
        RewriteWrites(s, s.(insts := s.insts[k := s.insts[k].(lbuf := all)]), k, x);
      } else {
        var t := Line(s, k, all[..nl], env);
        if s.insts[k].inbound {
          InboundWrites(s, k, all[..nl], env, x);
        } else {
          OutboundWrites(s, k, all[..nl], env, x);
        }
        LeftoverWrites(t, k, all[nl + 1..], env, x);
        WritesThen(s, t, Leftover(t, k, all[nl + 1..], env), k, x);
      }
    }
  }

  lemma TunnelDataWrites(s: State, k: Key, b: string, env: Env, x: Fd)
    ensures Writes(s, TunnelData(s, k, b, env), k, x)
  {
    hide HandleData, Hear, Writes, Passes, LogOnly;
    if k in s.insts && k.session in s.sessions && s.insts[k].conn {
      var t := Hear(s, k, b);
      Heard(s, k, b);
      LogPasses(s, t, x) by { HearLog(s, k, b); }
      PassesWrite(s, t, k, x);
      HandleDataWrites(t, k, b, env, x);
      WritesThen(s, t, HandleData(t, k, b, env), k, x);
    } else {
      SelfPasses(s, x);
      PassesWrite(s, s, k, x);
    }
  }

  // ---- one event ----

  /** The callback of watch_cfd finds the tunnel full. */
  predicate Stalls(s: State, e: R.Event, fd: Fd) {
    e.ClientReads? && e.fd == fd && fd in s.reading && s.reading[fd].Client? && Full(s, s.reading[fd].key, e.room)
  }

  /** Bytes arrive for the open instance on the socket. */
  predicate Delivers(s: State, e: R.Event, fd: Fd) {
    e.Arrives? && e.bytes != "" && e.key in s.insts && e.key.session in s.sessions
    && s.insts[e.key].conn && s.insts[e.key].open && s.insts[e.key].cfd == Some(fd)
  }

  ghost predicate WatchedOpen(s: State) {
    forall f :: f in s.reading && s.reading[f].Client? ==> OpenIn(s, s.reading[f].key)
  }

  /** The socket of a client whose instance has got through, or that is closing. */
  ghost predicate ClientOnly(s: State, fd: Fd) {
    && (forall r :: r in s.regs ==> s.regs[r].owner != Some(fd))
    && (forall k :: k in s.insts && s.insts[k].cfd == Some(fd) ==> s.insts[k].open)
  }

  predicate Unheard(s: State, fd: Fd) {
    fd in s.outs ==> fd !in s.writing
  }

  predicate Plain(e: R.Event) {
    e.Unregisters? || e.Dials? || e.Goes? || e.Closes? || e.OwnerReads? || e.ResumesOwner? || e.ResumesClient?
    || e.Retires? || e.Drops?
  }

  lemma PlainPasses(s: State, e: R.Event, fd: Fd)
    requires R.Possible(s, e) && Plain(e)
    ensures Passes(s, R.Happens(s, e), fd)
  {
    hide Passes, Unregister, CloseInstance, OwnerReadable, ResumeOwner, ResumeClient, RetireTick, DropSession;
    SelfPasses(s, fd);
    match e
    case Unregisters(name, now) => UnregisterPasses(s, name, now, fd);
    case Dials(key, conn) => DialPasses(s, key, conn, fd);
    case Goes(key, now) =>
      DialPasses(s, key, false, fd);
      CloseInstancePasses(s, key, now, fd);
    case Closes(key, now) => CloseInstancePasses(s, key, now, fd);
    case OwnerReads(f, outcome, room, users, now) => OwnerReadablePasses(s, f, outcome, room, users, now, fd);
    case ResumesOwner(f, room) => ResumeOwnerPasses(s, f, room, fd);
    case ResumesClient(key, room) => ResumeClientPasses(s, key, room, fd);
    case Retires(session, now) => RetireTickPasses(s, session, now, fd);
    case Drops(session, ids, names, now) => DropPasses(s, session, ids, names, now, fd);
  }

  lemma DialPasses(s: State, k: Key, conn: bool, fd: Fd)
    ensures Passes(s, Dialled(s, k, conn), fd)
  {
    hide Passes, Writes;
    SelfPasses(s, fd);
    if k in s.insts && !s.insts[k].inbound && !s.insts[k].open {
      RewriteWrites(s, Dialled(s, k, conn), k, fd);
    }
  }

  /** A socket, a session or an instance is new. */
  predicate Adds(e: R.Event) {
    e.Starts? || e.Accepts? || e.Opens? || e.Registers?
  }

  /** Nothing happens to output, and nobody joins a socket that is open. */
  ghost predicate Idle(s: State, t: State, fd: Fd) {
    t.outs == s.outs && t.writing == s.writing && (fd in s.open ==> NoneJoins(s, t, fd))
  }

  lemma AcceptIdle(s: State, session: nat, fd: Fd)
    requires session in s.sessions
    ensures Idle(s, Accept(s, session), fd)
  {
    hide NoneJoins;
    AddedJoins(s, Accept(s, session), NewId(s, session), fd);
  }

  lemma OpenIdle(s: State, session: nat, cfd: Option<Fd>, wait: bool, fd: Fd)
    requires session in s.sessions && (cfd.Some? ==> cfd.value !in s.open)
    ensures Idle(s, Open(s, session, cfd, wait), fd)
  {
    hide NoneJoins;
    if fd in s.open {
      AddedJoins(s, Open(s, session, cfd, wait), NewId(s, session), fd);
    }
  }

  lemma RegisterIdle(s: State, r: Name, limit: nat, owner: Option<Fd>, fd: Fd)
    requires r.session in s.sessions && (owner.Some? ==> owner.value !in s.open)
    ensures Idle(s, Register(s, r, limit, owner), fd)
  {
    hide NoneJoins;
    if fd in s.open {
      RegisteredJoins(s, Register(s, r, limit, owner), r, fd);
    }
  }

  lemma AddsIdle(s: State, e: R.Event, fd: Fd)
    requires R.Possible(s, e) && Adds(e)
    ensures Idle(s, R.Happens(s, e), fd)
  {
    hide NoneJoins, Accept, Open, Register;
    match e
    case Starts(session) => SameUsersPass(s, R.Happens(s, e), fd);
    case Accepts(session) => AcceptIdle(s, session, fd);
    case Opens(session, cfd, wait) => OpenIdle(s, session, cfd, wait, fd);
    case Registers(name, limit, owner) => RegisterIdle(s, name, limit, owner, fd);
  }

  lemma AddedJoins(s: State, t: State, k: Key, fd: Fd)
    requires k in t.insts && t.insts == s.insts[k := t.insts[k]] && t.regs == s.regs && t.insts[k].cfd != Some(fd)
    ensures NoneJoins(s, t, fd)
  {}

  lemma RegisteredJoins(s: State, t: State, r: Name, fd: Fd)
    requires t.insts == s.insts
    requires t.regs == s.regs || (r in t.regs && t.regs == s.regs[r := t.regs[r]] && t.regs[r].owner != Some(fd))
    ensures NoneJoins(s, t, fd)
  {}

  lemma GiveUpMoves(s: State, f: Fd, now: nat, fd: Fd)
    ensures var t := GiveUp(s, f, now);
            && Onward(s, t) && NoneJoins(s, t, fd)
            && (fd in t.outs ==> Quiet(s, t, fd))
  {
    SameUsersPass(s, GiveUp(s, f, now), fd);
    hide Onward, NoneJoins;
  }

  lemma ClientReadableMoves(s: State, f: Fd, outcome: Outcome, room: set<Key>, now: nat, fd: Fd)
    ensures var t := ClientReadable(s, f, outcome, room, now);
            && Onward(s, t) && NoneJoins(s, t, fd)
            && (if Stalls(s, R.ClientReads(f, outcome, room, now), fd)
                then t.outs == s.outs && fd !in t.writing else Quiet(s, t, fd))
  {
    hide CloseInstance, Onward, NoneJoins, Quiet;
    SelfPasses(s, fd);
    if f in s.reading && s.reading[f].Client? {
      CloseInstancePasses(s, s.reading[f].key, now, fd);
      var t := s.(reading := s.reading - {f}, writing := s.writing - {f});
      SameUsersPass(s, t, fd);
      F.ErasedOff(s.writing, f);
      QuietOff(s, t, f, fd);
    }
  }

  // ---- what holds between events ----

  lemma OnwardWatched(s: State, t: State)
    requires Onward(s, t) && WatchedOpen(s)
    ensures WatchedOpen(t)
  {}

  lemma WatchedThere(s: State, fd: Fd)
    requires F.Sockets(s) && fd in s.reading && s.reading[fd].Client?
    ensures s.reading[fd].key in s.insts && s.insts[s.reading[fd].key].cfd == Some(fd)
    ensures (forall r :: r in s.regs ==> s.regs[r].owner != Some(fd))
    ensures forall k :: k in s.insts && s.insts[k].cfd == Some(fd) ==> k == s.reading[fd].key
  {
    var f := F.FaceOf(s, fd);
    F.GoodOf(s, fd);
    assert f.reading == Some(s.reading[fd]);
    forall r | r in s.regs && s.regs[r].owner == Some(fd)
      ensures r in f.regs
    {}
    forall k | k in s.insts && s.insts[k].cfd == Some(fd)
      ensures k in f.shared + f.owned
    {}
  }

  lemma AddedWatched(s: State, t: State, k: Key)
    requires F.Sockets(s) && WatchedOpen(s) && k !in s.insts && t.reading == s.reading
    requires k in t.insts && t.insts == s.insts[k := t.insts[k]]
    ensures WatchedOpen(t)
  {
    hide F.Sockets;
    forall f | f in t.reading && t.reading[f].Client?
      ensures OpenIn(t, t.reading[f].key)
    {
      WatchedThere(s, f);
      assert OpenIn(s, s.reading[f].key);
    }
  }

  lemma NewIdNew(s: State, session: nat)
    requires C.Credit(s) && session in s.sessions
    ensures NewId(s, session) !in s.insts
  {
    hide C.Balanced, C.ValidOut;
    assert forall k :: k in s.insts ==> C.Known(s, k);
  }

  lemma AcceptWatched(s: State, session: nat)
    requires R.Inv(s) && session in s.sessions && WatchedOpen(s)
    ensures WatchedOpen(Accept(s, session))
  {
    hide C.Credit, F.Sockets, WatchedOpen;
    NewIdNew(s, session);
    AddedWatched(s, Accept(s, session), NewId(s, session));
  }

  lemma OpenWatched(s: State, session: nat, cfd: Option<Fd>, wait: bool)
    requires R.Inv(s) && session in s.sessions && WatchedOpen(s)
    ensures WatchedOpen(Open(s, session, cfd, wait))
  {
    hide C.Credit, F.Sockets, WatchedOpen;
    NewIdNew(s, session);
    AddedWatched(s, Open(s, session, cfd, wait), NewId(s, session));
  }

  lemma RegisterWatched(s: State, r: Name, limit: nat, owner: Option<Fd>)
    requires r.session in s.sessions && WatchedOpen(s)
    ensures WatchedOpen(Register(s, r, limit, owner))
  {}

  lemma AddsWatched(s: State, e: R.Event)
    requires R.Inv(s) && R.Possible(s, e) && Adds(e) && WatchedOpen(s)
    ensures WatchedOpen(R.Happens(s, e))
  {
    hide R.Inv, Accept, Open, Register;
    match e
    case Starts(session) =>
    case Accepts(session) => AcceptWatched(s, session);
    case Opens(session, cfd, wait) => OpenWatched(s, session, cfd, wait);
    case Registers(name, limit, owner) => RegisterWatched(s, name, limit, owner);
  }

  /** Only an open instance's own socket is ever watched for it. */
  lemma EventWatched(s: State, e: R.Event)
    requires R.Inv(s) && R.Possible(s, e) && WatchedOpen(s)
    ensures WatchedOpen(R.Happens(s, e))
  {
    hide R.Inv, WatchedOpen, Onward, Quiet, NoneJoins, R.Possible, Flush, TunnelData, FailOpen, ClientReadable, GiveUp;
    var t := R.Happens(s, e);
    if Adds(e) {
      AddsWatched(s, e);
    } else {
      if Plain(e) {
        PlainPasses(s, e, 0);
      } else {
        match e
        case Arrives(key, bytes, env) => TunnelDataWrites(s, key, bytes, env, 0);
        case Expires(key, why, now, answers) =>
          FailOpenWrites(s, key, why, now, answers, 0);
          SelfPasses(s, 0);
        case Drains(f, answers) => FlushMoves(s, f, answers, 0);
        case ClientReads(f, outcome, room, now) => ClientReadableMoves(s, f, outcome, room, now, 0);
        case GivesUp(f, now) => GiveUpMoves(s, f, now, 0);
      }
      OnwardWatched(s, t);
    }
  }

  /** Unless its reader finds the tunnel full, a socket whose output is polled for stays so. */
  lemma EventPolls(s: State, e: R.Event, fd: Fd)
    requires R.Possible(s, e) && Polled(s, fd) && !Stalls(s, e, fd)
    ensures Polled(R.Happens(s, e), fd)
  {
    hide R.Possible, Onward, NoneJoins, Flush, TunnelData, FailOpen, ClientReadable, GiveUp, Closing, Unwritten;
    if Adds(e) {
      AddsIdle(s, e, fd);
    } else if Plain(e) {
      PlainPasses(s, e, fd);
    } else {
      match e
      case Arrives(key, bytes, env) => TunnelDataWrites(s, key, bytes, env, fd);
      case Expires(key, why, now, answers) => FailOpenWrites(s, key, why, now, answers, fd);
      case Drains(f, answers) =>
        FlushOnce(s, f, answers);
        FlushMoves(s, f, answers, fd);
      case ClientReads(f, outcome, room, now) => ClientReadableMoves(s, f, outcome, room, now, fd);
      case GivesUp(f, now) => GiveUpMoves(s, f, now, fd);
    }
  }

  /** Bytes delivered are flushed, and what is left is polled for. */
  lemma DeliveryPolls(s: State, e: R.Event, fd: Fd)
    requires F.Sockets(s) && Delivers(s, e, fd)
    ensures Polled(R.Happens(s, e), fd)
  {
    hide F.Sockets, Data, Writes, Hear;
    F.NotDraining(s, e.key);
    Heard(s, e.key, e.bytes);
    var t := Hear(s, e.key, e.bytes);
    assert t.outs == s.outs by {
      HearLog(s, e.key, e.bytes);
    }
    DataWrites(t, e.key, e.bytes, e.env.second, fd);
  }

  /** A reader that finds the tunnel full is a client's, and its output is not polled for. */
  lemma StallUnheard(s: State, e: R.Event, fd: Fd)
    requires F.Sockets(s) && WatchedOpen(s) && Stalls(s, e, fd)
    ensures var t := R.Happens(s, e);
            Unheard(t, fd) && ClientOnly(t, fd) && t.outs == s.outs
  {
    hide F.Sockets;
    WatchedThere(s, fd);
    assert OpenIn(s, s.reading[fd].key);
  }

  lemma StaysClient(s: State, t: State, fd: Fd)
    requires ClientOnly(s, fd) && Onward(s, t) && NoneJoins(s, t, fd)
    ensures ClientOnly(t, fd)
  {}

  lemma IdleClient(s: State, t: State, fd: Fd)
    requires ClientOnly(s, fd) && NoneJoins(s, t, fd) && (forall k :: k in s.insts && k in t.insts ==> t.insts[k] == s.insts[k])
    ensures ClientOnly(t, fd)
  {}

  /** A socket off the poller stays off until bytes are delivered. */
  lemma EventStays(s: State, e: R.Event, fd: Fd)
    requires R.Inv(s) && R.Possible(s, e) && fd in s.outs && fd !in s.writing && ClientOnly(s, fd) && !Delivers(s, e, fd)
    ensures var t := R.Happens(s, e);
            Unheard(t, fd) && (fd in t.outs ==> ClientOnly(t, fd))
  {
    hide R.Inv, R.Possible, Onward, NoneJoins, ClientOnly, TunnelData, FailOpen, Flush, ClientReadable, GiveUp, Closing, Unwritten;
    var t := R.Happens(s, e);
    if Adds(e) {
      AddsIdle(s, e, fd);
      OpenOut(s, fd);
      AddsSame(s, e);
      IdleClient(s, t, fd);
    } else {
      if Plain(e) {
        PlainPasses(s, e, fd);
      } else {
        match e
        case Arrives(key, bytes, env) => ArrivalStays(s, key, bytes, env, fd);
        case Expires(key, why, now, answers) => ExpiryStays(s, key, why, now, answers, fd);
        case Drains(f, answers) =>
          assert f != fd by {
            DrainsPolled(s, f, answers);
          }
          FlushMoves(s, f, answers, fd);
        case ClientReads(f, outcome, room, now) => ClientReadableMoves(s, f, outcome, room, now, fd);
        case GivesUp(f, now) => GiveUpMoves(s, f, now, fd);
      }
      StaysClient(s, t, fd);
    }
  }

  lemma DrainsPolled(s: State, fd: Fd, answers: seq<Answer>)
    requires R.Possible(s, R.Drains(fd, answers))
    ensures fd in s.writing
  {}

  lemma OpenOut(s: State, fd: Fd)
    requires R.Inv(s) && fd in s.outs
    ensures fd in s.open
  {
    F.GoodOf(s, fd);
    F.OutFace(s, fd);
    F.FaceOpen(s, fd);
  }

  lemma AddsSame(s: State, e: R.Event)
    requires R.Inv(s) && R.Possible(s, e) && Adds(e)
    ensures var t := R.Happens(s, e);
            forall k :: k in s.insts && k in t.insts ==> t.insts[k] == s.insts[k]
  {
    hide C.Credit, F.Sockets;
    if e.Accepts? || e.Opens? {
      NewIdNew(s, e.session);
    }
  }

  lemma ArrivalStays(s: State, k: Key, b: string, env: Env, fd: Fd)
    requires ClientOnly(s, fd) && !Delivers(s, R.Arrives(k, b, env), fd)
    ensures var t := TunnelData(s, k, b, env);
            Quiet(s, t, fd) && Onward(s, t) && NoneJoins(s, t, fd)
  {
    hide Line, Leftover, CloseInstance, Quiet, Onward, NoneJoins, Moves;
    SelfPasses(s, fd);
    TunnelDataWrites(s, k, b, env, fd);
    if k in s.insts && s.insts[k].cfd == Some(fd) && k.session in s.sessions && s.insts[k].conn {
      assert s.insts[k].open && b == "";
      var i := s.insts[k];
      assert i.log.heard + b == i.log.heard;
      RewriteWrites(s, s.(insts := s.insts[k := i.(down := i.down + |b|)]), k, fd);
      assert Hear(s, k, b).insts == s.insts;
    }
  }

  lemma ExpiryStays(s: State, k: Key, why: string, now: nat, answers: seq<Answer>, fd: Fd)
    requires ClientOnly(s, fd)
    ensures var t := Expire(s, k, why, now, answers);
            Quiet(s, t, fd) && Onward(s, t) && NoneJoins(s, t, fd)
  {
    hide FailOpen, Quiet, Onward, NoneJoins, Moves;
    SelfPasses(s, fd);
    FailOpenWrites(s, k, why, now, answers, fd);
  }

  // ---- whole runs ----

  /** Was the socket taken off the poller with output queued, and has nothing been
      flushed to it since? (`stalled` tells it for the time before.) */
  ghost predicate Stalled(s: State, es: seq<R.Event>, fd: Fd, stalled: bool)
    requires R.PossibleRun(s, es)
    decreases |es|
  {
    if es == [] then stalled
    else
      var t := R.Happens(s, es[0]);
      Stalled(t, es[1..], fd, fd in t.outs && (Stalls(s, es[0], fd) || (stalled && !Delivers(s, es[0], fd))))
  }

  ghost predicate Told(s: State, fd: Fd, stalled: bool) {
    && WatchedOpen(s)
    && (stalled ==> fd in s.outs && fd !in s.writing && ClientOnly(s, fd))
    && (!stalled ==> Polled(s, fd))
  }

  lemma EventTold(s: State, e: R.Event, fd: Fd, stalled: bool)
    requires R.Inv(s) && R.Possible(s, e) && Told(s, fd, stalled)
    ensures var t := R.Happens(s, e);
            Told(t, fd, fd in t.outs && (Stalls(s, e, fd) || (stalled && !Delivers(s, e, fd))))
  {
    hide F.Sockets, C.Credit, R.Possible, R.Happens, WatchedOpen, ClientOnly, Delivers, Stalls;
    EventWatched(s, e);
    if Stalls(s, e, fd) {
      StallUnheard(s, e, fd);
    } else if !stalled {
      EventPolls(s, e, fd);
    } else if Delivers(s, e, fd) {
      DeliveryPolls(s, e, fd);
    } else {
      EventStays(s, e, fd);
    }
  }

  lemma {:induction false} RunTold(s: State, es: seq<R.Event>, fd: Fd, stalled: bool)
    requires R.Inv(s) && R.PossibleRun(s, es) && Told(s, fd, stalled)
    ensures Told(R.Run(s, es), fd, Stalled(s, es, fd, stalled))
    decreases |es|
  {
    hide R.Inv, R.Possible, R.Happens, Told, Stalls, Delivers;
    if es != [] {
      var t := R.Happens(s, es[0]);
      R.EventKeeps(s, es[0]);
      EventTold(s, es[0], fd, stalled);
      RunTold(t, es[1..], fd, fd in t.outs && (Stalls(s, es[0], fd) || (stalled && !Delivers(s, es[0], fd))));
    }
  }

  /** In every run, output queued for a socket is polled for exactly when its reader has
      not found the tunnel full since the last bytes were flushed to it. */
  lemma PolledUnlessStalled(es: seq<R.Event>, fd: Fd)
    requires R.PossibleRun(EMPTY, es) && fd in R.Run(EMPTY, es).outs
    ensures fd in R.Run(EMPTY, es).writing <==> !Stalled(EMPTY, es, fd, false)
  {
    hide R.Run, R.PossibleRun, Stalled, R.Inv;
    R.EmptyInv();
    RunTold(EMPTY, es, fd, false);
  }

  // ---- closed while stalled ----

  /** A closing client that is not polled for is never written to again. */
  lemma EventAbandons(s: State, e: R.Event, fd: Fd)
    requires R.Possible(s, e) && Closing(s, fd) && fd !in s.writing && !(e.GivesUp? && e.fd == fd)
    ensures var t := R.Happens(s, e);
            Closing(t, fd) && fd !in t.writing && Unwritten(s.outs[fd], t.outs[fd])
  {
    hide R.Possible, Onward, NoneJoins, Flush, TunnelData, FailOpen, ClientReadable, Unwritten;
    if Adds(e) {
      AddsIdle(s, e, fd);
      SameUnwritten(s.outs[fd]);
    } else if Plain(e) {
      PlainPasses(s, e, fd);
    } else {
      match e
      case Arrives(key, bytes, env) => TunnelDataWrites(s, key, bytes, env, fd);
      case Expires(key, why, now, answers) =>
        FailOpenWrites(s, key, why, now, answers, fd);
        SameUnwritten(s.outs[fd]);
      case Drains(f, answers) =>
        assert f != fd by {
          DrainsPolled(s, f, answers);
        }
        FlushMoves(s, f, answers, fd);
      case ClientReads(f, outcome, room, now) =>
        ClientReadableMoves(s, f, outcome, room, now, fd);
        SameUnwritten(s.outs[fd]);
      case GivesUp(f, now) =>
        GiveUpOther(s, f, now, fd);
        SameUnwritten(s.outs[fd]);
    }
  }

  lemma SameUnwritten(o: Out)
    ensures Unwritten(o, o)
  {}

  lemma GiveUpOther(s: State, f: Fd, now: nat, fd: Fd)
    requires f != fd && fd in s.outs
    ensures var t := GiveUp(s, f, now);
            fd in t.outs && t.outs[fd] == s.outs[fd] && (fd in t.writing <==> fd in s.writing)
  {}

  /** Whatever happens, only the giving-up at the end of its time closes it: all its
      output is still there, and still not polled for. */
  lemma {:induction false} ClosedWhileStalled(s: State, es: seq<R.Event>, fd: Fd)
    requires R.PossibleRun(s, es) && Closing(s, fd) && fd !in s.writing
    requires forall i :: 0 <= i < |es| ==> !(es[i].GivesUp? && es[i].fd == fd)
    ensures var t := R.Run(s, es);
            Closing(t, fd) && fd !in t.writing && Unwritten(s.outs[fd], t.outs[fd])
    decreases |es|
  {
    hide R.Possible, R.Happens;
    if es == [] {
      SameUnwritten(s.outs[fd]);
    } else {
      EventAbandons(s, es[0], fd);
      ClosedWhileStalled(R.Happens(s, es[0]), es[1..], fd);
    }
  }

  // ---- a run that does it ----

  /** A client connects, is accepted, does not read the five bytes that arrive for it,
      and sends while its tunnel is full. */
  const CALL := Key(1, 0)
  const WELCOME := Env(0, Accepted, "OK\n", [Wrote(3)], [])
  const CONNECTING: seq<R.Event> := [R.Starts(1), R.Opens(1, Some(7), false), R.Dials(CALL, true)]
  const STALLING: seq<R.Event> :=
    [R.Arrives(CALL, "OK\n", WELCOME), R.Arrives(CALL, "hello", WELCOME), R.ClientReads(7, Bytes(1), {}, 0)]

  /** The client once connected. */
  function Caller(open: bool, down: nat, heard: string): Instance {
    Instance(false, false, true, open, "", "", 0, Some(7), true, 0, down, 0, 0, Log(heard, "", false))
  }

  function Calling(i: Instance, outs: map<Fd, Out>, reading: map<Fd, Watch>, writing: set<Fd>): State {
    State(map[1 := Session(1, 1, [])], map[], map[CALL := i], outs, map[], reading, writing, {7}, false)
  }

  lemma Connected()
    ensures R.PossibleRun(EMPTY, CONNECTING) && R.Run(EMPTY, CONNECTING) == Calling(Caller(false, 0, ""), map[], map[], {})
  {
    var s1 := R.Happens(EMPTY, CONNECTING[0]);
    var s2 := R.Happens(s1, CONNECTING[1]);
    var s3 := R.Happens(s2, CONNECTING[2]);
    assert s1 == EMPTY.(sessions := map[1 := Session(1, 0, [])]);
    assert s3 == Calling(Caller(false, 0, ""), map[], map[], {});
    OneMore(s2, CONNECTING[2..]);
    OneMore(s1, CONNECTING[1..]);
    OneMore(EMPTY, CONNECTING);
  }

  lemma OneMore(s: State, es: seq<R.Event>)
    requires es != [] && R.Possible(s, es[0]) && R.PossibleRun(R.Happens(s, es[0]), es[1..])
    ensures R.PossibleRun(s, es) && R.Run(s, es) == R.Run(R.Happens(s, es[0]), es[1..])
  {}

  lemma Greeted()
    ensures var s := Calling(Caller(false, 0, "OK\n"), map[], map[], {});
            ClientWrite(s, CALL, "OK\n", false, [Wrote(3)]) == s
  {
    var s := Calling(Caller(false, 0, "OK\n"), map[], map[], {});
    var t := s.(outs := map[7 := Out([Chunk(Some(CALL), "OK\n", false)], 0, false, 0)]);
    FlushOnce(t, 7, [Wrote(3)]);
    var u := t.(outs := map[7 := Out([], 0, false, 0)]);
    assert Written(t, 7, 3).outs == u.outs;
    FlushOnce(u, 7, []);
    assert Flushed(u, 7) == s;
  }

  lemma Welcomed()
    ensures TunnelData(Calling(Caller(false, 0, ""), map[], map[], {}), CALL, "OK\n", WELCOME)
              == Calling(Caller(true, 0, "OK\n"), map[], map[7 := Client(CALL)], {})
  {
    Greeted();
    hide ClientWrite;
    assert "" + "OK\n" == "OK\n";
    var s := Calling(Caller(false, 0, "OK\n"), map[], map[], {});
    assert s == Hear(Calling(Caller(false, 0, ""), map[], map[], {}), CALL, "OK\n");
    assert Newline("OK\n") == 2;
    assert s.insts[CALL := s.insts[CALL].(lbuf := "")] == s.insts;
  }

  lemma Unread()
    ensures TunnelData(Calling(Caller(true, 0, "OK\n"), map[], map[7 := Client(CALL)], {}), CALL, "hello", WELCOME)
              == Calling(Caller(true, 5, "OK\nhello"), map[7 := Out([Chunk(Some(CALL), "hello", true)], 0, false, 0)], map[7 := Client(CALL)], {7})
  {
    assert "OK\n" + "hello" == "OK\nhello";
    var t := Calling(Caller(true, 5, "OK\nhello"), map[7 := Out([Chunk(Some(CALL), "hello", true)], 0, false, 0)], map[7 := Client(CALL)], {});
    FlushOnce(t, 7, []);
    assert {} + {7} == {7};
    var none: seq<Chunk> := [];
    assert none + [Chunk(Some(CALL), "hello", true)] == [Chunk(Some(CALL), "hello", true)];
    assert ClientWrite(Calling(Caller(true, 5, "OK\nhello"), map[], map[7 := Client(CALL)], {}), CALL, "hello", true, [])
        == t.(writing := {7});
  }

  lemma {:induction false} RunThen(s: State, a: seq<R.Event>, b: seq<R.Event>)
    requires R.PossibleRun(s, a) && R.PossibleRun(R.Run(s, a), b)
    ensures R.PossibleRun(s, a + b) && R.Run(s, a + b) == R.Run(R.Run(s, a), b)
    decreases |a|
  {
    hide R.Possible, R.Happens;
    if a == [] {
      assert a + b == b;
    } else {
      RunThen(R.Happens(s, a[0]), a[1..], b);
      assert (a + b)[1..] == a[1..] + b;
    }
  }

  /** The five bytes are queued, their window is not credited, and they are not polled for. */
  lemma StalledInput()
    ensures R.PossibleRun(EMPTY, CONNECTING + STALLING)
    ensures var s := R.Run(EMPTY, CONNECTING + STALLING);
            7 in s.outs && s.outs[7].q == [Chunk(Some(CALL), "hello", true)] && 7 !in s.writing
            && CALL in s.insts && s.insts[CALL].down == 5 && s.insts[CALL].credit == 0
  {
    Connected();
    Stalling();
    hide R.Run, R.PossibleRun;
    RunThen(EMPTY, CONNECTING, STALLING);
  }

  lemma Stalling()
    ensures var s := Calling(Caller(false, 0, ""), map[], map[], {});
            R.PossibleRun(s, STALLING)
            && R.Run(s, STALLING) == Calling(Caller(true, 5, "OK\nhello"), map[7 := Out([Chunk(Some(CALL), "hello", true)], 0, false, 0)], map[], {})
  {
    Welcomed();
    Unread();
    hide TunnelData;
    var s3 := Calling(Caller(false, 0, ""), map[], map[], {});
    var s4 := R.Happens(s3, STALLING[0]);
    var s5 := R.Happens(s4, STALLING[1]);
    var s6 := R.Happens(s5, STALLING[2]);
    assert s5.reading - {7} == map[] && s5.writing - {7} == {};
    assert s6 == s5.(reading := map[], writing := {});
    OneMore(s5, STALLING[2..]);
    OneMore(s4, STALLING[1..]);
    OneMore(s3, STALLING);
  }
}

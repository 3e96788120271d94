/** Reloading the peer files (src/peer/daemon.cpp:936-1012) on the daemon's tables: the
    sessions of peers that are gone are dropped, and nothing of any other session, under
    whatever name it goes on, is touched. */
module ReloadFrame {
  import opened Wrappers
  import opened Splice
  import F = SpliceSockets
  import N = SpliceCounters
  import P = SplicePolling
  import R = SpliceRuns
  import L = Reload

  // ---- what is left alone ----

  /** The same queue, whomever its chunks are still for. */
  predicate SameQueue(o: Option<Out>, p: Option<Out>) {
    match o
    case None => p.None?
    case Some(a) => p.Some? && P.Unwritten(a, p.value) && p.value == a.(q := p.value.q)
  }

  predicate SocketKept(s: State, t: State, fd: Fd) {
    && (fd in t.open <==> fd in s.open)
    && (fd in t.writing <==> fd in s.writing)
    && F.Get(t.reading, fd) == F.Get(s.reading, fd)
    && F.Get(t.paused, fd) == F.Get(s.paused, fd)
    && SameQueue(F.Get(s.outs, fd), F.Get(t.outs, fd))
  }

  /** Registrations, instances and numbering of all sessions but one. */
  ghost predicate OthersKept(s: State, t: State, session: nat) {
    && (forall n :: n != session ==> (n in t.sessions <==> n in s.sessions) && (n in s.sessions ==> t.sessions[n] == s.sessions[n]))
    && (forall r: Name :: r.session != session ==> (r in t.regs <==> r in s.regs) && (r in s.regs ==> t.regs[r] == s.regs[r]))
    && (forall k: Key :: k.session != session ==> (k in t.insts <==> k in s.insts) && (k in s.insts ==> t.insts[k] == s.insts[k]))
  }

  /** Nothing of the session uses the socket. */
  ghost predicate Foreign(s: State, session: nat, fd: Fd) {
    && (forall r :: r in s.regs && s.regs[r].owner == Some(fd) ==> r.session != session)
    && (forall k :: k in s.insts && s.insts[k].cfd == Some(fd) ==> k.session != session)
  }

  ghost predicate UsedBy(s: State, session: nat, fd: Fd) {
    || (exists r :: r in s.regs && r.session == session && s.regs[r].owner == Some(fd))
    || (exists k :: k in s.insts && k.session == session && s.insts[k].cfd == Some(fd))
  }

  /** All that a session has: its numbering, registrations, instances and sockets. */
  ghost predicate SessionKept(s: State, t: State, session: nat) {
    && (session in t.sessions <==> session in s.sessions) && (session in s.sessions ==> t.sessions[session] == s.sessions[session])
    && (forall r: Name :: r.session == session ==> (r in t.regs <==> r in s.regs) && (r in s.regs ==> t.regs[r] == s.regs[r]))
    && (forall k: Key :: k.session == session ==> (k in t.insts <==> k in s.insts) && (k in s.insts ==> t.insts[k] == s.insts[k]))
    && (forall fd: Fd :: UsedBy(s, session, fd) ==> SocketKept(s, t, fd))
  }

  /** One step of dropping `session`, seen by a socket of another. */
  ghost predicate Spares(s: State, t: State, session: nat, fd: Fd) {
    OthersKept(s, t, session) && SocketKept(s, t, fd) && Foreign(t, session, fd)
  }

  lemma SparesThen(s: State, t: State, u: State, session: nat, fd: Fd)
    requires Spares(s, t, session, fd) && Spares(t, u, session, fd)
    ensures Spares(s, u, session, fd)
  {
    assert OthersKept(s, u, session) by {
      hide SocketKept, Foreign;
    }
    assert SocketKept(s, u, fd) by {
      hide OthersKept, Foreign;
    }
  }

  lemma SameQueueSelf(o: Option<Out>)
    ensures SameQueue(o, o)
  {}

  lemma SparesSelf(s: State, session: nat, fd: Fd)
    requires Foreign(s, session, fd)
    ensures Spares(s, s, session, fd)
  {
    SameQueueSelf(F.Get(s.outs, fd));
  }

  // ---- dropping a session ----

  lemma CloseClientSpares(s: State, x: Fd, now: nat, session: nat, fd: Fd)
    requires x != fd && Foreign(s, session, fd)
    ensures Spares(s, CloseClient(s, x, now), session, fd)
  {
    var t := CloseClient(s, x, now);
    CloseClientFrame(s, x, now);
    SameTables(s, t, session, fd);
    OtherSocketKept(s, x, now, fd);
    hide OthersKept, SocketKept, Foreign, CloseClient;
  }

  lemma SameTables(s: State, t: State, session: nat, fd: Fd)
    requires t.regs == s.regs && t.insts == s.insts && t.sessions == s.sessions && Foreign(s, session, fd)
    ensures OthersKept(s, t, session) && Foreign(t, session, fd)
  {}

  lemma OtherSocketKept(s: State, x: Fd, now: nat, fd: Fd)
    requires x != fd
    ensures SocketKept(s, CloseClient(s, x, now), fd)
  {
    hide CloseClient, SameQueue;
    var t := CloseClient(s, x, now);
    CloseClientFrame(s, x, now);
    F.OffByMap(s.outs, t.outs, x, fd);
    SameQueueSelf(F.Get(s.outs, fd));
    assert fd in t.writing - {x} <==> fd in s.writing - {x};
    assert fd in t.open - {x} <==> fd in s.open - {x};
  }

  lemma ReleaseSpares(s: State, x: Fd, now: nat, session: nat, fd: Fd)
    requires x != fd && Foreign(s, session, fd)
    ensures Spares(s, Release(s, session, x, now), session, fd)
  {
    hide CloseClient, Spares;
    SparesSelf(s, session, fd);
    var t := s.(reading := s.reading - {x});
    UnwatchSpares(s, x, session, fd);
    assert Foreign(t, session, fd);
    CloseClientSpares(t, x, now, session, fd);
    SparesThen(s, t, CloseClient(t, x, now), session, fd);
  }

  lemma UnwatchSpares(s: State, x: Fd, session: nat, fd: Fd)
    requires x != fd && Foreign(s, session, fd)
    ensures Spares(s, s.(reading := s.reading - {x}), session, fd)
  {
    SameQueueSelf(F.Get(s.outs, fd));
    hide SameQueue;
  }

  lemma LeavingSpares(s: State, k: Key, fd: Fd)
    requires Foreign(s, k.session, fd)
    ensures var t := Counted(s, k);
            Spares(s, t.(insts := t.insts - {k}), k.session, fd)
  {
    var t := Counted(s, k).(insts := Counted(s, k).insts - {k});
    LeavingOthers(s, k);
    F.CountedUse(s, k);
    assert t == s.(regs := t.regs, insts := t.insts);
    assert Foreign(t, k.session, fd) by {
      hide SocketKept, OthersKept, CountedBy;
    }
    hide Counted, OthersKept, Foreign;
    SameQueueSelf(F.Get(s.outs, fd));
    hide SameQueue;
  }

  lemma CloseInstanceSpares(s: State, k: Key, now: nat, fd: Fd)
    requires Foreign(s, k.session, fd)
    ensures Spares(s, CloseInstance(s, k, now), k.session, fd)
  {
    hide CloseClient, Release, Counted, Spares;
    SparesSelf(s, k.session, fd);
    if k in s.insts {
      var i := s.insts[k];
      assert i.cfd != Some(fd);
      var x := if i.cfd.Some? then i.cfd.value else fd + 1;
      CloseClientSpares(s, x, now, k.session, fd);
      var t := if i.cfd.Some? && i.owned then CloseClient(s, x, now) else s;
      SparesForeign(s, t, k.session, fd);
      LeavingSpares(t, k, fd);
      var v := Counted(t, k).(insts := Counted(t, k).insts - {k});
      SparesForeign(t, v, k.session, fd);
      SparesThen(s, t, v, k.session, fd);
      ReleaseSpares(v, x, now, k.session, fd);
      SparesThen(s, v, Release(v, k.session, x, now), k.session, fd);
    }
  }

  lemma SparesForeign(s: State, t: State, session: nat, fd: Fd)
    requires Spares(s, t, session, fd)
    ensures Foreign(t, session, fd)
  {}

  lemma {:induction false} CloseAllSpares(s: State, ks: seq<Key>, now: nat, session: nat, fd: Fd)
    requires Foreign(s, session, fd) && forall k :: k in ks ==> k.session == session
    ensures Spares(s, CloseAll(s, ks, now), session, fd)
    decreases |ks|
  {
    hide CloseInstance, Spares, Foreign;
    if ks == [] {
      SparesSelf(s, session, fd);
    } else {
      var t := CloseInstance(s, ks[0], now);
      CloseInstanceSpares(s, ks[0], now, fd);
      SparesForeign(s, t, session, fd);
      CloseAllSpares(t, ks[1..], now, session, fd);
      SparesThen(s, t, CloseAll(t, ks[1..], now), session, fd);
    }
  }

  lemma {:induction false} CloseOwnersSpares(s: State, names: seq<Name>, now: nat, session: nat, fd: Fd)
    requires Foreign(s, session, fd) && forall i :: 0 <= i < |names| ==> names[i].session == session
    ensures Spares(s, CloseOwners(s, names, now), session, fd)
    decreases |names|
  {
    hide CloseClient, Spares;
    SparesSelf(s, session, fd);
    if names != [] {
      var x := if names[0] in s.regs && s.regs[names[0]].owner.Some? then s.regs[names[0]].owner.value else fd + 1;
      CloseClientSpares(s, x, now, session, fd);
      var t := if names[0] in s.regs && s.regs[names[0]].owner.Some? then CloseClient(s, x, now) else s;
      SparesForeign(s, t, session, fd);
      CloseOwnersSpares(t, names[1..], now, session, fd);
      SparesThen(s, t, CloseOwners(t, names[1..], now), session, fd);
    }
  }

  lemma UnlinkedSame(q: seq<Chunk>, session: nat)
    ensures |Unlinked(q, session)| == |q| && forall i :: 0 <= i < |q| ==> Unlinked(q, session)[i].data == q[i].data
  {}

  /** The end of drop_session. */
  lemma ForgottenSpares(s: State, t: State, session: nat, fd: Fd)
    requires Foreign(s, session, fd) && (fd in s.paused ==> !PausedBy(s.paused[fd], session))
    requires t == s.(regs := map r | r in s.regs && r.session != session :: s.regs[r],
                     outs := map f | f in s.outs :: s.outs[f].(q := Unlinked(s.outs[f].q, session)),
                     paused := map f | f in s.paused && !PausedBy(s.paused[f], session) :: s.paused[f],
                     sessions := s.sessions - {session})
    ensures Spares(s, t, session, fd)
  {
    hide PausedBy, Unlinked;
    if fd in s.outs {
      UnlinkedSame(s.outs[fd].q, session);
    }
    assert OthersKept(s, t, session) by {
      hide SocketKept, Foreign;
    }
  }

  lemma PausedByUser(s: State, session: nat, user: nat, fd: Fd)
    requires F.Sockets(s) && user != session && UsedBy(s, user, fd)
    ensures fd in s.paused ==> !PausedBy(s.paused[fd], session)
    ensures Foreign(s, session, fd)
  {
    var f := F.FaceOf(s, fd);
    F.GoodOf(s, fd);
    if r :| r in s.regs && r.session == user && s.regs[r].owner == Some(fd) {
      assert r in f.regs;
    }
    if k :| k in s.insts && k.session == user && s.insts[k].cfd == Some(fd) {
      assert k in f.shared + f.owned;
    }
    forall r | r in s.regs && s.regs[r].owner == Some(fd)
      ensures r in f.regs
    {}
    forall k | k in s.insts && s.insts[k].cfd == Some(fd)
      ensures k in f.shared + f.owned
    {}
  }

  lemma DropSpares(s: State, session: nat, ids: seq<Key>, names: seq<Name>, now: nat, user: nat, fd: Fd)
    requires F.Sockets(s) && session in s.sessions && R.Listed(s, session, ids, names)
    requires user != session && UsedBy(s, user, fd)
    ensures Spares(s, DropSession(s, session, ids, names, now), session, fd)
  {
    hide F.Sockets, CloseAll, CloseOwners, Spares, Foreign, UsedBy, PausedBy;
    PausedByUser(s, session, user, fd);
    var c := CloseAll(s, ids, now);
    CloseAllSpares(s, ids, now, session, fd);
    SparesForeign(s, c, session, fd);
    NamesOf(s, session, ids, names);
    CloseOwnersSpares(c, names, now, session, fd);
    var o := CloseOwners(c, names, now);
    SparesThen(s, c, o, session, fd);
    SparesForeign(c, o, session, fd);
    SparesPaused(s, o, session, fd);
    ForgottenSpares(o, DropSession(s, session, ids, names, now), session, fd);
    SparesThen(s, o, DropSession(s, session, ids, names, now), session, fd);
  }

  lemma SparesPaused(s: State, t: State, session: nat, fd: Fd)
    requires Spares(s, t, session, fd)
    ensures F.Get(t.paused, fd) == F.Get(s.paused, fd)
  {}

  lemma NamesOf(s: State, session: nat, ids: seq<Key>, names: seq<Name>)
    requires R.Listed(s, session, ids, names)
    ensures forall i :: 0 <= i < |names| ==> names[i].session == session
    ensures forall k :: k in ids ==> k.session == session
  {
    forall i | 0 <= i < |names|
      ensures names[i].session == session
    {
      assert names[i] in F.Range(names);
    }
  }

  /** Dropping a session leaves every other one with its registrations, its instances and
      its sockets, each of these open, watched, paused and queued for as before. */
  lemma DropKeepsOthers(s: State, session: nat, ids: seq<Key>, names: seq<Name>, now: nat, user: nat)
    requires F.Sockets(s) && session in s.sessions && R.Listed(s, session, ids, names) && user != session
    ensures SessionKept(s, DropSession(s, session, ids, names, now), user)
  {
    hide F.Sockets, DropSession, SocketKept, R.Listed, UsedBy;
    var t := DropSession(s, session, ids, names, now);
    forall fd: Fd | UsedBy(s, user, fd)
      ensures SocketKept(s, t, fd)
    {
      DropSpares(s, session, ids, names, now, user, fd);
    }
    OthersAnyway(s, session, ids, names, now);
  }

  lemma OthersAnyway(s: State, session: nat, ids: seq<Key>, names: seq<Name>, now: nat)
    requires R.Listed(s, session, ids, names)
    ensures OthersKept(s, DropSession(s, session, ids, names, now), session)
  {
    hide CloseAll, CloseOwners, PausedBy, Unlinked;
    NamesOf(s, session, ids, names);
    var c := CloseAll(s, ids, now);
    CloseAllOthers(s, ids, now, session);
    F.OwnersRegs(c, names, now);
  }

  lemma {:induction false} CloseAllOthers(s: State, ks: seq<Key>, now: nat, session: nat)
    requires forall k :: k in ks ==> k.session == session
    ensures OthersKept(s, CloseAll(s, ks, now), session)
    decreases |ks|
  {
    hide CloseInstance;
    if ks != [] {
      var t := CloseInstance(s, ks[0], now);
      CloseOthers(s, ks[0], now);
      CloseAllOthers(t, ks[1..], now, session);
    }
  }

  lemma CloseOthers(s: State, k: Key, now: nat)
    ensures OthersKept(s, CloseInstance(s, k, now), k.session)
  {
    hide CloseClient, Release, Counted;
    if k in s.insts {
      var i := s.insts[k];
      var fd := if i.cfd.Some? then i.cfd.value else 0;
      CloseClientFrame(s, fd, now);
      var t := if i.cfd.Some? && i.owned then CloseClient(s, fd, now) else s;
      var v := Counted(t, k).(insts := Counted(t, k).insts - {k});
      LeavingOthers(t, k);
      N.ReleaseSame(v, k.session, fd, now);
    }
  }

  lemma LeavingOthers(s: State, k: Key)
    ensures var t := Counted(s, k);
            OthersKept(s, t.(insts := t.insts - {k}), k.session)
  {
    F.CountedUse(s, k);
    hide CountedBy;
  }

  // ---- reloading ----

  lemma QueueThen(o: Option<Out>, p: Option<Out>, q: Option<Out>)
    requires SameQueue(o, p) && SameQueue(p, q)
    ensures SameQueue(o, q)
  {}

  lemma SocketThen(s: State, t: State, u: State, fd: Fd)
    requires SocketKept(s, t, fd) && SocketKept(t, u, fd)
    ensures SocketKept(s, u, fd)
  {
    QueueThen(F.Get(s.outs, fd), F.Get(t.outs, fd), F.Get(u.outs, fd));
    hide SameQueue;
  }

  lemma KeptThen(s: State, t: State, u: State, session: nat)
    requires SessionKept(s, t, session) && SessionKept(t, u, session)
    ensures SessionKept(s, u, session)
  {
    hide SocketKept;
    forall fd: Fd | UsedBy(s, session, fd)
      ensures SocketKept(s, u, fd)
    {
      StillUsed(s, t, session, fd);
      SocketThen(s, t, u, fd);
    }
  }

  lemma StillUsed(s: State, t: State, session: nat, fd: Fd)
    requires SessionKept(s, t, session) && UsedBy(s, session, fd)
    ensures UsedBy(t, session, fd)
  {
    if r :| r in s.regs && r.session == session && s.regs[r].owner == Some(fd) {
      assert r in t.regs && t.regs[r] == s.regs[r];
    }
    if k :| k in s.insts && k.session == session && s.insts[k].cfd == Some(fd) {
      assert k in t.insts && t.insts[k] == s.insts[k];
    }
  }

  lemma KeptSelf(s: State, session: nat)
    ensures SessionKept(s, s, session)
  {
    forall fd: Fd
      ensures SocketKept(s, s, fd)
    {
      SameQueueSelf(F.Get(s.outs, fd));
    }
  }

  predicate DropsOnly(es: seq<R.Event>, sessions: set<nat>) {
    forall i :: 0 <= i < |es| ==> es[i].Drops? && es[i].session in sessions
  }

  lemma {:induction false} DropsKeep(s: State, es: seq<R.Event>, sessions: set<nat>, user: nat)
    requires R.Inv(s) && R.PossibleRun(s, es) && DropsOnly(es, sessions) && user !in sessions
    ensures SessionKept(s, R.Run(s, es), user)
    decreases |es|
  {
    hide R.Inv, SessionKept, DropSession, F.Sockets, R.Listed;
    if es == [] {
      KeptSelf(s, user);
    } else {
      var e := es[0];
      var t := R.Happens(s, e);
      R.EventKeeps(s, e);
      SocketsOf(s);
      DropKeepsOthers(s, e.session, e.ids, e.names, e.now, user);
      DropsKeep(t, es[1..], sessions, user);
      KeptThen(s, t, R.Run(t, es[1..]), user);
    }
  }

  lemma SocketsOf(s: State)
    requires R.Inv(s)
    ensures F.Sockets(s)
  {}

  /** Reloading drops the sessions of the peers that are gone, and does nothing else to the
      tables: every session that goes on, under its old name or another, keeps its numbering,
      registrations, instances and sockets. */
  lemma ReloadKeepsSessions(s: L.Sessions, next: nat, d: map<nat, L.Record>, t: L.Sessions, dropped: set<nat>,
                            tables: State, drops: seq<R.Event>, n: string)
    requires L.Reloaded(s, next, d, t, dropped) && L.Kept(s, next)
    requires n in s && s[n].rec.uid in d && L.Holds(t, s[n])
    requires R.Inv(tables) && R.PossibleRun(tables, drops) && DropsOnly(drops, dropped)
    ensures var m := d[s[n].rec.uid].name;
            m in t && t[m].self == s[n].self && SessionKept(tables, R.Run(tables, drops), t[m].self)
  {
    hide L.Reloaded, L.Kept, L.Holds, R.Inv, R.PossibleRun, SessionKept;
    L.HeldUnder(s, next, d, t, dropped, n);
    L.NotDropped(s, next, d, t, dropped, n);
    DropsKeep(tables, drops, dropped, s[n].self);
  }

  /** And of a session that is dropped nothing is left. */
  lemma NothingLeft(s: State, session: nat, ids: seq<Key>, names: seq<Name>, now: nat)
    requires session in s.sessions && R.Listed(s, session, ids, names)
    ensures var t := DropSession(s, session, ids, names, now);
            && session !in t.sessions && (forall r :: r in t.regs ==> r.session != session)
            && (forall k :: k in t.insts ==> k.session != session)
            && (forall fd :: fd in t.paused ==> !PausedBy(t.paused[fd], session))
  {
    hide CloseAll, CloseOwners, PausedBy, Unlinked;
    R.AllRemoved(s, ids, now);
    F.OwnersRegs(CloseAll(s, ids, now), names, now);
  }
}

/** Whole runs of the splicing daemon (src/peer/daemon.cpp): whatever happens in whatever
    order, window credit is conserved, client sockets are open exactly while they are
    needed, and the registrations' counters are right. */
module SpliceRuns {
  import opened Wrappers
  import opened Splice
  import C = SpliceCredit
  import F = SpliceSockets
  import N = SpliceCounters

  datatype Event =
    | Starts(session: nat)
    | Accepts(session: nat)
    | Opens(session: nat, cfd: Option<Fd>, wait: bool)
    | Registers(name: Name, limit: nat, owner: Option<Fd>)
    | Unregisters(name: Name, now: nat)
    | Dials(key: Key, conn: bool)
    | Arrives(key: Key, bytes: string, env: Env)
    | Goes(key: Key, now: nat)
    | Closes(key: Key, now: nat)
    | Expires(key: Key, why: string, now: nat, answers: seq<Answer>)
    | Drains(fd: Fd, answers: seq<Answer>)
    | OwnerReads(fd: Fd, outcome: Outcome, room: set<Key>, users: seq<Key>, now: nat)
    | ClientReads(fd: Fd, outcome: Outcome, room: set<Key>, now: nat)
    | ResumesOwner(fd: Fd, room: set<Key>)
    | ResumesClient(key: Key, room: set<Key>)
    | GivesUp(fd: Fd, now: nat)
    | Retires(session: nat, now: nat)
    | Drops(session: nat, ids: seq<Key>, names: seq<Name>, now: nat)

  /** The listings that drop_session's loops go through: all that is the session's, and
      nothing else. */
  ghost predicate Listed(s: State, session: nat, ids: seq<Key>, names: seq<Name>) {
    && (forall k :: k in ids <==> k in s.insts && k.session == session)
    && F.Distinct(names) && (forall r :: r in s.regs && r.session == session <==> r in F.Range(names))
  }

  /** What can happen: a session object is new, a descriptor handed over is not one the
      daemon already holds, output drains only where the poller waits for it. */
  ghost predicate Possible(s: State, e: Event) {
    match e
    case Starts(session) => session !in s.sessions
    case Accepts(session) => session in s.sessions
    case Opens(session, cfd, _) => session in s.sessions && (cfd.Some? ==> F.FreshFd(s, cfd.value))
    case Registers(name, _, owner) => name.session in s.sessions && (owner.Some? ==> F.FreshFd(s, owner.value))
    case Drains(fd, _) => fd in s.writing
    case Retires(session, _) => session in s.sessions
    case Drops(session, ids, names, _) => session in s.sessions && Listed(s, session, ids, names)
    case _ => true
  }

  ghost function Happens(s: State, e: Event): State
    requires Possible(s, e)
  {
    match e
    case Starts(session) => s.(sessions := s.sessions[session := Session(1, 0, [])])
    case Accepts(session) => Accept(s, session)
    case Opens(session, cfd, wait) => Open(s, session, cfd, wait)
    case Registers(name, limit, owner) => Register(s, name, limit, owner)
    case Unregisters(name, now) => Unregister(s, name, now)
    case Dials(key, conn) => Dialled(s, key, conn)
    case Arrives(key, bytes, env) => TunnelData(s, key, bytes, env)
    case Goes(key, now) => TunnelGone(s, key, now)
    case Closes(key, now) => CloseInstance(s, key, now)
    case Expires(key, why, now, answers) => Expire(s, key, why, now, answers)
    case Drains(fd, answers) => Flush(s, fd, answers)
    case OwnerReads(fd, outcome, room, users, now) => OwnerReadable(s, fd, outcome, room, users, now)
    case ClientReads(fd, outcome, room, now) => ClientReadable(s, fd, outcome, room, now)
    case ResumesOwner(fd, room) => ResumeOwner(s, fd, room)
    case ResumesClient(key, room) => ResumeClient(s, key, room)
    case GivesUp(fd, now) => GiveUp(s, fd, now)
    case Retires(session, now) => RetireTick(s, session, now)
    case Drops(session, ids, names, now) => DropSession(s, session, ids, names, now)
  }

  ghost predicate Inv(s: State) {
    C.Credit(s) && F.Sockets(s) && N.Counters(s)
  }

  // ---- what the three invariants lend each other ----

  lemma FreshOut(s: State, fd: Fd)
    requires F.Sockets(s) && F.FreshFd(s, fd)
    ensures fd !in s.outs
  {
    F.UnusedFace(s, fd);
    F.OutFace(s, fd);
  }

  lemma NoSocketBefore(s: State, k: Key)
    requires C.Credit(s) && k in s.insts && s.insts[k].inbound && !s.insts[k].open
    ensures s.insts[k].cfd.None?
  {
    C.BalancedOf(s, k);
    C.NoSocketYet(s.insts[k], C.Queued(s, k));
  }

  lemma DrainingUnused(s: State, fd: Fd)
    requires F.Sockets(s) && fd in s.outs && s.outs[fd].closing
    ensures forall k :: k in s.insts ==> s.insts[k].cfd != Some(fd)
  {
    hide F.Sockets;
    forall k | k in s.insts
      ensures s.insts[k].cfd != Some(fd)
    {
      if s.insts[k].cfd.Some? {
        F.NotDraining(s, k);
      }
    }
  }

  lemma StartsKeeps(s: State, session: nat)
    requires Inv(s) && session !in s.sessions
    ensures Inv(s.(sessions := s.sessions[session := Session(1, 0, [])]))
  {
    var t := s.(sessions := s.sessions[session := Session(1, 0, [])]);
    assert C.Credit(t) by {
      hide C.Balanced, C.Owed, C.ValidOut;
      assert forall k :: C.Known(s, k) ==> C.Known(t, k);
      assert forall k :: k in s.insts ==> C.Queued(t, k) == C.Queued(s, k);
      forall f | f in t.outs
        ensures C.TaggedOut(t, f, t.outs[f].q)
      {
        C.KnownTags(s, t, f, t.outs[f].q);
      }
    }
    assert F.Sockets(t) by {
      hide F.Sockets, F.SameUse;
      F.SameUseSelf(s, t);
      F.UnseenKeeps(s, t);
    }
    assert N.Counters(t) by {
      N.SameKeeps(s, t);
    }
  }

  // ---- dropping a session ----

  lemma CloseRemoves(s: State, k: Key, now: nat)
    ensures var t := CloseInstance(s, k, now);
            t.insts == s.insts - {k} && t.regs.Keys == s.regs.Keys && t.sessions == s.sessions
  {
    hide CloseClient, Release, CountedBy;
    if k in s.insts {
      var i := s.insts[k];
      var fd := if i.cfd.Some? then i.cfd.value else 0;
      CloseClientFrame(s, fd, now);
      var t := if i.cfd.Some? && i.owned then CloseClient(s, fd, now) else s;
      F.CountedUse(t, k);
      var u := Counted(t, k);
      var v := u.(insts := u.insts - {k});
      N.ReleaseSame(v, k.session, fd, now);
    } else {
      assert s.insts - {k} == s.insts;
    }
  }

  lemma {:induction false} AllRemoved(s: State, ks: seq<Key>, now: nat)
    ensures var t := CloseAll(s, ks, now);
            && (forall k :: k in t.insts ==> k in s.insts && k !in ks)
            && t.regs.Keys == s.regs.Keys && t.sessions == s.sessions
    decreases |ks|
  {
    hide CloseInstance;
    if ks != [] {
      CloseRemoves(s, ks[0], now);
      AllRemoved(CloseInstance(s, ks[0], now), ks[1..], now);
    }
  }

  lemma DropKeeps(s: State, session: nat, ids: seq<Key>, names: seq<Name>, now: nat)
    requires Inv(s) && session in s.sessions && Listed(s, session, ids, names)
    ensures Inv(DropSession(s, session, ids, names, now))
  {
    hide C.Credit, F.Sockets, N.Counters, CloseAll, CloseOwners, F.Range, F.Distinct;
    var c := CloseAll(s, ids, now);
    AllRemoved(s, ids, now);
    C.CloseAllKeeps(s, ids, now);
    F.CloseAllKeeps(s, ids, now);
    N.CloseAllKeeps(s, ids, now);
    assert forall r :: r in c.regs <==> r in c.regs.Keys;
    F.DropKeeps(s, session, ids, names, now);
    var t := CloseOwners(c, names, now);
    C.OwnersKeep(c, names, now);
    F.OwnersRegs(c, names, now);
    N.Alike(c, t);
    var v := DropSession(s, session, ids, names, now);
    N.SessionGone(t, v, session);
    C.SessionGone(t, v, session);
  }

  // ---- every event ----

  lemma NetKeeps(s: State, e: Event)
    requires Inv(s) && Possible(s, e) && (e.Arrives? || e.Goes? || e.Closes? || e.Expires? || e.Drains? || e.Dials?)
    ensures Inv(Happens(s, e))
  {
    hide C.Credit, F.Sockets, N.Counters, TunnelData, TunnelGone, CloseInstance, FailOpen, Flush;
    match e
    case Arrives(key, bytes, env) =>
      if key in s.insts && s.insts[key].inbound && !s.insts[key].open {
        NoSocketBefore(s, key);
      }
      C.TunnelDataKeeps(s, key, bytes, env);
      F.TunnelDataKeeps(s, key, bytes, env);
      N.TunnelDataKeeps(s, key, bytes, env);
    case Goes(key, now) =>
      C.TunnelGoneKeeps(s, key, now);
      F.TunnelGoneKeeps(s, key, now);
      N.TunnelGoneKeeps(s, key, now);
    case Closes(key, now) =>
      C.CloseInstanceKeeps(s, key, now);
      F.CloseInstanceKeeps(s, key, now);
      N.CloseInstanceKeeps(s, key, now);
    case Expires(key, why, now, answers) =>
      C.FailOpenKeeps(s, key, why, now, answers);
      F.FailOpenKeeps(s, key, why, now, answers);
      N.FailOpenKeeps(s, key, why, now, answers);
    case Drains(fd, answers) =>
      C.FlushKeeps(s, fd, answers);
      FlushSockets(s, fd, answers);
      N.FlushKeeps(s, fd, answers);
    case Dials(key, conn) =>
      C.DialledKeeps(s, key, conn);
      F.DialledKeeps(s, key, conn);
      if key in s.insts && !s.insts[key].inbound && !s.insts[key].open {
        N.RewriteKeeps(s, Dialled(s, key, conn), key);
      }
  }

  lemma FlushSockets(s: State, fd: Fd, answers: seq<Answer>)
    requires F.Sockets(s)
    ensures F.Sockets(Flush(s, fd, answers))
  {
    hide F.FaceOf, Flush;
    F.Together(s, fd);
    F.FlushKeeps(s, fd, answers);
  }

  lemma SocketKeeps(s: State, e: Event)
    requires Inv(s) && (e.OwnerReads? || e.ClientReads? || e.ResumesOwner? || e.ResumesClient? || e.GivesUp?)
    ensures Inv(Happens(s, e))
  {
    hide C.Credit, F.Sockets, N.Counters, OwnerReadable, CloseInstance, CanRead;
    match e
    case OwnerReads(fd, outcome, room, users, now) =>
      C.OwnerReadableKeeps(s, fd, outcome, room, users, now);
      F.OwnerReadableKeeps(s, fd, outcome, room, users, now);
      N.OwnerReadableKeeps(s, fd, outcome, room, users, now);
    case ClientReads(fd, outcome, room, now) =>
      C.ClientReadableKeeps(s, fd, outcome, room, now);
      F.ClientReadableKeeps(s, fd, outcome, room, now);
      N.Alike(s, s.(reading := s.reading - {fd}, writing := s.writing - {fd}));
      if fd in s.reading && s.reading[fd].Client? {
        N.CloseInstanceKeeps(s, s.reading[fd].key, now);
      }
    case ResumesOwner(fd, room) =>
      C.SameBooks(s, ResumeOwner(s, fd, room));
      F.ResumeOwnerKeeps(s, fd, room);
      N.Alike(s, ResumeOwner(s, fd, room));
    case ResumesClient(key, room) =>
      C.SameBooks(s, ResumeClient(s, key, room));
      F.ResumeClientKeeps(s, key, room);
      N.Alike(s, ResumeClient(s, key, room));
    case GivesUp(fd, now) =>
      if fd in s.outs && s.outs[fd].closing {
        DrainingUnused(s, fd);
      }
      C.GiveUpKeeps(s, fd, now);
      F.GiveUpKeeps(s, fd, now);
      N.Alike(s, GiveUp(s, fd, now));
  }

  lemma ControlKeeps(s: State, e: Event)
    requires Inv(s) && Possible(s, e) && (e.Accepts? || e.Opens? || e.Registers? || e.Unregisters? || e.Retires?)
    ensures Inv(Happens(s, e))
  {
    hide C.Credit, F.Sockets, N.Counters, Register, Unregister, Retire;
    match e
    case Accepts(session) =>
      C.AddKeeps(s, session, Instance(true, false, true, false, "", "", 0, None, false, 0, 0, 0, 0, NO_LOG));
      F.AcceptKeeps(s, session);
      N.AddKeeps(s, session, Instance(true, false, true, false, "", "", 0, None, false, 0, 0, 0, 0, NO_LOG));
    case Opens(session, cfd, wait) =>
      if cfd.Some? {
        FreshOut(s, cfd.value);
      }
      C.OpenKeeps(s, session, cfd, wait);
      F.OpenKeeps(s, session, cfd, wait);
      var i := Instance(false, wait, false, false, "", "", 0, cfd, cfd.Some?, 0, 0, 0, 0, NO_LOG);
      N.AddKeeps(s, session, i);
      N.Alike(AddInstance(s, session, i), Open(s, session, cfd, wait));
    case Registers(name, limit, owner) =>
      C.RegisterKeeps(s, name, limit, owner);
      F.RegisterKeeps(s, name, limit, owner);
      N.RegisterKeeps(s, name, limit, owner);
    case Unregisters(name, now) =>
      C.UnregisterKeeps(s, name, now);
      F.UnregisterKeeps(s, name, now);
      N.UnregisterKeeps(s, name, now);
    case Retires(session, now) =>
      RetireTickKeeps(s, session, now);
  }

  lemma RetireTickKeeps(s: State, session: nat, now: nat)
    requires Inv(s) && session in s.sessions
    ensures Inv(RetireTick(s, session, now))
  {
    hide C.Credit, F.Sockets, N.Counters, Retire;
    var serials := s.sessions[session].retire;
    RetireSame(s, session, serials, now);
    C.RetireKeeps(s, session, serials, now);
    F.RetireTickKeeps(s, session, now);
    N.RetireKeeps(s, session, serials, now);
    var t := Retire(s, session, serials, now);
    var u := RetireTick(s, session, now);
    RetiredCredit(t, u);
    assert N.SameCounts(t, u) by {
      PositiveSerials(t);
    }
    N.SameKeeps(t, u);
  }

  lemma PositiveSerials(s: State)
    requires N.Counters(s)
    ensures forall n :: n in s.sessions ==> s.sessions[n].nextSerial > 0
  {}

  lemma RetiredCredit(t: State, u: State)
    requires C.Credit(t) && u == t.(sessions := u.sessions) && forall k :: C.Known(t, k) ==> C.Known(u, k)
    ensures C.Credit(u)
  {
    hide C.Balanced, C.Owed, C.ValidOut;
    assert forall k :: k in t.insts ==> C.Queued(u, k) == C.Queued(t, k);
    forall f | f in u.outs
      ensures C.TaggedOut(u, f, u.outs[f].q)
    {
      C.KnownTags(t, u, f, u.outs[f].q);
    }
  }

  lemma {:induction false} RetireSame(s: State, session: nat, serials: seq<nat>, now: nat)
    ensures Retire(s, session, serials, now).sessions == s.sessions
    decreases |serials|
  {
    hide Unregister;
    if serials != [] {
      if exists r :: Serves(s, session, serials[0], r) {
        var r :| Serves(s, session, serials[0], r) && Retire(s, session, serials, now) == Retire(Unregister(s, r, now), session, serials[1..], now);
        N.UnregisterSame(s, r, now);
        RetireSame(Unregister(s, r, now), session, serials[1..], now);
      } else {
        RetireSame(s, session, serials[1..], now);
      }
    }
  }

  lemma EventKeeps(s: State, e: Event)
    requires Inv(s) && Possible(s, e)
    ensures Inv(Happens(s, e))
  {
    hide Inv, DropSession;
    if e.Arrives? || e.Goes? || e.Closes? || e.Expires? || e.Drains? || e.Dials? {
      NetKeeps(s, e);
    } else if e.OwnerReads? || e.ClientReads? || e.ResumesOwner? || e.ResumesClient? || e.GivesUp? {
      SocketKeeps(s, e);
    } else if e.Starts? {
      StartsKeeps(s, e.session);
    } else if e.Drops? {
      DropKeeps(s, e.session, e.ids, e.names, e.now);
    } else {
      ControlKeeps(s, e);
    }
  }

  ghost predicate PossibleRun(s: State, es: seq<Event>)
    decreases |es|
  {
    es == [] || (Possible(s, es[0]) && PossibleRun(Happens(s, es[0]), es[1..]))
  }

  ghost function Run(s: State, es: seq<Event>): State
    requires PossibleRun(s, es)
    decreases |es|
  {
    if es == [] then s else Run(Happens(s, es[0]), es[1..])
  }

  lemma {:induction false} RunKeeps(s: State, es: seq<Event>)
    requires Inv(s) && PossibleRun(s, es)
    ensures Inv(Run(s, es))
    decreases |es|
  {
    hide Inv, Possible, Happens;
    if es != [] {
      EventKeeps(s, es[0]);
      RunKeeps(Happens(s, es[0]), es[1..]);
    }
  }

  lemma EmptyInv()
    ensures Inv(EMPTY)
  {
    forall fd: Fd
      ensures F.GoodFace(F.FaceOf(EMPTY, fd))
    {
      assert F.FaceOf(EMPTY, fd) == F.Face({}, {}, {}, false, None, None, None, false);
    }
  }

  /** Window credit in every run: bytes arrived are bytes credited, handshake bytes used
      up and bytes still queued; no more is credited than arrived under hold. */
  lemma CreditConserved(es: seq<Event>, k: Key)
    requires PossibleRun(EMPTY, es) && k in Run(EMPTY, es).insts && Run(EMPTY, es).insts[k].cfd.Some?
    ensures var s := Run(EMPTY, es);
            var i := s.insts[k];
            && i.down == i.credit + (i.early - i.preacked) + C.Queued(s, k)
            && i.preacked <= i.early
            && (if i.preacked > 0 then i.credit == 0 else i.credit <= i.down - i.early)
  {
    hide Run, PossibleRun;
    EmptyInv();
    RunKeeps(EMPTY, es);
    C.NeverOverCredited(Run(EMPTY, es), k);
    C.BalancedOf(Run(EMPTY, es), k);
  }

  /** Client sockets in every run: open exactly while somebody uses them or their last
      output drains, never closed twice; an owner socket in use is watched or paused,
      and the output waiting for its owner is polled for. */
  lemma SocketsKept(es: seq<Event>, fd: Fd)
    requires PossibleRun(EMPTY, es)
    ensures var s := Run(EMPTY, es);
            var used := (exists r :: r in s.regs && s.regs[r].owner == Some(fd)) || (exists k :: k in s.insts && s.insts[k].cfd == Some(fd));
            var shared := (exists r :: r in s.regs && s.regs[r].owner == Some(fd))
                          || (exists k :: k in s.insts && s.insts[k].inbound && s.insts[k].cfd == Some(fd));
            && !s.doubled
            && (fd in s.open <==> used || (fd in s.outs && s.outs[fd].closing))
            && (shared ==> (fd in s.reading) != (fd in s.paused))
            && (fd in s.writing ==> fd in s.outs)
            && (shared ==> (fd in s.outs <==> fd in s.writing))
            && (fd !in s.open ==> fd !in s.outs && fd !in s.reading && fd !in s.paused)
  {
    hide Run, PossibleRun;
    EmptyInv();
    RunKeeps(EMPTY, es);
    var s := Run(EMPTY, es);
    SocketRead(s, fd);
  }

  lemma SocketRead(s: State, fd: Fd)
    requires F.Sockets(s)
    ensures var used := (exists r :: r in s.regs && s.regs[r].owner == Some(fd)) || (exists k :: k in s.insts && s.insts[k].cfd == Some(fd));
            var shared := (exists r :: r in s.regs && s.regs[r].owner == Some(fd))
                          || (exists k :: k in s.insts && s.insts[k].inbound && s.insts[k].cfd == Some(fd));
            && (fd in s.open <==> used || (fd in s.outs && s.outs[fd].closing))
            && (shared ==> (fd in s.reading) != (fd in s.paused))
            && (fd in s.writing ==> fd in s.outs)
            && (shared ==> (fd in s.outs <==> fd in s.writing))
            && (fd !in s.open ==> fd !in s.outs && fd !in s.reading && fd !in s.paused)
  {
    var f := F.FaceOf(s, fd);
    F.GoodOf(s, fd);
    forall r | r in s.regs && s.regs[r].owner == Some(fd)
      ensures r in f.regs
    {}
    forall k | k in s.insts && s.insts[k].cfd == Some(fd)
      ensures k in f.shared + f.owned && (s.insts[k].inbound ==> k in f.shared)
    {
      assert F.InstOk(s.insts[k]);
    }
    if f.regs != {} {
      var r :| r in f.regs;
      assert r in s.regs;
    } else if f.shared + f.owned != {} {
      var k :| k in f.shared + f.owned;
      assert k in s.insts;
    }
  }

  /** Counters in every run. */
  lemma CountersRight(es: seq<Event>, r: Name)
    requires PossibleRun(EMPTY, es) && r in Run(EMPTY, es).regs
    ensures var s := Run(EMPTY, es);
            var g := s.regs[r];
            && g.started == g.active + g.finished
            && g.active == |N.Live(s, r.session, g.serial)|
            && (g.limit > 0 ==> g.started <= g.limit)
  {
    hide Run, PossibleRun, N.Live;
    EmptyInv();
    RunKeeps(EMPTY, es);
    assert N.Counts(Run(EMPTY, es), r);
  }

  // ---- what the client reads ----

  /** The bytes still to be written to a client, in order. */
  function Pending(q: seq<Chunk>, off: nat): string
    decreases |q|
  {
    if q == [] then "" else (if off <= |q[0].data| then q[0].data[off..] else "") + Pending(q[1..], 0)
  }

  /** The bytes the kernel took during a flush. */
  function Took(s: State, fd: Fd, answers: seq<Answer>): string
    decreases |answers|
  {
    if fd !in s.outs || s.outs[fd].q == [] || answers == [] || !answers[0].Wrote? then ""
    else
      var o := s.outs[fd];
      var n := Taken(o, answers[0].n);
      var from := if o.off <= |o.q[0].data| then o.q[0].data[o.off..] else "";
      from[..n] + Took(Written(s, fd, n), fd, answers[1..])
  }

  /** A client reads what was queued for it, in order, nothing lost and nothing twice:
      what it has taken and what is left make up what was pending. */
  lemma {:induction false} FlushInOrder(s: State, fd: Fd, answers: seq<Answer>)
    requires C.Credit(s) && fd in s.outs
    ensures Took(s, fd, answers) <= Pending(s.outs[fd].q, s.outs[fd].off)
    ensures var t := Flush(s, fd, answers);
            fd in t.outs ==> Took(s, fd, answers) + Pending(t.outs[fd].q, t.outs[fd].off) == Pending(s.outs[fd].q, s.outs[fd].off)
    decreases |answers|
  {
    hide C.Credit, Flush, AccountChunk, AccountRest, Advance, Pending;
    FlushOnce(s, fd, answers);
    var o := s.outs[fd];
    if o.q != [] && answers != [] && answers[0].Wrote? {
      var n := Taken(o, answers[0].n);
      C.LeftSome(s, fd);
      C.WriteKeeps(s, fd, n);
      FlushInOrder(Written(s, fd, n), fd, answers[1..]);
      AdvancePending(o, n);
      var rest := Took(Written(s, fd, n), fd, answers[1..]);
      assert forall tail: string :: o.q[0].data[o.off..][..n] + rest + tail == o.q[0].data[o.off..][..n] + (rest + tail);
    }
  }

  lemma AdvancePending(o: Out, n: nat)
    requires o.q != [] && o.off <= |o.q[0].data| && n <= |o.q[0].data| - o.off
    ensures Pending(o.q, o.off) == o.q[0].data[o.off..][..n] + Pending(Advance(o, n).q, Advance(o, n).off)
  {
    var d := o.q[0].data[o.off..];
    if o.off + n >= |o.q[0].data| {
      assert d[..n] == d;
      assert Pending(o.q[1..], 0) == Pending(Advance(o, n).q, Advance(o, n).off);
    } else {
      assert d == d[..n] + o.q[0].data[o.off + n..];
      assert d[..n] + (o.q[0].data[o.off + n..] + Pending(o.q[1..], 0)) == d + Pending(o.q[1..], 0);
    }
  }
}

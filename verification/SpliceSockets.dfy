/** The life of a client socket (src/peer/daemon.cpp:706-758, 790-956, 1146-1158): it is
    open exactly while a registration or an instance uses it or its last output drains,
    it is closed once, and an owner socket in use is always either watched or paused. */
module SpliceSockets {
  import opened Wrappers
  import opened Splice

  /** All that concerns one socket: who uses it, and how the daemon keeps it. */
  datatype Face = Face(
    regs: set<Name>, shared: set<Key>, owned: set<Key>,
    open: bool, out: Option<Out>, reading: Option<Watch>, paused: Option<Watch>, writing: bool)

  function RegsOn(s: State, fd: Fd): set<Name> {
    set r | r in s.regs && s.regs[r].owner == Some(fd)
  }

  function InstsOn(s: State, fd: Fd, owned: bool): set<Key> {
    set k | k in s.insts && s.insts[k].cfd == Some(fd) && s.insts[k].owned == owned
  }

  function Get<T>(m: map<Fd, T>, fd: Fd): Option<T> {
    if fd in m then Some(m[fd]) else None
  }

  function FaceOf(s: State, fd: Fd): Face {
    Face(RegsOn(s, fd), InstsOn(s, fd, false), InstsOn(s, fd, true),
         fd in s.open, Get(s.outs, fd), Get(s.reading, fd), Get(s.paused, fd), fd in s.writing)
  }

  predicate Used(f: Face) {
    f.regs != {} || f.shared != {} || f.owned != {}
  }

  predicate Draining(f: Face) {
    f.out.Some? && f.out.value.closing
  }

  /** Watched or paused, never both and never neither, for the session that uses it. */
  ghost predicate OwnerKept(f: Face) {
    && f.owned == {} && f.reading.Some? != f.paused.Some?
    && var w := if f.reading.Some? then f.reading.value else f.paused.value;
    && w.Owner?
    && (forall r :: r in f.regs ==> r.session == w.reg.session)
    && (forall k :: k in f.shared ==> k.session == w.reg.session)
  }

  ghost predicate ClientKept(f: Face) {
    && f.paused.None?
    && (forall a, b :: a in f.owned && b in f.owned ==> a == b)
    && (f.reading.Some? ==> f.reading.value.Client? && f.reading.value.key in f.owned)
  }

  /** Output is queued only for a socket that is open; only then is the socket polled for
      writing, and an owner socket then always is. */
  predicate OutputKept(f: Face) {
    && (f.out.Some? ==> f.open && f.out.value.q != [])
    && (f.writing ==> f.out.Some?)
    && (f.regs != {} || f.shared != {} ==> f.writing == f.out.Some?)
  }

  /** Open exactly while it is used or drains, and kept for its users as it should be. */
  ghost predicate UseKept(f: Face) {
    && (f.open <==> Used(f) || Draining(f))
    && (Used(f) ==> !Draining(f))
    && (f.out.Some? ==> f.open)
    && (f.reading.Some? || f.paused.Some? ==> Used(f))
    && (forall a, b :: a in f.regs && b in f.regs ==> a == b)
    && (f.regs != {} || f.shared != {} ==> OwnerKept(f))
    && (f.owned != {} ==> ClientKept(f))
  }

  ghost predicate GoodFace(f: Face) {
    UseKept(f) && OutputKept(f)
  }

  predicate InstOk(i: Instance) {
    && (i.inbound ==> !i.owned)
    && (!i.inbound ==> i.owned == i.cfd.Some?)
  }

  ghost predicate Sockets(s: State) {
    && !s.doubled
    && (forall fd: Fd :: GoodFace(FaceOf(s, fd)))
    && (forall k :: k in s.insts ==> InstOk(s.insts[k]))
  }

  /** All is well, socket `fd` left aside. */
  ghost predicate Elsewhere(s: State, fd: Fd) {
    && !s.doubled
    && (forall f: Fd :: f != fd ==> GoodFace(FaceOf(s, f)))
    && (forall k :: k in s.insts ==> InstOk(s.insts[k]))
  }

  ghost predicate SameFaces(s: State, t: State, fd: Fd) {
    forall f: Fd :: f != fd ==> FaceOf(t, f) == FaceOf(s, f)
  }

  lemma Together(s: State, fd: Fd)
    ensures Sockets(s) <==> Elsewhere(s, fd) && GoodFace(FaceOf(s, fd))
  {
    hide GoodFace, FaceOf;
  }

  /** An operation on one socket leaves the others as they were. */
  lemma StaysElsewhere(s: State, t: State, fd: Fd)
    requires Elsewhere(s, fd) && SameFaces(s, t, fd) && !t.doubled
    requires forall k :: k in t.insts ==> InstOk(t.insts[k])
    ensures Elsewhere(t, fd)
  {
    hide GoodFace, FaceOf;
  }

  // ---- closing ----

  /** The face of a socket after close_client. */
  function ClosedFace(f: Face): Face {
    if f.out.None? || f.out.value.q == [] then
      f.(paused := None, reading := None, out := None, writing := false, open := false)
    else f.(paused := None, reading := None, out := Some(f.out.value.(closing := true)))
  }

  /** States that differ at one socket only. */
  predicate OffBy(s: State, t: State, fd: Fd) {
    && t.open - {fd} == s.open - {fd} && t.writing - {fd} == s.writing - {fd}
    && t.outs - {fd} == s.outs - {fd} && t.reading - {fd} == s.reading - {fd} && t.paused - {fd} == s.paused - {fd}
  }

  lemma OffByMap<T>(m: map<Fd, T>, n: map<Fd, T>, fd: Fd, f: Fd)
    requires n - {fd} == m - {fd} && f != fd
    ensures Get(n, f) == Get(m, f)
  {
    assert f in m ==> f in m - {fd} && (m - {fd})[f] == m[f];
    assert f in n ==> f in n - {fd} && (n - {fd})[f] == n[f];
  }

  lemma OffBySet(m: set<Fd>, n: set<Fd>, fd: Fd, f: Fd)
    requires n - {fd} == m - {fd} && f != fd
    ensures f in n <==> f in m
  {
    assert f in m <==> f in m - {fd};
    assert f in n <==> f in n - {fd};
  }

  lemma OffByFaces(s: State, t: State, fd: Fd)
    requires t.insts == s.insts && t.regs == s.regs && OffBy(s, t, fd)
    ensures SameFaces(s, t, fd)
  {
    hide Get, InstsOn, RegsOn;
    forall f: Fd | f != fd
      ensures FaceOf(t, f) == FaceOf(s, f)
    {
      UsersSame(s, t, f);
      OffByMap(s.outs, t.outs, fd, f);
      OffByMap(s.reading, t.reading, fd, f);
      OffByMap(s.paused, t.paused, fd, f);
      OffBySet(s.open, t.open, fd, f);
      OffBySet(s.writing, t.writing, fd, f);
    }
  }

  lemma UsersSame(s: State, t: State, fd: Fd)
    requires t.insts == s.insts && t.regs == s.regs
    ensures RegsOn(t, fd) == RegsOn(s, fd)
    ensures InstsOn(t, fd, false) == InstsOn(s, fd, false) && InstsOn(t, fd, true) == InstsOn(s, fd, true)
  {}

  lemma UpdatedOff<T>(m: map<Fd, T>, fd: Fd, v: T)
    ensures m[fd := v] - {fd} == m - {fd} && (m - {fd}) - {fd} == m - {fd}
    ensures Get(m[fd := v], fd) == Some(v) && Get(m - {fd}, fd) == None
  {}

  lemma ErasedOff(m: set<Fd>, fd: Fd)
    ensures (m - {fd}) - {fd} == m - {fd} && (m + {fd}) - {fd} == m - {fd}
  {}

  lemma ClosedFaces(s: State, fd: Fd)
    ensures SameFaces(s, Closed(s, fd), fd)
    ensures FaceOf(Closed(s, fd), fd) ==
              FaceOf(s, fd).(paused := None, reading := None, out := None, writing := false, open := false)
  {
    hide RegsOn, InstsOn;
    var t := Closed(s, fd);
    UsersSame(s, t, fd);
    assert SameFaces(s, t, fd) by {
      hide Get, FaceOf;
      ErasedOff(s.open, fd);
      ErasedOff(s.writing, fd);
      UpdatedOff(s.paused, fd, Client(Key(0, 0)));
      UpdatedOff(s.reading, fd, Client(Key(0, 0)));
      UpdatedOff(s.outs, fd, Out([], 0, true, 0));
      OffByFaces(s, t, fd);
    }
  }

  lemma DrainsFaces(s: State, fd: Fd, now: nat)
    requires fd in s.outs
    ensures SameFaces(s, Drains(s, fd, now), fd)
    ensures FaceOf(Drains(s, fd, now), fd) ==
              FaceOf(s, fd).(paused := None, reading := None, out := Some(s.outs[fd].(closing := true, giveUp := now + GIVE_UP_MS)))
  {
    hide RegsOn, InstsOn;
    var t := Drains(s, fd, now);
    UsersSame(s, t, fd);
    assert SameFaces(s, t, fd) by {
      hide Get, FaceOf;
      UpdatedOff(s.paused, fd, Client(Key(0, 0)));
      UpdatedOff(s.reading, fd, Client(Key(0, 0)));
      UpdatedOff(s.outs, fd, s.outs[fd].(closing := true, giveUp := now + GIVE_UP_MS));
      OffByFaces(s, t, fd);
    }
  }

  lemma CloseClientFaces(s: State, fd: Fd, now: nat)
    ensures var t := CloseClient(s, fd, now);
            && SameFaces(s, t, fd) && t.insts == s.insts && t.regs == s.regs && t.sessions == s.sessions
            && (fd in s.open && !s.doubled ==> !t.doubled)
    ensures var f := FaceOf(CloseClient(s, fd, now), fd);
            var c := ClosedFace(FaceOf(s, fd));
            f == c.(out := f.out) && f.out.Some? == c.out.Some?
            && (f.out.Some? ==> f.out.value == c.out.value.(giveUp := f.out.value.giveUp))
  {
    hide RegsOn, InstsOn, SameFaces;
    ClosedFaces(s, fd);
    if fd in s.outs {
      DrainsFaces(s, fd, now);
    }
  }

  /** A socket nobody uses any more: still open, not yet draining. */
  predicate Abandoned(f: Face) {
    !Used(f) && f.open && !Draining(f) && OutputKept(f)
  }

  lemma CloseAbandoned(s: State, fd: Fd, now: nat)
    requires Elsewhere(s, fd) && Abandoned(FaceOf(s, fd))
    ensures Sockets(CloseClient(s, fd, now))
  {
    hide FaceOf, CloseClient;
    CloseClientFaces(s, fd, now);
    var t := CloseClient(s, fd, now);
    FaceOpen(s, fd);
    StaysElsewhere(s, t, fd);
    Together(t, fd);
  }

  lemma FaceOpen(s: State, fd: Fd)
    ensures FaceOf(s, fd).open <==> fd in s.open
  {}

  /** Only this session can use an owner socket it watches. */
  predicate OnlyBy(f: Face, session: nat) {
    (forall r :: r in f.regs ==> r.session == session)
    && (forall k :: k in f.shared + f.owned ==> k.session == session)
  }

  lemma UseSeen(s: State, session: nat, fd: Fd)
    requires OnlyBy(FaceOf(s, fd), session)
    ensures RegUses(s, session, fd) || InstUses(s, session, fd) <==> Used(FaceOf(s, fd))
  {
    var f := FaceOf(s, fd);
    if r :| r in f.regs {
      assert r in s.regs;
    }
    if k :| k in f.shared + f.owned {
      assert k in s.insts;
    }
    if r :| r in s.regs && r.session == session && s.regs[r].owner == Some(fd) {
      assert r in f.regs;
    }
    if k :| k in s.insts && k.session == session && s.insts[k].cfd == Some(fd) {
      assert k in f.shared + f.owned;
    }
  }

  /** The last user is gone, or there is still one. */
  lemma ReleaseKeeps(s: State, session: nat, fd: Fd, now: nat)
    requires Elsewhere(s, fd) && OnlyBy(FaceOf(s, fd), session)
    requires if Used(FaceOf(s, fd)) then GoodFace(FaceOf(s, fd)) else Abandoned(FaceOf(s, fd))
    ensures Sockets(Release(s, session, fd, now))
  {
    hide FaceOf, CloseClient, RegUses, InstUses, GoodFace, Abandoned, OnlyBy, Used;
    UseSeen(s, session, fd);
    Together(s, fd);
    if !Used(FaceOf(s, fd)) {
      var t := s.(reading := s.reading - {fd});
      UnwatchFace(s, fd);
      StaysElsewhere(s, t, fd);
      CloseAbandoned(t, fd, now);
    }
  }

  lemma UnwatchFace(s: State, fd: Fd)
    ensures var t := s.(reading := s.reading - {fd});
            SameFaces(s, t, fd) && FaceOf(t, fd) == FaceOf(s, fd).(reading := None)
            && (Abandoned(FaceOf(s, fd)) ==> Abandoned(FaceOf(t, fd)))
  {
    var t := s.(reading := s.reading - {fd});
    assert forall f: Fd :: RegsOn(t, f) == RegsOn(s, f);
    assert forall f: Fd, o: bool :: InstsOn(t, f, o) == InstsOn(s, f, o);
  }

  lemma GoodOf(s: State, fd: Fd)
    requires Sockets(s)
    ensures GoodFace(FaceOf(s, fd))
  {}

  /** A registration goes, and releases its socket. */
  lemma UnregisterKeeps(s: State, r: Name, now: nat)
    requires Sockets(s)
    ensures Sockets(Unregister(s, r, now))
  {
    hide FaceOf, Release, GoodFace;
    if r in s.regs {
      var t := s.(regs := s.regs - {r});
      if s.regs[r].owner.Some? {
        var fd := s.regs[r].owner.value;
        Together(s, fd);
        RegGone(s, r, fd);
        StaysElsewhere(s, t, fd);
        ReleaseKeeps(t, r.session, fd, now);
      } else {
        RegGone(s, r, 0);
        FaceSame(s, t);
      }
    }
  }

  lemma FaceSame(s: State, t: State)
    requires Sockets(s) && !t.doubled && forall k :: k in t.insts ==> InstOk(t.insts[k])
    requires forall fd: Fd :: FaceOf(t, fd) == FaceOf(s, fd)
    ensures Sockets(t)
  {
    hide FaceOf, GoodFace;
  }

  lemma RegGone(s: State, r: Name, fd: Fd)
    requires r in s.regs
    ensures var t := s.(regs := s.regs - {r});
            && FaceOf(t, fd) == FaceOf(s, fd).(regs := FaceOf(s, fd).regs - {r})
            && (s.regs[r].owner == Some(fd) ==> SameFaces(s, t, fd) && r in FaceOf(s, fd).regs)
            && (s.regs[r].owner == None ==> forall f: Fd :: FaceOf(t, f) == FaceOf(s, f))
            && (s.regs[r].owner == Some(fd) && GoodFace(FaceOf(s, fd)) ==>
                  && OnlyBy(FaceOf(t, fd), r.session)
                  && if Used(FaceOf(t, fd)) then GoodFace(FaceOf(t, fd)) else Abandoned(FaceOf(t, fd)))
  {
    var t := s.(regs := s.regs - {r});
    assert forall f: Fd, o: bool :: InstsOn(t, f, o) == InstsOn(s, f, o);
    assert RegsOn(t, fd) == RegsOn(s, fd) - {r};
    assert forall f: Fd :: s.regs[r].owner != Some(f) ==> RegsOn(t, f) == RegsOn(s, f);
  }

  // ---- instances ----

  /** The same registrations and instances use the same sockets. */
  ghost predicate SameUse(s: State, t: State) {
    && t.regs.Keys == s.regs.Keys && (forall r :: r in s.regs ==> t.regs[r].owner == s.regs[r].owner)
    && t.insts.Keys == s.insts.Keys
    && (forall k :: k in s.insts ==> t.insts[k].cfd == s.insts[k].cfd && t.insts[k].owned == s.insts[k].owned
                                     && t.insts[k].inbound == s.insts[k].inbound)
  }

  lemma SameUseUsers(s: State, t: State, fd: Fd)
    requires SameUse(s, t)
    ensures RegsOn(t, fd) == RegsOn(s, fd)
    ensures InstsOn(t, fd, false) == InstsOn(s, fd, false) && InstsOn(t, fd, true) == InstsOn(s, fd, true)
  {}

  /** Nothing that concerns sockets changes. */
  lemma UnseenKeeps(s: State, t: State)
    requires Sockets(s) && SameUse(s, t) && t.doubled == s.doubled
    requires t.open == s.open && t.outs == s.outs && t.reading == s.reading && t.paused == s.paused && t.writing == s.writing
    ensures Sockets(t)
    ensures forall fd: Fd :: FaceOf(t, fd) == FaceOf(s, fd)
  {
    hide GoodFace, RegsOn, InstsOn;
    forall fd: Fd
      ensures FaceOf(t, fd) == FaceOf(s, fd)
    {
      SameUseUsers(s, t, fd);
    }
    forall k | k in t.insts
      ensures InstOk(t.insts[k])
    {
      assert InstOk(s.insts[k]);
    }
  }

  lemma CountedUse(s: State, k: Key)
    ensures var t := Counted(s, k);
            SameUse(s, t) && t == s.(regs := t.regs)
  {}

  /** An instance disappears from the table. */
  lemma InstGone(s: State, k: Key, fd: Fd)
    requires k in s.insts
    ensures var t := s.(insts := s.insts - {k});
            var f := FaceOf(s, fd);
            && FaceOf(t, fd) == f.(shared := f.shared - {k}, owned := f.owned - {k})
            && (s.insts[k].cfd == Some(fd) ==> SameFaces(s, t, fd) && k in if s.insts[k].owned then f.owned else f.shared)
            && (s.insts[k].cfd == None ==> forall x: Fd :: FaceOf(t, x) == FaceOf(s, x))
  {
    var t := s.(insts := s.insts - {k});
    assert forall f: Fd :: RegsOn(t, f) == RegsOn(s, f);
    assert InstsOn(t, fd, true) == InstsOn(s, fd, true) - {k};
    assert InstsOn(t, fd, false) == InstsOn(s, fd, false) - {k};
    assert forall f: Fd, o: bool :: s.insts[k].cfd != Some(f) ==> InstsOn(t, f, o) == InstsOn(s, f, o);
  }

  /** A shared socket loses one instance. */
  lemma SharedLeft(f: Face, k: Key)
    requires GoodFace(f) && k in f.shared
    ensures var g := f.(shared := f.shared - {k}, owned := f.owned - {k});
            OnlyBy(g, k.session) && if Used(g) then GoodFace(g) else Abandoned(g)
  {}

  /** An instance's own socket is closed with it, once its output has drained. */
  lemma OwnedLeft(f: Face, k: Key, g: Face)
    requires GoodFace(f) && k in f.owned
    requires g == ClosedFace(f).(out := g.out, owned := f.owned - {k}, shared := f.shared - {k})
    requires g.out.Some? == ClosedFace(f).out.Some?
    requires g.out.Some? ==> g.out.value == ClosedFace(f).out.value.(giveUp := g.out.value.giveUp)
    ensures GoodFace(g) && f.open
  {}

  lemma OwnedFace(s: State, k: Key, fd: Fd)
    requires k in s.insts && s.insts[k].cfd == Some(fd)
    ensures k in if s.insts[k].owned then FaceOf(s, fd).owned else FaceOf(s, fd).shared
  {}

  lemma CloseInstanceKeeps(s: State, k: Key, now: nat)
    requires Sockets(s)
    ensures Sockets(CloseInstance(s, k, now))
  {
    hide FaceOf, GoodFace, CloseClient, Release, Counted, ClosedFace, SameFaces, OnlyBy, Abandoned, Used, RegUses, InstUses;
    if k in s.insts {
      var i := s.insts[k];
      if i.cfd.None? {
        CountedUse(s, k);
        var u := Counted(s, k);
        UnseenKeeps(s, u);
        InstGone(u, k, 0);
        FaceSame(u, u.(insts := u.insts - {k}));
      } else if i.owned {
        OwnedGone(s, k, i.cfd.value, now);
      } else {
        CountedUse(s, k);
        var u := Counted(s, k);
        UnseenKeeps(s, u);
        var v := u.(insts := u.insts - {k});
        var fd := i.cfd.value;
        OwnedFace(u, k, fd);
        GoodOf(u, fd);
        Together(u, fd);
        InstGone(u, k, fd);
        SharedLeft(FaceOf(u, fd), k);
        StaysElsewhere(u, v, fd);
        ReleaseKeeps(v, k.session, fd, now);
      }
    }
  }

  lemma OwnedGone(s: State, k: Key, fd: Fd, now: nat)
    requires Sockets(s) && k in s.insts && s.insts[k].owned && s.insts[k].cfd == Some(fd)
    ensures var u := Counted(CloseClient(s, fd, now), k);
            Sockets(u.(insts := u.insts - {k}))
  {
    hide FaceOf, GoodFace, CloseClient, Counted, SameFaces;
    OwnedFace(s, k, fd);
    GoodOf(s, fd);
    Together(s, fd);
    FaceOpen(s, fd);
    CloseClientFaces(s, fd, now);
    var t := CloseClient(s, fd, now);
    CountedUse(t, k);
    var u := Counted(t, k);
    SameUseFaces(t, u);
    InstGone(u, k, fd);
    var v := u.(insts := u.insts - {k});
    OwnedLeft(FaceOf(s, fd), k, FaceOf(v, fd));
    SameFacesTwice(s, t, u, v, fd);
    StaysElsewhere(s, v, fd);
    Together(v, fd);
  }

  lemma SameUseFaces(s: State, t: State)
    requires SameUse(s, t) && t == s.(regs := t.regs)
    ensures forall fd: Fd :: FaceOf(t, fd) == FaceOf(s, fd)
  {
    hide RegsOn, InstsOn;
    forall fd: Fd
      ensures FaceOf(t, fd) == FaceOf(s, fd)
    {
      SameUseUsers(s, t, fd);
    }
  }

  lemma SameFacesTwice(s: State, t: State, u: State, v: State, fd: Fd)
    requires SameFaces(s, t, fd) && SameFaces(u, v, fd) && forall f: Fd :: FaceOf(u, f) == FaceOf(t, f)
    ensures SameFaces(s, v, fd)
  {
    hide FaceOf;
  }

  lemma {:induction false} CloseAllKeeps(s: State, ks: seq<Key>, now: nat)
    requires Sockets(s)
    ensures Sockets(CloseAll(s, ks, now))
    decreases |ks|
  {
    hide Sockets, CloseInstance;
    if ks != [] {
      CloseInstanceKeeps(s, ks[0], now);
      CloseAllKeeps(CloseInstance(s, ks[0], now), ks[1..], now);
    }
  }

  // ---- output ----

  /** Ready to be flushed: all is well but for the output of one socket. */
  ghost predicate ToFlush(s: State, fd: Fd) {
    Elsewhere(s, fd) && GoodOutput(FaceOf(s, fd))
  }

  ghost predicate GoodOutput(f: Face) {
    UseKept(f) && (f.out.None? ==> !f.writing)
  }

  lemma NothingToFlush(s: State, fd: Fd)
    requires ToFlush(s, fd) && fd !in s.outs
    ensures Sockets(s) && fd !in s.writing
  {
    hide UseKept, FaceOf;
    OutFace(s, fd);
    Together(s, fd);
  }

  lemma FlushedGood(f: Face, g: Face)
    requires GoodOutput(f) && f.out.Some? && g == f.(out := None, writing := false, open := !f.out.value.closing)
    ensures GoodFace(g) && f.open
  {}

  lemma WaitsGood(f: Face)
    requires GoodOutput(f) && f.out.Some? && f.out.value.q != []
    ensures GoodFace(f.(writing := true))
  {}

  lemma AdvancedGood(f: Face, n: nat)
    requires GoodOutput(f) && f.out.Some? && f.out.value.q != []
    ensures GoodOutput(f.(out := Some(Advance(f.out.value, n))))
  {}

  lemma FlushedFaces(s: State, fd: Fd)
    requires fd in s.outs
    ensures var t := Flushed(s, fd);
            && SameFaces(s, t, fd) && t.insts == s.insts
            && FaceOf(t, fd) == FaceOf(s, fd).(out := None, writing := false,
                                               open := if s.outs[fd].closing then false else FaceOf(s, fd).open)
  {
    hide RegsOn, InstsOn;
    var t := Flushed(s, fd);
    UsersSame(s, t, fd);
    assert SameFaces(s, t, fd) by {
      hide Get, FaceOf;
      ErasedOff(s.open, fd);
      ErasedOff(s.writing, fd);
      UpdatedOff(s.outs, fd, Out([], 0, true, 0));
      OffByFaces(s, t, fd);
    }
  }

  lemma FlushedKeeps(s: State, fd: Fd)
    requires ToFlush(s, fd) && fd in s.outs
    ensures Sockets(Flushed(s, fd))
  {
    hide FaceOf, GoodFace, GoodOutput;
    var t := Flushed(s, fd);
    FlushedFaces(s, fd);
    OutFace(s, fd);
    assert FaceOf(s, fd).open ==> FaceOf(t, fd) == FaceOf(s, fd).(out := None, writing := false, open := !s.outs[fd].closing);
    OpenToFlush(FaceOf(s, fd));
    FlushedGood(FaceOf(s, fd), FaceOf(t, fd));
    FaceOpen(s, fd);
    StaysElsewhere(s, t, fd);
    Together(t, fd);
  }

  lemma OpenToFlush(f: Face)
    requires GoodOutput(f) && f.out.Some?
    ensures f.open
  {}

  lemma OutFace(s: State, fd: Fd)
    ensures FaceOf(s, fd).out == Get(s.outs, fd) && (FaceOf(s, fd).writing <==> fd in s.writing)
  {}

  lemma WaitsKeeps(s: State, fd: Fd)
    requires ToFlush(s, fd) && fd in s.outs && s.outs[fd].q != []
    ensures Sockets(s.(writing := s.writing + {fd}))
  {
    hide FaceOf, GoodFace, GoodOutput;
    var t := s.(writing := s.writing + {fd});
    WaitsFaces(s, fd);
    OutFace(s, fd);
    WaitsGood(FaceOf(s, fd));
    StaysElsewhere(s, t, fd);
    Together(t, fd);
  }

  lemma WaitsFaces(s: State, fd: Fd)
    ensures var t := s.(writing := s.writing + {fd});
            SameFaces(s, t, fd) && FaceOf(t, fd) == FaceOf(s, fd).(writing := true)
  {
    hide RegsOn, InstsOn;
    var t := s.(writing := s.writing + {fd});
    UsersSame(s, t, fd);
    ErasedOff(s.writing, fd);
    OffByFaces(s, t, fd);
  }

  /** Accounting and moving on in the queue. */
  lemma OutsFaces(s: State, t: State, fd: Fd, o: Out)
    requires t == s.(insts := t.insts, outs := s.outs[fd := o]) && SameUse(s, t)
    ensures SameFaces(s, t, fd) && FaceOf(t, fd) == FaceOf(s, fd).(out := Some(o))
  {
    hide RegsOn, InstsOn;
    forall f: Fd
      ensures FaceOf(t, f) == if f == fd then FaceOf(s, fd).(out := Some(o)) else FaceOf(s, f)
    {
      SameUseUsers(s, t, f);
    }
  }

  lemma InstsOk(s: State, t: State)
    requires SameUse(s, t) && forall k :: k in s.insts ==> InstOk(s.insts[k])
    ensures forall k :: k in t.insts ==> InstOk(t.insts[k])
  {
    forall k | k in t.insts
      ensures InstOk(t.insts[k])
    {
      assert InstOk(s.insts[k]);
    }
  }

  lemma MovedKeeps(s: State, fd: Fd, n: nat)
    requires ToFlush(s, fd) && fd in s.outs && s.outs[fd].q != []
    ensures ToFlush(Moved(s, fd, n), fd)
  {
    hide FaceOf, GoodFace, GoodOutput, AccountChunk, Advance;
    var t := Moved(s, fd, n);
    ChunkUse(s, s.outs[fd].q[0], n);
    OutsFaces(s, t, fd, Advance(s.outs[fd], n));
    OutFace(s, fd);
    AdvancedGood(FaceOf(s, fd), n);
    InstsOk(s, t);
    StaysElsewhere(s, t, fd);
  }

  lemma WrittenKeeps(s: State, fd: Fd, n: nat)
    requires ToFlush(s, fd) && fd in s.outs && s.outs[fd].q != []
    ensures ToFlush(Written(s, fd, n), fd)
  {
    hide ToFlush, Moved, Handed, Piece, SameUse;
    MovedKeeps(s, fd, n);
    var o := s.outs[fd];
    LogUse(Moved(s, fd, n), Written(s, fd, n)) by { HandedLog(Moved(s, fd, n), o.q[0], Piece(o.q[0].data, o.off, n)); }
    AccountedToFlush(Moved(s, fd, n), Written(s, fd, n), fd);
  }

  /** Logs have nothing to do with sockets. */
  lemma LogUse(s: State, t: State)
    requires LogOnly(s, t)
    ensures SameUse(s, t) && t == s.(insts := t.insts)
  {}

  lemma LogKeeps(s: State, t: State)
    requires Sockets(s) && LogOnly(s, t)
    ensures Sockets(t)
  {
    hide Sockets, SameUse;
    LogUse(s, t);
    UnseenKeeps(s, t);
  }

  lemma ChunkUse(s: State, c: Chunk, n: nat)
    ensures var t := AccountChunk(s, c, n);
            t == s.(insts := t.insts) && SameUse(s, t)
  {}

  lemma {:induction false} RestUse(s: State, q: seq<Chunk>, off: nat)
    ensures var t := AccountRest(s, q, off);
            t == s.(insts := t.insts) && SameUse(s, t)
    decreases |q|
  {
    hide AccountChunk;
    if q != [] {
      ChunkUse(s, q[0], Left(q[0], off));
      RestUse(AccountChunk(s, q[0], Left(q[0], off)), q[1..], 0);
    }
  }

  lemma AccountedToFlush(s: State, t: State, fd: Fd)
    requires ToFlush(s, fd) && t == s.(insts := t.insts) && SameUse(s, t)
    ensures ToFlush(t, fd)
  {
    hide GoodFace, GoodOutput, RegsOn, InstsOn;
    forall f: Fd
      ensures FaceOf(t, f) == FaceOf(s, f)
    {
      SameUseUsers(s, t, f);
    }
    InstsOk(s, t);
  }

  /** A flush that leaves output behind has it polled for. */
  lemma {:induction false} FlushPolls(s: State, fd: Fd, answers: seq<Answer>)
    requires fd in s.outs
    ensures fd in Flush(s, fd, answers).writing <==> fd in Flush(s, fd, answers).outs
    decreases |answers|
  {
    hide Flush, AccountRest;
    FlushOnce(s, fd, answers);
    if s.outs[fd].q != [] && answers != [] && answers[0].Wrote? {
      FlushPolls(Written(s, fd, Taken(s.outs[fd], answers[0].n)), fd, answers[1..]);
    }
  }

  lemma {:induction false} FlushKeeps(s: State, fd: Fd, answers: seq<Answer>)
    requires ToFlush(s, fd)
    ensures Sockets(Flush(s, fd, answers))
    ensures fd in Flush(s, fd, answers).writing <==> fd in Flush(s, fd, answers).outs
    decreases |answers|
  {
    hide ToFlush, Sockets, Flush, AccountRest, Written, Flushed, Forfeited, SameUse;
    FlushOnce(s, fd, answers);
    if fd in s.outs {
      FlushPolls(s, fd, answers);
    }
    if fd !in s.outs {
      NothingToFlush(s, fd);
    } else if s.outs[fd].q == [] {
      FlushedKeeps(s, fd);
    } else if answers == [] || answers[0].Again? {
      WaitsKeeps(s, fd);
    } else if answers[0].Dead? {
      var f := Forfeited(s, s.outs[fd].q);
      LogUse(s, f) by { ForfeitedLog(s, s.outs[fd].q); }
      AccountedToFlush(s, f, fd);
      var t := AccountRest(f, s.outs[fd].q, s.outs[fd].off);
      RestUse(f, s.outs[fd].q, s.outs[fd].off);
      AccountedToFlush(f, t, fd);
      FlushedKeeps(t, fd);
    } else {
      var n := Taken(s.outs[fd], answers[0].n);
      WrittenKeeps(s, fd, n);
      FlushKeeps(Written(s, fd, n), fd, answers[1..]);
    }
  }

  // ---- a chunk is queued ----

  lemma PushToFlush(s: State, t: State, fd: Fd, k: Key)
    requires Sockets(s) && k in s.insts && s.insts[k].cfd == Some(fd) && SameUse(s, t)
    requires fd in t.outs && t == s.(insts := t.insts, outs := s.outs[fd := t.outs[fd]])
    requires if fd in s.outs then t.outs[fd].closing == s.outs[fd].closing else !t.outs[fd].closing
    ensures ToFlush(t, fd)
  {
    hide FaceOf;
    OutsFaces(s, t, fd, t.outs[fd]);
    GoodOf(s, fd);
    OwnedFace(s, k, fd);
    OutFace(s, fd);
    Together(s, fd);
    InstsOk(s, t);
    StaysElsewhere(s, t, fd);
    PushedGood(FaceOf(s, fd), t.outs[fd]);
  }

  lemma PushedGood(f: Face, o: Out)
    requires GoodFace(f) && Used(f) && !o.closing
    ensures GoodOutput(f.(out := Some(o)))
  {}

  /** A live instance's socket is not draining. */
  lemma NotDraining(s: State, k: Key)
    requires Sockets(s) && k in s.insts && s.insts[k].cfd.Some?
    ensures var fd := s.insts[k].cfd.value; fd in s.outs ==> !s.outs[fd].closing
  {
    hide FaceOf;
    var fd := s.insts[k].cfd.value;
    GoodOf(s, fd);
    OwnedFace(s, k, fd);
    OutFace(s, fd);
  }

  lemma ClientWriteKeeps(s: State, k: Key, b: string, accounted: bool, answers: seq<Answer>)
    requires Sockets(s)
    ensures Sockets(ClientWrite(s, k, b, accounted, answers))
  {
    hide Sockets, Flush, ToFlush, SameUse;
    if k in s.insts && s.insts[k].cfd.Some? && b != "" {
      var fd := s.insts[k].cfd.value;
      NotDraining(s, k);
      var o := if fd in s.outs then s.outs[fd] else Out([], 0, false, 0);
      var t := s.(outs := s.outs[fd := o.(q := o.q + [Chunk(Some(k), b, accounted)])]);
      SameUseSelf(s, t);
      PushToFlush(s, t, fd, k);
      FlushKeeps(t, fd, answers);
    }
  }

  lemma SameUseSelf(s: State, t: State)
    requires t.regs == s.regs && t.insts == s.insts
    ensures SameUse(s, t)
  {}

  /** One instance is rewritten, on the same socket. */
  lemma RewriteUse(s: State, t: State, k: Key)
    requires k in s.insts && k in t.insts && t.insts == s.insts[k := t.insts[k]] && t.regs == s.regs
    requires t.insts[k].cfd == s.insts[k].cfd && t.insts[k].owned == s.insts[k].owned && t.insts[k].inbound == s.insts[k].inbound
    ensures SameUse(s, t)
  {}

  lemma DataKeeps(s: State, k: Key, b: string, answers: seq<Answer>)
    requires Sockets(s) && k in s.insts
    ensures Sockets(Data(s, k, b, answers))
  {
    hide Sockets, ClientWrite, SameUse;
    var t := s.(insts := s.insts[k := s.insts[k].(down := s.insts[k].down + |b|)]);
    RewriteUse(s, t, k);
    UnseenKeeps(s, t);
    ClientWriteKeeps(t, k, b, true, answers);
  }

  // ---- registering and opening ----

  /** A descriptor just handed to the daemon. */
  predicate FreshFd(s: State, fd: Fd) {
    fd !in s.open
  }

  lemma UnusedFace(s: State, fd: Fd)
    requires Sockets(s) && FreshFd(s, fd)
    ensures FaceOf(s, fd) == Face({}, {}, {}, false, None, None, None, false)
  {
    GoodOf(s, fd);
  }

  lemma RegisterKeeps(s: State, r: Name, limit: nat, owner: Option<Fd>)
    requires Sockets(s) && r.session in s.sessions && (owner.Some? ==> FreshFd(s, owner.value))
    ensures Sockets(Register(s, r, limit, owner))
  {
    hide FaceOf, GoodFace, SameFaces;
    if r !in s.regs {
      var t := Register(s, r, limit, owner);
      if owner.Some? {
        var fd := owner.value;
        UnusedFace(s, fd);
        Together(s, fd);
        RegisterFaces(s, r, limit, fd);
        StaysElsewhere(s, t, fd);
        RegisteredGood(r, s.sessions[r.session].nextSerial);
        Together(t, fd);
      } else {
        NewRegFaces(s, t, r);
        FaceSame(s, t);
      }
    }
  }

  lemma RegisteredGood(r: Name, serial: nat)
    ensures GoodFace(Face({r}, {}, {}, true, None, Some(Owner(r, serial)), None, false))
  {}

  lemma RegisterFaces(s: State, r: Name, limit: nat, fd: Fd)
    requires r.session in s.sessions && r !in s.regs
    requires FaceOf(s, fd) == Face({}, {}, {}, false, None, None, None, false)
    ensures var t := Register(s, r, limit, Some(fd));
            && SameFaces(s, t, fd)
            && FaceOf(t, fd) == Face({r}, {}, {}, true, None, Some(Owner(r, s.sessions[r.session].nextSerial)), None, false)
  {
    var t := Register(s, r, limit, Some(fd));
    assert forall f: Fd, o: bool :: InstsOn(t, f, o) == InstsOn(s, f, o);
    assert forall f: Fd :: f != fd ==> RegsOn(t, f) == RegsOn(s, f);
    assert RegsOn(t, fd) == RegsOn(s, fd) + {r};
  }

  lemma NewRegFaces(s: State, t: State, r: Name)
    requires r !in s.regs && r in t.regs && t == s.(sessions := t.sessions, regs := s.regs[r := t.regs[r]])
    requires t.regs[r].owner.None?
    ensures forall fd: Fd :: FaceOf(t, fd) == FaceOf(s, fd)
  {
    assert forall f: Fd, o: bool :: InstsOn(t, f, o) == InstsOn(s, f, o);
    assert forall f: Fd :: RegsOn(t, f) == RegsOn(s, f);
  }

  /** A new instance, perhaps with a socket of its own. */
  lemma OpenKeeps(s: State, session: nat, cfd: Option<Fd>, wait: bool)
    requires Sockets(s) && session in s.sessions && NewId(s, session) !in s.insts && (cfd.Some? ==> FreshFd(s, cfd.value))
    ensures Sockets(Open(s, session, cfd, wait))
  {
    hide FaceOf, GoodFace, SameFaces;
    var t := Open(s, session, cfd, wait);
    var k := NewId(s, session);
    NewInstOk(s, t, k);
    if cfd.Some? {
      var fd := cfd.value;
      UnusedFace(s, fd);
      Together(s, fd);
      NewOwnedFaces(s, t, k, fd);
      StaysElsewhere(s, t, fd);
      OpenedGood(k);
      Together(t, fd);
    } else {
      NewInstFaces(s, t, k);
      FaceSame(s, t);
    }
  }

  lemma OpenedGood(k: Key)
    ensures GoodFace(Face({}, {}, {k}, true, None, None, None, false))
  {}

  lemma NewInstOk(s: State, t: State, k: Key)
    requires k in t.insts && t.insts == s.insts[k := t.insts[k]] && InstOk(t.insts[k])
    requires forall x :: x in s.insts ==> InstOk(s.insts[x])
    ensures forall x :: x in t.insts ==> InstOk(t.insts[x])
  {}

  lemma NewOwnedFaces(s: State, t: State, k: Key, fd: Fd)
    requires k !in s.insts && k in t.insts && t.insts[k].cfd == Some(fd) && t.insts[k].owned
    requires t == s.(sessions := t.sessions, insts := s.insts[k := t.insts[k]], open := s.open + {fd})
    requires FaceOf(s, fd) == Face({}, {}, {}, false, None, None, None, false)
    ensures SameFaces(s, t, fd) && FaceOf(t, fd) == Face({}, {}, {k}, true, None, None, None, false)
  {
    assert forall f: Fd :: RegsOn(t, f) == RegsOn(s, f);
    assert forall f: Fd, o: bool :: f != fd ==> InstsOn(t, f, o) == InstsOn(s, f, o);
    assert InstsOn(t, fd, true) == InstsOn(s, fd, true) + {k};
    assert InstsOn(t, fd, false) == InstsOn(s, fd, false);
  }

  lemma NewInstFaces(s: State, t: State, k: Key)
    requires k !in s.insts && k in t.insts && t.insts[k].cfd.None?
    requires t == s.(sessions := t.sessions, insts := s.insts[k := t.insts[k]])
    ensures forall fd: Fd :: FaceOf(t, fd) == FaceOf(s, fd)
  {
    assert forall f: Fd :: RegsOn(t, f) == RegsOn(s, f);
    assert forall f: Fd, o: bool :: InstsOn(t, f, o) == InstsOn(s, f, o);
  }

  lemma AcceptKeeps(s: State, session: nat)
    requires Sockets(s) && session in s.sessions && NewId(s, session) !in s.insts
    ensures Sockets(Accept(s, session))
  {
    hide FaceOf, GoodFace;
    var t := Accept(s, session);
    NewInstOk(s, t, NewId(s, session));
    NewInstFaces(s, t, NewId(s, session));
    FaceSame(s, t);
  }

  // ---- the handshake ----

  /** An inbound instance joins its registration's socket. */
  lemma ServeKeeps(s: State, k: Key, line: string)
    requires Sockets(s) && k in s.insts && k.session in s.sessions && Name(k.session, line) in s.regs
    requires s.insts[k].inbound && s.insts[k].cfd.None?
    ensures Sockets(Serve(s, k, line))
  {
    hide FaceOf, GoodFace, SameFaces;
    var t := Serve(s, k, line);
    var r := Name(k.session, line);
    assert InstOk(s.insts[k]);
    NewInstOk(s, t, k);
    if s.regs[r].owner.None? {
      assert SameUse(s, t);
      UnseenKeeps(s, t);
    } else {
      var fd := s.regs[r].owner.value;
      GoodOf(s, fd);
      Together(s, fd);
      ServeFaces(s, k, line, fd);
      JoinedGood(FaceOf(s, fd), r, k);
      StaysElsewhere(s, t, fd);
      Together(t, fd);
    }
  }

  lemma JoinedGood(f: Face, r: Name, k: Key)
    requires GoodFace(f) && r in f.regs && r.session == k.session
    ensures GoodFace(f.(shared := f.shared + {k}))
  {}

  lemma ServeFaces(s: State, k: Key, line: string, fd: Fd)
    requires k in s.insts && k.session in s.sessions && Name(k.session, line) in s.regs
    requires s.insts[k].cfd.None? && !s.insts[k].owned && s.regs[Name(k.session, line)].owner == Some(fd)
    ensures var t := Serve(s, k, line);
            && SameFaces(s, t, fd) && Name(k.session, line) in FaceOf(s, fd).regs
            && FaceOf(t, fd) == FaceOf(s, fd).(shared := FaceOf(s, fd).shared + {k})
  {
    var t := Serve(s, k, line);
    assert forall f: Fd :: RegsOn(t, f) == RegsOn(s, f);
    assert forall f: Fd, o: bool :: f != fd ==> InstsOn(t, f, o) == InstsOn(s, f, o);
    assert InstsOn(t, fd, true) == InstsOn(s, fd, true);
    assert InstsOn(t, fd, false) == InstsOn(s, fd, false) + {k};
  }

  lemma FailOpenKeeps(s: State, k: Key, why: string, now: nat, answers: seq<Answer>)
    requires Sockets(s)
    ensures Sockets(FailOpen(s, k, why, now, answers))
  {
    hide Sockets, CloseInstance, ClientWrite;
    ClientWriteKeeps(s, k, why, false, answers);
    CloseInstanceKeeps(if k in s.insts && s.insts[k].owned then ClientWrite(s, k, why, false, answers) else s, k, now);
  }

  /** A client's own socket is watched for it. */
  lemma WatchKeeps(s: State, k: Key, fd: Fd)
    requires Sockets(s) && k in s.insts && s.insts[k].cfd == Some(fd) && s.insts[k].owned
    ensures Sockets(s.(reading := s.reading[fd := Client(k)]))
  {
    hide FaceOf, GoodFace, SameFaces;
    var t := s.(reading := s.reading[fd := Client(k)]);
    GoodOf(s, fd);
    Together(s, fd);
    OwnedFace(s, k, fd);
    WatchFaces(s, fd, Client(k));
    WatchedGood(FaceOf(s, fd), k);
    StaysElsewhere(s, t, fd);
    Together(t, fd);
  }

  lemma WatchedGood(f: Face, k: Key)
    requires GoodFace(f) && k in f.owned
    ensures GoodFace(f.(reading := Some(Client(k))))
  {}

  lemma WatchFaces(s: State, fd: Fd, w: Watch)
    ensures var t := s.(reading := s.reading[fd := w]);
            SameFaces(s, t, fd) && FaceOf(t, fd) == FaceOf(s, fd).(reading := Some(w))
  {
    hide RegsOn, InstsOn;
    var t := s.(reading := s.reading[fd := w]);
    UsersSame(s, t, fd);
    UpdatedOff(s.reading, fd, w);
    OffByFaces(s, t, fd);
  }

  lemma BoundKeeps(s: State, k: Key)
    requires Sockets(s) && k in s.insts
    ensures Sockets(Bound(s, k))
  {
    hide Sockets, SameUse;
    var t := s.(insts := s.insts[k := s.insts[k].(open := true)]);
    RewriteUse(s, t, k);
    UnseenKeeps(s, t);
    if s.insts[k].cfd.Some? && s.insts[k].owned {
      WatchKeeps(t, k, s.insts[k].cfd.value);
    }
  }

  lemma LineKeeps(s: State, k: Key, line: string, env: Env)
    requires Sockets(s) && k in s.insts && k.session in s.sessions
    requires s.insts[k].inbound ==> s.insts[k].cfd.None?
    ensures Sockets(Line(s, k, line, env))
  {
    hide Sockets, CloseInstance, ClientWrite, FailOpen, Serve, Bound, SameUse;
    var i := s.insts[k];
    if i.inbound {
      var t := s.(insts := s.insts[k := i.(lbuf := "", reg := if line in META then i.reg else line)]);
      RewriteUse(s, t, k);
      UnseenKeeps(s, t);
      CloseInstanceKeeps(t, k, env.now);
      if Name(k.session, line) in s.regs {
        ServeKeeps(t, k, line);
      }
    } else {
      var t := s.(insts := s.insts[k := i.(lbuf := "")]);
      RewriteUse(s, t, k);
      UnseenKeeps(s, t);
      OutboundKeeps(t, k, env);
    }
  }

  /** The three replies an outbound instance may read. */
  lemma OutboundKeeps(t: State, k: Key, env: Env)
    requires Sockets(t) && k in t.insts
    ensures var u := ClientWrite(t, k, env.words, false, env.first);
            Sockets(if k in u.insts then Bound(u, k) else u)
    ensures Sockets(FailOpen(t, k, env.words, env.now, env.first))
    ensures Sockets(t.(insts := t.insts[k := t.insts[k].(conn := false)]))
  {
    hide Sockets, ClientWrite, FailOpen, Bound, SameUse;
    ClientWriteKeeps(t, k, env.words, false, env.first);
    var u := ClientWrite(t, k, env.words, false, env.first);
    if k in u.insts {
      BoundKeeps(u, k);
    }
    FailOpenKeeps(t, k, env.words, env.now, env.first);
    var v := t.(insts := t.insts[k := t.insts[k].(conn := false)]);
    RewriteUse(t, v, k);
    UnseenKeeps(t, v);
  }

  lemma HandleDataKeeps(s: State, k: Key, b: string, env: Env)
    requires Sockets(s) && k in s.insts && k.session in s.sessions && s.insts[k].conn
    requires s.insts[k].inbound && !s.insts[k].open ==> s.insts[k].cfd.None?
    ensures Sockets(HandleData(s, k, b, env))
  {
    hide Sockets, CloseInstance, Data, Line, SameUse;
    if s.insts[k].open {
      DataKeeps(s, k, b, env.second);
    } else {
      var all := s.insts[k].lbuf + b;
      var nl := Newline(all);
      if nl == |all| {
        CloseInstanceKeeps(s, k, env.now);
        var t := s.(insts := s.insts[k := s.insts[k].(lbuf := all)]);
        RewriteUse(s, t, k);
        UnseenKeeps(s, t);
      } else {
        LineKeeps(s, k, all[..nl], env);
        var t := Line(s, k, all[..nl], env);
        var rest := all[nl + 1..];
        if rest != "" && k in t.insts && t.insts[k].open {
          var u := t.(insts := t.insts[k := t.insts[k].(preacked := |rest|, early := |rest|)]);
          RewriteUse(t, u, k);
          UnseenKeeps(t, u);
          DataKeeps(u, k, rest, env.second);
        }
      }
    }
  }

  lemma TunnelDataKeeps(s: State, k: Key, b: string, env: Env)
    requires Sockets(s)
    requires k in s.insts && s.insts[k].inbound && !s.insts[k].open ==> s.insts[k].cfd.None?
    ensures Sockets(TunnelData(s, k, b, env))
  {
    hide Sockets, HandleData, Hear, LogOnly;
    if k in s.insts && k.session in s.sessions && s.insts[k].conn {
      HearLog(s, k, b);
      LogKeeps(s, Hear(s, k, b));
      Heard(s, k, b);
      HandleDataKeeps(Hear(s, k, b), k, b, env);
    }
  }

  lemma TunnelGoneKeeps(s: State, k: Key, now: nat)
    requires Sockets(s)
    ensures Sockets(TunnelGone(s, k, now))
  {
    hide Sockets, CloseInstance, SameUse;
    CloseInstanceKeeps(s, k, now);
    if k in s.insts && !s.insts[k].inbound && !s.insts[k].open {
      RewriteUse(s, TunnelGone(s, k, now), k);
      UnseenKeeps(s, TunnelGone(s, k, now));
    }
  }

  lemma DialledKeeps(s: State, k: Key, conn: bool)
    requires Sockets(s)
    ensures Sockets(Dialled(s, k, conn))
  {
    hide Sockets, SameUse, Dialled;
    DialledUse(s, k, conn);
    UnseenKeeps(s, Dialled(s, k, conn));
  }

  lemma DialledUse(s: State, k: Key, conn: bool)
    ensures var t := Dialled(s, k, conn); SameUse(s, t) && t == s.(insts := t.insts)
  {}

  // ---- reading ----

  /** A watched owner socket is paused, or a paused one watched again. */
  lemma SwapWatch(s: State, t: State, fd: Fd)
    requires Sockets(s) && t == s.(reading := t.reading, paused := t.paused)
    requires OffBy(s, t, fd)
    requires Get(s.reading, fd).Some? ==> Get(t.reading, fd) == None && Get(t.paused, fd) == Get(s.reading, fd)
    requires Get(s.reading, fd).None? ==>
               Get(s.paused, fd).Some? && Get(t.paused, fd) == None && Get(t.reading, fd) == Get(s.paused, fd)
    requires Get(s.reading, fd).Some? ==> Get(s.reading, fd).value.Owner?
    ensures Sockets(t)
  {
    hide GoodFace, SameFaces, RegsOn, InstsOn;
    OffByFaces(s, t, fd);
    UsersSame(s, t, fd);
    GoodOf(s, fd);
    Together(s, fd);
    SwappedGood(FaceOf(s, fd), FaceOf(t, fd));
    StaysElsewhere(s, t, fd);
    Together(t, fd);
  }

  lemma SwappedGood(f: Face, g: Face)
    requires GoodFace(f) && g == f.(reading := g.reading, paused := g.paused)
    requires if f.reading.Some? then f.reading.value.Owner? && g.reading.None? && g.paused == f.reading
             else f.paused.Some? && g.paused.None? && g.reading == f.paused
    ensures GoodFace(g)
  {}

  /** What watches a socket is never also paused. */
  lemma ReadingNotPaused(s: State, fd: Fd)
    requires Sockets(s) && fd in s.reading
    ensures fd !in s.paused
  {
    GoodOf(s, fd);
    assert FaceOf(s, fd).reading.Some?;
  }

  lemma OwnerReadableKeeps(s: State, fd: Fd, outcome: Outcome, room: set<Key>, users: seq<Key>, now: nat)
    requires Sockets(s)
    ensures Sockets(OwnerReadable(s, fd, outcome, room, users, now))
  {
    hide Sockets, CloseAll, Unregister, CanRead;
    if fd in s.reading && s.reading[fd].Owner? {
      var w := s.reading[fd];
      ReadingNotPaused(s, fd);
      match outcome
      case Nothing =>
      case Bytes(_) =>
        UpdatedOff(s.reading, fd, w);
        UpdatedOff(s.paused, fd, w);
        SwapWatch(s, s.(reading := s.reading - {fd}, paused := s.paused[fd := w]), fd);
      case Ended =>
        assert s.paused - {fd} == s.paused;
        UnregisterKeeps(s, w.reg, now);
        CloseAllKeeps(if w.reg in s.regs && s.regs[w.reg].serial == w.serial then Unregister(s, w.reg, now) else s, users, now);
    }
  }

  lemma ResumeOwnerKeeps(s: State, fd: Fd, room: set<Key>)
    requires Sockets(s)
    ensures Sockets(ResumeOwner(s, fd, room))
  {
    hide Sockets, CanRead;
    if fd in s.paused && s.paused[fd].Owner? {
      var w := s.paused[fd];
      if fd in s.reading {
        ReadingNotPaused(s, fd);
      }
      UpdatedOff(s.reading, fd, w);
      UpdatedOff(s.paused, fd, w);
      SwapWatch(s, s.(paused := s.paused - {fd}, reading := s.reading[fd := w]), fd);
    }
  }

  lemma ClientReadableKeeps(s: State, fd: Fd, outcome: Outcome, room: set<Key>, now: nat)
    requires Sockets(s)
    ensures Sockets(ClientReadable(s, fd, outcome, room, now))
  {
    hide GoodFace, FaceOf, CloseInstance, SameFaces;
    if fd in s.reading && s.reading[fd].Client? {
      CloseInstanceKeeps(s, s.reading[fd].key, now);
      var t := s.(reading := s.reading - {fd}, writing := s.writing - {fd});
      GoodOf(s, fd);
      Together(s, fd);
      UnpolledFace(s, fd);
      ReadingFace(s, fd);
      UnpolledGood(FaceOf(s, fd));
      StaysElsewhere(s, t, fd);
      Together(t, fd);
    }
  }

  lemma ReadingFace(s: State, fd: Fd)
    ensures FaceOf(s, fd).reading == Get(s.reading, fd)
  {}

  lemma UnpolledFace(s: State, fd: Fd)
    ensures var t := s.(reading := s.reading - {fd}, writing := s.writing - {fd});
            SameFaces(s, t, fd) && FaceOf(t, fd) == FaceOf(s, fd).(reading := None, writing := false)
  {
    hide RegsOn, InstsOn;
    var t := s.(reading := s.reading - {fd}, writing := s.writing - {fd});
    UsersSame(s, t, fd);
    assert SameFaces(s, t, fd) by {
      hide Get, FaceOf;
      ErasedOff(s.writing, fd);
      UpdatedOff(s.reading, fd, Client(Key(0, 0)));
      OffByFaces(s, t, fd);
    }
  }

  /** Only the instance's own socket is ever forgotten by the poller. */
  lemma UnpolledGood(f: Face)
    requires GoodFace(f) && (f.reading.Some? ==> f.reading.value.Client?)
    ensures f.reading.Some? ==> GoodFace(f.(reading := None, writing := false))
  {}

  lemma ResumeClientKeeps(s: State, k: Key, room: set<Key>)
    requires Sockets(s)
    ensures Sockets(ResumeClient(s, k, room))
  {
    hide Sockets;
    if k in s.insts && s.insts[k].owned && s.insts[k].cfd.Some? {
      WatchKeeps(s, k, s.insts[k].cfd.value);
    }
  }

  lemma GiveUpKeeps(s: State, fd: Fd, now: nat)
    requires Sockets(s)
    ensures Sockets(GiveUp(s, fd, now))
  {
    hide GoodFace, FaceOf, SameFaces;
    if fd in s.outs && s.outs[fd].closing {
      GoodOf(s, fd);
      Together(s, fd);
      OutFace(s, fd);
      FaceOpen(s, fd);
      DrainedGood(FaceOf(s, fd));
      UnpausedFace(s, fd);
      var t := Closed(s, fd);
      ClosedFaces(s, fd);
      StaysElsewhere(s, t, fd);
      Together(t, fd);
      assert s.paused - {fd} == s.paused;
      assert now >= s.outs[fd].giveUp ==> GiveUp(s, fd, now) == t;
    }
  }

  lemma DrainedGood(f: Face)
    requires GoodFace(f) && Draining(f)
    ensures GoodFace(f.(paused := None, reading := None, out := None, writing := false, open := false))
    ensures f.open && f.paused.None? && !Used(f)
  {}

  lemma UnpausedFace(s: State, fd: Fd)
    ensures FaceOf(s, fd).paused == Get(s.paused, fd)
  {}

  // ---- retiring and dropping ----

  lemma {:induction false} RetireKeeps(s: State, session: nat, serials: seq<nat>, now: nat)
    requires Sockets(s)
    ensures Sockets(Retire(s, session, serials, now))
    decreases |serials|
  {
    hide Sockets, Unregister;
    if serials != [] {
      if exists r :: Serves(s, session, serials[0], r) {
        var r :| Serves(s, session, serials[0], r) && Retire(s, session, serials, now) == Retire(Unregister(s, r, now), session, serials[1..], now);
        UnregisterKeeps(s, r, now);
        RetireKeeps(Unregister(s, r, now), session, serials[1..], now);
      } else {
        RetireKeeps(s, session, serials[1..], now);
      }
    }
  }

  lemma RetireTickKeeps(s: State, session: nat, now: nat)
    requires Sockets(s) && session in s.sessions
    ensures Sockets(RetireTick(s, session, now))
  {
    hide Sockets, Retire, SameUse;
    RetireKeeps(s, session, s.sessions[session].retire, now);
    var t := Retire(s, session, s.sessions[session].retire, now);
    SameUseSelf(t, RetireTick(s, session, now));
    UnseenKeeps(t, RetireTick(s, session, now));
  }

  /** drop_session's loop over owner sockets, taking each registration out as it goes. */
  function DropRegs(s: State, names: seq<Name>, now: nat): State
    decreases |names|
  {
    if names == [] then s
    else
      var t := s.(regs := s.regs - {names[0]});
      var u := if names[0] in s.regs && s.regs[names[0]].owner.Some?
               then CloseClient(t, s.regs[names[0]].owner.value, now) else t;
      DropRegs(u, names[1..], now)
  }

  function Range(names: seq<Name>): set<Name> {
    set i | 0 <= i < |names| :: names[i]
  }

  predicate Distinct(names: seq<Name>) {
    forall i, j :: 0 <= i < j < |names| ==> names[i] != names[j]
  }

  lemma {:induction false} OwnersFrame(s: State, t: State, names: seq<Name>, now: nat)
    requires t == s.(regs := t.regs)
    requires forall r :: r in Range(names) ==> (r in t.regs <==> r in s.regs) && (r in s.regs ==> t.regs[r].owner == s.regs[r].owner)
    ensures CloseOwners(t, names, now) == CloseOwners(s, names, now).(regs := t.regs)
    decreases |names|
  {
    hide CloseClient;
    if names != [] {
      assert names[0] in Range(names);
      var fd := if names[0] in s.regs && s.regs[names[0]].owner.Some? then s.regs[names[0]].owner.value else 0;
      CloseFrame(s, t, fd, now);
      assert forall r :: r in Range(names[1..]) ==> r in Range(names);
      if names[0] in s.regs && s.regs[names[0]].owner.Some? {
        OwnersFrame(CloseClient(s, fd, now), CloseClient(t, fd, now), names[1..], now);
      } else {
        OwnersFrame(s, t, names[1..], now);
      }
    }
  }

  lemma CloseFrame(s: State, t: State, fd: Fd, now: nat)
    requires t == s.(regs := t.regs)
    ensures CloseClient(t, fd, now) == CloseClient(s, fd, now).(regs := t.regs)
    ensures CloseClient(s, fd, now).regs == s.regs
  {
    hide Closed, Drains;
    ClosedFrame(s, t, fd);
    if fd in s.outs {
      DrainsFrame(s, t, fd, now);
    }
  }

  lemma ClosedFrame(s: State, t: State, fd: Fd)
    requires t == s.(regs := t.regs)
    ensures Closed(t, fd) == Closed(s, fd).(regs := t.regs) && Closed(s, fd).regs == s.regs
  {}

  lemma DrainsFrame(s: State, t: State, fd: Fd, now: nat)
    requires t == s.(regs := t.regs) && fd in s.outs
    ensures Drains(t, fd, now) == Drains(s, fd, now).(regs := t.regs) && Drains(s, fd, now).regs == s.regs
  {}

  /** One turn of the loop, with and without taking the registration out. */
  function CloseOne(s: State, owner: Option<Fd>, now: nat): State {
    if owner.Some? then CloseClient(s, owner.value, now) else s
  }

  function OwnerOf(s: State, n: Name): Option<Fd> {
    if n in s.regs then s.regs[n].owner else None
  }

  lemma {:induction false} DropRegsIs(s: State, names: seq<Name>, now: nat)
    requires Distinct(names)
    ensures DropRegs(s, names, now) == CloseOwners(s, names, now).(regs := s.regs - Range(names))
    decreases |names|
  {
    hide CloseClient, Distinct, Range;
    if names == [] {
      RangeSteps(s, names);
      assert s.regs - {} == s.regs;
    } else {
      var n := names[0];
      var t := s.(regs := s.regs - {n});
      var a := CloseOne(s, OwnerOf(s, n), now);
      var b := CloseOne(t, OwnerOf(s, n), now);
      CloseFrame(s, t, if OwnerOf(s, n).Some? then OwnerOf(s, n).value else 0, now);
      assert b == a.(regs := s.regs - {n});
      RangeSteps(s, names);
      OwnersFrame(a, b, names[1..], now);
      DropRegsIs(b, names[1..], now);
    }
  }

  lemma RangeSteps(s: State, names: seq<Name>)
    requires Distinct(names)
    ensures names == [] ==> Range(names) == {}
    ensures names != [] ==> names[0] !in Range(names[1..]) && Distinct(names[1..])
    ensures names != [] ==> s.regs - {names[0]} - Range(names[1..]) == s.regs - Range(names)
  {
    if names != [] {
      assert Range(names) == {names[0]} + Range(names[1..]);
    }
  }

  lemma {:induction false} OwnersRegs(s: State, names: seq<Name>, now: nat)
    ensures var t := CloseOwners(s, names, now);
            t.regs == s.regs && t.insts == s.insts && t.sessions == s.sessions
    decreases |names|
  {
    hide CloseClient;
    if names != [] {
      var fd := if names[0] in s.regs && s.regs[names[0]].owner.Some? then s.regs[names[0]].owner.value else 0;
      CloseClientFaces(s, fd, now);
      OwnersRegs(if names[0] in s.regs && s.regs[names[0]].owner.Some? then CloseClient(s, fd, now) else s, names[1..], now);
    }
  }

  ghost predicate NoInstances(s: State, session: nat) {
    forall k :: k in s.insts ==> k.session != session
  }

  lemma {:induction false} DropRegsKeeps(s: State, session: nat, names: seq<Name>, now: nat)
    requires Sockets(s) && NoInstances(s, session)
    requires forall i :: 0 <= i < |names| ==> names[i].session == session
    ensures Sockets(DropRegs(s, names, now))
    decreases |names|
  {
    hide Sockets, CloseClient;
    if names != [] {
      var n := names[0];
      DropOneKeeps(s, session, n, now);
      var t := s.(regs := s.regs - {n});
      var u := if n in s.regs && s.regs[n].owner.Some? then CloseClient(t, s.regs[n].owner.value, now) else t;
      CloseClientFaces(t, if n in s.regs && s.regs[n].owner.Some? then s.regs[n].owner.value else 0, now);
      DropRegsKeeps(u, session, names[1..], now);
    }
  }

  lemma DropOneKeeps(s: State, session: nat, n: Name, now: nat)
    requires Sockets(s) && NoInstances(s, session) && n.session == session
    ensures var t := s.(regs := s.regs - {n});
            Sockets(if n in s.regs && s.regs[n].owner.Some? then CloseClient(t, s.regs[n].owner.value, now) else t)
  {
    hide FaceOf, GoodFace, SameFaces, CloseClient, OnlyBy;
    var t := s.(regs := s.regs - {n});
    if n in s.regs {
      if s.regs[n].owner.Some? {
        var fd := s.regs[n].owner.value;
        Together(s, fd);
        RegGone(s, n, fd);
        StaysElsewhere(s, t, fd);
        NobodyLeft(s, fd, n);
        CloseAbandoned(t, fd, now);
      } else {
        RegGone(s, n, 0);
        FaceSame(s, t);
      }
    } else {
      assert s.regs - {n} == s.regs;
    }
  }

  lemma NobodyLeft(s: State, fd: Fd, n: Name)
    requires NoInstances(s, n.session) && GoodFace(FaceOf(s, fd)) && n in FaceOf(s, fd).regs
    ensures !Used(FaceOf(s, fd).(regs := FaceOf(s, fd).regs - {n}))
  {
    var f := FaceOf(s, fd);
    assert f.regs - {n} == {};
    assert OwnerKept(f);
    assert forall k :: k in f.shared ==> k in s.insts && k.session == n.session;
  }

  /** After the loops nothing of the session is left to use a socket. */
  lemma DropKeeps(s: State, session: nat, ids: seq<Key>, names: seq<Name>, now: nat)
    requires Sockets(s) && session in s.sessions && Distinct(names)
    requires NoInstances(CloseAll(s, ids, now), session)
    requires forall r :: r in CloseAll(s, ids, now).regs && r.session == session <==> r in Range(names)
    ensures Sockets(DropSession(s, session, ids, names, now))
  {
    hide Sockets, CloseAll, CloseOwners, DropRegs;
    CloseAllKeeps(s, ids, now);
    var c := CloseAll(s, ids, now);
    forall i | 0 <= i < |names|
      ensures names[i].session == session
    {
      assert names[i] in Range(names);
    }
    DropRegsKeeps(c, session, names, now);
    DropRegsIs(c, names, now);
    OwnersRegs(c, names, now);
    var d := DropRegs(c, names, now);
    var t := CloseOwners(c, names, now);
    var v := DropSession(s, session, ids, names, now);
    assert d == t.(regs := c.regs - Range(names));
    assert v.regs == d.regs;
    NothingPaused(d, session);
    assert v.paused == d.paused;
    UnlinkedKeeps(d, v, session);
  }

  lemma NothingPaused(s: State, session: nat)
    requires Sockets(s) && NoInstances(s, session) && forall r :: r in s.regs ==> r.session != session
    ensures forall fd :: fd in s.paused ==> !PausedBy(s.paused[fd], session)
  {
    forall fd | fd in s.paused
      ensures !PausedBy(s.paused[fd], session)
    {
      var f := FaceOf(s, fd);
      assert GoodFace(f) && f.paused == Some(s.paused[fd]);
      if f.regs != {} {
        var r :| r in f.regs;
        assert r in s.regs;
      } else {
        var k :| k in f.shared;
        assert k in s.insts;
      }
    }
  }

  lemma UnlinkedKeeps(s: State, t: State, session: nat)
    requires Sockets(s) && t == s.(outs := t.outs, sessions := t.sessions)
    requires t.outs == map fd | fd in s.outs :: s.outs[fd].(q := Unlinked(s.outs[fd].q, session))
    ensures Sockets(t)
  {
    hide GoodFace, RegsOn, InstsOn;
    forall fd: Fd
      ensures GoodFace(FaceOf(t, fd))
    {
      UsersSame(s, t, fd);
      GoodOf(s, fd);
      if fd in s.outs {
        RelabelledGood(FaceOf(s, fd), t.outs[fd]);
      }
    }
  }

  lemma RelabelledGood(f: Face, o: Out)
    requires GoodFace(f) && f.out.Some? && o == f.out.value.(q := o.q) && |o.q| == |f.out.value.q|
    ensures GoodFace(f.(out := Some(o)))
  {}
}

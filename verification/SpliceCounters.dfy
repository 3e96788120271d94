/** A registration's counters (src/peer/daemon.cpp:511-538, 740-748, 840-843, 919-931):
    started is active plus finished, active is the number of live instances that carry
    its serial, a LIMIT is never exceeded, and a name used again counts from zero. */
module SpliceCounters {
  import opened Wrappers
  import opened Splice

  function Live(s: State, session: nat, serial: nat): set<Key> {
    set k | k in s.insts && k.session == session && s.insts[k].serial == serial
  }

  ghost predicate Counts(s: State, r: Name)
    requires r in s.regs
  {
    var g := s.regs[r];
    && r.session in s.sessions && 0 < g.serial < s.sessions[r.session].nextSerial
    && g.started == g.active + g.finished
    && g.active == |Live(s, r.session, g.serial)|
    && (g.limit > 0 ==> g.started <= g.limit)
  }

  /** A serial an instance carries was handed out, and belongs to the name it asked for. */
  ghost predicate Carries(s: State, k: Key)
    requires k in s.insts
  {
    var i := s.insts[k];
    && k.session in s.sessions && i.serial < s.sessions[k.session].nextSerial
    && (i.serial > 0 ==> i.open)
    && (i.serial > 0 ==> forall r :: r in s.regs && r.session == k.session && s.regs[r].serial == i.serial ==> r.name == i.reg)
  }

  ghost predicate Counters(s: State) {
    && (forall r :: r in s.regs ==> Counts(s, r))
    && (forall k :: k in s.insts ==> Carries(s, k))
    && (forall p, r :: p in s.regs && r in s.regs && p.session == r.session && s.regs[p].serial == s.regs[r].serial ==> p == r)
    && (forall n :: n in s.sessions ==> s.sessions[n].nextSerial > 0)
  }

  /** No serial is taken back: sessions stay, and hand out later serials. */
  predicate Later(s: State, t: State) {
    forall n :: n in s.sessions ==> n in t.sessions && s.sessions[n].nextSerial <= t.sessions[n].nextSerial
  }

  /** Nothing that counts changes. */
  ghost predicate SameCounts(s: State, t: State) {
    && t.regs == s.regs && Later(s, t) && (forall n :: n in t.sessions ==> t.sessions[n].nextSerial > 0)
    && t.insts.Keys == s.insts.Keys
    && (forall k :: k in s.insts ==> t.insts[k].serial == s.insts[k].serial && (s.insts[k].open ==> t.insts[k].open)
                                     && (s.insts[k].serial > 0 ==> t.insts[k].reg == s.insts[k].reg))
  }

  lemma SameKeeps(s: State, t: State)
    requires Counters(s) && SameCounts(s, t)
    ensures Counters(t)
  {
    forall r | r in t.regs
      ensures Counts(t, r)
    {
      assert Counts(s, r);
      assert Live(t, r.session, t.regs[r].serial) == Live(s, r.session, s.regs[r].serial);
    }
    forall k | k in t.insts
      ensures Carries(t, k)
    {
      assert Carries(s, k);
    }
  }

  lemma ReleaseSame(s: State, session: nat, fd: Fd, now: nat)
    ensures var t := Release(s, session, fd, now); t.regs == s.regs && t.insts == s.insts && t.sessions == s.sessions
  {
    hide CloseClient, RegUses, InstUses;
    CloseClientFrame(s.(reading := s.reading - {fd}), fd, now);
  }

  lemma UnregisterSame(s: State, r: Name, now: nat)
    ensures Unregister(s, r, now).sessions == s.sessions
  {
    hide Release;
    if r in s.regs && s.regs[r].owner.Some? {
      ReleaseSame(s.(regs := s.regs - {r}), r.session, s.regs[r].owner.value, now);
    }
  }

  lemma RegGone(s: State, r: Name)
    requires Counters(s)
    ensures Counters(s.(regs := s.regs - {r}))
  {
    var t := s.(regs := s.regs - {r});
    forall q | q in t.regs
      ensures Counts(t, q)
    {
      assert Counts(s, q);
      assert Live(t, q.session, t.regs[q].serial) == Live(s, q.session, s.regs[q].serial);
    }
    forall k | k in t.insts
      ensures Carries(t, k)
    {
      assert Carries(s, k);
    }
  }

  lemma UnregisterKeeps(s: State, r: Name, now: nat)
    requires Counters(s)
    ensures Counters(Unregister(s, r, now))
  {
    hide Counters, Release;
    if r in s.regs {
      var t := s.(regs := s.regs - {r});
      RegGone(s, r);
      if s.regs[r].owner.Some? {
        ReleaseSame(t, r.session, s.regs[r].owner.value, now);
        Alike(t, Release(t, r.session, s.regs[r].owner.value, now));
      }
    }
  }

  /** Counters look at registrations, instances and sessions only. */
  lemma Alike(s: State, t: State)
    requires Counters(s) && t.regs == s.regs && t.insts == s.insts && t.sessions == s.sessions
    ensures Counters(t)
  {
    SameKeeps(s, t);
  }

  /** One live instance fewer: its registration, if it is still the same, counts it. */
  lemma LeavesCounted(s: State, k: Key)
    requires Counters(s) && k in s.insts
    ensures var u := Counted(s, k); Counters(u.(insts := u.insts - {k}))
  {
    hide Live, Counts, Carries, Counted;
    var u := Counted(s, k);
    var t := u.(insts := u.insts - {k});
    CountedSame(s, k);
    forall r | r in t.regs
      ensures Counts(t, r)
    {
      LeavesOne(s, t, k, r);
    }
    forall x | x in t.insts
      ensures Carries(t, x)
    {
      CarriesOn(s, t, x);
    }
  }

  lemma CountedSame(s: State, k: Key)
    ensures var u := Counted(s, k);
            && u == s.(regs := u.regs) && u.regs.Keys == s.regs.Keys
            && forall r :: r in s.regs ==> u.regs[r].serial == s.regs[r].serial
  {}

  lemma LeavesOne(s: State, t: State, k: Key, r: Name)
    requires Counters(s) && k in s.insts && r in s.regs
    requires t == Counted(s, k).(insts := s.insts - {k})
    ensures Counts(t, r)
  {
    hide Live;
    assert Carries(s, k) && Counts(s, r);
    LiveLeft(s, t, k, r.session, s.regs[r].serial);
  }

  /** An instance that stays as it is carries its serial on. */
  lemma CarriesOn(s: State, t: State, x: Key)
    requires Counters(s) && x in s.insts && x in t.insts && t.insts[x] == s.insts[x] && Later(s, t)
    requires t.regs.Keys == s.regs.Keys && forall r :: r in s.regs ==> t.regs[r].serial == s.regs[r].serial
    ensures Carries(t, x)
  {
    hide Counts;
    assert Carries(s, x);
  }

  lemma LiveLeft(s: State, t: State, k: Key, session: nat, serial: nat)
    requires k in s.insts && t.insts == s.insts - {k}
    ensures |Live(t, session, serial)| ==
              |Live(s, session, serial)| - if k.session == session && s.insts[k].serial == serial then 1 else 0
  {
    assert Live(t, session, serial) == Live(s, session, serial) - {k};
  }

  lemma CloseInstanceKeeps(s: State, k: Key, now: nat)
    requires Counters(s)
    ensures Counters(CloseInstance(s, k, now))
  {
    hide Counters, Counted, Release, CloseClient;
    if k in s.insts {
      var i := s.insts[k];
      var fd := if i.cfd.Some? then i.cfd.value else 0;
      var t := if i.cfd.Some? && i.owned then CloseClient(s, fd, now) else s;
      CloseClientFrame(s, fd, now);
      Alike(s, t);
      LeavesCounted(t, k);
      var u := Counted(t, k);
      var v := u.(insts := u.insts - {k});
      ReleaseSame(v, k.session, fd, now);
      Alike(v, Release(v, k.session, fd, now));
    }
  }

  lemma {:induction false} CloseAllKeeps(s: State, ks: seq<Key>, now: nat)
    requires Counters(s)
    ensures Counters(CloseAll(s, ks, now))
    decreases |ks|
  {
    hide Counters, CloseInstance;
    if ks != [] {
      CloseInstanceKeeps(s, ks[0], now);
      CloseAllKeeps(CloseInstance(s, ks[0], now), ks[1..], now);
    }
  }

  /** A registration starts at zero: no instance carries a serial not handed out yet. */
  lemma RegisterKeeps(s: State, r: Name, limit: nat, owner: Option<Fd>)
    requires Counters(s) && r.session in s.sessions
    ensures Counters(Register(s, r, limit, owner))
    ensures r !in s.regs ==>
              var g := Register(s, r, limit, owner).regs[r];
              g.started == g.active == g.finished == 0 && Live(s, r.session, g.serial) == {}
  {
    hide Counts, Carries, Live;
    if r !in s.regs {
      hide Register;
      var t := Register(s, r, limit, owner);
      var serial := s.sessions[r.session].nextSerial;
      RegisterFrame(s, r, limit, owner);
      Unheard(s, r.session);
      forall k | k in t.insts
        ensures Carries(t, k)
      {
        RegisterCarries(s, t, r, k);
      }
      forall q | q in t.regs
        ensures Counts(t, q) && (q != r && q.session == r.session ==> t.regs[q].serial != serial)
      {
        RegisterOne(s, t, r, q);
      }
    }
  }

  lemma Unheard(s: State, session: nat)
    requires Counters(s) && session in s.sessions
    ensures Live(s, session, s.sessions[session].nextSerial) == {}
  {
    forall k | k in s.insts
      ensures k.session == session ==> s.insts[k].serial != s.sessions[session].nextSerial
    {
      assert Carries(s, k);
    }
  }

  lemma RegisterCarries(s: State, t: State, r: Name, k: Key)
    requires Counters(s) && r.session in s.sessions && r !in s.regs && r in t.regs && k in s.insts
    requires t.regs == s.regs[r := t.regs[r]] && t.insts == s.insts && t.regs[r].serial == s.sessions[r.session].nextSerial
    requires Later(s, t)
    ensures Carries(t, k)
  {
    hide Counts;
    assert Carries(s, k);
  }

  lemma RegisterOne(s: State, t: State, r: Name, q: Name)
    requires Counters(s) && r.session in s.sessions && r !in s.regs && r in t.regs && q in t.regs
    requires t.regs == s.regs[r := t.regs[r]] && t.insts == s.insts && Later(s, t)
    requires var serial := s.sessions[r.session].nextSerial;
             && t.regs[r] == t.regs[r].(serial := serial, started := 0, active := 0, finished := 0)
             && serial < t.sessions[r.session].nextSerial && Live(s, r.session, serial) == {}
    ensures Counts(t, q) && (q != r && q.session == r.session ==> t.regs[q].serial != t.regs[r].serial)
  {
    hide Carries;
    LiveSame(s, t, q.session, t.regs[q].serial);
    if q != r {
      assert Counts(s, q);
    }
  }

  lemma LiveSame(s: State, t: State, session: nat, serial: nat)
    requires t.insts == s.insts
    ensures Live(t, session, serial) == Live(s, session, serial)
  {}

  /** A new instance carries no serial. */
  lemma AddKeeps(s: State, session: nat, i: Instance)
    requires Counters(s) && session in s.sessions && i.serial == 0 && NewId(s, session) !in s.insts
    ensures Counters(AddInstance(s, session, i))
  {
    var t := AddInstance(s, session, i);
    forall r | r in t.regs
      ensures Counts(t, r)
    {
      assert Counts(s, r);
      assert Live(t, r.session, t.regs[r].serial) == Live(s, r.session, s.regs[r].serial);
    }
    forall k | k in t.insts
      ensures Carries(t, k)
    {
      if k != NewId(s, session) {
        assert Carries(s, k);
      }
    }
  }

  /** One more live instance, counted by the registration it was started by. */
  lemma ServeKeeps(s: State, k: Key, line: string)
    requires Counters(s) && k in s.insts && k.session in s.sessions && Name(k.session, line) in s.regs
    requires !s.insts[k].open && HasRoom(s.regs[Name(k.session, line)])
    ensures Counters(Serve(s, k, line))
  {
    hide Counts, Carries, Live;
    var t := Serve(s, k, line);
    NotCarried(s, k);
    forall q | q in t.regs
      ensures Counts(t, q)
    {
      ServeOne(s, t, k, line, q);
    }
    forall x | x in t.insts
      ensures Carries(t, x)
    {
      if x == k {
        ServeCarries(s, t, k, line);
      } else {
        CarriesOn(s, t, x);
      }
    }
  }

  lemma ServeOne(s: State, t: State, k: Key, line: string, q: Name)
    requires Counters(s) && k in s.insts && k.session in s.sessions && Name(k.session, line) in s.regs
    requires s.insts[k].serial == 0 && HasRoom(s.regs[Name(k.session, line)]) && q in s.regs && t == Serve(s, k, line)
    ensures Counts(t, q)
  {
    hide Live, Carries;
    assert Counts(s, q) && Counts(s, Name(k.session, line));
    LiveJoined(s, t, k, q.session, s.regs[q].serial);
  }

  lemma ServeCarries(s: State, t: State, k: Key, line: string)
    requires Counters(s) && k in s.insts && k.session in s.sessions && Name(k.session, line) in s.regs
    requires t == Serve(s, k, line)
    ensures Carries(t, k)
  {
    hide Live, Carries;
    assert Counts(s, Name(k.session, line));
    ServeCarried(t, k, Name(k.session, line), s);
  }

  lemma ServeCarried(t: State, k: Key, r: Name, s: State)
    requires Counters(s) && r in s.regs && k in t.insts && r.session == k.session && k.session in t.sessions
    requires t.insts[k].serial == s.regs[r].serial < t.sessions[k.session].nextSerial && t.insts[k].open && t.insts[k].reg == r.name
    requires t.regs.Keys == s.regs.Keys && forall q :: q in s.regs ==> t.regs[q].serial == s.regs[q].serial
    ensures Carries(t, k)
  {
    hide Live, Counts;
  }

  lemma LiveJoined(s: State, t: State, k: Key, session: nat, serial: nat)
    requires k in s.insts && k in t.insts && t.insts == s.insts[k := t.insts[k]] && s.insts[k].serial == 0 && serial > 0
    ensures |Live(t, session, serial)| ==
              |Live(s, session, serial)| + if k.session == session && t.insts[k].serial == serial then 1 else 0
  {
    if k.session == session && t.insts[k].serial == serial {
      assert Live(t, session, serial) == Live(s, session, serial) + {k};
    } else {
      assert Live(t, session, serial) == Live(s, session, serial);
    }
  }

  // ---- writing to clients counts nothing ----

  lemma ChunkSame(s: State, c: Chunk, n: nat)
    requires Counters(s)
    ensures SameCounts(s, AccountChunk(s, c, n))
  {}

  lemma {:induction false} RestSame(s: State, q: seq<Chunk>, off: nat)
    requires Counters(s)
    ensures Counters(AccountRest(s, q, off))
    decreases |q|
  {
    hide Counters, AccountChunk, SameCounts;
    if q != [] {
      ChunkSame(s, q[0], Left(q[0], off));
      SameKeeps(s, AccountChunk(s, q[0], Left(q[0], off)));
      RestSame(AccountChunk(s, q[0], Left(q[0], off)), q[1..], 0);
    }
  }

  /** Logs do not count. */
  lemma LogKeeps(s: State, t: State)
    requires Counters(s) && LogOnly(s, t)
    ensures Counters(t)
  {
    hide Counts, Carries;
    assert forall k :: k in s.insts ==> t.insts[k] == s.insts[k].(log := t.insts[k].log);
    SameKeeps(s, t) by {
      assert Later(s, t);
    }
  }

  lemma {:induction false} FlushKeeps(s: State, fd: Fd, answers: seq<Answer>)
    requires Counters(s)
    ensures Counters(Flush(s, fd, answers))
    decreases |answers|
  {
    hide Counters, Flush, AccountRest, AccountChunk, Advance, SameCounts, Handed, Forfeited, Piece, LogOnly;
    FlushOnce(s, fd, answers);
    if fd in s.outs {
      var o := s.outs[fd];
      if o.q == [] || answers == [] || answers[0].Again? {
        Alike(s, Flush(s, fd, answers));
      } else if answers[0].Dead? {
        var t := Forfeited(s, o.q);
        ForfeitedLog(s, o.q);
        LogKeeps(s, t);
        RestSame(t, o.q, o.off);
        Alike(AccountRest(t, o.q, o.off), Flush(s, fd, answers));
      } else {
        var n := Taken(o, answers[0].n);
        ChunkSame(s, o.q[0], n);
        SameKeeps(s, AccountChunk(s, o.q[0], n));
        Alike(AccountChunk(s, o.q[0], n), Moved(s, fd, n));
        HandedLog(Moved(s, fd, n), o.q[0], Piece(o.q[0].data, o.off, n));
        LogKeeps(Moved(s, fd, n), Written(s, fd, n));
        FlushKeeps(Written(s, fd, n), fd, answers[1..]);
      }
    }
  }

  lemma ClientWriteKeeps(s: State, k: Key, b: string, accounted: bool, answers: seq<Answer>)
    requires Counters(s)
    ensures Counters(ClientWrite(s, k, b, accounted, answers))
  {
    hide Counters, Flush, SameCounts, Charged;
    if k in s.insts && s.insts[k].cfd.Some? && b != "" {
      var fd := s.insts[k].cfd.value;
      var o := if fd in s.outs then s.outs[fd] else Out([], 0, false, 0);
      var t := s.(outs := s.outs[fd := o.(q := o.q + [Chunk(Some(k), b, accounted)])]);
      Alike(s, t);
      FlushKeeps(t, fd, answers);
      ChargedSame(s, k, |b|);
      SameKeeps(s, Account(s, k, |b|));
    }
  }

  lemma ChargedSame(s: State, k: Key, n: nat)
    requires Counters(s)
    ensures SameCounts(s, Account(s, k, n))
  {
    hide Charged, Counts, Carries;
    if k in s.insts {
      ChargedFrame(s.insts[k], n);
    }
  }

  lemma ChargedFrame(i: Instance, n: nat)
    ensures var j := Charged(i, n); j.serial == i.serial && j.open == i.open && j.reg == i.reg
  {}

  /** An instance is rewritten in ways that do not count. */
  lemma RewriteKeeps(s: State, t: State, k: Key)
    requires Counters(s) && k in s.insts && k in t.insts && t.insts == s.insts[k := t.insts[k]]
    requires t.regs == s.regs && t.sessions == s.sessions
    requires t.insts[k].serial == s.insts[k].serial && (s.insts[k].open ==> t.insts[k].open)
    requires s.insts[k].serial > 0 ==> t.insts[k].reg == s.insts[k].reg
    ensures Counters(t)
  {
    SameKeeps(s, t);
  }

  lemma DataKeeps(s: State, k: Key, b: string, answers: seq<Answer>)
    requires Counters(s) && k in s.insts
    ensures Counters(Data(s, k, b, answers))
  {
    hide Counters, ClientWrite;
    var t := s.(insts := s.insts[k := s.insts[k].(down := s.insts[k].down + |b|)]);
    RewriteKeeps(s, t, k);
    ClientWriteKeeps(t, k, b, true, answers);
  }

  lemma FailOpenKeeps(s: State, k: Key, why: string, now: nat, answers: seq<Answer>)
    requires Counters(s)
    ensures Counters(FailOpen(s, k, why, now, answers))
  {
    hide Counters, CloseInstance, ClientWrite;
    ClientWriteKeeps(s, k, why, false, answers);
    CloseInstanceKeeps(if k in s.insts && s.insts[k].owned then ClientWrite(s, k, why, false, answers) else s, k, now);
  }

  lemma NotCarried(s: State, k: Key)
    requires Counters(s) && k in s.insts && !s.insts[k].open
    ensures s.insts[k].serial == 0
  {
    assert Carries(s, k);
  }

  lemma LineKeeps(s: State, k: Key, line: string, env: Env)
    requires Counters(s) && k in s.insts && k.session in s.sessions && !s.insts[k].open
    ensures Counters(Line(s, k, line, env))
  {
    hide Counters, CloseInstance, ClientWrite, FailOpen, Serve;
    NotCarried(s, k);
    var i := s.insts[k];
    if i.inbound {
      var t := s.(insts := s.insts[k := i.(lbuf := "", reg := if line in META then i.reg else line)]);
      RewriteKeeps(s, t, k);
      CloseInstanceKeeps(t, k, env.now);
      if Name(k.session, line) in s.regs && HasRoom(s.regs[Name(k.session, line)]) {
        ServeKeeps(t, k, line);
      }
    } else {
      var t := s.(insts := s.insts[k := i.(lbuf := "")]);
      RewriteKeeps(s, t, k);
      match env.reply
      case Accepted =>
        ClientWriteKeeps(t, k, env.words, false, env.first);
        var u := ClientWrite(t, k, env.words, false, env.first);
        if k in u.insts {
          var v := u.(insts := u.insts[k := u.insts[k].(open := true)]);
          RewriteKeeps(u, v, k);
          Alike(v, Bound(u, k));
        }
      case WrongKind =>
        FailOpenKeeps(t, k, env.words, env.now, env.first);
      case Refused =>
        FailOpenKeeps(t, k, env.words, env.now, env.first);
        RewriteKeeps(t, t.(insts := t.insts[k := t.insts[k].(conn := false)]), k);
    }
  }

  lemma HandleDataKeeps(s: State, k: Key, b: string, env: Env)
    requires Counters(s) && k in s.insts && k.session in s.sessions && s.insts[k].conn
    ensures Counters(HandleData(s, k, b, env))
  {
    hide Counters, CloseInstance, Data, Line;
    if s.insts[k].open {
      DataKeeps(s, k, b, env.second);
    } else {
      var all := s.insts[k].lbuf + b;
      var nl := Newline(all);
      if nl == |all| {
        CloseInstanceKeeps(s, k, env.now);
        RewriteKeeps(s, s.(insts := s.insts[k := s.insts[k].(lbuf := all)]), k);
      } else {
        LineKeeps(s, k, all[..nl], env);
        var t := Line(s, k, all[..nl], env);
        var rest := all[nl + 1..];
        if rest != "" && k in t.insts && t.insts[k].open {
          var u := t.(insts := t.insts[k := t.insts[k].(preacked := |rest|, early := |rest|)]);
          RewriteKeeps(t, u, k);
          DataKeeps(u, k, rest, env.second);
        }
      }
    }
  }

  lemma TunnelDataKeeps(s: State, k: Key, b: string, env: Env)
    requires Counters(s)
    ensures Counters(TunnelData(s, k, b, env))
  {
    hide Counters, HandleData, Hear, LogOnly;
    if k in s.insts && k.session in s.sessions && s.insts[k].conn {
      HearLog(s, k, b);
      LogKeeps(s, Hear(s, k, b));
      Heard(s, k, b);
      HandleDataKeeps(Hear(s, k, b), k, b, env);
    }
  }

  lemma TunnelGoneKeeps(s: State, k: Key, now: nat)
    requires Counters(s)
    ensures Counters(TunnelGone(s, k, now))
  {
    hide Counters, CloseInstance;
    CloseInstanceKeeps(s, k, now);
    if k in s.insts && !s.insts[k].inbound && !s.insts[k].open {
      RewriteKeeps(s, TunnelGone(s, k, now), k);
    }
  }

  lemma OwnerReadableKeeps(s: State, fd: Fd, outcome: Outcome, room: set<Key>, users: seq<Key>, now: nat)
    requires Counters(s)
    ensures Counters(OwnerReadable(s, fd, outcome, room, users, now))
  {
    hide Counters, CloseAll, Unregister, CanRead;
    if fd in s.reading && s.reading[fd].Owner? {
      var w := s.reading[fd];
      match outcome
      case Nothing =>
      case Bytes(_) =>
        Alike(s, OwnerReadable(s, fd, outcome, room, users, now));
      case Ended =>
        var t := s.(paused := s.paused - {fd});
        Alike(s, t);
        UnregisterKeeps(t, w.reg, now);
        CloseAllKeeps(if w.reg in t.regs && t.regs[w.reg].serial == w.serial then Unregister(t, w.reg, now) else t, users, now);
    }
  }

  lemma {:induction false} RetireKeeps(s: State, session: nat, serials: seq<nat>, now: nat)
    requires Counters(s)
    ensures Counters(Retire(s, session, serials, now))
    decreases |serials|
  {
    hide Counters, Unregister;
    if serials != [] {
      if exists r :: Serves(s, session, serials[0], r) {
        var r :| Serves(s, session, serials[0], r) && Retire(s, session, serials, now) == Retire(Unregister(s, r, now), session, serials[1..], now);
        UnregisterKeeps(s, r, now);
        RetireKeeps(Unregister(s, r, now), session, serials[1..], now);
      } else {
        RetireKeeps(s, session, serials[1..], now);
      }
    }
  }

  /** A session goes with all it holds. */
  lemma SessionGone(s: State, t: State, session: nat)
    requires Counters(s) && t.insts == s.insts && t.sessions == s.sessions - {session}
    requires t.regs == map r | r in s.regs && r.session != session :: s.regs[r]
    requires forall k :: k in s.insts ==> k.session != session
    ensures Counters(t)
  {
    forall r | r in t.regs
      ensures Counts(t, r)
    {
      assert Counts(s, r);
      assert Live(t, r.session, t.regs[r].serial) == Live(s, r.session, s.regs[r].serial);
    }
    forall k | k in t.insts
      ensures Carries(t, k)
    {
      assert Carries(s, k);
    }
  }
}

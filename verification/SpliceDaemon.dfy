/** The daemon object (src/peer/daemon.cpp): its methods update the tables in place, loop
    by loop as the source does, and each does exactly what its function in Splice says. */
module SpliceDaemon {
  import opened Wrappers
  import opened Splice
  import F = SpliceSockets
  import N = SpliceCounters
  import R = SpliceRuns

  class Daemon {
    var sessions: map<nat, Session>
    var regs: map<Name, Reg>
    var insts: map<Key, Instance>
    var clientOut: map<Fd, Out>
    var pausedOwners: map<Fd, Watch>
    var reading: map<Fd, Watch>
    var writing: set<Fd>
    var openFds: set<Fd>
    var doubled: bool

    ghost function View(): State
      reads this
    {
      State(sessions, regs, insts, clientOut, pausedOwners, reading, writing, openFds, doubled)
    }

    constructor ()
      ensures View() == EMPTY
    {
      sessions, regs, insts, clientOut, pausedOwners, reading := map[], map[], map[], map[], map[], map[];
      writing, openFds, doubled := {}, {}, false;
    }

    // ---- window credit ----

    method DoAccount(k: Key, n: nat)
      modifies this`insts
      ensures View() == Account(old(View()), k, n)
    {
      if k !in insts {
        return;
      }
      var i := insts[k];
      var pre := Least(n, i.preacked);
      i := i.(preacked := i.preacked - pre);
      if i.conn && n > pre {
        i := i.(credit := i.credit + (n - pre));
      }
      insts := insts[k := i];
    }

    method DoAccountChunk(c: Chunk, n: nat)
      modifies this`insts
      ensures View() == AccountChunk(old(View()), c, n)
    {
      hide Account;
      if c.to.Some? && c.accounted {
        DoAccount(c.to.value, n);
      }
    }

    /** flush_client's second loop: everything still queued for a client that died. */
    method DoAccountRest(fd: Fd)
      requires fd in clientOut
      modifies this`insts
      ensures View() == AccountRest(old(View()), old(clientOut)[fd].q, old(clientOut)[fd].off)
    {
      hide AccountChunk;
      var o := clientOut[fd];
      ghost var s0 := View();
      var i := 0;
      assert o.q[0..] == o.q;
      while i < |o.q|
        invariant 0 <= i <= |o.q|
        invariant AccountRest(s0, o.q, o.off) == AccountRest(View(), o.q[i..], if i == 0 then o.off else 0)
      {
        assert o.q[i..][0] == o.q[i] && o.q[i..][1..] == o.q[i + 1..];
        DoAccountChunk(o.q[i], Left(o.q[i], if i == 0 then o.off else 0));
        i := i + 1;
      }
      assert o.q[i..] == [];
    }

    // ---- client output ----

    /** flush_client: write until the queue is empty, the socket is full or the client is
        gone. */
    method FlushClient(fd: Fd, answers: seq<Answer>)
      modifies this
      ensures View() == Flush(old(View()), fd, answers)
    {
      hide Flush, AccountRest, Written, Flushed;
      ghost var s0 := View();
      FlushOnce(s0, fd, answers);
      if fd !in clientOut {
        return;
      }
      var left := answers;
      while clientOut[fd].q != []
        invariant fd in clientOut
        invariant Flush(s0, fd, answers) == Flush(View(), fd, left)
        decreases |left|
      {
        FlushOnce(View(), fd, left);
        if left == [] || left[0].Again? {
          writing := writing + {fd};
          return;
        }
        if left[0].Dead? {
          DoForfeit(fd);
          DoAccountRest(fd);
          FinishFlush(fd);
          return;
        }
        WriteOnce(fd, Taken(clientOut[fd], left[0].n));
        left := left[1..];
      }
      FlushOnce(View(), fd, left);
      FinishFlush(fd);
    }

    /** One write took n bytes of the first chunk. */
    method WriteOnce(fd: Fd, n: nat)
      requires fd in clientOut && clientOut[fd].q != []
      modifies this`insts, this`clientOut
      ensures View() == Written(old(View()), fd, n) && fd in clientOut
    {
      hide AccountChunk, Handed, Piece;
      var o := clientOut[fd];
      var first := o.q[0];
      var piece := Piece(first.data, o.off, n);
      DoAccountChunk(first, n);
      o := o.(off := o.off + n);
      if o.off >= |first.data| {
        o := o.(q := o.q[1..], off := 0);
      }
      clientOut := clientOut[fd := o];
      LogHanded(first, piece);
    }

    method LogHanded(c: Chunk, b: string)
      modifies this`insts
      ensures View() == Handed(old(View()), c, b)
    {
      if c.to.Some? && c.accounted && c.to.value in insts {
        var i := insts[c.to.value];
        insts := insts[c.to.value := i.(log := i.log.(taken := i.log.taken + b))];
      }
    }

    method DoForfeit(fd: Fd)
      requires fd in clientOut
      modifies this`insts
      ensures View() == Forfeited(old(View()), old(clientOut)[fd].q)
    {
      hide Owners;
      var owners := Owners(clientOut[fd].q);
      insts := map k | k in insts :: if k in owners then insts[k].(log := insts[k].log.(lost := true)) else insts[k];
    }

    method FinishFlush(fd: Fd)
      requires fd in clientOut
      modifies this`writing, this`clientOut, this`openFds, this`doubled
      ensures View() == Flushed(old(View()), fd)
    {
      writing := writing - {fd};
      var closeNow := clientOut[fd].closing;
      clientOut := clientOut - {fd};
      if closeNow {
        DoCloseFd(fd);
      }
    }

    method DoCloseFd(fd: Fd)
      modifies this`openFds, this`doubled
      ensures View() == CloseFd(old(View()), fd)
    {
      doubled := doubled || fd !in openFds;
      openFds := openFds - {fd};
    }

    method DoClientWrite(k: Key, b: string, accounted: bool, answers: seq<Answer>)
      modifies this
      ensures View() == ClientWrite(old(View()), k, b, accounted, answers)
    {
      hide Flush, Account;
      if k !in insts || insts[k].cfd.None? || b == "" {
        return;
      }
      var fd := insts[k].cfd.value;
      var o := if fd in clientOut then clientOut[fd] else Out([], 0, false, 0);
      if o.closing {
        if accounted {
          DoAccount(k, |b|);
        }
        return;
      }
      clientOut := clientOut[fd := o.(q := o.q + [Chunk(Some(k), b, accounted)])];
      FlushClient(fd, answers);
    }

    method DoCloseClient(fd: Fd, now: nat)
      modifies this
      ensures View() == CloseClient(old(View()), fd, now)
    {
      pausedOwners := pausedOwners - {fd};
      if fd !in clientOut || clientOut[fd].q == [] {
        clientOut := clientOut - {fd};
        reading, writing := reading - {fd}, writing - {fd};
        DoCloseFd(fd);
        return;
      }
      reading := reading - {fd};
      clientOut := clientOut[fd := clientOut[fd].(closing := true, giveUp := now + GIVE_UP_MS)];
    }

    // ---- owner sockets ----

    /** The two searches of release_owner_fd. */
    method InUse(session: nat, fd: Fd) returns (used: bool)
      ensures used <==> RegUses(View(), session, fd) || InstUses(View(), session, fd)
    {
      var names := regs.Keys;
      while names != {}
        invariant names <= regs.Keys
        invariant forall r :: r in regs && r !in names && r.session == session ==> regs[r].owner != Some(fd)
        decreases |names|
      {
        var r :| r in names;
        if r.session == session && regs[r].owner == Some(fd) {
          return true;
        }
        names := names - {r};
      }
      var keys := insts.Keys;
      while keys != {}
        invariant keys <= insts.Keys
        invariant forall k :: k in insts && k !in keys && k.session == session ==> insts[k].cfd != Some(fd)
        decreases |keys|
      {
        var k :| k in keys;
        if k.session == session && insts[k].cfd == Some(fd) {
          return true;
        }
        keys := keys - {k};
      }
      return false;
    }

    method ReleaseOwnerFd(session: nat, fd: Fd, now: nat)
      modifies this
      ensures View() == Release(old(View()), session, fd, now)
    {
      hide RegUses, InstUses, CloseClient;
      var used := InUse(session, fd);
      if !used {
        reading := reading - {fd};
        DoCloseClient(fd, now);
      }
    }

    method DoWatchOwner(r: Name, serial: nat, fd: Fd)
      modifies this`pausedOwners, this`reading
      ensures View() == WatchOwner(old(View()), r, serial, fd)
    {
      pausedOwners := pausedOwners - {fd};
      reading := reading[fd := Owner(r, serial)];
    }

    /** REGISTER: refused for a name that exists, else add_reg and watch_owner. */
    method DoRegister(r: Name, limit: nat, owner: Option<Fd>)
      requires r.session in sessions
      modifies this
      ensures View() == Register(old(View()), r, limit, owner)
    {
      if r in regs {
        return;
      }
      var serial := sessions[r.session].nextSerial;
      sessions := sessions[r.session := sessions[r.session].(nextSerial := serial + 1)];
      regs := regs[r := Reg(serial, limit, 0, 0, 0, owner)];
      if owner.Some? {
        openFds := openFds + {owner.value};
        DoWatchOwner(r, serial, owner.value);
      }
    }

    method DoUnregister(r: Name, now: nat)
      modifies this
      ensures View() == Unregister(old(View()), r, now)
    {
      hide Release;
      if r !in regs {
        return;
      }
      var owner := regs[r].owner;
      regs := regs - {r};
      if owner.Some? {
        ReleaseOwnerFd(r.session, owner.value, now);
      }
    }

    // ---- instances ----

    method DoCount(k: Key)
      modifies this`regs
      ensures View() == Counted(old(View()), k)
    {
      if k in insts && insts[k].serial != 0 {
        var r := Name(k.session, insts[k].reg);
        if r in regs && regs[r].serial == insts[k].serial {
          var g := regs[r];
          regs := regs[r := g.(active := Less(g.active), finished := g.finished + 1)];
        }
      }
    }

    method DoCloseInstance(k: Key, now: nat)
      modifies this
      ensures View() == CloseInstance(old(View()), k, now)
    {
      hide CloseClient, Counted, Release;
      if k !in insts {
        return;
      }
      var i := insts[k];
      if i.cfd.Some? && i.owned {
        DoCloseClient(i.cfd.value, now);
      }
      DoCount(k);
      insts := insts - {k};
      if i.cfd.Some? && !i.owned {
        ReleaseOwnerFd(k.session, i.cfd.value, now);
      }
    }

    method DoCloseAll(ks: seq<Key>, now: nat)
      modifies this
      ensures View() == CloseAll(old(View()), ks, now)
    {
      hide CloseInstance;
      ghost var s0 := View();
      var i := 0;
      assert ks[0..] == ks;
      while i < |ks|
        invariant 0 <= i <= |ks|
        invariant CloseAll(s0, ks, now) == CloseAll(View(), ks[i..], now)
      {
        assert ks[i..][0] == ks[i] && ks[i..][1..] == ks[i + 1..];
        DoCloseInstance(ks[i], now);
        i := i + 1;
      }
      assert ks[i..] == [];
    }

    // ---- the handshake and the data ----

    /** An inbound instance found its registration. */
    method DoServe(k: Key, line: string)
      requires k in insts && k.session in sessions && Name(k.session, line) in regs
      modifies this`regs, this`sessions, this`insts
      ensures View() == Serve(old(View()), k, line)
    {
      var r := Name(k.session, line);
      var g := regs[r].(started := regs[r].started + 1, active := regs[r].active + 1);
      regs := regs[r := g];
      if g.limit != 0 && g.started >= g.limit {
        var e := sessions[k.session];
        sessions := sessions[k.session := e.(retire := e.retire + [g.serial])];
      }
      insts := insts[k := insts[k].(lbuf := "", reg := line, serial := g.serial, cfd := g.owner, open := true)];
    }

    method DoFailOpen(k: Key, why: string, now: nat, answers: seq<Answer>)
      modifies this
      ensures View() == FailOpen(old(View()), k, why, now, answers)
    {
      hide ClientWrite, CloseInstance;
      if k in insts && insts[k].owned {
        DoClientWrite(k, why, false, answers);
      }
      DoCloseInstance(k, now);
    }

    /** tick: an instance past its deadline. */
    method DoExpire(k: Key, why: string, now: nat, answers: seq<Answer>)
      modifies this
      ensures View() == Expire(old(View()), k, why, now, answers)
    {
      hide FailOpen;
      if k in insts && !insts[k].inbound && !insts[k].open && !insts[k].conn {
        DoFailOpen(k, why, now, answers);
      }
    }

    method BindEnd(k: Key)
      requires k in insts
      modifies this`insts, this`reading
      ensures View() == Bound(old(View()), k)
    {
      var i := insts[k];
      insts := insts[k := i.(open := true)];
      if i.cfd.Some? && i.owned && i.cfd.value !in reading {
        reading := reading[i.cfd.value := Client(k)];
      }
    }

    method InboundLine(k: Key, line: string, env: Env)
      requires k in insts && k.session in sessions && insts[k].inbound
      modifies this
      ensures View() == Line(old(View()), k, line, env)
    {
      hide CloseInstance, Serve;
      var i := insts[k];
      insts := insts[k := i.(lbuf := "", reg := if line in META then i.reg else line)];
      var r := Name(k.session, line);
      if line in META || r !in regs || (regs[r].limit != 0 && regs[r].started >= regs[r].limit) {
        DoCloseInstance(k, env.now);
      } else {
        DoServe(k, line);
      }
    }

    method OutboundLine(k: Key, line: string, env: Env)
      requires k in insts && k.session in sessions && !insts[k].inbound
      modifies this
      ensures View() == Line(old(View()), k, line, env)
    {
      hide ClientWrite, FailOpen, Bound;
      var i := insts[k];
      insts := insts[k := i.(lbuf := "")];
      if env.reply.WrongKind? {
        DoFailOpen(k, env.words, env.now, env.first);
      } else if env.reply.Refused? {
        if i.wait && i.conn {
          insts := insts[k := i.(lbuf := "", conn := false)];
        } else {
          DoFailOpen(k, env.words, env.now, env.first);
        }
      } else {
        DoClientWrite(k, env.words, false, env.first);
        if k in insts {
          BindEnd(k);
        }
      }
    }

    method DoData(k: Key, b: string, answers: seq<Answer>)
      requires k in insts
      modifies this
      ensures View() == Data(old(View()), k, b, answers)
    {
      hide ClientWrite;
      insts := insts[k := insts[k].(down := insts[k].down + |b|)];
      if insts[k].cfd.Some? {
        DoClientWrite(k, b, true, answers);
      }
    }

    method OnTunnelData(k: Key, b: string, env: Env)
      modifies this
      ensures View() == TunnelData(old(View()), k, b, env)
    {
      hide Data, Line, CloseInstance, Newline;
      if k !in insts || k.session !in sessions || !insts[k].conn {
        return;
      }
      insts := insts[k := insts[k].(log := insts[k].log.(heard := insts[k].log.heard + b))];
      if insts[k].open {
        DoData(k, b, env.second);
        return;
      }
      var all := insts[k].lbuf + b;
      var nl := Newline(all);
      if nl == |all| {
        if |all| > MAX_LINE {
          DoCloseInstance(k, env.now);
        } else {
          insts := insts[k := insts[k].(lbuf := all)];
        }
        return;
      }
      if insts[k].inbound {
        InboundLine(k, all[..nl], env);
      } else {
        OutboundLine(k, all[..nl], env);
      }
      var rest := all[nl + 1..];
      if rest != "" && k in insts && insts[k].open {
        insts := insts[k := insts[k].(preacked := |rest|, early := |rest|)];
        DoData(k, rest, env.second);
      }
    }

    // ---- reading owner sockets ----

    /** The loop that both owner callbacks make: is there anybody to give the bytes to,
        and has everybody room? */
    method AnyWithRoom(session: nat, fd: Fd, room: set<Key>) returns (can: bool)
      ensures can <==> CanRead(View(), session, fd, room)
    {
      var keys := insts.Keys;
      var any, all := false, true;
      ghost var seen: set<Key> := {};
      while keys != {}
        invariant keys <= insts.Keys
        invariant seen == set k | k in Readers(View(), session, fd) && k !in keys
        invariant any <==> seen != {}
        invariant all <==> seen <= room
        decreases |keys|
      {
        var k :| k in keys;
        keys := keys - {k};
        if k.session == session && insts[k].inbound && insts[k].cfd == Some(fd) && insts[k].open {
          any := true;
          all := all && k in room;
          seen := seen + {k};
        }
      }
      assert seen == Readers(View(), session, fd);
      return any && all;
    }

    /** The instances on an owner socket, each once. */
    method UsersOf(session: nat, fd: Fd) returns (users: seq<Key>)
      ensures forall k :: k in users <==> k in Users(View(), session, fd)
      ensures forall i, j :: 0 <= i < j < |users| ==> users[i] != users[j]
    {
      users := [];
      var keys := insts.Keys;
      while keys != {}
        invariant keys <= insts.Keys
        invariant forall k :: k in users <==> k in Users(View(), session, fd) && k !in keys
        invariant forall i, j :: 0 <= i < j < |users| ==> users[i] != users[j]
        decreases |keys|
      {
        var k :| k in keys;
        keys := keys - {k};
        if k.session == session && insts[k].inbound && insts[k].cfd == Some(fd) {
          users := users + [k];
        }
      }
    }

    method OnOwnerReadable(fd: Fd, outcome: Outcome, room: set<Key>, now: nat) returns (users: seq<Key>)
      modifies this
      ensures View() == OwnerReadable(old(View()), fd, outcome, room, users, now)
      ensures outcome.Ended? && fd in old(reading) && old(reading)[fd].Owner? ==>
                forall k :: k in users <==> k in Users(old(View()), old(reading)[fd].reg.session, fd)
    {
      hide CanRead, Unregister, CloseAll;
      users := [];
      if fd !in reading || !reading[fd].Owner? {
        return;
      }
      var w := reading[fd];
      if outcome.Nothing? {
        return;
      }
      if outcome.Bytes? {
        var can := AnyWithRoom(w.reg.session, fd, room);
        if !can {
          reading := reading - {fd};
          pausedOwners := pausedOwners[fd := w];
        }
        return;
      }
      users := UsersOf(w.reg.session, fd);
      pausedOwners := pausedOwners - {fd};
      if w.reg in regs && regs[w.reg].serial == w.serial {
        DoUnregister(w.reg, now);
      }
      DoCloseAll(users, now);
    }

    /** resume_owners: every paused socket that has readers with room is watched again;
        the others stay paused. */
    method ResumeOwners(room: set<Key>)
      modifies this`pausedOwners, this`reading
      ensures forall fd :: fd in old(pausedOwners) ==>
                var w := old(pausedOwners)[fd];
                if w.Owner? && CanRead(old(View()), w.reg.session, fd, room)
                then fd !in pausedOwners && fd in reading && reading[fd] == w
                else fd in pausedOwners && pausedOwners[fd] == w && (fd in reading <==> fd in old(reading))
      ensures forall fd :: fd !in old(pausedOwners) ==> fd !in pausedOwners && (fd in reading <==> fd in old(reading))
    {
      hide CanRead;
      var fds := pausedOwners.Keys;
      ghost var s0 := View();
      while fds != {}
        invariant fds <= s0.paused.Keys
        invariant forall fd :: fd in fds ==> fd in pausedOwners && pausedOwners[fd] == s0.paused[fd]
        invariant forall fd :: fd in fds ==> (fd in reading <==> fd in s0.reading)
        invariant forall fd :: fd in s0.paused && fd !in fds ==>
                    var w := s0.paused[fd];
                    if w.Owner? && CanRead(s0, w.reg.session, fd, room)
                    then fd !in pausedOwners && fd in reading && reading[fd] == w
                    else fd in pausedOwners && pausedOwners[fd] == w && (fd in reading <==> fd in s0.reading)
        invariant forall fd :: fd !in s0.paused ==> fd !in pausedOwners && (fd in reading <==> fd in s0.reading)
        decreases |fds|
      {
        var fd :| fd in fds;
        var w := pausedOwners[fd];
        fds := fds - {fd};
        if w.Owner? {
          var can := AnyWithRoom(w.reg.session, fd, room);
          ReadersOnly(s0, View(), w.reg.session, fd, room);
          if can {
            DoWatchOwner(w.reg, w.serial, fd);
          }
        }
      }
    }

    // ---- reading clients ----

    /** The callback of watch_cfd: a full tunnel takes the socket off the poller altogether. */
    method OnClientReadable(fd: Fd, outcome: Outcome, room: set<Key>, now: nat)
      modifies this
      ensures View() == ClientReadable(old(View()), fd, outcome, room, now)
    {
      hide CloseInstance;
      if fd !in reading || !reading[fd].Client? {
        return;
      }
      var k := reading[fd].key;
      if k !in insts {
        return;
      }
      if insts[k].conn && k !in room {
        reading, writing := reading - {fd}, writing - {fd};
        return;
      }
      if outcome.Ended? {
        DoCloseInstance(k, now);
      }
    }

    /** tick and on_writable: a client whose tunnel has room is watched again, for reading. */
    method DoResumeClient(k: Key, room: set<Key>)
      modifies this`reading
      ensures View() == ResumeClient(old(View()), k, room)
    {
      if k in insts && insts[k].open && insts[k].conn && k in room && insts[k].owned && insts[k].cfd.Some? {
        var fd := insts[k].cfd.value;
        if fd !in reading {
          reading := reading[fd := Client(k)];
        }
      }
    }

    // ---- tick ----

    method DoGiveUp(fd: Fd, now: nat)
      modifies this
      ensures View() == GiveUp(old(View()), fd, now)
    {
      if fd in clientOut && clientOut[fd].closing && now >= clientOut[fd].giveUp {
        reading, writing := reading - {fd}, writing - {fd};
        DoCloseFd(fd);
        clientOut := clientOut - {fd};
      }
    }

    /** The search for one serial of want_retire. */
    method FindServing(session: nat, serial: nat) returns (found: Option<Name>)
      ensures found.Some? ==> Serves(View(), session, serial, found.value)
      ensures found.None? ==> forall r :: !Serves(View(), session, serial, r)
    {
      var names := regs.Keys;
      while names != {}
        invariant names <= regs.Keys
        invariant forall r :: r in regs && r !in names ==> !Serves(View(), session, serial, r)
        decreases |names|
      {
        var r :| r in names;
        if r.session == session && regs[r].serial == serial {
          return Some(r);
        }
        names := names - {r};
      }
      return None;
    }

    method DoRetire(session: nat, now: nat)
      requires session in sessions && N.Counters(View())
      modifies this
      ensures View() == RetireTick(old(View()), session, now)
    {
      hide N.Counters, Unregister;
      var serials := sessions[session].retire;
      ghost var s0 := View();
      var i := 0;
      assert serials[0..] == serials;
      while i < |serials|
        invariant 0 <= i <= |serials|
        invariant N.Counters(View()) && sessions == s0.sessions
        invariant Retire(s0, session, serials, now) == Retire(View(), session, serials[i..], now)
      {
        assert serials[i..][0] == serials[i] && serials[i..][1..] == serials[i + 1..];
        var found := FindServing(session, serials[i]);
        ghost var s := View();
        if found.Some? {
          OneServes(s, session, serials[i], found.value);
          N.UnregisterSame(s, found.value, now);
          N.UnregisterKeeps(s, found.value, now);
          DoUnregister(found.value, now);
        }
        i := i + 1;
      }
      assert serials[i..] == [];
      sessions := sessions[session := sessions[session].(retire := [])];
    }

    // ---- dropping a session ----

    method DoCloseOwners(names: seq<Name>, now: nat)
      modifies this
      ensures View() == CloseOwners(old(View()), names, now)
    {
      hide CloseClient;
      ghost var s0 := View();
      var i := 0;
      assert names[0..] == names;
      while i < |names|
        invariant 0 <= i <= |names|
        invariant CloseOwners(s0, names, now) == CloseOwners(View(), names[i..], now)
      {
        assert names[i..][0] == names[i] && names[i..][1..] == names[i + 1..];
        if names[i] in regs && regs[names[i]].owner.Some? {
          DoCloseClient(regs[names[i]].owner.value, now);
        }
        i := i + 1;
      }
      assert names[i..] == [];
    }

    /** The instances of a session, each once. */
    method InstancesOf(session: nat) returns (ids: seq<Key>)
      ensures forall k :: k in ids <==> k in insts && k.session == session
      ensures forall i, j :: 0 <= i < j < |ids| ==> ids[i] != ids[j]
    {
      ids := [];
      var keys := insts.Keys;
      while keys != {}
        invariant keys <= insts.Keys
        invariant forall k :: k in ids <==> k in insts && k.session == session && k !in keys
        invariant forall i, j :: 0 <= i < j < |ids| ==> ids[i] != ids[j]
        decreases |keys|
      {
        var k :| k in keys;
        keys := keys - {k};
        if k.session == session {
          ids := ids + [k];
        }
      }
    }

    /** Its registrations, each once. */
    method NamesOf(session: nat) returns (names: seq<Name>)
      ensures forall r :: r in F.Range(names) <==> r in regs && r.session == session
      ensures F.Distinct(names)
    {
      names := [];
      var left := regs.Keys;
      while left != {}
        invariant left <= regs.Keys
        invariant forall r :: r in names <==> r in regs && r.session == session && r !in left
        invariant F.Distinct(names)
        decreases |left|
      {
        var r :| r in left;
        left := left - {r};
        if r.session == session {
          names := names + [r];
        }
      }
      assert forall r :: r in F.Range(names) <==> r in names;
    }

    /** drop_session: everything of the session's goes, in whatever order its tables list it. */
    method DoDropSession(session: nat, now: nat) returns (ids: seq<Key>, names: seq<Name>)
      modifies this
      ensures R.Listed(old(View()), session, ids, names)
      ensures View() == DropSession(old(View()), session, ids, names, now)
    {
      hide CloseAll, CloseOwners, Unlinked, F.Range, F.Distinct;
      ids := InstancesOf(session);
      names := NamesOf(session);
      if session !in sessions {
        return;
      }
      DoCloseAll(ids, now);
      DoCloseOwners(names, now);
      regs := map r | r in regs && r.session != session :: regs[r];
      clientOut := map fd | fd in clientOut :: clientOut[fd].(q := Unlinked(clientOut[fd].q, session));
      pausedOwners := map fd | fd in pausedOwners && !PausedBy(pausedOwners[fd], session) :: pausedOwners[fd];
      sessions := sessions - {session};
    }
  }

  /** Whether a socket can be read does not depend on which sockets are watched. */
  lemma ReadersOnly(s: State, t: State, session: nat, fd: Fd, room: set<Key>)
    requires t.insts == s.insts
    ensures CanRead(t, session, fd, room) == CanRead(s, session, fd, room)
  {
    assert Readers(t, session, fd) == Readers(s, session, fd);
  }

  /** Serials tell registrations apart. */
  lemma OneServes(s: State, session: nat, serial: nat, r: Name)
    requires N.Counters(s) && Serves(s, session, serial, r)
    ensures forall q :: Serves(s, session, serial, q) ==> q == r
  {}
}

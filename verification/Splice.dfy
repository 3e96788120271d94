/** What the daemon keeps to splice connections to local sockets (src/peer/daemon.cpp):
    registrations, instances, the output queued for client sockets, and which sockets
    are watched, paused or open. Each function below is one of the daemon's methods. */
module Splice {
  import opened Wrappers

  type Fd = nat

  /** An instance, by the session it belongs to and its id there. */
  datatype Key = Key(session: nat, id: nat)

  /** A registration's place in its session's table. */
  datatype Name = Name(session: nat, name: string)

  datatype Reg = Reg(serial: nat, limit: nat, started: nat, active: nat, finished: nat, owner: Option<Fd>)

  /** The log of one instance: what its connection has brought, which of the bytes that
      count its client has taken, and whether some of those went with a client that died. */
  datatype Log = Log(heard: string, taken: string, lost: bool)

  const NO_LOG := Log("", "", false)

  /** `serial` is 0 until the handshake finds a registration. `cfd` is a client socket,
      the instance's own (`owned`) or its registration's. For the window: `down` bytes
      were handed on, `credit` bytes given to recved, `early` bytes came with the
      handshake, `preacked` of those are not used up yet. */
  datatype Instance = Instance(
    inbound: bool, wait: bool, conn: bool, open: bool, lbuf: string, reg: string, serial: nat,
    cfd: Option<Fd>, owned: bool, preacked: nat, down: nat, credit: nat, early: nat, log: Log)

  datatype Chunk = Chunk(to: Option<Key>, data: string, accounted: bool)

  datatype Out = Out(q: seq<Chunk>, off: nat, closing: bool, giveUp: nat)

  /** Whom the poller calls when a socket is readable. */
  datatype Watch = Owner(reg: Name, serial: nat) | Client(key: Key)

  datatype Session = Session(nextSerial: nat, nextId: nat, retire: seq<nat>)

  /** `doubled` tells that some socket was closed while it was not open. */
  datatype State = State(
    sessions: map<nat, Session>, regs: map<Name, Reg>, insts: map<Key, Instance>,
    outs: map<Fd, Out>, paused: map<Fd, Watch>, reading: map<Fd, Watch>, writing: set<Fd>,
    open: set<Fd>, doubled: bool)

  const EMPTY := State(map[], map[], map[], map[], map[], map[], {}, {}, false)

  /** What the kernel says to a write. */
  datatype Answer = Wrote(n: nat) | Again | Dead

  /** What the kernel says to a read or a peek. */
  datatype Outcome = Nothing | Bytes(n: nat) | Ended

  const GIVE_UP_MS: nat := 30000
  const MAX_LINE: nat := 256

  // ---- window credit ----

  /** account: bytes of an instance are done with; those that came with the handshake
      were acknowledged then. */
  function Account(s: State, k: Key, n: nat): State {
    if k in s.insts then s.(insts := s.insts[k := Charged(s.insts[k], n)]) else s
  }

  function Charged(i: Instance, n: nat): Instance {
    var pre := Least(n, i.preacked);
    i.(preacked := i.preacked - pre, credit := if i.conn then i.credit + n - pre else i.credit)
  }

  function AccountChunk(s: State, c: Chunk, n: nat): State {
    if c.to.Some? && c.accounted then Account(s, c.to.value, n) else s
  }

  /** Nothing differs but logs. */
  ghost predicate LogOnly(s: State, t: State) {
    && t == s.(insts := t.insts) && t.insts.Keys == s.insts.Keys
    && (forall k :: k in s.insts ==> t.insts[k] == s.insts[k].(log := t.insts[k].log))
  }

  // ---- client output ----

  function CloseFd(s: State, fd: Fd): State {
    s.(open := s.open - {fd}, doubled := s.doubled || fd !in s.open)
  }

  /** The end of flush_client: nothing is left to write. */
  function Flushed(s: State, fd: Fd): State
    requires fd in s.outs
  {
    var t := s.(writing := s.writing - {fd}, outs := s.outs - {fd});
    if s.outs[fd].closing then CloseFd(t, fd) else t
  }

  /** What a dead client will never read still reopens the senders' windows. */
  function AccountRest(s: State, q: seq<Chunk>, off: nat): State
    decreases |q|
  {
    if q == [] then s
    else AccountRest(AccountChunk(s, q[0], Left(q[0], off)), q[1..], 0)
  }

  function Left(c: Chunk, off: nat): nat {
    if off <= |c.data| then |c.data| - off else 0
  }

  function Advance(o: Out, n: nat): Out
    requires o.q != []
  {
    if o.off + n >= |o.q[0].data| then o.(q := o.q[1..], off := 0) else o.(off := o.off + n)
  }

  /** How much of what is left a write that takes n bytes takes. */
  function Taken(o: Out, n: nat): nat
    requires o.q != []
  {
    Least(if n == 0 then 1 else n, Left(o.q[0], o.off))
  }

  /** flush_client, given the kernel's answers to its writes (none left: it would block). */
  function Flush(s: State, fd: Fd, answers: seq<Answer>): State
    decreases |answers|
  {
    if fd !in s.outs then s
    else
      var o := s.outs[fd];
      if o.q == [] then Flushed(s, fd)
      else if answers == [] || answers[0].Again? then s.(writing := s.writing + {fd})
      else if answers[0].Dead? then
        var f := Forfeited(s, o.q);
        var t := AccountRest(f, o.q, o.off);
        assert t.outs == s.outs by { RestKeepsOuts(f, o.q, o.off); }
        Flushed(t, fd)
      else
        Flush(Written(s, fd, Taken(o, answers[0].n)), fd, answers[1..])
  }

  /** One write took n bytes. */
  function Written(s: State, fd: Fd, n: nat): State
    requires fd in s.outs && s.outs[fd].q != []
  {
    var o := s.outs[fd];
    Handed(Moved(s, fd, n), o.q[0], Piece(o.q[0].data, o.off, n))
  }

  function Moved(s: State, fd: Fd, n: nat): State
    requires fd in s.outs && s.outs[fd].q != []
  {
    AccountChunk(s, s.outs[fd].q[0], n).(outs := s.outs[fd := Advance(s.outs[fd], n)])
  }

  function Piece(b: string, from: nat, n: nat): string {
    if from + n <= |b| then b[from..from + n] else ""
  }

  /** Log: the client has taken these bytes of a chunk. */
  function Handed(s: State, c: Chunk, b: string): State {
    if c.to.Some? && c.accounted && c.to.value in s.insts then
      var i := s.insts[c.to.value];
      s.(insts := s.insts[c.to.value := i.(log := i.log.(taken := i.log.taken + b))])
    else s
  }

  /** Whose bytes that count are in a queue. */
  function Owners(q: seq<Chunk>): set<Key> {
    set i | 0 <= i < |q| && q[i].to.Some? && q[i].accounted :: q[i].to.value
  }

  /** Log: the client died with this queue. */
  function Forfeited(s: State, q: seq<Chunk>): State {
    s.(insts := map k | k in s.insts ::
         if k in Owners(q) then s.insts[k].(log := s.insts[k].log.(lost := true)) else s.insts[k])
  }

  /** One unfolding of Flush, answer by answer. */
  lemma FlushOnce(s: State, fd: Fd, answers: seq<Answer>)
    ensures fd !in s.outs ==> Flush(s, fd, answers) == s
    ensures fd in s.outs && s.outs[fd].q == [] ==> Flush(s, fd, answers) == Flushed(s, fd)
    ensures fd in s.outs && s.outs[fd].q != [] && (answers == [] || answers[0].Again?) ==>
              Flush(s, fd, answers) == s.(writing := s.writing + {fd})
    ensures fd in s.outs && s.outs[fd].q != [] && answers != [] && answers[0].Dead? ==>
              var t := AccountRest(Forfeited(s, s.outs[fd].q), s.outs[fd].q, s.outs[fd].off);
              t == s.(insts := t.insts) && Flush(s, fd, answers) == Flushed(t, fd)
    ensures fd in s.outs && s.outs[fd].q != [] && answers != [] && answers[0].Wrote? ==>
              Flush(s, fd, answers) == Flush(Written(s, fd, Taken(s.outs[fd], answers[0].n)), fd, answers[1..])
  {
    hide Written, Flushed, AccountRest, Taken, Owners;
    if fd in s.outs {
      RestKeepsOuts(Forfeited(s, s.outs[fd].q), s.outs[fd].q, s.outs[fd].off);
    }
  }

  /** Accounting touches instances only. */
  lemma {:induction false} RestKeepsOuts(s: State, q: seq<Chunk>, off: nat)
    ensures AccountRest(s, q, off) == s.(insts := AccountRest(s, q, off).insts)
    decreases |q|
  {
    if q != [] {
      RestKeepsOuts(AccountChunk(s, q[0], Left(q[0], off)), q[1..], 0);
    }
  }

  lemma HandedLog(s: State, c: Chunk, b: string)
    ensures LogOnly(s, Handed(s, c, b))
  {}

  lemma ForfeitedLog(s: State, q: seq<Chunk>)
    ensures LogOnly(s, Forfeited(s, q))
  {
    hide Owners;
  }

  /** client_write */
  function ClientWrite(s: State, k: Key, b: string, accounted: bool, answers: seq<Answer>): State {
    if k !in s.insts || s.insts[k].cfd.None? || b == "" then s
    else
      var fd := s.insts[k].cfd.value;
      var o := if fd in s.outs then s.outs[fd] else Out([], 0, false, 0);
      if o.closing then (if accounted then Account(s, k, |b|) else s)
      else Flush(s.(outs := s.outs[fd := o.(q := o.q + [Chunk(Some(k), b, accounted)])]), fd, answers)
  }

  /** close_client: at once when nothing is pending, else once the queue has drained. */
  function CloseClient(s: State, fd: Fd, now: nat): State {
    if fd !in s.outs || s.outs[fd].q == [] then Closed(s, fd) else Drains(s, fd, now)
  }

  /** close_client is about one socket and no table. */
  lemma CloseClientFrame(s: State, fd: Fd, now: nat)
    ensures var t := CloseClient(s, fd, now);
            && t.sessions == s.sessions && t.regs == s.regs && t.insts == s.insts
            && t.paused == s.paused - {fd} && t.reading == s.reading - {fd} && t.outs - {fd} == s.outs - {fd}
            && t.writing - {fd} == s.writing - {fd} && t.open - {fd} == s.open - {fd}
  {
    var t := CloseClient(s, fd, now);
    if fd !in s.outs || s.outs[fd].q == [] {
      assert t.outs == s.outs - {fd} && t.writing == s.writing - {fd} && t.open == s.open - {fd};
    } else {
      var o := t.outs[fd];
      assert t.outs == s.outs[fd := o] && t.writing == s.writing && t.open == s.open;
      assert s.outs[fd := o] - {fd} == s.outs - {fd};
    }
    hide CloseClient;
  }

  function Closed(s: State, fd: Fd): State {
    s.(paused := s.paused - {fd}, reading := s.reading - {fd}, outs := s.outs - {fd}, writing := s.writing - {fd},
       open := s.open - {fd}, doubled := s.doubled || fd !in s.open)
  }

  function Drains(s: State, fd: Fd, now: nat): State
    requires fd in s.outs
  {
    s.(paused := s.paused - {fd}, reading := s.reading - {fd},
       outs := s.outs[fd := s.outs[fd].(closing := true, giveUp := now + GIVE_UP_MS)])
  }

  /** tick: a closing client that never drained is closed with its queue. */
  function GiveUp(s: State, fd: Fd, now: nat): State {
    if fd !in s.outs || !s.outs[fd].closing || now < s.outs[fd].giveUp then s
    else s.(reading := s.reading - {fd}, writing := s.writing - {fd}, outs := s.outs - {fd},
            open := s.open - {fd}, doubled := s.doubled || fd !in s.open)
  }

  // ---- owner sockets ----

  predicate RegUses(s: State, session: nat, fd: Fd) {
    exists r :: r in s.regs && r.session == session && s.regs[r].owner == Some(fd)
  }

  predicate InstUses(s: State, session: nat, fd: Fd) {
    exists k :: k in s.insts && k.session == session && s.insts[k].cfd == Some(fd)
  }

  /** release_owner_fd: close an owner socket that nobody of the session uses. */
  function Release(s: State, session: nat, fd: Fd, now: nat): State {
    if RegUses(s, session, fd) || InstUses(s, session, fd) then s
    else CloseClient(s.(reading := s.reading - {fd}), fd, now)
  }

  function WatchOwner(s: State, r: Name, serial: nat, fd: Fd): State {
    s.(paused := s.paused - {fd}, reading := s.reading[fd := Owner(r, serial)])
  }

  // ---- registrations ----

  /** add_reg, then (for a PIPE) watch_owner. REGISTER refuses a name that exists. */
  function Register(s: State, r: Name, limit: nat, owner: Option<Fd>): State
    requires r.session in s.sessions
  {
    if r in s.regs then s
    else
      var e := s.sessions[r.session];
      var t := s.(sessions := s.sessions[r.session := e.(nextSerial := e.nextSerial + 1)],
                  regs := s.regs[r := Reg(e.nextSerial, limit, 0, 0, 0, owner)]);
      match owner
      case None => t
      case Some(fd) => WatchOwner(t.(open := t.open + {fd}), r, e.nextSerial, fd)
  }

  /** What a new registration leaves as it was. */
  lemma RegisterFrame(s: State, r: Name, limit: nat, owner: Option<Fd>)
    requires r.session in s.sessions && r !in s.regs
    ensures var t := Register(s, r, limit, owner);
            var e := s.sessions[r.session];
            && t.insts == s.insts && t.outs == s.outs
            && t.sessions == s.sessions[r.session := e.(nextSerial := e.nextSerial + 1)]
            && t.regs == s.regs[r := Reg(e.nextSerial, limit, 0, 0, 0, owner)]
  {}

  function Unregister(s: State, r: Name, now: nat): State {
    if r !in s.regs then s
    else
      var owner := s.regs[r].owner;
      var t := s.(regs := s.regs - {r});
      if owner.Some? then Release(t, r.session, owner.value, now) else t
  }

  // ---- instances ----

  /** The registration an instance was started by, if it is still there. */
  predicate CountedBy(s: State, k: Key) {
    k in s.insts && s.insts[k].serial != 0 && var r := Name(k.session, s.insts[k].reg);
    r in s.regs && s.regs[r].serial == s.insts[k].serial
  }

  function Less(n: nat): nat {
    if n > 0 then n - 1 else 0
  }

  /** One instance fewer, one more finished. */
  function Counted(s: State, k: Key): State {
    if !CountedBy(s, k) then s
    else
      var r := Name(k.session, s.insts[k].reg);
      var g := s.regs[r];
      s.(regs := s.regs[r := g.(active := Less(g.active), finished := g.finished + 1)])
  }

  /** close_instance */
  function CloseInstance(s: State, k: Key, now: nat): State {
    if k !in s.insts then s
    else
      var i := s.insts[k];
      var t := if i.cfd.Some? && i.owned then CloseClient(s, i.cfd.value, now) else s;
      var u := Counted(t, k);
      var v := u.(insts := u.insts - {k});
      if i.cfd.Some? && !i.owned then Release(v, k.session, i.cfd.value, now) else v
  }

  function CloseAll(s: State, ks: seq<Key>, now: nat): State
    decreases |ks|
  {
    if ks == [] then s else CloseAll(CloseInstance(s, ks[0], now), ks[1..], now)
  }

  function NewId(s: State, session: nat): Key
    requires session in s.sessions
  {
    Key(session, s.sessions[session].nextId)
  }

  function AddInstance(s: State, session: nat, i: Instance): State
    requires session in s.sessions
  {
    var e := s.sessions[session];
    s.(sessions := s.sessions[session := e.(nextId := e.nextId + 1)], insts := s.insts[NewId(s, session) := i])
  }

  /** accept_inbound */
  function Accept(s: State, session: nat): State
    requires session in s.sessions
  {
    AddInstance(s, session, Instance(true, false, true, false, "", "", 0, None, false, 0, 0, 0, 0, NO_LOG))
  }

  /** OPEN with a client socket of its own, or with a local end. */
  function Open(s: State, session: nat, cfd: Option<Fd>, wait: bool): State
    requires session in s.sessions
  {
    var t := AddInstance(s, session, Instance(false, wait, false, false, "", "", 0, cfd, cfd.Some?, 0, 0, 0, 0, NO_LOG));
    if cfd.Some? then t.(open := t.open + {cfd.value}) else t
  }

  /** The outcome of a dial: a new connection, or none. */
  function Dialled(s: State, k: Key, conn: bool): State {
    if k !in s.insts || s.insts[k].inbound || s.insts[k].open then s
    else
      var i := s.insts[k];
      s.(insts := s.insts[k := i.(conn := conn, log := if conn then i.log.(heard := "") else i.log)])
  }

  // ---- the handshake ----

  /** May the registration start one more instance? */
  predicate HasRoom(r: Reg) {
    r.limit == 0 || r.started < r.limit
  }

  /** An inbound instance found its registration: count it, and give it its socket. */
  function Serve(s: State, k: Key, line: string): State
    requires k in s.insts && k.session in s.sessions && Name(k.session, line) in s.regs
  {
    var r := Name(k.session, line);
    var g := s.regs[r].(started := s.regs[r].started + 1, active := s.regs[r].active + 1);
    var e := s.sessions[k.session];
    var spent := g.limit != 0 && g.started >= g.limit;
    s.(regs := s.regs[r := g],
       sessions := if spent then s.sessions[k.session := e.(retire := e.retire + [g.serial])] else s.sessions,
       insts := s.insts[k := s.insts[k].(lbuf := "", reg := line, serial := g.serial, cfd := g.owner, open := true)])
  }

  /** What an outbound instance reads: OK with a kind the local end takes, OK with
      another kind, or anything else. */
  datatype Reply = Accepted | WrongKind | Refused

  /** fail_open: tell the client why, then close. */
  function FailOpen(s: State, k: Key, why: string, now: nat, answers: seq<Answer>): State {
    var t := if k in s.insts && s.insts[k].owned then ClientWrite(s, k, why, false, answers) else s;
    CloseInstance(t, k, now)
  }

  /** tick: an instance that never got through is given up at its deadline. */
  function Expire(s: State, k: Key, why: string, now: nat, answers: seq<Answer>): State {
    if k in s.insts && !s.insts[k].inbound && !s.insts[k].open && !s.insts[k].conn then FailOpen(s, k, why, now, answers) else s
  }

  /** bind_end for a client socket of the instance's own: start reading it. */
  function Bound(s: State, k: Key): State
    requires k in s.insts
  {
    var t := s.(insts := s.insts[k := s.insts[k].(open := true)]);
    match s.insts[k].cfd
    case None => t
    case Some(fd) => if s.insts[k].owned && fd !in s.reading then t.(reading := t.reading[fd := Client(k)]) else t
  }

  const META := {"__PING__", "__LIST__"}

  /** Everything the daemon cannot choose about one delivery from the tunnel. */
  datatype Env = Env(now: nat, reply: Reply, words: string, first: seq<Answer>, second: seq<Answer>)

  /** One handshake line, complete. */
  function Line(s: State, k: Key, line: string, env: Env): State
    requires k in s.insts && k.session in s.sessions
  {
    var i := s.insts[k];
    if i.inbound then
      var t := s.(insts := s.insts[k := i.(lbuf := "", reg := if line in META then i.reg else line)]);
      var r := Name(k.session, line);
      if line in META || r !in s.regs || !HasRoom(s.regs[r]) then CloseInstance(t, k, env.now)
      else Serve(t, k, line)
    else
      var t := s.(insts := s.insts[k := i.(lbuf := "")]);
      match env.reply
      case Accepted =>
        var u := ClientWrite(t, k, env.words, false, env.first);
        if k in u.insts then Bound(u, k) else u
      case WrongKind => FailOpen(t, k, env.words, env.now, env.first)
      case Refused =>
        if i.wait && i.conn then t.(insts := t.insts[k := t.insts[k].(conn := false)])
        else FailOpen(t, k, env.words, env.now, env.first)
  }

  /** Bytes for an open instance. */
  function Data(s: State, k: Key, b: string, answers: seq<Answer>): State
    requires k in s.insts
  {
    var i := s.insts[k];
    var t := s.(insts := s.insts[k := i.(down := i.down + |b|)]);
    if i.cfd.Some? then ClientWrite(t, k, b, true, answers) else t
  }

  /** Log: the connection brings bytes. */
  function Hear(s: State, k: Key, b: string): State
    requires k in s.insts
  {
    var i := s.insts[k];
    s.(insts := s.insts[k := i.(log := i.log.(heard := i.log.heard + b))])
  }

  /** Hearing changes nothing that handling looks at. */
  lemma Heard(s: State, k: Key, b: string)
    requires k in s.insts
    ensures var t := Hear(s, k, b);
            && k in t.insts && t.sessions == s.sessions && t.insts[k] == s.insts[k].(log := t.insts[k].log)
  {}

  lemma HearLog(s: State, k: Key, b: string)
    requires k in s.insts
    ensures LogOnly(s, Hear(s, k, b))
  {}

  /** on_tunnel_data */
  function TunnelData(s: State, k: Key, b: string, env: Env): State {
    if k !in s.insts || k.session !in s.sessions || !s.insts[k].conn then s
    else HandleData(Hear(s, k, b), k, b, env)
  }

  function HandleData(s: State, k: Key, b: string, env: Env): State
    requires k in s.insts && k.session in s.sessions
  {
    if s.insts[k].open then Data(s, k, b, env.second)
    else
      var all := s.insts[k].lbuf + b;
      var nl := Newline(all);
      if nl == |all| then
        if |all| > MAX_LINE then CloseInstance(s, k, env.now)
        else s.(insts := s.insts[k := s.insts[k].(lbuf := all)])
      else
        var t := Line(s, k, all[..nl], env);
        Leftover(t, k, all[nl + 1..], env)
  }

  /** What came behind the handshake line, acknowledged already. */
  function Leftover(s: State, k: Key, rest: string, env: Env): State {
    if rest == "" || k !in s.insts || !s.insts[k].open then s
    else Data(s.(insts := s.insts[k := s.insts[k].(preacked := |rest|, early := |rest|)]), k, rest, env.second)
  }

  /** on_tunnel_gone: a failed dial is retried; otherwise the instance ends (and has no
      connection left to close). */
  function TunnelGone(s: State, k: Key, now: nat): State {
    if k !in s.insts then s
    else if !s.insts[k].inbound && !s.insts[k].open then s.(insts := s.insts[k := s.insts[k].(conn := false)])
    else CloseInstance(s, k, now)
  }

  // ---- reading local sockets ----

  /** Open inbound instances on an owner socket; `room` are those whose tunnel has some. */
  function Readers(s: State, session: nat, fd: Fd): set<Key> {
    set k | k in s.insts && k.session == session && s.insts[k].inbound && s.insts[k].cfd == Some(fd) && s.insts[k].open
  }

  predicate CanRead(s: State, session: nat, fd: Fd, room: set<Key>) {
    Readers(s, session, fd) != {} && Readers(s, session, fd) <= room
  }

  function Users(s: State, session: nat, fd: Fd): set<Key> {
    set k | k in s.insts && k.session == session && s.insts[k].inbound && s.insts[k].cfd == Some(fd)
  }

  /** on_owner_readable; `users` lists the instances on the socket in table order. */
  function OwnerReadable(s: State, fd: Fd, outcome: Outcome, room: set<Key>, users: seq<Key>, now: nat): State {
    if fd !in s.reading || !s.reading[fd].Owner? then s
    else
      var w := s.reading[fd];
      match outcome
      case Nothing => s
      case Bytes(_) =>
        if CanRead(s, w.reg.session, fd, room) then s
        else s.(reading := s.reading - {fd}, paused := s.paused[fd := w])
      case Ended =>
        var t := s.(paused := s.paused - {fd});
        var u := if w.reg in t.regs && t.regs[w.reg].serial == w.serial then Unregister(t, w.reg, now) else t;
        CloseAll(u, users, now)
  }

  /** One turn of resume_owners. */
  function ResumeOwner(s: State, fd: Fd, room: set<Key>): State {
    if fd !in s.paused || !s.paused[fd].Owner? then s
    else
      var w := s.paused[fd];
      if CanRead(s, w.reg.session, fd, room) then WatchOwner(s, w.reg, w.serial, fd) else s
  }

  /** Is this client's tunnel full? */
  predicate Full(s: State, k: Key, room: set<Key>) {
    k in s.insts && s.insts[k].conn && k !in room
  }

  /** The callback of watch_cfd. When the tunnel is full the poller forgets the socket,
      for reading and for writing. */
  function ClientReadable(s: State, fd: Fd, outcome: Outcome, room: set<Key>, now: nat): State {
    if fd !in s.reading || !s.reading[fd].Client? then s
    else
      var k := s.reading[fd].key;
      if k !in s.insts then s
      else if Full(s, k, room) then s.(reading := s.reading - {fd}, writing := s.writing - {fd})
      else if outcome.Ended? then CloseInstance(s, k, now)
      else s
  }

  /** tick: a client socket paused for want of room is watched again. */
  function ResumeClient(s: State, k: Key, room: set<Key>): State {
    if k in s.insts && s.insts[k].open && s.insts[k].conn && k in room && s.insts[k].owned && s.insts[k].cfd.Some?
       && s.insts[k].cfd.value !in s.reading
    then s.(reading := s.reading[s.insts[k].cfd.value := Client(k)])
    else s
  }

  // ---- retiring and dropping ----

  predicate Serves(s: State, session: nat, serial: nat, r: Name) {
    r in s.regs && r.session == session && s.regs[r].serial == serial
  }

  /** tick: the registrations that have spent their limit go. */
  ghost function Retire(s: State, session: nat, serials: seq<nat>, now: nat): State
    decreases |serials|
  {
    if serials == [] then s
    else
      var t := if exists r :: Serves(s, session, serials[0], r) then
                 var r :| Serves(s, session, serials[0], r);
                 Unregister(s, r, now)
               else s;
      Retire(t, session, serials[1..], now)
  }

  ghost function RetireTick(s: State, session: nat, now: nat): State
    requires session in s.sessions
  {
    var t := Retire(s, session, s.sessions[session].retire, now);
    t.(sessions := s.sessions[session := s.sessions[session].(retire := [])])
  }

  /** The loop of drop_session over the owner sockets. */
  function CloseOwners(s: State, names: seq<Name>, now: nat): State
    decreases |names|
  {
    if names == [] then s
    else
      var t := if names[0] in s.regs && s.regs[names[0]].owner.Some?
               then CloseClient(s, s.regs[names[0]].owner.value, now) else s;
      CloseOwners(t, names[1..], now)
  }

  function Unlinked(q: seq<Chunk>, session: nat): seq<Chunk> {
    seq(|q|, i requires 0 <= i < |q| =>
      if q[i].to.Some? && q[i].to.value.session == session then q[i].(to := None) else q[i])
  }

  /** drop_session; `ids` and `names` list its instances and registrations. */
  function DropSession(s: State, session: nat, ids: seq<Key>, names: seq<Name>, now: nat): State {
    if session !in s.sessions then s
    else
      var t := CloseOwners(CloseAll(s, ids, now), names, now);
      t.(regs := map r | r in t.regs && r.session != session :: t.regs[r],
         outs := map fd | fd in t.outs :: t.outs[fd].(q := Unlinked(t.outs[fd].q, session)),
         paused := map fd | fd in t.paused && !PausedBy(t.paused[fd], session) :: t.paused[fd],
         sessions := t.sessions - {session})
  }

  predicate PausedBy(w: Watch, session: nat) {
    match w
    case Owner(r, _) => r.session == session
    case Client(k) => k.session == session
  }
}

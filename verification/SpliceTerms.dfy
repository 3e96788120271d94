/** What a registration's LIMIT means over whole runs (src/peer/daemon.cpp:511-545, 840-843,
    919-931): under the name it was registered, just the first LIMIT requests are granted,
    each is given the registration's socket, and the next tick removes what is spent. */
module SpliceTerms {
  import opened Wrappers
  import opened Splice
  import C = SpliceCredit
  import F = SpliceSockets
  import N = SpliceCounters
  import R = SpliceRuns

  /** What was promised under a name when it was last registered, and how many requests
      were granted since. */
  datatype Term = Term(limit: nat, owner: Option<Fd>, granted: nat)

  predicate Spent(g: Reg) {
    g.limit > 0 && g.started >= g.limit
  }

  /** The same terms, and as many started. */
  predicate Stands(g: Reg, h: Reg) {
    h == g.(active := h.active, finished := h.finished)
  }

  /** Registrations may go; nothing is started, and nothing queued for removal. */
  ghost predicate Terms(s: State, t: State) {
    && (forall r :: r in t.regs ==> r in s.regs && Stands(s.regs[r], t.regs[r]))
    && (forall n :: n in s.sessions ==> n in t.sessions && Numbered(s.sessions[n], t.sessions[n]))
  }

  predicate Numbered(e: Session, f: Session) {
    f.retire == e.retire && f.nextSerial == e.nextSerial
  }

  /** Just the spent registrations are queued for removal. */
  ghost predicate Due(s: State) {
    && (forall n, x :: n in s.sessions && x in s.sessions[n].retire ==> x < s.sessions[n].nextSerial)
    && (forall r :: r in s.regs && r.session in s.sessions ==> (s.regs[r].serial in s.sessions[r.session].retire <==> Spent(s.regs[r])))
  }

  ghost predicate As(s: State, r: Name, so: Term) {
    r in s.regs ==> s.regs[r].limit == so.limit && s.regs[r].owner == so.owner && s.regs[r].started == so.granted
  }

  lemma TermsThen(s: State, t: State, u: State)
    requires Terms(s, t) && Terms(t, u)
    ensures Terms(s, u)
  {}

  lemma SameTerms(s: State, t: State)
    requires t.regs == s.regs && t.sessions == s.sessions
    ensures Terms(s, t)
  {}

  lemma TermsKeep(s: State, t: State, r: Name, so: Term)
    requires Terms(s, t) && N.Counters(s) && Due(s) && As(s, r, so)
    requires t.sessions.Keys == s.sessions.Keys
    ensures Due(t) && As(t, r, so)
  {
    forall q | q in t.regs && q.session in t.sessions
      ensures t.regs[q].serial in t.sessions[q.session].retire <==> Spent(t.regs[q])
    {
      assert q in s.regs && Stands(s.regs[q], t.regs[q]);
      assert Numbered(s.sessions[q.session], t.sessions[q.session]);
    }
    forall n, x | n in t.sessions && x in t.sessions[n].retire
      ensures x < t.sessions[n].nextSerial
    {
      assert Numbered(s.sessions[n], t.sessions[n]);
    }
  }

  // ---- what grants nothing ----

  lemma CountedTerms(s: State, k: Key)
    ensures var t := Counted(s, k); Terms(s, t.(insts := t.insts - {k})) && t.sessions == s.sessions
  {}

  lemma CloseInstanceTerms(s: State, k: Key, now: nat)
    ensures var t := CloseInstance(s, k, now); Terms(s, t) && t.sessions == s.sessions
  {
    hide CloseClient, Release, Counted, Terms;
    SameTerms(s, s);
    if k in s.insts {
      var i := s.insts[k];
      var fd := if i.cfd.Some? then i.cfd.value else 0;
      CloseClientFrame(s, fd, now);
      var t := if i.cfd.Some? && i.owned then CloseClient(s, fd, now) else s;
      SameTerms(s, t);
      CountedTerms(t, k);
      var v := Counted(t, k).(insts := Counted(t, k).insts - {k});
      TermsThen(s, t, v);
      N.ReleaseSame(v, k.session, fd, now);
      SameTerms(v, Release(v, k.session, fd, now));
      TermsThen(s, v, Release(v, k.session, fd, now));
    }
  }

  lemma {:induction false} CloseAllTerms(s: State, ks: seq<Key>, now: nat)
    ensures var t := CloseAll(s, ks, now); Terms(s, t) && t.sessions == s.sessions
    decreases |ks|
  {
    hide CloseInstance, Terms;
    SameTerms(s, s);
    if ks != [] {
      CloseInstanceTerms(s, ks[0], now);
      CloseAllTerms(CloseInstance(s, ks[0], now), ks[1..], now);
      TermsThen(s, CloseInstance(s, ks[0], now), CloseAll(s, ks, now));
    }
  }

  lemma UnregisterIs(s: State, r: Name, now: nat)
    ensures var t := Unregister(s, r, now); t.regs == s.regs - {r} && t.insts == s.insts && t.sessions == s.sessions
  {
    hide Release;
    if r in s.regs && s.regs[r].owner.Some? {
      N.ReleaseSame(s.(regs := s.regs - {r}), r.session, s.regs[r].owner.value, now);
    }
  }

  lemma UnregisterTerms(s: State, r: Name, now: nat)
    ensures var t := Unregister(s, r, now); Terms(s, t) && t.sessions == s.sessions
  {
    hide Unregister;
    UnregisterIs(s, r, now);
  }

  lemma ClientWriteIs(s: State, k: Key, b: string, accounted: bool, answers: seq<Answer>)
    ensures var t := ClientWrite(s, k, b, accounted, answers); t.regs == s.regs && t.sessions == s.sessions
  {
    hide Flush;
    if k in s.insts && s.insts[k].cfd.Some? && b != "" {
      var fd := s.insts[k].cfd.value;
      var o := C.OutOf(s, fd);
      C.FlushFrame(s.(outs := s.outs[fd := o.(q := o.q + [Chunk(Some(k), b, accounted)])]), fd, answers);
    }
  }

  lemma FailOpenTerms(s: State, k: Key, why: string, now: nat, answers: seq<Answer>)
    ensures var t := FailOpen(s, k, why, now, answers); Terms(s, t) && t.sessions == s.sessions
  {
    hide ClientWrite, CloseInstance, Terms;
    ClientWriteIs(s, k, why, false, answers);
    var t := if k in s.insts && s.insts[k].owned then ClientWrite(s, k, why, false, answers) else s;
    SameTerms(s, t);
    CloseInstanceTerms(t, k, now);
    TermsThen(s, t, CloseInstance(t, k, now));
  }

  lemma DataIs(s: State, k: Key, b: string, answers: seq<Answer>)
    requires k in s.insts
    ensures var t := Data(s, k, b, answers);
            && t.regs == s.regs && t.sessions == s.sessions && k in t.insts
            && t.insts[k].open == s.insts[k].open && t.insts[k].cfd == s.insts[k].cfd && t.insts[k].reg == s.insts[k].reg
  {
    hide ClientWrite, Flush;
    var i := s.insts[k];
    var t := s.(insts := s.insts[k := i.(down := i.down + |b|)]);
    ClientWriteIs(t, k, b, true, answers);
    WrittenInstance(t, k, b, answers);
  }

  lemma WrittenInstance(s: State, k: Key, b: string, answers: seq<Answer>)
    requires k in s.insts
    ensures var t := ClientWrite(s, k, b, true, answers); k in t.insts && C.SameButBooks(s.insts[k], t.insts[k])
  {
    hide Flush;
    if s.insts[k].cfd.Some? && b != "" {
      var fd := s.insts[k].cfd.value;
      var o := C.OutOf(s, fd);
      C.FlushSame(s.(outs := s.outs[fd := o.(q := o.q + [Chunk(Some(k), b, true)])]), fd, answers, k);
    }
  }

  lemma LeftoverIs(s: State, k: Key, rest: string, env: Env)
    ensures var t := Leftover(s, k, rest, env);
            && t.regs == s.regs && t.sessions == s.sessions && (k in t.insts <==> k in s.insts)
            && (k in s.insts ==> t.insts[k].open == s.insts[k].open && t.insts[k].cfd == s.insts[k].cfd && t.insts[k].reg == s.insts[k].reg)
  {
    hide Data;
    if rest != "" && k in s.insts && s.insts[k].open {
      DataIs(s.(insts := s.insts[k := s.insts[k].(preacked := |rest|, early := |rest|)]), k, rest, env.second);
    }
  }

  // ---- a request ----

  /** Is an inbound instance about to read a whole line, and which? */
  predicate Asks(s: State, k: Key, b: string) {
    k in s.insts && s.insts[k].conn && s.insts[k].inbound && !s.insts[k].open && '\n' in s.insts[k].lbuf + b
  }

  function Asked(s: State, k: Key, b: string): string
    requires k in s.insts
  {
    var all := s.insts[k].lbuf + b;
    all[..Newline(all)]
  }

  /** May the registration of that name be given out once more? */
  predicate Offered(s: State, r: Name) {
    r.name != "__PING__" && r.name != "__LIST__" && r in s.regs && (s.regs[r].limit == 0 || s.regs[r].started < s.regs[r].limit)
  }

  /** A request that is granted is counted, and one that spends the limit queues the
      registration for removal; one that is not leaves the registrations' terms. */
  lemma InboundLineIs(s: State, k: Key, line: string, env: Env)
    requires k in s.insts && k.session in s.sessions && s.insts[k].inbound && !s.insts[k].open
    ensures var t, r := Line(s, k, line, env), Name(k.session, line);
            if Offered(s, r) then
              && k in t.insts && t.insts[k].open && t.insts[k].reg == line && t.insts[k].cfd == s.regs[r].owner
              && t.regs == s.regs[r := t.regs[r]] && t.sessions == s.sessions[k.session := t.sessions[k.session]]
              && t.regs[r] == s.regs[r].(started := s.regs[r].started + 1, active := s.regs[r].active + 1)
              && t.sessions[k.session] == s.sessions[k.session].(retire := s.sessions[k.session].retire + if Spent(t.regs[r]) then [s.regs[r].serial] else [])
            else k !in t.insts && Terms(s, t) && t.sessions == s.sessions
  {
    hide CloseInstance, Terms;
    var i := s.insts[k];
    var t := s.(insts := s.insts[k := i.(lbuf := "", reg := if line in META then i.reg else line)]);
    CloseInstanceTerms(t, k, env.now);
    C.CloseGone(t, k, env.now);
    SameTerms(s, t);
    TermsThen(s, t, CloseInstance(t, k, env.now));
    assert s.sessions[k.session].retire + [] == s.sessions[k.session].retire;
  }

  lemma OutboundLineTerms(s: State, k: Key, line: string, env: Env)
    requires k in s.insts && k.session in s.sessions && !s.insts[k].inbound
    ensures var t := Line(s, k, line, env); Terms(s, t) && t.sessions == s.sessions
  {
    hide FailOpen, ClientWrite, Terms;
    var t := s.(insts := s.insts[k := s.insts[k].(lbuf := "")]);
    SameTerms(s, t);
    ClientWriteIs(t, k, env.words, false, env.first);
    var u := ClientWrite(t, k, env.words, false, env.first);
    if k in u.insts {
      SameTerms(s, Bound(u, k));
    }
    SameTerms(s, u);
    FailOpenTerms(t, k, env.words, env.now, env.first);
    TermsThen(s, t, FailOpen(t, k, env.words, env.now, env.first));
    SameTerms(s, t.(insts := t.insts[k := t.insts[k].(conn := false)]));
  }

  /** Whatever arrives: a registration's terms change just when its name is asked for and
      it is offered. */
  lemma HandleDataIs(s: State, k: Key, b: string, env: Env)
    requires k in s.insts && k.session in s.sessions && s.insts[k].conn
    ensures var t := HandleData(s, k, b, env);
            if Asks(s, k, b) then Answered(s, k, Asked(s, k, b), t)
            else Terms(s, t) && t.sessions == s.sessions
  {
    hide Data, CloseInstance, Line, Leftover, Terms, Offered;
    if s.insts[k].open {
      DataIs(s, k, b, env.second);
      SameTerms(s, Data(s, k, b, env.second));
    } else {
      var all := s.insts[k].lbuf + b;
      var nl := Newline(all);
      NewlineThere(all);
      if nl == |all| {
        CloseInstanceTerms(s, k, env.now);
        SameTerms(s, s.(insts := s.insts[k := s.insts[k].(lbuf := all)]));
      } else {
        var u := Line(s, k, all[..nl], env);
        var t := Leftover(u, k, all[nl + 1..], env);
        LeftoverIs(u, k, all[nl + 1..], env);
        SameTerms(u, t);
        if s.insts[k].inbound {
          InboundLineIs(s, k, all[..nl], env);
          if !Offered(s, Name(k.session, all[..nl])) {
            TermsThen(s, u, t);
          }
        } else {
          OutboundLineTerms(s, k, all[..nl], env);
          TermsThen(s, u, t);
        }
      }
    }
  }

  lemma NewlineThere(b: string)
    ensures Newline(b) < |b| <==> '\n' in b
  {
    if Newline(b) < |b| {
      assert b[Newline(b)] in b;
    }
  }

  /** The answer to a request. */
  ghost predicate Answered(s: State, k: Key, line: string, t: State) {
    k in s.insts && k.session in s.sessions && k.session in t.sessions && var r := Name(k.session, line);
    if Offered(s, r) then
      && k in t.insts && t.insts[k].open && t.insts[k].reg == line && t.insts[k].cfd == s.regs[r].owner
      && r in t.regs && t.regs == s.regs[r := t.regs[r]] && t.sessions == s.sessions[k.session := t.sessions[k.session]]
      && t.regs[r] == s.regs[r].(started := s.regs[r].started + 1, active := s.regs[r].active + 1)
      && t.sessions[k.session] == s.sessions[k.session].(retire := s.sessions[k.session].retire + if Spent(t.regs[r]) then [s.regs[r].serial] else [])
    else k !in t.insts && Terms(s, t) && t.sessions == s.sessions
  }

  /** Granting one more keeps the queue of the spent. */
  lemma GrantKeeps(s: State, k: Key, line: string, t: State, r: Name, so: Term)
    requires N.Counters(s) && Due(s) && As(s, r, so) && Offered(s, Name(k.session, line)) && Answered(s, k, line, t)
    ensures Due(t) && As(t, r, if r == Name(k.session, line) then so.(granted := so.granted + 1) else so)
  {
    var o := Name(k.session, line);
    var e, f := s.sessions[k.session], t.sessions[k.session];
    assert N.Counts(s, o);
    assert forall x :: x in f.retire ==> x in e.retire || x == s.regs[o].serial;
    forall q | q in t.regs && q.session in t.sessions
      ensures t.regs[q].serial in t.sessions[q.session].retire <==> Spent(t.regs[q])
    {
      if q == o {
        assert Spent(t.regs[o]) ==> f.retire[|e.retire|] == s.regs[o].serial;
      } else if q.session == o.session {
        assert s.regs[q].serial != s.regs[o].serial;
        assert s.regs[q].serial in e.retire ==> s.regs[q].serial in f.retire;
      }
    }
  }

  // ---- removing the spent ----

  /** tick removes the registrations whose serials are queued, and no others. */
  lemma {:induction false} RetireIs(s: State, session: nat, serials: seq<nat>, now: nat)
    requires N.Counters(s)
    ensures var t := Retire(s, session, serials, now);
            && t.sessions == s.sessions && t.insts == s.insts
            && forall r :: (r in t.regs <==> r in s.regs && !(r.session == session && s.regs[r].serial in serials))
                           && (r in t.regs ==> t.regs[r] == s.regs[r])
    decreases |serials|
  {
    hide Unregister, N.Counters;
    if serials != [] {
      if exists r :: Serves(s, session, serials[0], r) {
        var r :| Serves(s, session, serials[0], r) && Retire(s, session, serials, now) == Retire(Unregister(s, r, now), session, serials[1..], now);
        var t := Unregister(s, r, now);
        UnregisterIs(s, r, now);
        N.UnregisterKeeps(s, r, now);
        OnlyServes(s, session, serials[0], r);
        RetireIs(t, session, serials[1..], now);
      } else {
        NobodyServes(s, session, serials[0]);
        RetireIs(s, session, serials[1..], now);
      }
    }
  }

  lemma OnlyServes(s: State, session: nat, serial: nat, r: Name)
    requires N.Counters(s) && Serves(s, session, serial, r)
    ensures forall q :: q in s.regs && q.session == session && s.regs[q].serial == serial ==> q == r
  {}

  lemma NobodyServes(s: State, session: nat, serial: nat)
    requires !exists r :: Serves(s, session, serial, r)
    ensures forall q :: q in s.regs && q.session == session ==> s.regs[q].serial != serial
  {
    forall q | q in s.regs && q.session == session
      ensures s.regs[q].serial != serial
    {
      assert !Serves(s, session, serial, q);
    }
  }

  /** The tick removes just the spent registrations of the session. */
  lemma RetireTickIs(s: State, session: nat, now: nat)
    requires N.Counters(s) && Due(s) && session in s.sessions
    ensures var t := RetireTick(s, session, now);
            && Due(t) && t.sessions.Keys == s.sessions.Keys
            && forall r :: (r in t.regs <==> r in s.regs && !(r.session == session && Spent(s.regs[r])))
                           && (r in t.regs ==> t.regs[r] == s.regs[r])
  {
    hide N.Counters, Retire;
    RetireIs(s, session, s.sessions[session].retire, now);
  }

  // ---- registering ----

  lemma RegisterDue(s: State, q: Name, limit: nat, owner: Option<Fd>, r: Name, so: Term)
    requires N.Counters(s) && Due(s) && As(s, r, so) && q.session in s.sessions
    ensures Due(Register(s, q, limit, owner))
    ensures As(Register(s, q, limit, owner), r, if r == q && q !in s.regs then Term(limit, owner, 0) else so)
  {
    hide Register;
    if q in s.regs {
      assert Register(s, q, limit, owner) == s by {
        RegisterAgain(s, q, limit, owner);
      }
    } else {
      var t := Register(s, q, limit, owner);
      RegisterFrame(s, q, limit, owner);
      forall p | p in t.regs && p.session in t.sessions
        ensures t.regs[p].serial in t.sessions[p.session].retire <==> Spent(t.regs[p])
      {
        assert t.sessions[p.session].retire == s.sessions[p.session].retire;
      }
      forall n, x | n in t.sessions && x in t.sessions[n].retire
        ensures x < t.sessions[n].nextSerial
      {
        assert x in s.sessions[n].retire;
      }
    }
  }

  lemma RegisterAgain(s: State, q: Name, limit: nat, owner: Option<Fd>)
    requires q in s.regs && q.session in s.sessions
    ensures Register(s, q, limit, owner) == s
  {}

  // ---- runs ----

  /** The name an event grants a request for, if it does: the instance is bound then. */
  ghost predicate Grants(s: State, e: R.Event, r: Name)
    requires R.Possible(s, e)
  {
    e.Arrives? && Asks(s, e.key, e.bytes) && e.key.session == r.session
    && var t := R.Happens(s, e);
       e.key in t.insts && t.insts[e.key].open && t.insts[e.key].reg == r.name
  }

  ghost function Agreed(s: State, e: R.Event, r: Name, so: Term): Term
    requires R.Possible(s, e)
  {
    if e.Registers? && e.name == r && r !in s.regs then Term(e.limit, e.owner, 0)
    else if Grants(s, e, r) then so.(granted := so.granted + 1)
    else so
  }

  /** What was promised under a name when a run last registered it, and how many requests
      it was granted to since. */
  ghost function Agreement(s: State, es: seq<R.Event>, r: Name, so: Term): Term
    requires R.PossibleRun(s, es)
    decreases |es|
  {
    if es == [] then so else Agreement(R.Happens(s, es[0]), es[1..], r, Agreed(s, es[0], r, so))
  }

  const NONE := Term(0, None, 0)

  lemma HearTerms(s: State, k: Key, b: string)
    requires k in s.insts
    ensures var t := Hear(s, k, b);
            && t.regs == s.regs && t.sessions == s.sessions && t.insts.Keys == s.insts.Keys
            && (forall c: string :: Asks(t, k, c) == Asks(s, k, c) && Asked(t, k, c) == Asked(s, k, c))
  {}

  lemma ArrivesDue(s: State, k: Key, b: string, env: Env, r: Name, so: Term)
    requires R.Inv(s) && Due(s) && As(s, r, so)
    ensures var e := R.Arrives(k, b, env);
            && Due(R.Happens(s, e)) && As(R.Happens(s, e), r, Agreed(s, e, r, so))
            && (Asks(s, k, b) ==> Answered(s, k, Asked(s, k, b), R.Happens(s, e)))
  {
    hide C.Credit, F.Sockets, N.Counters, HandleData, Terms, Due, As, Asked, Hear;
    if k in s.insts && s.insts[k].conn {
      SessionThere(s, k);
      var u := Hear(s, k, b);
      HearTerms(s, k, b);
      Heard(s, k, b);
      var t := HandleData(u, k, b, env);
      HandleDataIs(u, k, b, env);
      if Asks(s, k, b) {
        AnsweredAlike(s, u, k, Asked(s, k, b), t);
        var line := Asked(s, k, b);
        if Offered(s, Name(k.session, line)) {
          GrantKeeps(s, k, line, t, r, so);
        } else {
          TermsKeep(s, t, r, so);
        }
      } else {
        SameTerms(s, u);
        TermsThen(s, u, t);
        TermsKeep(s, t, r, so);
      }
    }
  }

  lemma AnsweredAlike(s: State, u: State, k: Key, line: string, t: State)
    requires u.regs == s.regs && u.sessions == s.sessions && k in s.insts && Answered(u, k, line, t)
    ensures Answered(s, k, line, t)
  {
    assert !Offered(s, Name(k.session, line)) ==> Terms(s, t);
  }

  lemma SessionThere(s: State, k: Key)
    requires C.Credit(s) && k in s.insts
    ensures k.session in s.sessions
  {
    hide C.Balanced, C.ValidOut;
    assert C.Known(s, k);
  }

  predicate Neutral(e: R.Event) {
    !e.Arrives? && !e.Registers? && !e.Retires? && !e.Starts? && !e.Drops?
  }

  lemma NeutralTerms(s: State, e: R.Event)
    requires R.Possible(s, e) && Neutral(e)
    ensures Terms(s, R.Happens(s, e)) && R.Happens(s, e).sessions.Keys == s.sessions.Keys
  {
    hide Flush, FailOpen, Unregister, CloseInstance, OwnerReadable, CanRead, Terms, NewId;
    SameTerms(s, s);
    if e.Unregisters? {
      UnregisterTerms(s, e.name, e.now);
    } else if e.Closes? || e.Goes? {
      CloseInstanceTerms(s, e.key, e.now);
      if e.key in s.insts {
        SameTerms(s, s.(insts := s.insts[e.key := s.insts[e.key].(conn := false)]));
      }
    } else if e.Expires? {
      FailOpenTerms(s, e.key, e.why, e.now, e.answers);
    } else if e.Drains? {
      C.FlushFrame(s, e.fd, e.answers);
      SameTerms(s, Flush(s, e.fd, e.answers));
    } else if e.OwnerReads? {
      OwnerReadableTerms(s, e.fd, e.outcome, e.room, e.users, e.now);
    } else if e.ClientReads? {
      ClientReadableTerms(s, e.fd, e.outcome, e.room, e.now);
    } else if e.Accepts? || e.Opens? {
      AddsTerms(s, e);
    } else {
      SameTerms(s, R.Happens(s, e));
    }
  }

  lemma AddsTerms(s: State, e: R.Event)
    requires R.Possible(s, e) && (e.Accepts? || e.Opens?)
    ensures Terms(s, R.Happens(s, e)) && R.Happens(s, e).sessions.Keys == s.sessions.Keys
  {
    hide NewId;
  }

  lemma OwnerReadableTerms(s: State, fd: Fd, outcome: Outcome, room: set<Key>, users: seq<Key>, now: nat)
    ensures var t := OwnerReadable(s, fd, outcome, room, users, now); Terms(s, t) && t.sessions == s.sessions
  {
    hide CanRead, Unregister, CloseAll, Terms;
    SameTerms(s, s);
    if fd in s.reading && s.reading[fd].Owner? {
      var w := s.reading[fd];
      if outcome.Ended? {
        var t := s.(paused := s.paused - {fd});
        var u := if w.reg in t.regs && t.regs[w.reg].serial == w.serial then Unregister(t, w.reg, now) else t;
        SameTerms(s, t);
        SameTerms(t, t);
        UnregisterTerms(t, w.reg, now);
        TermsThen(s, t, u);
        CloseAllTerms(u, users, now);
        TermsThen(s, u, CloseAll(u, users, now));
      } else {
        SameTerms(s, OwnerReadable(s, fd, outcome, room, users, now));
      }
    }
  }

  lemma ClientReadableTerms(s: State, fd: Fd, outcome: Outcome, room: set<Key>, now: nat)
    ensures var t := ClientReadable(s, fd, outcome, room, now); Terms(s, t) && t.sessions == s.sessions
  {
    hide CloseInstance, Terms;
    SameTerms(s, s);
    if fd in s.reading && s.reading[fd].Client? {
      CloseInstanceTerms(s, s.reading[fd].key, now);
      SameTerms(s, s.(reading := s.reading - {fd}, writing := s.writing - {fd}));
    }
  }

  lemma DropDue(s: State, session: nat, ids: seq<Key>, names: seq<Name>, now: nat, r: Name, so: Term)
    requires N.Counters(s) && Due(s) && As(s, r, so) && session in s.sessions
    ensures Due(DropSession(s, session, ids, names, now)) && As(DropSession(s, session, ids, names, now), r, so)
  {
    hide CloseAll, CloseOwners, Due, As, Terms, N.Counters;
    var c := CloseAll(s, ids, now);
    var o := CloseOwners(c, names, now);
    CloseAllTerms(s, ids, now);
    F.OwnersRegs(c, names, now);
    SameTerms(c, o);
    TermsThen(s, c, o);
    TermsKeep(s, o, r, so);
    SessionLess(o, DropSession(s, session, ids, names, now), session, r, so);
  }

  lemma SessionLess(s: State, t: State, session: nat, r: Name, so: Term)
    requires Due(s) && As(s, r, so) && t.sessions == s.sessions - {session}
    requires t.regs == map q | q in s.regs && q.session != session :: s.regs[q]
    ensures Due(t) && As(t, r, so)
  {}

  lemma StartsDue(s: State, session: nat, r: Name, so: Term)
    requires N.Counters(s) && Due(s) && As(s, r, so) && session !in s.sessions
    ensures var t := s.(sessions := s.sessions[session := Session(1, 0, [])]); Due(t) && As(t, r, so)
  {
    assert forall q :: q in s.regs ==> N.Counts(s, q);
  }

  lemma EventDue(s: State, e: R.Event, r: Name, so: Term)
    requires R.Inv(s) && R.Possible(s, e) && Due(s) && As(s, r, so)
    ensures Due(R.Happens(s, e)) && As(R.Happens(s, e), r, Agreed(s, e, r, so))
  {
    hide C.Credit, F.Sockets, N.Counters, Due, As, Terms, TunnelData, Register, RetireTick, DropSession, R.Listed;
    if e.Arrives? {
      ArrivesDue(s, e.key, e.bytes, e.env, r, so);
    } else if e.Registers? {
      RegisterDue(s, e.name, e.limit, e.owner, r, so);
    } else if e.Retires? {
      RetireTickIs(s, e.session, e.now);
      AsBefore(s, RetireTick(s, e.session, e.now), r, so);
    } else if e.Starts? {
      StartsDue(s, e.session, r, so);
    } else if e.Drops? {
      DropDue(s, e.session, e.ids, e.names, e.now, r, so);
    } else {
      NeutralTerms(s, e);
      TermsKeep(s, R.Happens(s, e), r, so);
    }
  }

  lemma AsBefore(s: State, t: State, r: Name, so: Term)
    requires As(s, r, so) && (r in t.regs ==> r in s.regs && t.regs[r] == s.regs[r])
    ensures As(t, r, so)
  {}

  lemma {:induction false} RunDue(s: State, es: seq<R.Event>, r: Name, so: Term)
    requires R.Inv(s) && R.PossibleRun(s, es) && Due(s) && As(s, r, so)
    ensures Due(R.Run(s, es)) && As(R.Run(s, es), r, Agreement(s, es, r, so))
    decreases |es|
  {
    hide R.Inv, R.Possible, R.Happens, Due, As, Agreed;
    if es != [] {
      R.EventKeeps(s, es[0]);
      EventDue(s, es[0], r, so);
      RunDue(R.Happens(s, es[0]), es[1..], r, Agreed(s, es[0], r, so));
    }
  }

  lemma RunsDue(es: seq<R.Event>, r: Name)
    requires R.PossibleRun(EMPTY, es)
    ensures R.Inv(R.Run(EMPTY, es)) && Due(R.Run(EMPTY, es)) && As(R.Run(EMPTY, es), r, Agreement(EMPTY, es, r, NONE))
  {
    hide R.Run, R.PossibleRun, R.Inv;
    R.EmptyInv();
    R.RunKeeps(EMPTY, es);
    RunDue(EMPTY, es, r, NONE);
  }

  /** In every run a registration has the limit and the socket it was registered with, has
      started as many instances as it was granted requests since, and never more than its
      limit. */
  lemma TermsKept(es: seq<R.Event>, r: Name)
    requires R.PossibleRun(EMPTY, es) && r in R.Run(EMPTY, es).regs
    ensures var g := R.Run(EMPTY, es).regs[r];
            var so := Agreement(EMPTY, es, r, NONE);
            && g.limit == so.limit && g.owner == so.owner && g.started == so.granted
            && (so.limit > 0 ==> so.granted <= so.limit)
  {
    hide R.Run, R.PossibleRun;
    RunsDue(es, r);
    assert N.Counts(R.Run(EMPTY, es), r);
  }

  /** After every run, a request for a name is granted just when that name is registered
      (and none of the two the daemon answers itself) and its limit, if it has one, was
      not reached; who is granted it gets the registration's socket, who is not is gone. */
  lemma GrantedWhen(es: seq<R.Event>, k: Key, b: string, env: Env)
    requires R.PossibleRun(EMPTY, es) && Asks(R.Run(EMPTY, es), k, b)
    ensures var s := R.Run(EMPTY, es);
            var e := R.Arrives(k, b, env);
            var t := R.Happens(s, e);
            var r := Name(k.session, Asked(s, k, b));
            var so := Agreement(EMPTY, es, r, NONE);
            && (Grants(s, e, r) <==> r in s.regs && r.name != "__PING__" && r.name != "__LIST__" && (so.limit == 0 || so.granted < so.limit))
            && (Grants(s, e, r) ==> t.insts[k].cfd == so.owner)
            && (!Grants(s, e, r) ==> k !in t.insts)
  {
    hide R.Run, R.PossibleRun, R.Inv, TunnelData, Due, Asked, Terms;
    var s := R.Run(EMPTY, es);
    var r := Name(k.session, Asked(s, k, b));
    RunsDue(es, r);
    ArrivesDue(s, k, b, env, r, Agreement(EMPTY, es, r, NONE));
  }

  /** After every run, the tick removes just the registrations that have spent a limit. */
  lemma RetiredWhen(es: seq<R.Event>, session: nat, now: nat)
    requires R.PossibleRun(EMPTY, es) && session in R.Run(EMPTY, es).sessions
    ensures var s := R.Run(EMPTY, es);
            var t := RetireTick(s, session, now);
            forall r :: r in t.regs <==> r in s.regs && !(r.session == session && s.regs[r].limit > 0 && s.regs[r].started == s.regs[r].limit)
  {
    hide R.Run, R.PossibleRun, RetireTick, Due;
    var s := R.Run(EMPTY, es);
    RunsDue(es, Name(session, ""));
    RetireTickIs(s, session, now);
    assert forall r :: r in s.regs ==> N.Counts(s, r);
  }
}

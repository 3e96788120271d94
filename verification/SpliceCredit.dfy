/** Window credit is conserved (src/peer/daemon.cpp:586-599, 770-838): for every instance
    on a client socket, the bytes that arrived are those credited by recved, those that
    were acknowledged with the handshake and are used up, and those still queued. */
module SpliceCredit {
  import opened Wrappers
  import opened Splice

  /** Bytes of an instance still queued. */
  function Owed(q: seq<Chunk>, off: nat, k: Key): nat
    decreases |q|
  {
    if q == [] then 0
    else (if q[0].to == Some(k) && q[0].accounted then Left(q[0], off) else 0) + Owed(q[1..], 0, k)
  }

  function Queued(s: State, k: Key): nat
    requires k in s.insts
  {
    var fd := s.insts[k].cfd;
    if fd.Some? && fd.value in s.outs then Owed(s.outs[fd.value].q, s.outs[fd.value].off, k) else 0
  }

  function Used(i: Instance): int {
    i.early - i.preacked
  }

  /** The books of one instance that has `queued` bytes waiting. */
  predicate Balanced(i: Instance, queued: nat) {
    && (i.cfd.Some? ==> i.down == i.credit + Used(i) + queued)
    && i.preacked <= i.early
    && (i.preacked > 0 ==> i.credit == 0)
    && (i.open ==> i.conn)
    && (!i.open ==> i.down == 0 && i.credit == 0 && i.early == 0)
    && (i.cfd.None? ==> queued == 0)
    && (i.inbound && !i.open ==> i.cfd.None?)
    && (i.down == 0 && i.early == 0 ==> i.credit == 0)
  }

  predicate ValidOut(o: Out) {
    && (o.q == [] ==> o.off == 0)
    && (o.q != [] ==> o.off < |o.q[0].data|)
    && (forall i :: 0 <= i < |o.q| ==> o.q[i].data != "")
  }

  predicate Known(s: State, k: Key) {
    k.session in s.sessions && k.id < s.sessions[k.session].nextId
  }

  /** A queued chunk names an instance that is gone, or one on this very socket. */
  predicate Tagged(s: State, fd: Fd, c: Chunk) {
    c.to.Some? ==> Known(s, c.to.value) && (c.to.value in s.insts ==> s.insts[c.to.value].cfd == Some(fd))
  }

  ghost predicate TaggedOut(s: State, fd: Fd, q: seq<Chunk>) {
    forall i :: 0 <= i < |q| ==> Tagged(s, fd, q[i])
  }

  ghost predicate Credit(s: State) {
    && (forall k :: k in s.insts ==> Known(s, k) && Balanced(s.insts[k], Queued(s, k)))
    && (forall fd :: fd in s.outs ==> ValidOut(s.outs[fd]) && TaggedOut(s, fd, s.outs[fd].q))
  }

  /** Credit never exceeds what arrived while the window was held. */
  lemma NeverOverCredited(s: State, k: Key)
    requires Credit(s) && k in s.insts && s.insts[k].cfd.Some?
    ensures var i := s.insts[k];
            && i.down == i.credit + (i.early - i.preacked) + Queued(s, k)
            && (i.preacked == 0 ==> i.credit <= i.down - i.early)
            && (i.preacked > 0 ==> i.credit == 0)
  {
    assert Balanced(s.insts[k], Queued(s, k));
  }

  // ---- accounting ----

  /** What accounting n bytes does to one instance. */
  predicate Paid(i: Instance, j: Instance, n: nat) {
    && j == i.(preacked := j.preacked, credit := j.credit)
    && j.preacked <= i.preacked
    && (i.preacked <= i.early && (n > 0 ==> i.conn) ==> j.credit + Used(j) == i.credit + Used(i) + n)
    && ((i.preacked > 0 ==> i.credit == 0) ==> (j.preacked > 0 ==> j.credit == 0))
    && (n == 0 ==> i == j)
  }

  function ChunkOwed(c: Chunk, n: nat, k: Key): nat {
    if c.to == Some(k) && c.accounted then n else 0
  }

  /** Accounting part of a chunk pays its instance, and touches nothing else. */
  lemma ChunkPaid(s: State, c: Chunk, n: nat, k: Key)
    requires k in s.insts
    ensures var t := AccountChunk(s, c, n);
            k in t.insts && Paid(s.insts[k], t.insts[k], ChunkOwed(c, n, k))
  {
    hide Charged, Paid;
    ChargedPaid(s.insts[k], n);
    ChargedPaid(s.insts[k], 0);
  }

  lemma ChargedPaid(i: Instance, n: nat)
    ensures Paid(i, Charged(i, n), n) && Charged(i, 0) == i
  {}

  lemma ChunkFrame(s: State, c: Chunk, n: nat)
    ensures var t := AccountChunk(s, c, n);
            t == s.(insts := t.insts) && t.insts.Keys == s.insts.Keys
  {}

  lemma {:induction false} RestFrame(s: State, q: seq<Chunk>, off: nat)
    ensures var t := AccountRest(s, q, off);
            t == s.(insts := t.insts) && t.insts.Keys == s.insts.Keys
    decreases |q|
  {
    hide AccountChunk;
    if q != [] {
      ChunkFrame(s, q[0], Left(q[0], off));
      RestFrame(AccountChunk(s, q[0], Left(q[0], off)), q[1..], 0);
    }
  }

  lemma {:induction false} RestPaid(s: State, q: seq<Chunk>, off: nat, k: Key)
    requires k in s.insts && (Owed(q, off, k) > 0 ==> s.insts[k].conn)
    ensures var t := AccountRest(s, q, off);
            k in t.insts && Paid(s.insts[k], t.insts[k], Owed(q, off, k))
    decreases |q|
  {
    hide AccountChunk;
    if q != [] {
      var t := AccountChunk(s, q[0], Left(q[0], off));
      ChunkPaid(s, q[0], Left(q[0], off), k);
      RestPaid(t, q[1..], 0, k);
      PaidTwice(s.insts[k], t.insts[k], AccountRest(s, q, off).insts[k], ChunkOwed(q[0], Left(q[0], off), k), Owed(q[1..], 0, k));
    }
  }

  lemma PaidTwice(a: Instance, b: Instance, c: Instance, m: nat, n: nat)
    requires Paid(a, b, m) && Paid(b, c, n)
    ensures Paid(a, c, m + n)
  {}

  lemma PaidSocket(a: Instance, b: Instance, m: nat)
    requires Paid(a, b, m)
    ensures b.cfd == a.cfd
  {}

  /** The books of an instance after it was paid out of its queue. */
  lemma StillBalanced(i: Instance, j: Instance, queued: nat, n: nat)
    requires Balanced(i, queued) && n <= queued && Paid(i, j, n)
    ensures Balanced(j, queued - n)
  {}

  // ---- the queue moves ----

  lemma AdvanceOwes(o: Out, n: nat, k: Key)
    requires o.q != [] && ValidOut(o) && n <= Left(o.q[0], o.off)
    ensures Owed(Advance(o, n).q, Advance(o, n).off, k) == Owed(o.q, o.off, k) - ChunkOwed(o.q[0], n, k)
    ensures n > 0 ==> ValidOut(Advance(o, n))
  {
    assert forall i :: 0 <= i < |o.q[1..]| ==> o.q[1..][i] == o.q[i + 1];
  }

  /** One write. */
  lemma MovedKeeps(s: State, fd: Fd, n: nat)
    requires Credit(s) && fd in s.outs && s.outs[fd].q != [] && 0 < n <= Left(s.outs[fd].q[0], s.outs[fd].off)
    ensures Credit(Moved(s, fd, n))
  {
    hide AccountChunk, Advance, Balanced, Paid, Owed;
    var o := s.outs[fd];
    var a := AccountChunk(s, o.q[0], n);
    var t := a.(outs := s.outs[fd := Advance(o, n)]);
    ChunkFrame(s, o.q[0], n);
    forall k | k in t.insts
      ensures Known(t, k) && Balanced(t.insts[k], Queued(t, k)) && t.insts[k].cfd == s.insts[k].cfd
    {
      ChunkPaid(s, o.q[0], n, k);
      PaidSocket(s.insts[k], t.insts[k], ChunkOwed(o.q[0], n, k));
      AdvanceOwes(o, n, k);
      assert Balanced(s.insts[k], Queued(s, k));
      if s.insts[k].cfd == Some(fd) {
        StillBalanced(s.insts[k], t.insts[k], Queued(s, k), ChunkOwed(o.q[0], n, k));
      } else {
        assert Tagged(s, fd, o.q[0]);
        assert ChunkOwed(o.q[0], n, k) == 0;
        StillBalanced(s.insts[k], t.insts[k], Queued(s, k), 0);
      }
    }
    AdvanceOwes(o, n, Key(0, 0));
    AdvanceTags(s, t, fd, n);
  }

  lemma WriteKeeps(s: State, fd: Fd, n: nat)
    requires Credit(s) && fd in s.outs && s.outs[fd].q != [] && 0 < n <= Left(s.outs[fd].q[0], s.outs[fd].off)
    ensures Credit(Written(s, fd, n))
  {
    hide Credit, Moved, Handed, Piece, LogOnly;
    var o := s.outs[fd];
    MovedKeeps(s, fd, n);
    HandedLog(Moved(s, fd, n), o.q[0], Piece(o.q[0].data, o.off, n));
    LogKeeps(Moved(s, fd, n), Written(s, fd, n));
  }

  /** The books do not look at logs. */
  lemma LogKeeps(s: State, t: State)
    requires Credit(s) && LogOnly(s, t)
    ensures Credit(t)
  {
    hide Owed, ValidOut;
    forall k | k in t.insts
      ensures Known(t, k) && Balanced(t.insts[k], Queued(t, k))
    {
      assert t.insts[k] == s.insts[k].(log := t.insts[k].log);
      assert Balanced(s.insts[k], Queued(s, k));
    }
    forall f | f in t.outs
      ensures TaggedOut(t, f, t.outs[f].q)
    {
      TagsFrame(s, t, f, t.outs[f].q);
    }
  }

  lemma AdvanceTags(s: State, t: State, fd: Fd, n: nat)
    requires Credit(s) && fd in s.outs && s.outs[fd].q != [] && n > 0
    requires t == s.(insts := t.insts, outs := s.outs[fd := Advance(s.outs[fd], n)])
    requires t.insts.Keys == s.insts.Keys && forall k :: k in s.insts ==> t.insts[k].cfd == s.insts[k].cfd
    ensures forall f :: f in t.outs ==> TaggedOut(t, f, t.outs[f].q)
  {
    hide Balanced, Owed;
    forall f | f in t.outs
      ensures TaggedOut(t, f, t.outs[f].q)
    {
      forall i | 0 <= i < |t.outs[f].q|
        ensures Tagged(t, f, t.outs[f].q[i])
      {
        var at := if f == fd && |t.outs[f].q| < |s.outs[f].q| then i + 1 else i;
        assert t.outs[f].q[i] == s.outs[f].q[at];
        assert Tagged(s, f, s.outs[f].q[at]);
      }
    }
  }

  /** A client that died: everything queued is accounted, and the queue goes. */
  lemma DeadKeeps(s: State, fd: Fd)
    requires Credit(s) && fd in s.outs
    ensures var t := AccountRest(s, s.outs[fd].q, s.outs[fd].off);
            t.outs == s.outs && Credit(Flushed(t, fd))
  {
    hide AccountRest, Paid, Owed, Balanced, ValidOut, Queued;
    var o := s.outs[fd];
    RestFrame(s, o.q, o.off);
    var t := AccountRest(s, o.q, o.off);
    var u := Flushed(t, fd);
    forall k | k in u.insts
      ensures Known(u, k) && Balanced(u.insts[k], Queued(u, k)) && u.insts[k].cfd == s.insts[k].cfd
    {
      if Owed(o.q, o.off, k) > 0 {
        OwedConnected(s, fd, k);
      }
      RestPaid(s, o.q, o.off, k);
      PaidSocket(s.insts[k], t.insts[k], Owed(o.q, o.off, k));
      DeadOne(s, u, fd, k);
    }
    ForgetsTags(s, u, fd);
  }

  lemma OwedConnected(s: State, fd: Fd, k: Key)
    requires Credit(s) && fd in s.outs && k in s.insts && Owed(s.outs[fd].q, s.outs[fd].off, k) > 0
    ensures s.insts[k].conn
  {
    hide Owed;
    OwedOnlyHere(s, fd, s.outs[fd].q, s.outs[fd].off, k);
    assert Balanced(s.insts[k], Queued(s, k));
  }

  lemma DeadOne(s: State, u: State, fd: Fd, k: Key)
    requires Credit(s) && fd in s.outs && k in s.insts && k in u.insts && u.outs == s.outs - {fd}
    requires u.insts[k].cfd == s.insts[k].cfd
    requires Paid(s.insts[k], u.insts[k], Owed(s.outs[fd].q, s.outs[fd].off, k))
    ensures Balanced(u.insts[k], Queued(u, k))
  {
    hide Owed, Paid;
    var n := Owed(s.outs[fd].q, s.outs[fd].off, k);
    OwedOnlyHere(s, fd, s.outs[fd].q, s.outs[fd].off, k);
    assert Balanced(s.insts[k], Queued(s, k));
    StillBalanced(s.insts[k], u.insts[k], Queued(s, k), n);
  }

  lemma ForgetsTags(s: State, u: State, fd: Fd)
    requires Credit(s) && u.outs == s.outs - {fd} && u.sessions == s.sessions
    requires u.insts.Keys == s.insts.Keys && forall k :: k in s.insts ==> u.insts[k].cfd == s.insts[k].cfd
    ensures forall f :: f in u.outs ==> ValidOut(u.outs[f]) && TaggedOut(u, f, u.outs[f].q)
  {
    hide Balanced, Owed;
    forall f | f in u.outs
      ensures TaggedOut(u, f, u.outs[f].q)
    {
      forall i | 0 <= i < |u.outs[f].q|
        ensures Tagged(u, f, u.outs[f].q[i])
      {
        assert Tagged(s, f, s.outs[f].q[i]);
      }
    }
  }

  lemma {:induction false} OwedOnlyHere(s: State, fd: Fd, q: seq<Chunk>, off: nat, k: Key)
    requires k in s.insts && TaggedOut(s, fd, q)
    ensures Owed(q, off, k) > 0 ==> s.insts[k].cfd == Some(fd)
    decreases |q|
  {
    if q != [] {
      assert Tagged(s, fd, q[0]);
      assert forall i :: 0 <= i < |q[1..]| ==> q[1..][i] == q[i + 1];
      OwedOnlyHere(s, fd, q[1..], 0, k);
    }
  }

  lemma {:induction false} FlushKeeps(s: State, fd: Fd, answers: seq<Answer>)
    requires Credit(s)
    ensures Credit(Flush(s, fd, answers))
    decreases |answers|
  {
    hide Credit, Flush, AccountRest, Written, Flushed, Forfeited;
    FlushOnce(s, fd, answers);
    if fd in s.outs {
      var o := s.outs[fd];
      if o.q == [] {
        EmptyKeeps(s, fd);
      } else if answers == [] || answers[0].Again? {
        SameBooks(s, s.(writing := s.writing + {fd}));
      } else if answers[0].Dead? {
        ForfeitedLog(s, o.q);
        LogKeeps(s, Forfeited(s, o.q));
        DeadKeeps(Forfeited(s, o.q), fd);
      } else {
        var n := Taken(o, answers[0].n);
        LeftSome(s, fd);
        WriteKeeps(s, fd, n);
        FlushKeeps(Written(s, fd, n), fd, answers[1..]);
      }
    }
  }

  lemma LeftSome(s: State, fd: Fd)
    requires Credit(s) && fd in s.outs && s.outs[fd].q != []
    ensures Left(s.outs[fd].q[0], s.outs[fd].off) > 0
  {
    assert ValidOut(s.outs[fd]);
  }

  /** The books look at instances, sessions and queues only. */
  lemma SameBooks(s: State, t: State)
    requires Credit(s) && t.insts == s.insts && t.outs == s.outs && t.sessions == s.sessions
    ensures Credit(t)
  {
    hide Balanced, Owed, ValidOut;
    assert forall k :: k in s.insts ==> Queued(t, k) == Queued(s, k);
    forall f | f in t.outs
      ensures TaggedOut(t, f, t.outs[f].q)
    {
      TagsFrame(s, t, f, t.outs[f].q);
    }
  }

  lemma TagsFrame(s: State, t: State, fd: Fd, q: seq<Chunk>)
    requires TaggedOut(s, fd, q) && t.sessions == s.sessions
    requires forall k :: k in t.insts ==> k in s.insts && t.insts[k].cfd == s.insts[k].cfd
    ensures TaggedOut(t, fd, q)
  {
    forall i | 0 <= i < |q|
      ensures Tagged(t, fd, q[i])
    {
      assert Tagged(s, fd, q[i]);
    }
  }

  lemma EmptyKeeps(s: State, fd: Fd)
    requires Credit(s) && fd in s.outs && s.outs[fd].q == []
    ensures Credit(Flushed(s, fd))
  {
    hide Balanced;
    var u := Flushed(s, fd);
    assert forall k :: k in s.insts ==> Queued(u, k) == Queued(s, k);
    ForgetsTags(s, u, fd);
  }

  // ---- every method keeps the books ----

  /** One instance is rewritten, on the same socket and with books of its own. */
  lemma RewriteKeeps(s: State, t: State, k: Key)
    requires Credit(s) && k in s.insts && k in t.insts
    requires t.insts == s.insts[k := t.insts[k]] && t.outs == s.outs && t.sessions == s.sessions
    requires t.insts[k].cfd == s.insts[k].cfd && Balanced(t.insts[k], Queued(s, k))
    ensures Credit(t)
  {
    hide Balanced, Owed, ValidOut;
    forall x | x in t.insts
      ensures Known(t, x) && Balanced(t.insts[x], Queued(t, x))
    {
      assert Balanced(s.insts[x], Queued(s, x));
      assert Queued(t, x) == Queued(s, x);
    }
    forall f | f in t.outs
      ensures TaggedOut(t, f, t.outs[f].q)
    {
      TagsFrame(s, t, f, t.outs[f].q);
    }
  }

  /** An instance goes. */
  lemma RemoveKeeps(s: State, t: State, k: Key)
    requires Credit(s) && t.insts == s.insts - {k} && t.outs == s.outs && t.sessions == s.sessions
    ensures Credit(t)
  {
    hide Balanced, Owed, ValidOut;
    forall x | x in t.insts
      ensures Known(t, x) && Balanced(t.insts[x], Queued(t, x))
    {
      assert Balanced(s.insts[x], Queued(s, x));
      assert Queued(t, x) == Queued(s, x);
    }
    forall f | f in t.outs
      ensures TaggedOut(t, f, t.outs[f].q)
    {
      TagsFrame(s, t, f, t.outs[f].q);
    }
  }

  /** Queues may go when nothing of a live instance is in them, and be marked. */
  lemma QueuesKeep(s: State, t: State, fd: Fd)
    requires Credit(s) && t.insts == s.insts && t.sessions == s.sessions
    requires t.outs == s.outs - {fd} || (fd in s.outs && fd in t.outs && t.outs == s.outs[fd := t.outs[fd]]
                                         && t.outs[fd].q == s.outs[fd].q && t.outs[fd].off == s.outs[fd].off)
    requires fd in s.outs && fd !in t.outs ==> s.outs[fd].q == [] || forall k :: k in s.insts ==> s.insts[k].cfd != Some(fd)
    ensures Credit(t)
  {
    hide Balanced;
    forall x | x in t.insts
      ensures Known(t, x) && Balanced(t.insts[x], Queued(t, x))
    {
      assert Balanced(s.insts[x], Queued(s, x));
    }
    forall f | f in t.outs
      ensures ValidOut(t.outs[f]) && TaggedOut(t, f, t.outs[f].q)
    {
      assert ValidOut(s.outs[f]);
      TagsFrame(s, t, f, t.outs[f].q);
    }
  }

  lemma CloseClientKeeps(s: State, fd: Fd, now: nat)
    requires Credit(s)
    ensures Credit(CloseClient(s, fd, now))
  {
    hide Credit;
    QueuesKeep(s, CloseClient(s, fd, now), fd);
  }

  lemma ReleaseKeeps(s: State, session: nat, fd: Fd, now: nat)
    requires Credit(s)
    ensures Credit(Release(s, session, fd, now))
  {
    hide Credit, CloseClient, RegUses, InstUses;
    var t := s.(reading := s.reading - {fd});
    SameBooks(s, t);
    CloseClientKeeps(t, fd, now);
  }

  lemma UnregisterKeeps(s: State, r: Name, now: nat)
    requires Credit(s)
    ensures Credit(Unregister(s, r, now))
  {
    hide Credit, Release;
    if r in s.regs {
      var t := s.(regs := s.regs - {r});
      SameBooks(s, t);
      if s.regs[r].owner.Some? {
        ReleaseKeeps(t, r.session, s.regs[r].owner.value, now);
      }
    }
  }

  lemma CloseInstanceKeeps(s: State, k: Key, now: nat)
    requires Credit(s)
    ensures Credit(CloseInstance(s, k, now))
  {
    hide Credit, Release, CloseClient, CountedBy;
    if k in s.insts {
      var i := s.insts[k];
      var t := if i.cfd.Some? && i.owned then CloseClient(s, i.cfd.value, now) else s;
      if i.cfd.Some? && i.owned {
        CloseClientKeeps(s, i.cfd.value, now);
      }
      CloseClientFrame(s, if i.cfd.Some? then i.cfd.value else 0, now);
      var u := Counted(t, k);
      SameBooks(t, u);
      var v := u.(insts := u.insts - {k});
      RemoveKeeps(u, v, k);
      if i.cfd.Some? && !i.owned {
        ReleaseKeeps(v, k.session, i.cfd.value, now);
      }
    }
  }

  lemma {:induction false} CloseAllKeeps(s: State, ks: seq<Key>, now: nat)
    requires Credit(s)
    ensures Credit(CloseAll(s, ks, now))
    decreases |ks|
  {
    hide Credit, CloseInstance;
    if ks != [] {
      CloseInstanceKeeps(s, ks[0], now);
      CloseAllKeeps(CloseInstance(s, ks[0], now), ks[1..], now);
    }
  }

  // ---- queueing ----

  lemma {:induction false} OwedSnoc(q: seq<Chunk>, off: nat, c: Chunk, k: Key)
    requires q == [] ==> off == 0
    ensures Owed(q + [c], off, k) == Owed(q, off, k) + ChunkOwed(c, |c.data|, k)
    decreases |q|
  {
    if q == [] {
      assert q + [c] == [c];
    } else {
      assert (q + [c])[1..] == q[1..] + [c];
      OwedSnoc(q[1..], 0, c, k);
    }
  }

  function OutOf(s: State, fd: Fd): Out {
    if fd in s.outs then s.outs[fd] else Out([], 0, false, 0)
  }

  /** A chunk is queued, and its instance has had that much more data (if it counts). */
  lemma PushKeeps(s: State, t: State, k: Key, fd: Fd, c: Chunk)
    requires Credit(s) && k in s.insts && s.insts[k].cfd == Some(fd) && c.to == Some(k) && c.data != ""
    requires t.sessions == s.sessions && t.outs == s.outs[fd := OutOf(s, fd).(q := OutOf(s, fd).q + [c])]
    requires var n := ChunkOwed(c, |c.data|, k);
             t.insts == s.insts[k := s.insts[k].(down := s.insts[k].down + n)] && (n > 0 ==> s.insts[k].open)
    ensures Credit(t)
  {
    hide Owed, Balanced;
    var o := OutOf(s, fd);
    forall x | x in t.insts
      ensures Known(t, x) && Balanced(t.insts[x], Queued(t, x))
    {
      PushOne(s, t, k, fd, c, x);
    }
    forall f | f in t.outs
      ensures ValidOut(t.outs[f]) && TaggedOut(t, f, t.outs[f].q)
    {
      if f == fd {
        PushTags(s, t, k, fd, o.q, c);
      } else {
        TagsFrame(s, t, f, t.outs[f].q);
      }
    }
  }

  lemma PushOne(s: State, t: State, k: Key, fd: Fd, c: Chunk, x: Key)
    requires Credit(s) && k in s.insts && s.insts[k].cfd == Some(fd) && c.to == Some(k)
    requires t.outs == s.outs[fd := OutOf(s, fd).(q := OutOf(s, fd).q + [c])]
    requires var n := ChunkOwed(c, |c.data|, k);
             t.insts == s.insts[k := s.insts[k].(down := s.insts[k].down + n)] && (n > 0 ==> s.insts[k].open)
    requires x in t.insts
    ensures Balanced(t.insts[x], Queued(t, x))
  {
    hide Owed;
    var o := OutOf(s, fd);
    assert Balanced(s.insts[x], Queued(s, x));
    OwedSnoc(o.q, o.off, c, x);
    NothingOwed(x);
  }

  lemma NothingOwed(k: Key)
    ensures Owed([], 0, k) == 0
  {}

  lemma PushTags(s: State, t: State, k: Key, fd: Fd, q: seq<Chunk>, c: Chunk)
    requires TaggedOut(s, fd, q) && t.sessions == s.sessions && t.insts.Keys == s.insts.Keys && c.to == Some(k) && Known(s, k)
    requires k in s.insts && s.insts[k].cfd == Some(fd) && forall x :: x in s.insts ==> t.insts[x].cfd == s.insts[x].cfd
    ensures TaggedOut(t, fd, q + [c])
  {
    TagsFrame(s, t, fd, q);
  }

  /** client_write of bytes that do not count (a line of the daemon's own). */
  lemma WordsKeep(s: State, k: Key, b: string, answers: seq<Answer>)
    requires Credit(s)
    ensures Credit(ClientWrite(s, k, b, false, answers))
  {
    hide Credit, Flush, Balanced;
    if k in s.insts && s.insts[k].cfd.Some? && b != "" {
      var fd := s.insts[k].cfd.value;
      var o := OutOf(s, fd);
      if !o.closing {
        var t := s.(outs := s.outs[fd := o.(q := o.q + [Chunk(Some(k), b, false)])]);
        assert t.insts == s.insts[k := s.insts[k].(down := s.insts[k].down + 0)];
        PushKeeps(s, t, k, fd, Chunk(Some(k), b, false));
        FlushKeeps(t, fd, answers);
      }
    }
  }

  /** Data for an open instance. */
  lemma DataKeeps(s: State, k: Key, b: string, answers: seq<Answer>)
    requires Credit(s) && k in s.insts && s.insts[k].open
    ensures Credit(Data(s, k, b, answers))
  {
    hide Credit, Flush, Balanced, Charged;
    var i := s.insts[k];
    var j := i.(down := i.down + |b|);
    BalancedOf(s, k);
    HandedOn(i, Queued(s, k), |b|);
    if i.cfd.None? || b == "" {
      RewriteKeeps(s, Data(s, k, b, answers), k);
    } else {
      var fd := i.cfd.value;
      var o := OutOf(s, fd);
      var c := Chunk(Some(k), b, true);
      var u := s.(insts := s.insts[k := Charged(j, |b|)]);
      var v := s.(insts := s.insts[k := j], outs := s.outs[fd := o.(q := o.q + [c])]);
      DataIs(s, k, b, answers);
      hide Data;
      if o.closing {
        RewriteKeeps(s, u, k);
      } else {
        PushKeeps(s, v, k, fd, c);
        FlushKeeps(v, fd, answers);
      }
    }
  }

  /** Bytes for a socket are queued behind the others, or accounted if nobody will read
      them. */
  lemma DataIs(s: State, k: Key, b: string, answers: seq<Answer>)
    requires k in s.insts && s.insts[k].cfd.Some? && b != ""
    ensures var fd := s.insts[k].cfd.value;
            var o := OutOf(s, fd);
            var j := s.insts[k].(down := s.insts[k].down + |b|);
            Data(s, k, b, answers) ==
              if o.closing then s.(insts := s.insts[k := Charged(j, |b|)])
              else Flush(s.(insts := s.insts[k := j], outs := s.outs[fd := o.(q := o.q + [Chunk(Some(k), b, true)])]), fd, answers)
  {
    hide Flush, Charged;
    var j := s.insts[k].(down := s.insts[k].down + |b|);
    assert s.insts[k := j][k := Charged(j, |b|)] == s.insts[k := Charged(j, |b|)];
  }

  /** Bytes that a local end takes, or that are accounted as soon as they arrive. */
  lemma HandedOn(i: Instance, queued: nat, n: nat)
    requires Balanced(i, queued) && i.open
    ensures var j := i.(down := i.down + n);
            && (i.cfd.None? || n == 0 ==> Balanced(j, queued))
            && Balanced(Charged(j, n), queued)
            && Charged(j, n).cfd == i.cfd
  {}

  lemma BalancedOf(s: State, k: Key)
    requires Credit(s) && k in s.insts
    ensures Balanced(s.insts[k], Queued(s, k))
  {}

  // ---- the handshake ----

  /** Nothing is queued for an instance that has no socket yet, wherever it is bound. */
  lemma ServeKeeps(s: State, k: Key, line: string)
    requires Credit(s) && k in s.insts && Name(k.session, line) in s.regs && k.session in s.sessions
    requires s.insts[k].inbound && !s.insts[k].open && s.insts[k].conn
    ensures Credit(Serve(s, k, line))
  {
    hide Balanced, ValidOut, Owed;
    var t := Serve(s, k, line);
    BalancedOf(s, k);
    NoSocketYet(s.insts[k], Queued(s, k));
    forall x | x in t.insts
      ensures Known(t, x) && Balanced(t.insts[x], Queued(t, x))
    {
      assert Balanced(s.insts[x], Queued(s, x));
      if x == k {
        var fd := t.insts[k].cfd;
        if fd.Some? && fd.value in s.outs {
          OwedOnlyHere(s, fd.value, s.outs[fd.value].q, s.outs[fd.value].off, k);
        }
        ServedBalanced(s.insts[k], t.insts[k]);
      } else {
        assert Queued(t, x) == Queued(s, x);
      }
    }
    forall f | f in t.outs
      ensures TaggedOut(t, f, t.outs[f].q)
    {
      ServeTags(s, t, k, f, t.outs[f].q);
    }
  }

  lemma NoSocketYet(i: Instance, queued: nat)
    requires Balanced(i, queued) && i.inbound && !i.open
    ensures i.cfd.None? && i.preacked == i.early == i.down == i.credit == 0
  {}

  lemma ServedBalanced(i: Instance, j: Instance)
    requires j == i.(lbuf := j.lbuf, reg := j.reg, serial := j.serial, cfd := j.cfd, open := true)
    requires i.conn && i.preacked == i.early == i.down == i.credit == 0
    ensures Balanced(j, 0)
  {}

  lemma ServeTags(s: State, t: State, k: Key, fd: Fd, q: seq<Chunk>)
    requires TaggedOut(s, fd, q) && k in s.insts && s.insts[k].cfd.None? && t.insts.Keys == s.insts.Keys
    requires forall x :: x in s.insts && x != k ==> t.insts[x].cfd == s.insts[x].cfd
    requires forall x :: Known(s, x) ==> Known(t, x)
    ensures TaggedOut(t, fd, q)
  {
    forall i | 0 <= i < |q|
      ensures Tagged(t, fd, q[i])
    {
      assert Tagged(s, fd, q[i]);
    }
  }

  lemma FailOpenKeeps(s: State, k: Key, why: string, now: nat, answers: seq<Answer>)
    requires Credit(s)
    ensures Credit(FailOpen(s, k, why, now, answers))
  {
    hide Credit, CloseInstance, ClientWrite;
    WordsKeep(s, k, why, answers);
    CloseInstanceKeeps(if k in s.insts && s.insts[k].owned then ClientWrite(s, k, why, false, answers) else s, k, now);
  }

  /** An instance is rewritten in ways the books do not see. */
  lemma UnseenKeeps(s: State, t: State, k: Key)
    requires Credit(s) && k in s.insts && k in t.insts
    requires t.insts == s.insts[k := t.insts[k]] && t.outs == s.outs && t.sessions == s.sessions
    requires var i, j := s.insts[k], t.insts[k];
             && j == i.(lbuf := j.lbuf, reg := j.reg, conn := j.conn, open := j.open, log := j.log)
             && (i.open ==> j.open) && (j.open ==> j.conn && (i.open || !i.inbound))
    ensures Credit(t)
  {
    hide Credit;
    BalancedOf(s, k);
    RewriteKeeps(s, t, k);
  }

  lemma LineKeeps(s: State, k: Key, line: string, env: Env)
    requires Credit(s) && k in s.insts && k.session in s.sessions && s.insts[k].conn && !s.insts[k].open
    ensures Credit(Line(s, k, line, env))
  {
    hide Credit, CloseInstance, ClientWrite, FailOpen, Serve, Bound;
    var i := s.insts[k];
    if i.inbound {
      var t := s.(insts := s.insts[k := i.(lbuf := "", reg := if line in META then i.reg else line)]);
      UnseenKeeps(s, t, k);
      CloseInstanceKeeps(t, k, env.now);
      if Name(k.session, line) in s.regs {
        ServeKeeps(t, k, line);
      }
    } else {
      var t := s.(insts := s.insts[k := i.(lbuf := "")]);
      UnseenKeeps(s, t, k);
      OutboundKeeps(t, k, env);
    }
  }

  /** The three replies an outbound instance can read. */
  lemma OutboundKeeps(t: State, k: Key, env: Env)
    requires Credit(t) && k in t.insts && t.insts[k].conn && !t.insts[k].open && !t.insts[k].inbound
    ensures var u := ClientWrite(t, k, env.words, false, env.first); Credit(if k in u.insts then Bound(u, k) else u)
    ensures Credit(FailOpen(t, k, env.words, env.now, env.first))
    ensures Credit(t.(insts := t.insts[k := t.insts[k].(conn := false)]))
  {
    hide Credit, ClientWrite, FailOpen, Bound;
    WordsKeep(t, k, env.words, env.first);
    WordsFrame(t, k, env.words, env.first);
    BoundKeeps(ClientWrite(t, k, env.words, false, env.first), k);
    FailOpenKeeps(t, k, env.words, env.now, env.first);
    UnseenKeeps(t, t.(insts := t.insts[k := t.insts[k].(conn := false)]), k);
  }

  /** Writing to a client changes nothing of an instance but its books. */
  lemma WordsFrame(s: State, k: Key, b: string, answers: seq<Answer>)
    requires k in s.insts
    ensures var t := ClientWrite(s, k, b, false, answers);
            && k in t.insts && SameButBooks(s.insts[k], t.insts[k])
            && t.sessions == s.sessions && t.regs == s.regs && t.reading == s.reading
  {
    hide Flush;
    if s.insts[k].cfd.Some? && b != "" {
      var fd := s.insts[k].cfd.value;
      var t := s.(outs := s.outs[fd := OutOf(s, fd).(q := OutOf(s, fd).q + [Chunk(Some(k), b, false)])]);
      FlushFrame(t, fd, answers);
      FlushSame(t, fd, answers, k);
    }
  }

  predicate SameButBooks(i: Instance, j: Instance) {
    j == i.(preacked := j.preacked, credit := j.credit, log := j.log) && j.log.heard == i.log.heard
  }

  lemma {:induction false} FlushFrame(s: State, fd: Fd, answers: seq<Answer>)
    ensures var t := Flush(s, fd, answers);
            && t.insts.Keys == s.insts.Keys
            && t.sessions == s.sessions && t.regs == s.regs && t.reading == s.reading && t.paused == s.paused
    decreases |answers|
  {
    hide Flush, Written, AccountRest, Taken, Forfeited;
    FlushOnce(s, fd, answers);
    if fd in s.outs && s.outs[fd].q != [] && answers != [] {
      var o := s.outs[fd];
      if answers[0].Dead? {
        DeadFrame(s, fd, answers);
      } else if answers[0].Wrote? {
        var n := Taken(o, answers[0].n);
        WrittenFrame(s, fd, n);
        FlushFrame(Written(s, fd, n), fd, answers[1..]);
      }
    }
  }

  lemma DeadFrame(s: State, fd: Fd, answers: seq<Answer>)
    requires fd in s.outs && s.outs[fd].q != [] && answers != [] && answers[0].Dead?
    ensures var t := Flush(s, fd, answers);
            && t.insts.Keys == s.insts.Keys
            && t.sessions == s.sessions && t.regs == s.regs && t.reading == s.reading && t.paused == s.paused
  {
    hide Flush, AccountRest, Forfeited;
    FlushOnce(s, fd, answers);
    ForfeitedLog(s, s.outs[fd].q);
    RestFrame(Forfeited(s, s.outs[fd].q), s.outs[fd].q, s.outs[fd].off);
  }

  lemma {:induction false} FlushSame(s: State, fd: Fd, answers: seq<Answer>, k: Key)
    requires k in s.insts
    ensures k in Flush(s, fd, answers).insts && SameButBooks(s.insts[k], Flush(s, fd, answers).insts[k])
    decreases |answers|
  {
    hide Flush, Written, AccountRest, Taken, Forfeited, SameButBooks, Flushed;
    FlushOnce(s, fd, answers);
    SameAgain(s.insts[k], s.insts[k], s.insts[k]);
    if fd in s.outs && s.outs[fd].q != [] && answers != [] {
      var o := s.outs[fd];
      if answers[0].Dead? {
        var f := Forfeited(s, o.q);
        var t := AccountRest(f, o.q, o.off);
        ForfeitedSame(s, o.q, k);
        RestSame(f, o.q, o.off, k);
        SameAgain(s.insts[k], f.insts[k], t.insts[k]);
        FlushedSame(t, fd);
      } else if answers[0].Wrote? {
        var n := Taken(o, answers[0].n);
        var t := Written(s, fd, n);
        WrittenSame(s, fd, n, k);
        FlushSame(t, fd, answers[1..], k);
        SameAgain(s.insts[k], t.insts[k], Flush(t, fd, answers[1..]).insts[k]);
      }
    }
    if fd in s.outs {
      FlushedSame(s, fd);
    }
  }

  lemma FlushedSame(s: State, fd: Fd)
    requires fd in s.outs
    ensures Flushed(s, fd).insts == s.insts
  {}

  lemma SameAgain(a: Instance, b: Instance, c: Instance)
    ensures SameButBooks(a, a)
    ensures SameButBooks(a, b) && SameButBooks(b, c) ==> SameButBooks(a, c)
  {}

  lemma WrittenFrame(s: State, fd: Fd, n: nat)
    requires fd in s.outs && s.outs[fd].q != []
    ensures var t := Written(s, fd, n);
            && t.insts.Keys == s.insts.Keys
            && t.sessions == s.sessions && t.regs == s.regs && t.reading == s.reading && t.paused == s.paused
  {
    hide AccountChunk, Handed, Advance, Piece;
    ChunkFrame(s, s.outs[fd].q[0], n);
    HandedLog(Moved(s, fd, n), s.outs[fd].q[0], Piece(s.outs[fd].q[0].data, s.outs[fd].off, n));
  }

  lemma WrittenSame(s: State, fd: Fd, n: nat, k: Key)
    requires fd in s.outs && s.outs[fd].q != [] && k in s.insts
    ensures k in Written(s, fd, n).insts && SameButBooks(s.insts[k], Written(s, fd, n).insts[k])
  {
    hide AccountChunk, Advance, Piece;
    ChunkSame(s, s.outs[fd].q[0], n, k);
  }

  lemma ForfeitedSame(s: State, q: seq<Chunk>, k: Key)
    requires k in s.insts
    ensures k in Forfeited(s, q).insts && SameButBooks(s.insts[k], Forfeited(s, q).insts[k])
  {
    hide Owners;
  }

  lemma ChunkSame(s: State, c: Chunk, n: nat, k: Key)
    ensures k in s.insts ==> k in AccountChunk(s, c, n).insts && SameButBooks(s.insts[k], AccountChunk(s, c, n).insts[k])
  {}

  lemma {:induction false} RestSame(s: State, q: seq<Chunk>, off: nat, k: Key)
    ensures k in s.insts ==> k in AccountRest(s, q, off).insts && SameButBooks(s.insts[k], AccountRest(s, q, off).insts[k])
    decreases |q|
  {
    hide AccountChunk;
    if q != [] {
      ChunkSame(s, q[0], Left(q[0], off), k);
      RestSame(AccountChunk(s, q[0], Left(q[0], off)), q[1..], 0, k);
    }
  }

  lemma BoundKeeps(s: State, k: Key)
    requires Credit(s) && k in s.insts && s.insts[k].conn && !s.insts[k].inbound
    ensures Credit(Bound(s, k))
  {
    hide Credit;
    var t := s.(insts := s.insts[k := s.insts[k].(open := true)]);
    UnseenKeeps(s, t, k);
    SameBooks(t, Bound(s, k));
  }

  /** What came with the handshake counts as acknowledged until it is used up. */
  lemma LeftoverKeeps(s: State, k: Key, rest: string, env: Env)
    requires Credit(s)
    requires k in s.insts ==> s.insts[k].down == 0 && s.insts[k].early == 0
    ensures Credit(Leftover(s, k, rest, env))
  {
    hide Credit, Data;
    if rest != "" && k in s.insts && s.insts[k].open {
      var t := s.(insts := s.insts[k := s.insts[k].(preacked := |rest|, early := |rest|)]);
      BalancedOf(s, k);
      RewriteKeeps(s, t, k);
      DataKeeps(t, k, rest, env.second);
    }
  }

  lemma LineFresh(s: State, k: Key, line: string, env: Env)
    requires Credit(s) && k in s.insts && k.session in s.sessions && !s.insts[k].open
    ensures var t := Line(s, k, line, env); k in t.insts ==> t.insts[k].down == 0 && t.insts[k].early == 0
  {
    hide Credit, CloseInstance, ClientWrite, Balanced;
    BalancedOf(s, k);
    FreshBooks(s.insts[k], Queued(s, k));
    var i := s.insts[k];
    if i.inbound {
      CloseGone(s.(insts := s.insts[k := i.(lbuf := "", reg := if line in META then i.reg else line)]), k, env.now);
    } else {
      OutboundFresh(s.(insts := s.insts[k := i.(lbuf := "")]), k, env);
    }
  }

  lemma OutboundFresh(t: State, k: Key, env: Env)
    requires k in t.insts && t.insts[k].down == 0 && t.insts[k].early == 0
    ensures var u := ClientWrite(t, k, env.words, false, env.first);
            k in u.insts && u.insts[k].down == 0 && u.insts[k].early == 0
    ensures k !in FailOpen(t, k, env.words, env.now, env.first).insts
  {
    hide CloseInstance, ClientWrite;
    var u := ClientWrite(t, k, env.words, false, env.first);
    WordsFrame(t, k, env.words, env.first);
    CloseGone(u, k, env.now);
    CloseGone(t, k, env.now);
  }

  lemma FreshBooks(i: Instance, queued: nat)
    requires Balanced(i, queued) && !i.open
    ensures i.down == 0 && i.early == 0
  {}

  lemma CloseGone(s: State, k: Key, now: nat)
    ensures k !in CloseInstance(s, k, now).insts
  {
    hide CountedBy, RegUses, InstUses;
  }

  lemma HandleDataKeeps(s: State, k: Key, b: string, env: Env)
    requires Credit(s) && k in s.insts && k.session in s.sessions && s.insts[k].conn
    ensures Credit(HandleData(s, k, b, env))
  {
    hide Credit, CloseInstance, Data, Line, Leftover;
    if s.insts[k].open {
      DataKeeps(s, k, b, env.second);
    } else {
      var all := s.insts[k].lbuf + b;
      var nl := Newline(all);
      if nl == |all| {
        CloseInstanceKeeps(s, k, env.now);
        UnseenKeeps(s, s.(insts := s.insts[k := s.insts[k].(lbuf := all)]), k);
      } else {
        LineKeeps(s, k, all[..nl], env);
        LineFresh(s, k, all[..nl], env);
        LeftoverKeeps(Line(s, k, all[..nl], env), k, all[nl + 1..], env);
      }
    }
  }

  lemma TunnelDataKeeps(s: State, k: Key, b: string, env: Env)
    requires Credit(s)
    ensures Credit(TunnelData(s, k, b, env))
  {
    hide Credit, HandleData, Hear, LogOnly;
    if k in s.insts && k.session in s.sessions && s.insts[k].conn {
      HearLog(s, k, b);
      LogKeeps(s, Hear(s, k, b));
      Heard(s, k, b);
      HandleDataKeeps(Hear(s, k, b), k, b, env);
    }
  }

  // ---- the other methods ----

  lemma RegisterKeeps(s: State, r: Name, limit: nat, owner: Option<Fd>)
    requires Credit(s) && r.session in s.sessions
    ensures Credit(Register(s, r, limit, owner))
  {
    if r !in s.regs {
      RegisterFrame(s, r, limit, owner);
      NumbersKeep(s, Register(s, r, limit, owner));
    }
  }

  /** The books are about instances and queues; numbers only grow. */
  lemma NumbersKeep(s: State, t: State)
    requires Credit(s) && t.insts == s.insts && t.outs == s.outs && forall k :: Known(s, k) ==> Known(t, k)
    ensures Credit(t)
  {
    hide Balanced, Owed, ValidOut, Known;
    assert forall k :: k in s.insts ==> Queued(t, k) == Queued(s, k);
    forall f | f in t.outs
      ensures TaggedOut(t, f, t.outs[f].q)
    {
      KnownTags(s, t, f, t.outs[f].q);
    }
  }

  lemma KnownTags(s: State, t: State, fd: Fd, q: seq<Chunk>)
    requires TaggedOut(s, fd, q) && forall k :: Known(s, k) ==> Known(t, k)
    requires forall k :: k in t.insts && Known(s, k) ==> k in s.insts && t.insts[k].cfd == s.insts[k].cfd
    ensures TaggedOut(t, fd, q)
  {
    forall i | 0 <= i < |q|
      ensures Tagged(t, fd, q[i])
    {
      assert Tagged(s, fd, q[i]);
    }
  }

  /** A new instance has no books yet, and nothing queued for it. */
  lemma AddKeeps(s: State, session: nat, i: Instance)
    requires Credit(s) && session in s.sessions && !i.open && Balanced(i, 0) && i.preacked == 0
    requires i.cfd.Some? ==> i.cfd.value !in s.outs
    ensures Credit(AddInstance(s, session, i)) && NewId(s, session) !in s.insts
  {
    hide Balanced, Owed, ValidOut;
    var t := AddInstance(s, session, i);
    var k := NewId(s, session);
    assert !Known(s, k);
    assert forall x :: Known(s, x) ==> Known(t, x) && x != k;
    assert forall x :: x in s.insts ==> Queued(t, x) == Queued(s, x);
    assert Queued(t, k) == 0;
    forall f | f in t.outs
      ensures TaggedOut(t, f, t.outs[f].q)
    {
      KnownTags(s, t, f, t.outs[f].q);
    }
  }

  lemma OpenKeeps(s: State, session: nat, cfd: Option<Fd>, wait: bool)
    requires Credit(s) && session in s.sessions && (cfd.Some? ==> cfd.value !in s.outs)
    ensures Credit(Open(s, session, cfd, wait)) && NewId(s, session) !in s.insts
  {
    hide Credit;
    var i := Instance(false, wait, false, false, "", "", 0, cfd, cfd.Some?, 0, 0, 0, 0, NO_LOG);
    AddKeeps(s, session, i);
    SameBooks(AddInstance(s, session, i), Open(s, session, cfd, wait));
  }

  lemma TunnelGoneKeeps(s: State, k: Key, now: nat)
    requires Credit(s)
    ensures Credit(TunnelGone(s, k, now))
  {
    hide Credit, CloseInstance;
    CloseInstanceKeeps(s, k, now);
    if k in s.insts && !s.insts[k].inbound && !s.insts[k].open {
      UnseenKeeps(s, TunnelGone(s, k, now), k);
    }
  }

  lemma DialledKeeps(s: State, k: Key, conn: bool)
    requires Credit(s)
    ensures Credit(Dialled(s, k, conn))
  {
    hide Credit;
    if k in s.insts && !s.insts[k].inbound && !s.insts[k].open {
      UnseenKeeps(s, Dialled(s, k, conn), k);
    }
  }

  lemma OwnerReadableKeeps(s: State, fd: Fd, outcome: Outcome, room: set<Key>, users: seq<Key>, now: nat)
    requires Credit(s)
    ensures Credit(OwnerReadable(s, fd, outcome, room, users, now))
  {
    hide Credit, CloseAll, Unregister, CanRead;
    if fd in s.reading && s.reading[fd].Owner? {
      var w := s.reading[fd];
      if outcome.Ended? {
        var t := s.(paused := s.paused - {fd});
        SameBooks(s, t);
        UnregisterKeeps(t, w.reg, now);
        CloseAllKeeps(if w.reg in t.regs && t.regs[w.reg].serial == w.serial then Unregister(t, w.reg, now) else t, users, now);
      } else {
        SameBooks(s, OwnerReadable(s, fd, outcome, room, users, now));
      }
    }
  }

  lemma ClientReadableKeeps(s: State, fd: Fd, outcome: Outcome, room: set<Key>, now: nat)
    requires Credit(s)
    ensures Credit(ClientReadable(s, fd, outcome, room, now))
  {
    hide Credit, CloseInstance;
    SameBooks(s, s.(reading := s.reading - {fd}, writing := s.writing - {fd}));
    if fd in s.reading && s.reading[fd].Client? {
      CloseInstanceKeeps(s, s.reading[fd].key, now);
    }
  }

  /** Giving up on a client loses nothing: no live instance is on a draining socket. */
  lemma GiveUpKeeps(s: State, fd: Fd, now: nat)
    requires Credit(s)
    requires fd in s.outs && s.outs[fd].closing ==> forall k :: k in s.insts ==> s.insts[k].cfd != Some(fd)
    ensures Credit(GiveUp(s, fd, now))
  {
    hide Credit;
    if fd in s.outs && s.outs[fd].closing {
      QueuesKeep(s, s.(outs := s.outs - {fd}), fd);
      if now >= s.outs[fd].giveUp {
        SameBooks(s.(outs := s.outs - {fd}), GiveUp(s, fd, now));
      }
    }
  }

  lemma {:induction false} RetireKeeps(s: State, session: nat, serials: seq<nat>, now: nat)
    requires Credit(s)
    ensures Credit(Retire(s, session, serials, now))
    decreases |serials|
  {
    hide Credit, Unregister;
    if serials != [] {
      if exists r :: Serves(s, session, serials[0], r) {
        var r :| Serves(s, session, serials[0], r) && Retire(s, session, serials, now) == Retire(Unregister(s, r, now), session, serials[1..], now);
        UnregisterKeeps(s, r, now);
        RetireKeeps(Unregister(s, r, now), session, serials[1..], now);
      } else {
        RetireKeeps(s, session, serials[1..], now);
      }
    }
  }

  lemma {:induction false} OwnersKeep(s: State, names: seq<Name>, now: nat)
    requires Credit(s)
    ensures Credit(CloseOwners(s, names, now))
    decreases |names|
  {
    hide Credit, CloseClient;
    if names != [] {
      var closes := names[0] in s.regs && s.regs[names[0]].owner.Some?;
      if closes {
        CloseClientKeeps(s, s.regs[names[0]].owner.value, now);
        OwnersKeep(CloseClient(s, s.regs[names[0]].owner.value, now), names[1..], now);
      } else {
        OwnersKeep(s, names[1..], now);
      }
    }
  }

  /** Unlinking a session's chunks owes nobody else less. */
  lemma {:induction false} UnlinkedOwes(q: seq<Chunk>, off: nat, session: nat, k: Key)
    requires k.session != session
    ensures Owed(Unlinked(q, session), off, k) == Owed(q, off, k)
    decreases |q|
  {
    if q != [] {
      assert Unlinked(q, session)[1..] == Unlinked(q[1..], session);
      UnlinkedOwes(q[1..], 0, session, k);
    }
  }

  lemma SessionGone(s: State, t: State, session: nat)
    requires Credit(s) && t.insts == s.insts && t.sessions == s.sessions - {session}
    requires t.outs == map fd | fd in s.outs :: s.outs[fd].(q := Unlinked(s.outs[fd].q, session))
    requires forall k :: k in s.insts ==> k.session != session
    ensures Credit(t)
  {
    hide Balanced, Owed, Unlinked;
    forall k | k in t.insts
      ensures Known(t, k) && Balanced(t.insts[k], Queued(t, k))
    {
      var fd := s.insts[k].cfd;
      if fd.Some? && fd.value in s.outs {
        UnlinkedOwes(s.outs[fd.value].q, s.outs[fd.value].off, session, k);
      }
      assert Queued(t, k) == Queued(s, k);
    }
    forall f | f in t.outs
      ensures ValidOut(t.outs[f]) && TaggedOut(t, f, t.outs[f].q)
    {
      UnlinkedTags(s, t, session, f);
    }
  }

  lemma UnlinkedTags(s: State, t: State, session: nat, f: Fd)
    requires Credit(s) && f in s.outs && f in t.outs && t.insts == s.insts && t.sessions == s.sessions - {session}
    requires t.outs[f] == s.outs[f].(q := Unlinked(s.outs[f].q, session))
    ensures ValidOut(t.outs[f]) && TaggedOut(t, f, t.outs[f].q)
  {
    hide Balanced, Owed;
    assert ValidOut(s.outs[f]) && TaggedOut(s, f, s.outs[f].q);
    forall i | 0 <= i < |t.outs[f].q|
      ensures Tagged(t, f, t.outs[f].q[i])
    {
      assert Tagged(s, f, s.outs[f].q[i]);
    }
  }
}

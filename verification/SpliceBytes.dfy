/** Which bytes reach a client (src/peer/daemon.cpp:480-600, 779-824): for every instance on
    a client socket, what its client has taken and what is still queued for it are, in
    order, the bytes of its connection behind the first newline, until the client dies. */
module SpliceBytes {
  import opened Wrappers
  import opened Splice
  import C = SpliceCredit
  import F = SpliceSockets
  import P = SplicePolling
  import R = SpliceRuns

  // ---- what is queued for an instance ----

  function Rest(c: Chunk, off: nat): string {
    if off <= |c.data| then c.data[off..] else ""
  }

  predicate Mine(c: Chunk, k: Key) {
    c.to == Some(k) && c.accounted
  }

  /** The bytes in a queue that count for an instance. */
  function BytesFor(q: seq<Chunk>, off: nat, k: Key): string
    decreases |q|
  {
    if q == [] then "" else (if Mine(q[0], k) then Rest(q[0], off) else "") + BytesFor(q[1..], 0, k)
  }

  function BytesAt(s: State, fd: Fd, k: Key): string {
    if fd in s.outs then BytesFor(s.outs[fd].q, s.outs[fd].off, k) else ""
  }

  function Pending(s: State, k: Key): string
    requires k in s.insts
  {
    var fd := s.insts[k].cfd;
    if fd.Some? then BytesAt(s, fd.value, k) else ""
  }

  /** What the client of an instance has taken, and what it is still to be given. */
  function Given(s: State, k: Key): string
    requires k in s.insts
  {
    s.insts[k].log.taken + Pending(s, k)
  }

  lemma {:induction false} BytesSnoc(q: seq<Chunk>, off: nat, c: Chunk, k: Key)
    requires q == [] ==> off == 0
    ensures BytesFor(q + [c], off, k) == BytesFor(q, off, k) + if Mine(c, k) then c.data else ""
    decreases |q|
  {
    if q == [] {
      assert q + [c] == [c] && [c][1..] == [];
      assert c.data + "" == c.data;
    } else {
      assert (q + [c])[0] == q[0] && (q + [c])[1..] == q[1..] + [c];
      BytesSnoc(q[1..], 0, c, k);
    }
  }

  /** A write takes its bytes from the front. */
  lemma BytesAdvance(o: Out, n: nat, k: Key)
    requires o.q != [] && o.off + n <= |o.q[0].data|
    ensures BytesFor(o.q, o.off, k) ==
              (if Mine(o.q[0], k) then Piece(o.q[0].data, o.off, n) else "") + BytesFor(Advance(o, n).q, Advance(o, n).off, k)
  {
    var d := o.q[0].data;
    assert d[o.off..] == d[o.off..o.off + n] + d[o.off + n..];
    if o.off + n == |d| {
      assert d[o.off + n..] == "";
      assert Advance(o, n).q == o.q[1..];
    } else {
      assert Advance(o, n).q == o.q && Advance(o, n).off == o.off + n;
    }
  }

  /** Nothing counts for an instance without a chunk of its own. */
  lemma {:induction false} NotMine(q: seq<Chunk>, off: nat, k: Key)
    requires forall i :: 0 <= i < |q| ==> !Mine(q[i], k)
    ensures BytesFor(q, off, k) == ""
    decreases |q|
  {
    if q != [] {
      assert forall i :: 0 <= i < |q[1..]| ==> q[1..][i] == q[i + 1];
      NotMine(q[1..], 0, k);
    }
  }

  lemma {:induction false} SomeMine(q: seq<Chunk>, off: nat, k: Key, i: nat)
    requires i < |q| && Mine(q[i], k) && (off < |q[0].data|) && forall j :: 0 <= j < |q| ==> q[j].data != ""
    ensures BytesFor(q, off, k) != ""
    decreases |q|
  {
    if i > 0 {
      assert forall j :: 0 <= j < |q[1..]| ==> q[1..][j] == q[j + 1];
      SomeMine(q[1..], 0, k, i - 1);
    }
  }

  // ---- one operation and one instance ----

  /** Nothing of the handshake changes. */
  predicate SameShape(i: Instance, j: Instance) {
    && j.inbound == i.inbound && j.open == i.open && j.lbuf == i.lbuf && j.conn == i.conn && j.cfd == i.cfd
    && j.log.heard == i.log.heard
  }

  /** The client is given the same as before, unless it dies with some of that queued. */
  ghost predicate Flows(s: State, t: State, k: Key, death: bool) {
    k in t.insts ==>
      && k in s.insts && SameShape(s.insts[k], t.insts[k])
      && (s.insts[k].log.lost ==> t.insts[k].log.lost)
      && (t.insts[k].log.lost ==> s.insts[k].log.lost || (death && Given(s, k) != ""))
      && (!t.insts[k].log.lost ==> Given(t, k) == Given(s, k))
  }

  /** The client is given so much more. */
  ghost predicate Gains(s: State, t: State, k: Key, b: string, death: bool) {
    && k in s.insts && k in t.insts && SameShape(s.insts[k], t.insts[k])
    && (s.insts[k].log.lost ==> t.insts[k].log.lost)
    && (t.insts[k].log.lost ==> s.insts[k].log.lost || death)
    && (!t.insts[k].log.lost && s.insts[k].cfd.Some? ==> Given(t, k) == Given(s, k) + b)
  }

  lemma FlowsThen(s: State, t: State, u: State, k: Key, death: bool)
    requires Flows(s, t, k, death) && Flows(t, u, k, death)
    ensures Flows(s, u, k, death)
  {
    hide Given;
  }

  /** The same log, and the same bytes queued. */
  lemma StillFlows(s: State, t: State, k: Key, death: bool)
    requires k in t.insts ==>
               && k in s.insts && SameShape(s.insts[k], t.insts[k]) && t.insts[k].log == s.insts[k].log
               && (s.insts[k].cfd.Some? ==> BytesAt(t, s.insts[k].cfd.value, k) == BytesAt(s, s.insts[k].cfd.value, k))
    ensures Flows(s, t, k, death)
  {
    hide BytesAt;
  }

  /** Only instances go, and queues stay. */
  lemma FewerFlows(s: State, t: State, k: Key, death: bool)
    requires k in t.insts ==> k in s.insts && t.insts[k] == s.insts[k]
    requires t.outs == s.outs
    ensures Flows(s, t, k, death)
  {
    StillFlows(s, t, k, death);
  }

  // ---- writing ----

  lemma ChargedShape(i: Instance, n: nat)
    ensures SameShape(i, Charged(i, n)) && Charged(i, n).log == i.log
  {}

  lemma ChunkFlows(s: State, c: Chunk, n: nat, k: Key, death: bool)
    ensures Flows(s, AccountChunk(s, c, n), k, death)
  {
    hide Charged, SameShape;
    if k in s.insts {
      ChargedShape(s.insts[k], n);
      ShapeSelf(s.insts[k]);
    }
    StillFlows(s, AccountChunk(s, c, n), k, death);
  }

  lemma ShapeSelf(i: Instance)
    ensures SameShape(i, i)
  {}

  lemma {:induction false} RestFlows(s: State, q: seq<Chunk>, off: nat, k: Key, death: bool)
    ensures Flows(s, AccountRest(s, q, off), k, death)
    decreases |q|
  {
    hide AccountChunk, Flows;
    if q == [] {
      SelfFlows(s, k, death);
    } else {
      var t := AccountChunk(s, q[0], Left(q[0], off));
      ChunkFlows(s, q[0], Left(q[0], off), k, death);
      RestFlows(t, q[1..], 0, k, death);
      FlowsThen(s, t, AccountRest(t, q[1..], 0), k, death);
    }
  }

  lemma SelfFlows(s: State, k: Key, death: bool)
    ensures Flows(s, s, k, death)
  {}

  /** A chunk that counts for a live instance is on that instance's socket. */
  lemma MineHere(s: State, fd: Fd, i: nat, k: Key)
    requires C.Credit(s) && fd in s.outs && i < |s.outs[fd].q| && Mine(s.outs[fd].q[i], k) && k in s.insts
    ensures s.insts[k].cfd == Some(fd)
  {
    hide C.Balanced, C.ValidOut;
    assert C.Tagged(s, fd, s.outs[fd].q[i]);
  }

  lemma ChunkShape(s: State, c: Chunk, n: nat, k: Key)
    requires k in s.insts
    ensures var t := AccountChunk(s, c, n);
            k in t.insts && SameShape(s.insts[k], t.insts[k]) && t.insts[k].log == s.insts[k].log && t.outs == s.outs
  {
    hide Charged, SameShape;
    ChargedShape(s.insts[k], n);
    ShapeSelf(s.insts[k]);
  }

  /** The client has taken a piece, and just that is gone from the queue. */
  lemma TakenFlows(s: State, t: State, k: Key, death: bool, fd: Fd, piece: string)
    requires k in s.insts && k in t.insts && SameShape(s.insts[k], t.insts[k])
    requires t.insts[k].log == s.insts[k].log.(taken := s.insts[k].log.taken + piece)
    requires s.insts[k].cfd == Some(fd) ==> BytesAt(s, fd, k) == piece + BytesAt(t, fd, k)
    requires s.insts[k].cfd != Some(fd) ==> piece == "" && t.outs - {fd} == s.outs - {fd}
    ensures Flows(s, t, k, death)
  {
    if s.insts[k].cfd == Some(fd) {
      hide BytesAt;
      TakenMoves(s.insts[k].log.taken, piece, BytesAt(t, fd, k));
    } else {
      assert s.insts[k].log.taken + "" == s.insts[k].log.taken;
      if s.insts[k].cfd.Some? {
        F.OffByMap(s.outs, t.outs, fd, s.insts[k].cfd.value);
      }
    }
  }

  /** One write moves bytes from the queue to the client. */
  lemma WrittenFlows(s: State, fd: Fd, n: nat, k: Key, death: bool)
    requires C.Credit(s) && fd in s.outs && s.outs[fd].q != [] && n <= Left(s.outs[fd].q[0], s.outs[fd].off)
    ensures Flows(s, Written(s, fd, n), k, death)
  {
    hide AccountChunk, Handed, Advance, Piece, C.Credit, BytesFor, SameShape, Flows;
    var o, t := s.outs[fd], Written(s, fd, n);
    var piece := Piece(o.q[0].data, o.off, n);
    C.WrittenFrame(s, fd, n);
    if k in s.insts {
      ValidFirst(s, fd);
      BytesAdvance(o, n, k);
      ChunkShape(s, o.q[0], n, k);
      HandedOne(Moved(s, fd, n), o.q[0], piece, k);
      LogShape(s.insts[k], Moved(s, fd, n).insts[k], t.insts[k]);
      if Mine(o.q[0], k) {
        MineHere(s, fd, 0, k);
      }
      assert t.outs == s.outs[fd := Advance(o, n)];
      F.UpdatedOff(s.outs, fd, Advance(o, n));
      TakenFlows(s, t, k, death, fd, if Mine(o.q[0], k) then piece else "");
    } else {
      NobodyFlows(s, t, k, death);
    }
  }

  lemma NobodyFlows(s: State, t: State, k: Key, death: bool)
    requires k !in t.insts
    ensures Flows(s, t, k, death)
  {}

  lemma LogShape(i: Instance, j: Instance, l: Instance)
    requires SameShape(i, j) && l == j.(log := l.log) && l.log.heard == j.log.heard
    ensures SameShape(i, l)
  {}

  lemma TakenMoves(a: string, b: string, c: string)
    ensures a + b + c == a + (b + c)
  {}

  lemma ValidFirst(s: State, fd: Fd)
    requires C.Credit(s) && fd in s.outs && s.outs[fd].q != []
    ensures s.outs[fd].off < |s.outs[fd].q[0].data|
    ensures forall i :: 0 <= i < |s.outs[fd].q| ==> s.outs[fd].q[i].data != ""
  {
    assert C.ValidOut(s.outs[fd]);
  }

  lemma HandedOne(m: State, c: Chunk, b: string, k: Key)
    requires k in m.insts
    ensures var t := Handed(m, c, b);
            && t.outs == m.outs && k in t.insts
            && t.insts[k] == m.insts[k].(log := m.insts[k].log.(taken := m.insts[k].log.taken + if Mine(c, k) then b else ""))
  {
    assert m.insts[k].log.taken + "" == m.insts[k].log.taken;
  }

  /** A client dies: whoever had bytes queued for it loses them. */
  lemma DeadFlows(s: State, fd: Fd, answers: seq<Answer>, k: Key)
    requires C.Credit(s) && fd in s.outs && s.outs[fd].q != [] && answers != [] && answers[0].Dead?
    ensures Flows(s, Flush(s, fd, answers), k, true)
  {
    hide C.Credit, AccountRest, BytesFor, SameShape, Forfeited, Flush, Owners, Given;
    FlushOnce(s, fd, answers);
    var o := s.outs[fd];
    var f := Forfeited(s, o.q);
    var t := AccountRest(f, o.q, o.off);
    RestFlows(f, o.q, o.off, k, true);
    if k in s.insts {
      ForfeitedOne(s, o.q, k);
      var u := Flush(s, fd, answers);
      if k in Owners(o.q) {
        OwnerHere(s, fd, k);
        LostFlows(s, f, t, u, k);
      } else {
        NotOwner(o.q, o.off, k);
        KeptFlows(s, f, t, u, fd, k);
      }
    } else {
      C.RestFrame(f, o.q, o.off);
      ForfeitedLog(s, o.q);
    }
  }

  lemma OwnerHere(s: State, fd: Fd, k: Key)
    requires C.Credit(s) && fd in s.outs && k in s.insts && k in Owners(s.outs[fd].q)
    ensures s.insts[k].cfd == Some(fd) && Given(s, k) != ""
  {
    hide C.Credit;
    var o := s.outs[fd];
    var i :| 0 <= i < |o.q| && Mine(o.q[i], k);
    MineHere(s, fd, i, k);
    ValidFirst(s, fd);
    SomeMine(o.q, o.off, k, i);
  }

  lemma NotOwner(q: seq<Chunk>, off: nat, k: Key)
    requires k !in Owners(q)
    ensures BytesFor(q, off, k) == ""
  {
    forall i | 0 <= i < |q|
      ensures !Mine(q[i], k)
    {
      OwnerIs(q, i, k);
    }
    NotMine(q, off, k);
  }

  lemma OwnerIs(q: seq<Chunk>, i: nat, k: Key)
    requires i < |q|
    ensures Mine(q[i], k) ==> k in Owners(q)
  {
    if Mine(q[i], k) {
      assert q[i].to.value == k;
    }
  }

  lemma LostFlows(s: State, f: State, t: State, u: State, k: Key)
    requires k in s.insts && k in f.insts && SameShape(s.insts[k], f.insts[k]) && f.insts[k].log.lost
    requires Flows(f, t, k, true) && u.insts == t.insts && Given(s, k) != ""
    ensures Flows(s, u, k, true)
  {
    hide Given;
  }

  lemma KeptFlows(s: State, f: State, t: State, u: State, fd: Fd, k: Key)
    requires k in s.insts && k in f.insts && SameShape(s.insts[k], f.insts[k]) && f.insts[k].log == s.insts[k].log
    requires f.outs == s.outs && Flows(f, t, k, true) && u.insts == t.insts && t.outs == s.outs && u.outs == s.outs - {fd}
    requires BytesAt(s, fd, k) == ""
    ensures Flows(s, u, k, true)
  {
    hide BytesFor;
    assert fd !in u.outs;
  }

  lemma ForfeitedOne(s: State, q: seq<Chunk>, k: Key)
    requires k in s.insts
    ensures var t := Forfeited(s, q);
            && k in t.insts && SameShape(s.insts[k], t.insts[k]) && t.outs == s.outs
            && t.insts[k].log == s.insts[k].log.(lost := s.insts[k].log.lost || k in Owners(q))
  {
    hide Owners;
  }

  predicate DeadIn(answers: seq<Answer>) {
    exists i :: 0 <= i < |answers| && answers[i].Dead?
  }

  lemma {:induction false} FlushFlows(s: State, fd: Fd, answers: seq<Answer>, k: Key, death: bool)
    requires C.Credit(s) && (DeadIn(answers) ==> death)
    ensures Flows(s, Flush(s, fd, answers), k, death)
    decreases |answers|
  {
    hide C.Credit, Flush, Flows, AccountRest, Written, Flushed, Forfeited;
    FlushOnce(s, fd, answers);
    SelfFlows(s, k, death);
    if fd in s.outs {
      var o := s.outs[fd];
      if o.q == [] {
        EmptyFlows(s, fd, k, death);
      } else if answers == [] || answers[0].Again? {
        WaitsFlows(s, fd, k, death);
      } else if answers[0].Dead? {
        assert DeadIn(answers);
        DeadFlows(s, fd, answers, k);
      } else {
        var n := Taken(o, answers[0].n);
        C.LeftSome(s, fd);
        C.WriteKeeps(s, fd, n);
        WrittenFlows(s, fd, n, k, death);
        assert DeadIn(answers[1..]) ==> DeadIn(answers) by {
          assert forall i :: 0 <= i < |answers[1..]| ==> answers[1..][i] == answers[i + 1];
        }
        FlushFlows(Written(s, fd, n), fd, answers[1..], k, death);
        FlowsThen(s, Written(s, fd, n), Flush(Written(s, fd, n), fd, answers[1..]), k, death);
      }
    }
  }

  lemma EmptyFlows(s: State, fd: Fd, k: Key, death: bool)
    requires fd in s.outs && s.outs[fd].q == []
    ensures Flows(s, Flushed(s, fd), k, death)
  {
    StillFlows(s, Flushed(s, fd), k, death);
  }

  lemma WaitsFlows(s: State, fd: Fd, k: Key, death: bool)
    ensures Flows(s, s.(writing := s.writing + {fd}), k, death)
  {
    FewerFlows(s, s.(writing := s.writing + {fd}), k, death);
  }

  /** Words of the daemon's own do not count for anybody. */
  lemma WordsFlow(s: State, k0: Key, b: string, answers: seq<Answer>, k: Key, death: bool)
    requires C.Credit(s) && (DeadIn(answers) ==> death)
    ensures Flows(s, ClientWrite(s, k0, b, false, answers), k, death)
  {
    hide C.Credit, Flush, Flows;
    SelfFlows(s, k, death);
    if k0 in s.insts && s.insts[k0].cfd.Some? && b != "" {
      var fd := s.insts[k0].cfd.value;
      var o := C.OutOf(s, fd);
      if !o.closing {
        var c := Chunk(Some(k0), b, false);
        var t := s.(outs := s.outs[fd := o.(q := o.q + [c])]);
        assert t.insts == s.insts[k0 := s.insts[k0].(down := s.insts[k0].down + 0)];
        C.PushKeeps(s, t, k0, fd, c);
        PushedFlows(s, t, fd, c, k, death);
        FlushFlows(t, fd, answers, k, death);
        FlowsThen(s, t, Flush(t, fd, answers), k, death);
      }
    }
  }

  /** A chunk is queued that does not count for the instance. */
  lemma PushedFlows(s: State, t: State, fd: Fd, c: Chunk, k: Key, death: bool)
    requires C.Credit(s) && t.outs == s.outs[fd := C.OutOf(s, fd).(q := C.OutOf(s, fd).q + [c])] && !Mine(c, k)
    requires k in t.insts ==> k in s.insts && SameShape(s.insts[k], t.insts[k]) && t.insts[k].log == s.insts[k].log
    ensures Flows(s, t, k, death)
  {
    hide C.Credit;
    PushedBytes(s, t, fd, c, k);
    assert k in t.insts && s.insts[k].cfd.Some? ==> BytesAt(t, s.insts[k].cfd.value, k) == BytesAt(s, s.insts[k].cfd.value, k);
    StillFlows(s, t, k, death);
  }

  lemma PushedBytes(s: State, t: State, fd: Fd, c: Chunk, k: Key)
    requires C.Credit(s) && t.outs == s.outs[fd := C.OutOf(s, fd).(q := C.OutOf(s, fd).q + [c])]
    ensures BytesAt(t, fd, k) == BytesAt(s, fd, k) + if Mine(c, k) then c.data else ""
    ensures forall f :: f != fd ==> BytesAt(t, f, k) == BytesAt(s, f, k)
  {
    var o := C.OutOf(s, fd);
    assert fd in s.outs ==> C.ValidOut(s.outs[fd]);
    BytesSnoc(o.q, o.off, c, k);
    hide C.Credit;
  }

  /** Data for an open instance is added to what its client is given, and to nobody else's. */
  lemma DataFlows(s: State, k0: Key, b: string, answers: seq<Answer>, k: Key, death: bool)
    requires C.Credit(s) && F.Sockets(s) && k0 in s.insts && s.insts[k0].open && (DeadIn(answers) ==> death)
    ensures var t := Data(s, k0, b, answers);
            if k == k0 then Gains(s, t, k, b, death) else Flows(s, t, k, death)
  {
    hide C.Credit, F.Sockets, Flush, C.Balanced, Given, Flows, SameShape;
    var i := s.insts[k0];
    var j := i.(down := i.down + |b|);
    MoreDown(i, |b|);
    C.BalancedOf(s, k0);
    C.HandedOn(i, C.Queued(s, k0), |b|);
    if i.cfd.None? || b == "" {
      var t := s.(insts := s.insts[k0 := j]);
      DownFlows(s, t, k0, k, b, death);
    } else {
      var fd := i.cfd.value;
      var o := C.OutOf(s, fd);
      F.NotDraining(s, k0);
      var c := Chunk(Some(k0), b, true);
      var u := s.(insts := s.insts[k0 := j], outs := s.outs[fd := o.(q := o.q + [c])]);
      C.PushKeeps(s, u, k0, fd, c);
      FlushFlows(u, fd, answers, k, death);
      var t := Flush(u, fd, answers);
      assert t == Data(s, k0, b, answers);
      if k == k0 {
        PushedBytes(s, u, fd, c, k);
        C.FlushFrame(u, fd, answers);
        PushedGains(s, u, t, k, b, death);
      } else {
        ShapeSelf(if k in s.insts then s.insts[k] else i);
        PushedFlows(s, u, fd, c, k, death);
        FlowsThen(s, u, t, k, death);
      }
    }
  }

  lemma MoreDown(i: Instance, n: nat)
    ensures var j := i.(down := i.down + n); SameShape(i, j) && j.log == i.log && j.cfd == i.cfd
  {}

  /** Nothing is queued: the bytes go to a local end, or there are none. */
  lemma DownFlows(s: State, t: State, k0: Key, k: Key, b: string, death: bool)
    requires k0 in s.insts && k0 in t.insts && t == s.(insts := s.insts[k0 := t.insts[k0]]) && (s.insts[k0].cfd.None? || b == "")
    requires SameShape(s.insts[k0], t.insts[k0]) && t.insts[k0].log == s.insts[k0].log
    ensures if k == k0 then Gains(s, t, k, b, death) else Flows(s, t, k, death)
  {
    if k == k0 && b == "" {
      assert Given(s, k) + b == Given(s, k);
    }
  }

  lemma PushedGains(s: State, u: State, t: State, k: Key, b: string, death: bool)
    requires k in s.insts && k in u.insts && k in t.insts && s.insts[k].cfd.Some?
    requires SameShape(s.insts[k], u.insts[k]) && u.insts[k].log == s.insts[k].log && Flows(u, t, k, death)
    requires BytesAt(u, s.insts[k].cfd.value, k) == BytesAt(s, s.insts[k].cfd.value, k) + b
    ensures Gains(s, t, k, b, death)
  {
    hide BytesAt;
    assert s.insts[k].log.taken + (Pending(s, k) + b) == s.insts[k].log.taken + Pending(s, k) + b;
  }

  // ---- closing ----

  lemma CloseClientFlows(s: State, fd: Fd, now: nat, k: Key, death: bool)
    ensures Flows(s, CloseClient(s, fd, now), k, death)
  {
    StillFlows(s, CloseClient(s, fd, now), k, death);
  }

  lemma ReleaseFlows(s: State, session: nat, fd: Fd, now: nat, k: Key, death: bool)
    ensures Flows(s, Release(s, session, fd, now), k, death)
  {
    hide CloseClient, Flows;
    SelfFlows(s, k, death);
    var t := s.(reading := s.reading - {fd});
    FewerFlows(s, t, k, death);
    CloseClientFlows(t, fd, now, k, death);
    FlowsThen(s, t, CloseClient(t, fd, now), k, death);
  }

  lemma UnregisterFlows(s: State, r: Name, now: nat, k: Key, death: bool)
    ensures Flows(s, Unregister(s, r, now), k, death)
  {
    hide Release, Flows;
    SelfFlows(s, k, death);
    if r in s.regs {
      var t := s.(regs := s.regs - {r});
      FewerFlows(s, t, k, death);
      if s.regs[r].owner.Some? {
        ReleaseFlows(t, r.session, s.regs[r].owner.value, now, k, death);
        FlowsThen(s, t, Release(t, r.session, s.regs[r].owner.value, now), k, death);
      }
    }
  }

  lemma LeavingFlows(s: State, k0: Key, k: Key, death: bool)
    ensures var t := Counted(s, k0);
            Flows(s, t.(insts := t.insts - {k0}), k, death)
  {
    var t := Counted(s, k0);
    FewerFlows(s, t.(insts := t.insts - {k0}), k, death);
  }

  lemma CloseInstanceFlows(s: State, k0: Key, now: nat, k: Key, death: bool)
    ensures Flows(s, CloseInstance(s, k0, now), k, death)
  {
    hide CloseClient, Release, Counted, Flows;
    SelfFlows(s, k, death);
    if k0 in s.insts {
      var i := s.insts[k0];
      var fd := if i.cfd.Some? then i.cfd.value else 0;
      CloseClientFlows(s, fd, now, k, death);
      var t := if i.cfd.Some? && i.owned then CloseClient(s, fd, now) else s;
      var v := Counted(t, k0).(insts := Counted(t, k0).insts - {k0});
      LeavingFlows(t, k0, k, death);
      FlowsThen(s, t, v, k, death);
      ReleaseFlows(v, k0.session, fd, now, k, death);
      FlowsThen(s, v, Release(v, k0.session, fd, now), k, death);
    }
  }

  lemma {:induction false} CloseAllFlows(s: State, ks: seq<Key>, now: nat, k: Key, death: bool)
    ensures Flows(s, CloseAll(s, ks, now), k, death)
    decreases |ks|
  {
    hide CloseInstance, Flows;
    SelfFlows(s, k, death);
    if ks != [] {
      var t := CloseInstance(s, ks[0], now);
      CloseInstanceFlows(s, ks[0], now, k, death);
      CloseAllFlows(t, ks[1..], now, k, death);
      FlowsThen(s, t, CloseAll(t, ks[1..], now), k, death);
    }
  }

  lemma {:induction false} CloseOwnersFlows(s: State, names: seq<Name>, now: nat, k: Key, death: bool)
    ensures Flows(s, CloseOwners(s, names, now), k, death)
    decreases |names|
  {
    hide CloseClient, Flows;
    SelfFlows(s, k, death);
    if names != [] {
      var fd := if names[0] in s.regs && s.regs[names[0]].owner.Some? then s.regs[names[0]].owner.value else 0;
      CloseClientFlows(s, fd, now, k, death);
      var t := if names[0] in s.regs && s.regs[names[0]].owner.Some? then CloseClient(s, fd, now) else s;
      CloseOwnersFlows(t, names[1..], now, k, death);
      FlowsThen(s, t, CloseOwners(t, names[1..], now), k, death);
    }
  }

  lemma {:induction false} UnlinkedBytes(q: seq<Chunk>, off: nat, session: nat, k: Key)
    requires k.session != session
    ensures BytesFor(Unlinked(q, session), off, k) == BytesFor(q, off, k)
    decreases |q|
  {
    if q != [] {
      UnlinkedBytes(q[1..], 0, session, k);
      assert Unlinked(q, session)[1..] == Unlinked(q[1..], session);
    }
  }

  /** A dropped session's chunks lose their names, and its instances are gone. */
  lemma DropFlows(s: State, session: nat, ids: seq<Key>, names: seq<Name>, now: nat, k: Key, death: bool)
    requires session in s.sessions && R.Listed(s, session, ids, names)
    ensures Flows(s, DropSession(s, session, ids, names, now), k, death)
  {
    hide CloseAll, CloseOwners, Unlinked, BytesFor, Flows;
    var c := CloseAll(s, ids, now);
    var o := CloseOwners(c, names, now);
    var t := DropSession(s, session, ids, names, now);
    CloseAllFlows(s, ids, now, k, death);
    CloseOwnersFlows(c, names, now, k, death);
    FlowsThen(s, c, o, k, death);
    R.AllRemoved(s, ids, now);
    F.OwnersRegs(c, names, now);
    if k in t.insts {
      assert k.session != session;
      if o.insts[k].cfd.Some? && o.insts[k].cfd.value in o.outs {
        UnlinkedBytes(o.outs[o.insts[k].cfd.value].q, o.outs[o.insts[k].cfd.value].off, session, k);
      }
    }
    StillFlows(o, t, k, death);
    FlowsThen(s, o, t, k, death);
  }

  lemma {:induction false} RetireFlows(s: State, session: nat, serials: seq<nat>, now: nat, k: Key, death: bool)
    ensures Flows(s, Retire(s, session, serials, now), k, death)
    decreases |serials|
  {
    hide Unregister, Flows;
    SelfFlows(s, k, death);
    if serials != [] {
      if exists r :: Serves(s, session, serials[0], r) {
        var r :| Serves(s, session, serials[0], r) && Retire(s, session, serials, now) == Retire(Unregister(s, r, now), session, serials[1..], now);
        var t := Unregister(s, r, now);
        UnregisterFlows(s, r, now, k, death);
        RetireFlows(t, session, serials[1..], now, k, death);
        FlowsThen(s, t, Retire(t, session, serials[1..], now), k, death);
      } else {
        RetireFlows(s, session, serials[1..], now, k, death);
      }
    }
  }

  lemma RetireTickFlows(s: State, session: nat, now: nat, k: Key, death: bool)
    requires session in s.sessions
    ensures Flows(s, RetireTick(s, session, now), k, death)
  {
    hide Retire, Flows;
    var t := Retire(s, session, s.sessions[session].retire, now);
    RetireFlows(s, session, s.sessions[session].retire, now, k, death);
    FewerFlows(t, RetireTick(s, session, now), k, death);
    FlowsThen(s, t, RetireTick(s, session, now), k, death);
  }

  lemma OwnerReadableFlows(s: State, fd: Fd, outcome: Outcome, room: set<Key>, users: seq<Key>, now: nat, k: Key, death: bool)
    ensures Flows(s, OwnerReadable(s, fd, outcome, room, users, now), k, death)
  {
    hide CanRead, Unregister, CloseAll, Flows;
    SelfFlows(s, k, death);
    if fd in s.reading && s.reading[fd].Owner? {
      var w := s.reading[fd];
      if outcome.Ended? {
        var t := s.(paused := s.paused - {fd});
        var u := if w.reg in t.regs && t.regs[w.reg].serial == w.serial then Unregister(t, w.reg, now) else t;
        FewerFlows(s, t, k, death);
        SelfFlows(t, k, death);
        UnregisterFlows(t, w.reg, now, k, death);
        FlowsThen(s, t, u, k, death);
        CloseAllFlows(u, users, now, k, death);
        FlowsThen(s, u, CloseAll(u, users, now), k, death);
      } else {
        FewerFlows(s, OwnerReadable(s, fd, outcome, room, users, now), k, death);
      }
    }
  }

  lemma ClientReadableFlows(s: State, fd: Fd, outcome: Outcome, room: set<Key>, now: nat, k: Key, death: bool)
    ensures Flows(s, ClientReadable(s, fd, outcome, room, now), k, death)
  {
    hide CloseInstance, Flows;
    SelfFlows(s, k, death);
    if fd in s.reading && s.reading[fd].Client? {
      CloseInstanceFlows(s, s.reading[fd].key, now, k, death);
      FewerFlows(s, s.(reading := s.reading - {fd}, writing := s.writing - {fd}), k, death);
    }
  }

  /** No live instance is on a socket that is given up. */
  lemma GiveUpFlows(s: State, fd: Fd, now: nat, k: Key, death: bool)
    requires F.Sockets(s)
    ensures Flows(s, GiveUp(s, fd, now), k, death)
  {
    hide F.Sockets;
    if k in s.insts && s.insts[k].cfd.Some? {
      F.NotDraining(s, k);
    }
    StillFlows(s, GiveUp(s, fd, now), k, death);
  }

  // ---- the handshake ----

  /** What stands behind the first newline. */
  function AfterLine(b: string): string {
    var nl := Newline(b);
    if nl < |b| then b[nl + 1..] else ""
  }

  /** What holds for one instance: while the handshake line is being collected it holds the
      end of what the connection has brought (a connection before may have left the
      start); from then on its client is given what comes behind the line. */
  ghost predicate Reads(s: State, k: Key)
    requires k in s.insts
  {
    var i := s.insts[k];
    && (i.open && i.cfd.Some? && !i.log.lost ==> '\n' in i.log.heard && Given(s, k) == AfterLine(i.log.heard))
    && (!i.open ==> '\n' !in i.lbuf && (i.conn ==> EndsWith(i.lbuf, i.log.heard)) && !i.log.lost && Given(s, k) == "")
  }

  predicate EndsWith(a: string, b: string) {
    |b| <= |a| && a[|a| - |b|..] == b
  }

  lemma FlowsReads(s: State, t: State, k: Key, death: bool)
    requires Flows(s, t, k, death) && (k in s.insts ==> Reads(s, k))
    ensures k in t.insts ==> Reads(t, k)
  {
    hide Given, AfterLine, EndsWith;
  }

  lemma {:induction false} NewlineMore(a: string, b: string)
    requires '\n' in a
    ensures Newline(a) < |a| && Newline(a + b) == Newline(a)
  {
    assert (a + b)[0] == a[0] && (a + b)[1..] == a[1..] + b;
    if a[0] != '\n' {
      assert '\n' in a[1..];
      NewlineMore(a[1..], b);
    }
  }

  /** Without a newline in front, the first newline is that of the rest. */
  lemma {:induction false} NewlineBehind(a: string, b: string)
    requires '\n' !in a
    ensures Newline(a + b) == |a| + Newline(b)
  {
    if a == "" {
      assert a + b == b;
    } else {
      assert (a + b)[0] == a[0] && (a + b)[1..] == a[1..] + b;
      NewlineBehind(a[1..], b);
    }
  }

  lemma DropOfSum(a: string, b: string, n: nat)
    requires n <= |a| + |b|
    ensures n <= |a| ==> (a + b)[n..] == a[n..] + b
    ensures n >= |a| ==> (a + b)[n..] == b[n - |a|..]
  {}

  lemma AfterMore(a: string, b: string)
    requires '\n' in a
    ensures AfterLine(a + b) == AfterLine(a) + b && '\n' in a + b
  {
    NewlineMore(a, b);
    hide Newline;
    DropOfSum(a, b, Newline(a) + 1);
  }

  lemma EndsWithMore(before: string, heard: string, b: string)
    ensures before + heard + b == before + (heard + b)
    ensures EndsWith(before + heard + b, heard + b)
  {
    DropOfSum(before, heard + b, |before|);
  }

  lemma NoNewline(b: string)
    ensures Newline(b) == |b| <==> '\n' !in b
  {
    if Newline(b) < |b| {
      assert b[Newline(b)] in b;
    }
  }

  lemma LineBehind(before: string, mine: string)
    requires '\n' !in before
    ensures var nl := Newline(before + mine);
            && (nl == |before + mine| ==> '\n' !in before + mine)
            && (nl < |before + mine| ==> '\n' in mine && AfterLine(mine) == (before + mine)[nl + 1..])
  {
    hide Newline;
    NewlineBehind(before, mine);
    NoNewline(before + mine);
    NoNewline(mine);
    if Newline(mine) < |mine| {
      DropOfSum(before, mine, |before| + Newline(mine) + 1);
    }
  }

  /** The line and what is behind it, seen from what this connection has brought. */
  lemma LineEnds(lbuf: string, heard: string, b: string)
    requires EndsWith(lbuf, heard) && '\n' !in lbuf
    ensures var all := lbuf + b;
            var nl := Newline(all);
            && EndsWith(all, heard + b)
            && (nl == |all| ==> '\n' !in all)
            && (nl < |all| ==> '\n' in heard + b && AfterLine(heard + b) == all[nl + 1..])
  {
    var before := lbuf[..|lbuf| - |heard|];
    assert lbuf == before + heard;
    hide EndsWith, Newline, AfterLine;
    assert '\n' !in before;
    EndsWithMore(before, heard, b);
    LineBehind(before, heard + b);
  }

  /** After a handshake line: nothing was given yet, and either the instance is open or it
      waits for another connection. */
  ghost predicate Shaken(s: State, t: State, k: Key) {
    k in s.insts && (k in t.insts ==>
      && t.insts[k].log.heard == s.insts[k].log.heard && !t.insts[k].log.lost && Given(t, k) == ""
      && (!t.insts[k].open ==> !t.insts[k].conn && t.insts[k].lbuf == ""))
  }

  /** An inbound instance gets its socket, with nothing queued for it there. */
  lemma ServeShakes(s: State, k: Key, line: string)
    requires C.Credit(s) && k in s.insts && k.session in s.sessions && Name(k.session, line) in s.regs
    requires s.insts[k].cfd.None? && !s.insts[k].log.lost && Given(s, k) == ""
    ensures Shaken(s, Serve(s, k, line), k)
  {
    hide C.Credit, BytesFor;
    var t := Serve(s, k, line);
    var fd := s.regs[Name(k.session, line)].owner;
    if fd.Some? && fd.value in s.outs {
      NoneThere(s, fd.value, k);
    }
  }

  lemma NoneThere(s: State, fd: Fd, k: Key)
    requires C.Credit(s) && fd in s.outs && k in s.insts && s.insts[k].cfd != Some(fd)
    ensures BytesAt(s, fd, k) == ""
  {
    hide C.Credit, BytesFor;
    var o := s.outs[fd];
    forall i | 0 <= i < |o.q|
      ensures !Mine(o.q[i], k)
    {
      MineThere(s, fd, i, k);
    }
    NotMine(o.q, o.off, k);
  }

  lemma MineThere(s: State, fd: Fd, i: nat, k: Key)
    requires C.Credit(s) && fd in s.outs && i < |s.outs[fd].q| && k in s.insts
    ensures Mine(s.outs[fd].q[i], k) ==> s.insts[k].cfd == Some(fd)
  {
    hide C.Balanced, C.ValidOut;
    assert C.Tagged(s, fd, s.outs[fd].q[i]);
  }

  /** Nothing of an instance changes but its handshake fields. */
  lemma RewriteShakes(s: State, t: State, k: Key)
    requires k in s.insts && k in t.insts && t.outs == s.outs && t.insts[k].cfd == s.insts[k].cfd && t.insts[k].log == s.insts[k].log
    ensures Given(t, k) == Given(s, k)
  {}

  lemma InboundShakes(s: State, k: Key, line: string, env: Env)
    requires C.Credit(s) && k in s.insts && k.session in s.sessions && s.insts[k].inbound && !s.insts[k].open && s.insts[k].conn
    requires !s.insts[k].log.lost && Given(s, k) == ""
    ensures Shaken(s, Line(s, k, line, env), k)
  {
    hide C.Credit, Given, Serve, CloseInstance;
    R.NoSocketBefore(s, k);
    var i := s.insts[k];
    var t := s.(insts := s.insts[k := i.(lbuf := "", reg := if line in META then i.reg else line)]);
    RewriteShakes(s, t, k);
    C.UnseenKeeps(s, t, k);
    C.CloseGone(t, k, env.now);
    if Name(k.session, line) in s.regs {
      ServeShakes(t, k, line);
    }
  }

  lemma OutboundShakes(s: State, k: Key, line: string, env: Env, death: bool)
    requires C.Credit(s) && k in s.insts && k.session in s.sessions && !s.insts[k].inbound && !s.insts[k].open && s.insts[k].conn
    requires !s.insts[k].log.lost && Given(s, k) == "" && (DeadIn(env.first) ==> death)
    ensures Shaken(s, Line(s, k, line, env), k)
  {
    hide C.Credit, Given, FailOpen, ClientWrite, Bound;
    var i := s.insts[k];
    var t := s.(insts := s.insts[k := i.(lbuf := "")]);
    RewriteShakes(s, t, k);
    C.UnseenKeeps(s, t, k);
    FailedGone(t, k, env.words, env.now, env.first);
    match env.reply
    case Accepted =>
      var u := ClientWrite(t, k, env.words, false, env.first);
      WordsFlow(t, k, env.words, env.first, k, death);
      C.WordsFrame(t, k, env.words, env.first);
      BoundGiven(u, k);
    case WrongKind =>
    case Refused =>
      var u := t.(insts := t.insts[k := t.insts[k].(conn := false)]);
      RewriteShakes(t, u, k);
  }

  lemma FailedGone(s: State, k: Key, why: string, now: nat, answers: seq<Answer>)
    ensures k !in FailOpen(s, k, why, now, answers).insts
  {
    hide CloseInstance, ClientWrite;
    C.CloseGone(if k in s.insts && s.insts[k].owned then ClientWrite(s, k, why, false, answers) else s, k, now);
  }

  lemma BoundGiven(s: State, k: Key)
    requires k in s.insts
    ensures var t := Bound(s, k);
            && k in t.insts && t.insts[k] == s.insts[k].(open := true) && t.outs == s.outs && Given(t, k) == Given(s, k)
  {}

  /** What came behind the line in the same piece. */
  lemma LeftoverReads(s: State, k: Key, rest: string, env: Env, death: bool)
    requires C.Credit(s) && F.Sockets(s) && (DeadIn(env.second) ==> death)
    requires k in s.insts ==>
               && s.insts[k].down == 0 && s.insts[k].early == 0 && !s.insts[k].log.lost && Given(s, k) == ""
               && '\n' in s.insts[k].log.heard && AfterLine(s.insts[k].log.heard) == rest
               && (!s.insts[k].open ==> !s.insts[k].conn && s.insts[k].lbuf == "")
    ensures var t := Leftover(s, k, rest, env);
            k in t.insts ==> k in s.insts && Reads(t, k) && t.insts[k].log.heard == s.insts[k].log.heard && (t.insts[k].log.lost ==> death)
  {
    hide C.Credit, F.Sockets, Data, Given, AfterLine;
    if rest != "" && k in s.insts && s.insts[k].open {
      var t := s.(insts := s.insts[k := s.insts[k].(preacked := |rest|, early := |rest|)]);
      C.BalancedOf(s, k);
      C.RewriteKeeps(s, t, k);
      assert F.Sockets(t) by {
        hide F.SameUse;
        F.RewriteUse(s, t, k);
        F.UnseenKeeps(s, t);
      }
      RewriteShakes(s, t, k);
      DataFlows(t, k, rest, env.second, k, death);
      var u := Data(t, k, rest, env.second);
      assert "" + rest == rest;
    }
  }

  /** A complete handshake line, and what is behind it. */
  lemma LineReads(s: State, k: Key, line: string, rest: string, env: Env, death: bool)
    requires R.Inv(s) && k in s.insts && k.session in s.sessions && s.insts[k].conn && !s.insts[k].open
    requires !s.insts[k].log.lost && Given(s, k) == "" && (DeadIn(env.first) || DeadIn(env.second) ==> death)
    requires '\n' in s.insts[k].log.heard && AfterLine(s.insts[k].log.heard) == rest
    ensures var t := Leftover(Line(s, k, line, env), k, rest, env);
            k in t.insts ==> Reads(t, k) && t.insts[k].log.heard == s.insts[k].log.heard && (t.insts[k].log.lost ==> death)
  {
    hide C.Credit, F.Sockets, R.N.Counters, Line, Leftover, Given, AfterLine, EndsWith, Reads;
    if s.insts[k].inbound {
      R.NoSocketBefore(s, k);
      InboundShakes(s, k, line, env);
    } else {
      OutboundShakes(s, k, line, env, death);
    }
    C.LineKeeps(s, k, line, env);
    C.LineFresh(s, k, line, env);
    F.LineKeeps(s, k, line, env);
    LeftoverReads(Line(s, k, line, env), k, rest, env, death);
  }

  // ---- the event ----

  /** Bytes arrive for the instance itself. */
  lemma HandleReads(s: State, k: Key, b: string, heard: string, env: Env, death: bool)
    requires R.Inv(s) && k in s.insts && k.session in s.sessions && s.insts[k].conn
    requires s.insts[k].log.heard == heard + b
    requires Reads(Unheard(s, k, heard), k) && (DeadIn(env.first) || DeadIn(env.second) ==> death)
    ensures var t := HandleData(s, k, b, env);
            k in t.insts ==> Reads(t, k) && t.insts[k].log.heard == heard + b && (t.insts[k].log.lost ==> s.insts[k].log.lost || death)
  {
    hide C.Credit, F.Sockets, R.N.Counters, Data, Line, Leftover, CloseInstance, Given, AfterLine, EndsWith;
    var p := Unheard(s, k, heard);
    UnheardGiven(s, k, heard);
    var i := s.insts[k];
    if i.open {
      DataFlows(s, k, b, env.second, k, death);
      if '\n' in heard {
        AfterMore(heard, b);
      }
    } else {
      var all := i.lbuf + b;
      var nl := Newline(all);
      LineEnds(i.lbuf, heard, b);
      if nl == |all| {
        C.CloseGone(s, k, env.now);
        RewriteShakes(s, s.(insts := s.insts[k := i.(lbuf := all)]), k);
      } else {
        LineReads(s, k, all[..nl], all[nl + 1..], env, death);
      }
    }
  }

  /** The instance as it was before the connection brought the last bytes. */
  function Unheard(s: State, k: Key, heard: string): State
    requires k in s.insts
  {
    s.(insts := s.insts[k := s.insts[k].(log := s.insts[k].log.(heard := heard))])
  }

  lemma UnheardGiven(s: State, k: Key, heard: string)
    requires k in s.insts
    ensures Given(Unheard(s, k, heard), k) == Given(s, k)
  {}

  lemma HearInv(s: State, k: Key, b: string)
    requires R.Inv(s) && k in s.insts
    ensures R.Inv(Hear(s, k, b))
  {
    hide C.Credit, F.Sockets, R.N.Counters, Hear, LogOnly;
    HearLog(s, k, b);
    C.LogKeeps(s, Hear(s, k, b));
    F.LogKeeps(s, Hear(s, k, b));
    R.N.LogKeeps(s, Hear(s, k, b));
  }

  // ---- what one delivery does to the other instances ----

  lemma LineFlows(s: State, k0: Key, line: string, env: Env, k: Key, death: bool)
    requires C.Credit(s) && k0 in s.insts && k0.session in s.sessions && s.insts[k0].conn && !s.insts[k0].open
    requires k != k0 && (DeadIn(env.first) ==> death)
    ensures Flows(s, Line(s, k0, line, env), k, death)
  {
    hide C.Credit, Flows, CloseInstance, Serve, FailOpen, Bound, ClientWrite;
    var i := s.insts[k0];
    var t := s.(insts := s.insts[k0 := if i.inbound then i.(lbuf := "", reg := if line in META then i.reg else line) else i.(lbuf := "")]);
    FewerFlows(s, t, k, death);
    C.UnseenKeeps(s, t, k0);
    if i.inbound {
      CloseInstanceFlows(t, k0, env.now, k, death);
      FlowsThen(s, t, CloseInstance(t, k0, env.now), k, death);
      if Name(k0.session, line) in s.regs {
        ServeOthers(t, k0, line, k, death);
        FlowsThen(s, t, Serve(t, k0, line), k, death);
      }
    } else {
      OutboundFlows(t, k0, env, k, death);
      FlowsThen(s, t, Line(s, k0, line, env), k, death);
    }
  }

  lemma ServeOthers(s: State, k0: Key, line: string, k: Key, death: bool)
    requires k0 in s.insts && k0.session in s.sessions && Name(k0.session, line) in s.regs && k != k0
    ensures Flows(s, Serve(s, k0, line), k, death)
  {
    FewerFlows(s, Serve(s, k0, line), k, death);
  }

  lemma BoundOthers(s: State, k0: Key, k: Key, death: bool)
    requires k0 in s.insts && k != k0
    ensures Flows(s, Bound(s, k0), k, death)
  {
    FewerFlows(s, Bound(s, k0), k, death);
  }

  /** The three replies an outbound instance may read. */
  lemma OutboundFlows(t: State, k0: Key, env: Env, k: Key, death: bool)
    requires C.Credit(t) && k0 in t.insts && k != k0 && (DeadIn(env.first) ==> death)
    ensures var u := ClientWrite(t, k0, env.words, false, env.first);
            Flows(t, if k0 in u.insts then Bound(u, k0) else u, k, death)
    ensures Flows(t, FailOpen(t, k0, env.words, env.now, env.first), k, death)
    ensures Flows(t, t.(insts := t.insts[k0 := t.insts[k0].(conn := false)]), k, death)
  {
    hide C.Credit, Flows, FailOpen, ClientWrite, Bound;
    var u := ClientWrite(t, k0, env.words, false, env.first);
    WordsFlow(t, k0, env.words, env.first, k, death);
    if k0 in u.insts {
      BoundOthers(u, k0, k, death);
      FlowsThen(t, u, Bound(u, k0), k, death);
    }
    FailFlows(t, k0, env.words, env.now, env.first, k, death);
    FewerFlows(t, t.(insts := t.insts[k0 := t.insts[k0].(conn := false)]), k, death);
  }

  lemma FailFlows(s: State, k0: Key, why: string, now: nat, answers: seq<Answer>, k: Key, death: bool)
    requires C.Credit(s) && (DeadIn(answers) ==> death)
    ensures Flows(s, FailOpen(s, k0, why, now, answers), k, death)
  {
    hide C.Credit, Flows, CloseInstance, ClientWrite;
    SelfFlows(s, k, death);
    WordsFlow(s, k0, why, answers, k, death);
    var t := if k0 in s.insts && s.insts[k0].owned then ClientWrite(s, k0, why, false, answers) else s;
    CloseInstanceFlows(t, k0, now, k, death);
    FlowsThen(s, t, CloseInstance(t, k0, now), k, death);
  }

  lemma LeftoverFlows(s: State, k0: Key, rest: string, env: Env, k: Key, death: bool)
    requires C.Credit(s) && F.Sockets(s) && k != k0 && (DeadIn(env.second) ==> death)
    requires k0 in s.insts ==> s.insts[k0].down == 0 && s.insts[k0].early == 0
    ensures Flows(s, Leftover(s, k0, rest, env), k, death)
  {
    hide C.Credit, F.Sockets, Flows, Data;
    SelfFlows(s, k, death);
    if rest != "" && k0 in s.insts && s.insts[k0].open {
      var t := s.(insts := s.insts[k0 := s.insts[k0].(preacked := |rest|, early := |rest|)]);
      FewerFlows(s, t, k, death);
      EarlyKeeps(s, k0, |rest|);
      DataFlows(t, k0, rest, env.second, k, death);
      FlowsThen(s, t, Data(t, k0, rest, env.second), k, death);
    }
  }

  /** What comes with the handshake counts as acknowledged. */
  lemma EarlyKeeps(s: State, k: Key, n: nat)
    requires C.Credit(s) && F.Sockets(s) && k in s.insts && s.insts[k].open && s.insts[k].down == 0 && s.insts[k].early == 0
    ensures var t := s.(insts := s.insts[k := s.insts[k].(preacked := n, early := n)]);
            C.Credit(t) && F.Sockets(t)
  {
    hide C.Credit, F.Sockets, F.SameUse;
    var t := s.(insts := s.insts[k := s.insts[k].(preacked := n, early := n)]);
    C.BalancedOf(s, k);
    C.RewriteKeeps(s, t, k);
    F.RewriteUse(s, t, k);
    F.UnseenKeeps(s, t);
  }

  lemma ArrivalFlows(s: State, k0: Key, b: string, env: Env, k: Key, death: bool)
    requires R.Inv(s) && k != k0 && (DeadIn(env.first) || DeadIn(env.second) ==> death)
    ensures Flows(s, TunnelData(s, k0, b, env), k, death)
  {
    hide R.Inv, Flows, HandleData;
    SelfFlows(s, k, death);
    if k0 in s.insts && k0.session in s.sessions && s.insts[k0].conn {
      var t := Hear(s, k0, b);
      FewerFlows(s, t, k, death);
      HearInv(s, k0, b);
      HandleFlows(t, k0, b, env, k, death);
      FlowsThen(s, t, HandleData(t, k0, b, env), k, death);
    }
  }

  lemma HandleFlows(s: State, k0: Key, b: string, env: Env, k: Key, death: bool)
    requires R.Inv(s) && k0 in s.insts && k0.session in s.sessions && s.insts[k0].conn
    requires k != k0 && (DeadIn(env.first) || DeadIn(env.second) ==> death)
    ensures Flows(s, HandleData(s, k0, b, env), k, death)
  {
    hide C.Credit, F.Sockets, R.N.Counters, Flows, Data, Line, Leftover, CloseInstance;
    if s.insts[k0].open {
      DataFlows(s, k0, b, env.second, k, death);
    } else {
      var all := s.insts[k0].lbuf + b;
      var nl := Newline(all);
      if nl == |all| {
        CloseInstanceFlows(s, k0, env.now, k, death);
        FewerFlows(s, s.(insts := s.insts[k0 := s.insts[k0].(lbuf := all)]), k, death);
      } else {
        if s.insts[k0].inbound {
          R.NoSocketBefore(s, k0);
        }
        var t := Line(s, k0, all[..nl], env);
        LineFlows(s, k0, all[..nl], env, k, death);
        C.LineKeeps(s, k0, all[..nl], env);
        C.LineFresh(s, k0, all[..nl], env);
        F.LineKeeps(s, k0, all[..nl], env);
        LeftoverFlows(t, k0, all[nl + 1..], env, k, death);
        FlowsThen(s, t, Leftover(t, k0, all[nl + 1..], env), k, death);
      }
    }
  }

  // ---- runs ----

  /** Does the kernel report a dead client during an event? */
  predicate Kills(e: R.Event) {
    match e
    case Arrives(_, _, env) => DeadIn(env.first) || DeadIn(env.second)
    case Expires(_, _, _, answers) => DeadIn(answers)
    case Drains(_, answers) => DeadIn(answers)
    case _ => false
  }

  /** What the connection of an instance has brought after an event, when it had brought
      this before: a new instance and a new connection start with nothing. */
  ghost function Brought(s: State, e: R.Event, k: Key, so: string): string
    requires R.Possible(s, e)
  {
    match e
    case Accepts(session) => if k == NewId(s, session) then "" else so
    case Opens(session, _, _) => if k == NewId(s, session) then "" else so
    case Dials(key, conn) => if key == k && conn && k in s.insts && !s.insts[k].inbound && !s.insts[k].open then "" else so
    case Arrives(key, bytes, _) => if key == k && k in s.insts && s.insts[k].conn then so + bytes else so
    case _ => so
  }

  /** What the connection of an instance has brought over a run. */
  ghost function Arrived(s: State, es: seq<R.Event>, k: Key, so: string): string
    requires R.PossibleRun(s, es)
    decreases |es|
  {
    if es == [] then so else Arrived(R.Happens(s, es[0]), es[1..], k, Brought(s, es[0], k, so))
  }

  ghost predicate Tells(s: State, k: Key, so: string) {
    k in s.insts ==> Reads(s, k) && s.insts[k].log.heard == so
  }

  ghost predicate LostBy(s: State, t: State, k: Key, death: bool) {
    k in t.insts && t.insts[k].log.lost ==> death || (k in s.insts && s.insts[k].log.lost)
  }

  lemma FlowsTells(s: State, t: State, k: Key, so: string, death: bool)
    requires Flows(s, t, k, death) && Tells(s, k, so)
    ensures Tells(t, k, so) && LostBy(s, t, k, death)
  {
    hide Given, Reads;
    FlowsReads(s, t, k, death);
  }

  lemma NewTells(s: State, session: nat, i: Instance, t: State, k: Key, so: string)
    requires session in s.sessions && NewId(s, session) !in s.insts && Tells(s, k, so)
    requires t.insts == s.insts[NewId(s, session) := i] && t.outs == s.outs
    requires i.log == NO_LOG && !i.open && i.lbuf == "" && (i.cfd.Some? ==> i.cfd.value !in s.outs)
    ensures Tells(t, k, if k == NewId(s, session) then "" else so) && LostBy(s, t, k, false)
  {
    if k == NewId(s, session) {
      assert "" + "" == "";
    } else {
      FewerFlows(s, t, k, false);
      FlowsTells(s, t, k, so, false);
    }
  }

  lemma AddsTells(s: State, e: R.Event, k: Key, so: string)
    requires R.Inv(s) && R.Possible(s, e) && (e.Accepts? || e.Opens?) && Tells(s, k, so)
    ensures Tells(R.Happens(s, e), k, Brought(s, e, k, so)) && LostBy(s, R.Happens(s, e), k, false)
  {
    hide C.Credit, F.Sockets, R.N.Counters, Tells, LostBy;
    P.NewIdNew(s, e.session);
    if e.Opens? && e.cfd.Some? {
      R.FreshOut(s, e.cfd.value);
    }
    var t := R.Happens(s, e);
    NewTells(s, e.session, t.insts[NewId(s, e.session)], t, k, so);
  }

  /** A new connection starts with nothing heard, a failed dial changes nothing. */
  lemma DialledOwn(s: State, k: Key, conn: bool, so: string)
    requires k in s.insts && !s.insts[k].inbound && !s.insts[k].open && Tells(s, k, so)
    ensures Tells(Dialled(s, k, conn), k, if conn then "" else so) && !Dialled(s, k, conn).insts[k].log.lost
  {
    hide Given, AfterLine;
    RewriteGiven(s, Dialled(s, k, conn), k);
  }

  lemma RewriteGiven(s: State, t: State, k: Key)
    requires k in s.insts && k in t.insts && t.outs == s.outs && t.insts[k].cfd == s.insts[k].cfd && t.insts[k].log.taken == s.insts[k].log.taken
    ensures Given(t, k) == Given(s, k)
  {}

  lemma DialsTells(s: State, key: Key, conn: bool, k: Key, so: string)
    requires Tells(s, k, so)
    ensures Tells(Dialled(s, key, conn), k, Brought(s, R.Dials(key, conn), k, so)) && LostBy(s, Dialled(s, key, conn), k, false)
  {
    hide Reads, Given;
    var t := Dialled(s, key, conn);
    if key == k && k in s.insts && !s.insts[k].inbound && !s.insts[k].open {
      DialledOwn(s, k, conn, so);
    } else {
      FewerFlows(s, t, k, false);
      FlowsTells(s, t, k, so, false);
    }
  }

  lemma GoesTells(s: State, key: Key, now: nat, k: Key, so: string)
    requires Tells(s, k, so)
    ensures Tells(TunnelGone(s, key, now), k, so) && LostBy(s, TunnelGone(s, key, now), k, false)
  {
    hide BytesFor, AfterLine, CloseInstance;
    var t := TunnelGone(s, key, now);
    if key != k || k !in s.insts || s.insts[k].inbound || s.insts[k].open {
      CloseInstanceFlows(s, key, now, k, false);
      SelfFlows(s, k, false);
      var u := if key in s.insts then s.(insts := s.insts[key := s.insts[key].(conn := false)]) else s;
      if key != k {
        FewerFlows(s, u, k, false);
      }
      FlowsTells(s, t, k, so, false);
    }
  }

  lemma ArrivesTells(s: State, key: Key, b: string, env: Env, k: Key, so: string)
    requires R.Inv(s) && Tells(s, k, so)
    ensures var e := R.Arrives(key, b, env);
            Tells(R.Happens(s, e), k, Brought(s, e, k, so)) && LostBy(s, R.Happens(s, e), k, Kills(e))
  {
    hide R.Inv, HandleData, Reads;
    var death := DeadIn(env.first) || DeadIn(env.second);
    if key != k {
      ArrivalFlows(s, key, b, env, k, death);
      FlowsTells(s, TunnelData(s, key, b, env), k, so, death);
    } else if k in s.insts {
      SessionKnown(s, k);
      if s.insts[k].conn {
        var t := Hear(s, k, b);
        HearInv(s, k, b);
        assert s == Unheard(t, k, so);
        HandleReads(t, k, b, so, env, death);
      }
    }
  }

  lemma SessionKnown(s: State, k: Key)
    requires R.Inv(s) && k in s.insts
    ensures k.session in s.sessions
  {
    hide C.Balanced, C.ValidOut;
    assert C.Known(s, k);
  }

  /** The events that leave what an instance is given as it is, but for a dead client. */
  predicate Plain(e: R.Event) {
    !e.Accepts? && !e.Opens? && !e.Dials? && !e.Goes? && !e.Arrives?
  }

  lemma RegisterFlows(s: State, r: Name, limit: nat, owner: Option<Fd>, k: Key, death: bool)
    requires r.session in s.sessions
    ensures Flows(s, Register(s, r, limit, owner), k, death)
  {
    hide Flows;
    FewerFlows(s, Register(s, r, limit, owner), k, death);
  }

  lemma ResumeFlows(s: State, fd: Fd, k0: Key, room: set<Key>, k: Key, death: bool)
    ensures Flows(s, ResumeOwner(s, fd, room), k, death) && Flows(s, ResumeClient(s, k0, room), k, death)
  {
    hide CanRead, Flows;
    FewerFlows(s, ResumeOwner(s, fd, room), k, death);
    FewerFlows(s, ResumeClient(s, k0, room), k, death);
  }

  lemma PlainFlows(s: State, e: R.Event, k: Key)
    requires R.Inv(s) && R.Possible(s, e) && Plain(e)
    ensures Flows(s, R.Happens(s, e), k, Kills(e))
  {
    hide C.Credit, F.Sockets, R.N.Counters, Flows, Flush, FailOpen, Unregister, CloseInstance, OwnerReadable, ClientReadable, CanRead, GiveUp,
         RetireTick, DropSession, DeadIn, Register, ResumeClient, ResumeOwner, NewId;
    var death := Kills(e);
    SelfFlows(s, k, death);
    if e.Starts? {
      FewerFlows(s, R.Happens(s, e), k, death);
    } else if e.Registers? {
      RegisterFlows(s, e.name, e.limit, e.owner, k, death);
    } else if e.ResumesOwner? {
      ResumeFlows(s, e.fd, k, e.room, k, death);
    } else if e.ResumesClient? {
      ResumeFlows(s, 0, e.key, e.room, k, death);
    } else if e.Unregisters? {
      UnregisterFlows(s, e.name, e.now, k, death);
    } else if e.Closes? {
      CloseInstanceFlows(s, e.key, e.now, k, death);
    } else if e.Expires? {
      FailFlows(s, e.key, e.why, e.now, e.answers, k, death);
    } else if e.Drains? {
      FlushFlows(s, e.fd, e.answers, k, death);
    } else if e.OwnerReads? {
      OwnerReadableFlows(s, e.fd, e.outcome, e.room, e.users, e.now, k, death);
    } else if e.ClientReads? {
      ClientReadableFlows(s, e.fd, e.outcome, e.room, e.now, k, death);
    } else if e.GivesUp? {
      GiveUpFlows(s, e.fd, e.now, k, death);
    } else if e.Retires? {
      RetireTickFlows(s, e.session, e.now, k, death);
    } else {
      DropFlows(s, e.session, e.ids, e.names, e.now, k, death);
    }
  }

  lemma EventTells(s: State, e: R.Event, k: Key, so: string)
    requires R.Inv(s) && R.Possible(s, e) && Tells(s, k, so)
    ensures Tells(R.Happens(s, e), k, Brought(s, e, k, so)) && LostBy(s, R.Happens(s, e), k, Kills(e))
  {
    hide R.Inv, Tells, Flows, R.Listed;
    if Plain(e) {
      PlainFlows(s, e, k);
      FlowsTells(s, R.Happens(s, e), k, so, Kills(e));
    } else if e.Accepts? || e.Opens? {
      AddsTells(s, e, k, so);
    } else if e.Dials? {
      DialsTells(s, e.key, e.conn, k, so);
    } else if e.Goes? {
      GoesTells(s, e.key, e.now, k, so);
    } else {
      ArrivesTells(s, e.key, e.bytes, e.env, k, so);
    }
  }

  lemma {:induction false} RunTells(s: State, es: seq<R.Event>, k: Key, so: string)
    requires R.Inv(s) && R.PossibleRun(s, es) && Tells(s, k, so)
    ensures Tells(R.Run(s, es), k, Arrived(s, es, k, so))
    decreases |es|
  {
    hide R.Inv, R.Possible, R.Happens, Tells, Brought;
    if es != [] {
      R.EventKeeps(s, es[0]);
      EventTells(s, es[0], k, so);
      RunTells(R.Happens(s, es[0]), es[1..], k, Brought(s, es[0], k, so));
    }
  }

  lemma {:induction false} RunLoses(s: State, es: seq<R.Event>, k: Key, so: string)
    requires R.Inv(s) && R.PossibleRun(s, es) && Tells(s, k, so) && (forall i :: 0 <= i < |es| ==> !Kills(es[i]))
    ensures LostBy(s, R.Run(s, es), k, false)
    decreases |es|
  {
    hide R.Inv, R.Possible, R.Happens, Tells, Brought, Kills;
    if es != [] {
      R.EventKeeps(s, es[0]);
      EventTells(s, es[0], k, so);
      assert !Kills(es[0]) && forall i :: 0 <= i < |es[1..]| ==> es[1..][i] == es[i + 1];
      RunLoses(R.Happens(s, es[0]), es[1..], k, Brought(s, es[0], k, so));
    }
  }

  /** In every run, for every open instance on a client socket: what the client has taken
      and what is queued for it are, in order, all that its connection brought behind the
      first newline; unless the kernel reported the client dead during some event. */
  lemma ClientGets(es: seq<R.Event>, k: Key)
    requires R.PossibleRun(EMPTY, es) && k in R.Run(EMPTY, es).insts
    requires R.Run(EMPTY, es).insts[k].open && R.Run(EMPTY, es).insts[k].cfd.Some?
    ensures var s := R.Run(EMPTY, es);
            var heard := Arrived(EMPTY, es, k, "");
            || ('\n' in heard && s.insts[k].log.taken + Pending(s, k) == AfterLine(heard))
            || (s.insts[k].log.lost && exists i :: 0 <= i < |es| && Kills(es[i]))
  {
    hide R.Run, R.PossibleRun, Kills, R.Inv;
    R.EmptyInv();
    RunTells(EMPTY, es, k, "");
    if forall i :: 0 <= i < |es| ==> !Kills(es[i]) {
      RunLoses(EMPTY, es, k, "");
    }
  }

  /** A write takes from the queue what the kernel says it took, and no more. */
  lemma WriteTakes(s: State, fd: Fd, n: nat, k: Key)
    requires C.Credit(s) && fd in s.outs && s.outs[fd].q != [] && Mine(s.outs[fd].q[0], k) && k in s.insts
    requires 0 < n <= Left(s.outs[fd].q[0], s.outs[fd].off)
    ensures var t := Flush(s, fd, [Wrote(n)]);
            && k in t.insts && n <= |BytesAt(s, fd, k)|
            && t.insts[k].log.taken == s.insts[k].log.taken + BytesAt(s, fd, k)[..n]
            && BytesAt(t, fd, k) == BytesAt(s, fd, k)[n..]
  {
    hide C.Credit, Flush, AccountChunk, Handed, Advance, BytesFor, Flushed;
    FlushOnce(s, fd, [Wrote(n)]);
    var o := s.outs[fd];
    var t := Written(s, fd, n);
    var piece := Piece(o.q[0].data, o.off, n);
    C.WrittenFrame(s, fd, n);
    ValidFirst(s, fd);
    BytesAdvance(o, n, k);
    ChunkShape(s, o.q[0], n, k);
    HandedOne(Moved(s, fd, n), o.q[0], piece, k);
    assert [Wrote(n)][1..] == [];
    FlushOnce(t, fd, []);
    WaitsBytes(t, fd, k);
  }

  /** Nothing more is written: the queue stays, or was empty. */
  lemma WaitsBytes(s: State, fd: Fd, k: Key)
    requires fd in s.outs
    ensures var t := Flush(s, fd, []); t.insts == s.insts && BytesAt(t, fd, k) == BytesAt(s, fd, k)
  {
    hide Flush;
    FlushOnce(s, fd, []);
  }
}

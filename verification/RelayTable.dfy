/** RelayTable (src/server/relay_table.cpp): where to forward a packet is decided by the
    history of packets alone, whenever old entries are evicted. */
module RelayTable {
  import opened Wrappers

  /** A session uid: bytes, the lowest bit of the last one telling the side. */
  type Uid = u: seq<nat> | |u| > 0 witness [0]

  function Flip(b: nat): nat {
    if b % 2 == 0 then b + 1 else b - 1
  }

  function PeerUid(u: Uid): (p: Uid) {
    u[|u| - 1 := Flip(u[|u| - 1])]
  }

  /** The peer of the peer is oneself, and nobody is his own peer. */
  lemma PeerOfPeer(u: Uid)
    ensures PeerUid(PeerUid(u)) == u && PeerUid(u) != u
    ensures |PeerUid(u)| == |u| && PeerUid(u)[..|u| - 1] == u[..|u| - 1]
  {
    assert PeerUid(u)[|u| - 1] == Flip(u[|u| - 1]) != u[|u| - 1];
  }

  datatype Entry = Entry(ep: int, last: int)

  datatype Packet = Packet(uid: Uid, src: int, at: int)

  // ---- what history says ----

  /** The latest packet of a uid. */
  function Latest(h: seq<Packet>, u: Uid): Option<Entry> {
    if h == [] then None
    else
      var p := h[|h| - 1];
      if p.uid == u then Some(Entry(p.src, p.at)) else Latest(h[..|h| - 1], u)
  }

  /** Where a packet is to be forwarded: to the source of the peer's latest packet, if
      that is not too old. */
  function Forward(h: seq<Packet>, u: Uid, now: int, ttl: int): Option<int> {
    var e := Latest(h, PeerUid(u));
    if e.Some? && now - e.value.last <= ttl then Some(e.value.ep) else None
  }

  /** Every packet came no later than `now`. */
  predicate Past(h: seq<Packet>, now: int) {
    forall i :: 0 <= i < |h| ==> h[i].at <= now
  }

  /** The table knows the latest packet of each uid, or that packet is too old already. */
  predicate Knows(m: map<Uid, Entry>, h: seq<Packet>, clock: int, ttl: int) {
    && (forall u :: u in m ==> Latest(h, u) == Some(m[u]))
    && (forall p :: p in h && p.uid !in m ==> Latest(h, p.uid).Some? && clock - Latest(h, p.uid).value.last > ttl)
  }

  lemma {:induction false} LatestSeen(h: seq<Packet>, u: Uid)
    ensures Latest(h, u).Some? <==> exists p :: p in h && p.uid == u
    ensures Latest(h, u).Some? ==> Packet(u, Latest(h, u).value.ep, Latest(h, u).value.last) in h
    decreases |h|
  {
    if h != [] {
      LatestSeen(h[..|h| - 1], u);
      assert forall p :: p in h <==> p in h[..|h| - 1] || p == h[|h| - 1];
    }
  }

  lemma LatestAfter(h: seq<Packet>, p: Packet, u: Uid)
    ensures Latest(h + [p], u) == if p.uid == u then Some(Entry(p.src, p.at)) else Latest(h, u)
  {
    assert (h + [p])[..|h|] == h;
  }

  class Table {
    const ttl: int
    var entries: map<Uid, Entry>
    /** All packets so far, and the latest time seen. */
    ghost var history: seq<Packet>
    ghost var clock: int

    ghost predicate Valid()
      reads this
    {
      Past(history, clock) && Knows(entries, history, clock, ttl)
    }

    constructor (ttl: int)
      ensures Valid() && history == [] && this.ttl == ttl
    {
      this.ttl := ttl;
      entries, history, clock := map[], [], 0;
    }

    /** on_packet */
    method OnPacket(uid: Uid, src: int, now: int) returns (to: Option<int>)
      requires Valid() && clock <= now
      modifies this
      ensures Valid() && clock == now && history == old(history) + [Packet(uid, src, now)]
      ensures to == Forward(old(history), uid, now, ttl)
      ensures entries == old(entries)[uid := Entry(src, now)]
    {
      ghost var p := Packet(uid, src, now);
      LatestAfter(history, p, PeerUid(uid));
      PeerOfPeer(uid);
      LatestSeen(history, PeerUid(uid));
      KnowsMore(entries, history, clock, ttl, p);
      entries := entries[uid := Entry(src, now)];
      var peer := PeerUid(uid);
      if peer !in entries {
        to := None;
      } else if now - entries[peer].last > ttl {
        to := None;
      } else {
        to := Some(entries[peer].ep);
      }
      history := history + [p];
      clock := now;
    }

    /** evict_expired: what is left is what the history still tells. */
    method EvictExpired(now: int)
      requires Valid() && clock <= now
      modifies this
      ensures Valid() && history == old(history) && clock == now
      ensures entries == Fresh(old(entries), now, ttl)
      ensures forall u :: u in entries <==> Latest(history, u).Some? && now - Latest(history, u).value.last <= ttl
    {
      var uids := entries.Keys;
      ghost var e0 := entries;
      while uids != {}
        invariant uids <= entries.Keys <= e0.Keys && history == old(history) && clock == old(clock)
        invariant forall u :: u in entries ==> entries[u] == e0[u]
        invariant forall u :: u in e0 && u !in uids ==> (u in entries <==> now - e0[u].last <= ttl)
        decreases |uids|
      {
        var u :| u in uids;
        uids := uids - {u};
        if now - entries[u].last > ttl {
          entries := entries - {u};
        }
      }
      assert entries == Fresh(e0, now, ttl);
      StillKnows(e0, history, clock, now, ttl);
      clock := now;
    }
  }

  function Fresh(m: map<Uid, Entry>, now: int, ttl: int): map<Uid, Entry> {
    map u | u in m && now - m[u].last <= ttl :: m[u]
  }

  /** Dropping what is too old leaves exactly the uids whose latest packet is not. */
  lemma StillKnows(m: map<Uid, Entry>, h: seq<Packet>, clock: int, now: int, ttl: int)
    requires Knows(m, h, clock, ttl) && clock <= now
    ensures Knows(Fresh(m, now, ttl), h, now, ttl)
    ensures forall u :: u in Fresh(m, now, ttl) <==> Latest(h, u).Some? && now - Latest(h, u).value.last <= ttl
  {
    hide Latest;
    forall u | Latest(h, u).Some? && now - Latest(h, u).value.last <= ttl
      ensures u in Fresh(m, now, ttl)
    {
      LatestSeen(h, u);
    }
    forall p | p in h && p.uid !in Fresh(m, now, ttl)
      ensures Latest(h, p.uid).Some? && now - Latest(h, p.uid).value.last > ttl
    {
      LatestSeen(h, p.uid);
    }
  }

  lemma KnowsMore(m: map<Uid, Entry>, h: seq<Packet>, clock: int, ttl: int, p: Packet)
    requires Knows(m, h, clock, ttl) && clock <= p.at
    ensures Knows(m[p.uid := Entry(p.src, p.at)], h + [p], p.at, ttl)
  {
    var n := m[p.uid := Entry(p.src, p.at)];
    forall u | u in n
      ensures Latest(h + [p], u) == Some(n[u])
    {
      LatestAfter(h, p, u);
    }
    forall q | q in h + [p] && q.uid !in n
      ensures Latest(h + [p], q.uid).Some? && p.at - Latest(h + [p], q.uid).value.last > ttl
    {
      LatestAfter(h, p, q.uid);
      assert q in h;
    }
  }
}

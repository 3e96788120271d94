/** The pairing negotiation (src/peer/pairing.cpp:48-62, 107-295): two sides take turns
    over a channel that delivers every frame; cryptography is symbolic. A sealed message
    opens only with the key and the nonce it was sealed with. */
module Pairing {
  import opened Wrappers
  import R = RelayTable

  const MAX_OFFERS: nat := 10
  const DEFAULT_PORT: nat := 7702

  // ---- addresses and nonces ----

  type Ula = u: seq<nat> | |u| == 16 witness seq(16, i => 0)

  /** same_ula64: the same network, that is the first eight bytes. */
  predicate SameUla64(a: Ula, b: Ula) {
    a[..8] == b[..8]
  }

  predicate Collides(store: seq<Ula>, u: Ula) {
    exists i :: 0 <= i < |store| && SameUla64(store[i], u)
  }

  function BigEndian(n: nat, bytes: nat): (s: seq<nat>)
    ensures |s| == bytes
  {
    if bytes == 0 then [] else BigEndian(n / 256, bytes - 1) + [n % 256]
  }

  function Power256(k: nat): nat {
    if k == 0 then 1 else 256 * Power256(k - 1)
  }

  /** nonce_from: four zero bytes and the counter. */
  function NonceFrom(ctr: nat): (n: seq<nat>)
    ensures |n| == 12
  {
    [0, 0, 0, 0] + BigEndian(ctr, 8)
  }

  method MakeNonce(ctr: nat) returns (n: seq<nat>)
    ensures n == NonceFrom(ctr)
  {
    var tail := [];
    var rest := ctr;
    var i := 0;
    while i < 8
      invariant 0 <= i <= 8 && |tail| == i
      invariant BigEndian(ctr, 8) == BigEndian(rest, 8 - i) + tail
    {
      assert BigEndian(rest, 8 - i) + tail == BigEndian(rest / 256, 7 - i) + ([rest % 256] + tail);
      tail := [rest % 256] + tail;
      rest := rest / 256;
      i := i + 1;
    }
    n := [0, 0, 0, 0] + tail;
  }

  lemma {:induction false} BigEndianApart(a: nat, b: nat, bytes: nat)
    requires a < Power256(bytes) && b < Power256(bytes) && BigEndian(a, bytes) == BigEndian(b, bytes)
    ensures a == b
    decreases bytes
  {
    if bytes > 0 {
      var x, y := BigEndian(a / 256, bytes - 1), BigEndian(b / 256, bytes - 1);
      assert (x + [a % 256])[..bytes - 1] == x && (y + [b % 256])[..bytes - 1] == y;
      assert (x + [a % 256])[bytes - 1] == a % 256 && (y + [b % 256])[bytes - 1] == b % 256;
      BigEndianApart(a / 256, b / 256, bytes - 1);
    }
  }

  /** Counters below 2^64 give different nonces. */
  lemma NoncesApart(a: nat, b: nat)
    requires a < Power256(8) && b < Power256(8) && NonceFrom(a) == NonceFrom(b)
    ensures a == b
  {
    assert NonceFrom(a)[4..] == BigEndian(a, 8) && NonceFrom(b)[4..] == BigEndian(b, 8);
    BigEndianApart(a, b, 8);
  }

  // ---- symbolic cryptography ----

  datatype Purpose = ConfirmLeader | ConfirmFollower | LeaderToFollower | FollowerToLeader

  /** A key derived from the password and both SPAKE2 messages. */
  datatype Key = Key(code: string, leaderMsg: nat, followerMsg: nat, purpose: Purpose)

  datatype Neg =
    | Offer(ula: Ula, uid: R.Uid, pub: nat, lanPort: nat)
    | Accept(pub: nat, lanPort: nat)
    | RejectIp(counter: Ula)
    | Decline

  datatype Box = Box(key: Key, nonce: seq<nat>, content: Neg)

  function Unseal(b: Box, key: Key, nonce: seq<nat>): Option<Neg> {
    if b.key == key && b.nonce == nonce then Some(b.content) else None
  }

  /** What a side signs to confirm the key: the transcript under the confirmation key. */
  datatype Proof = Proof(key: Key)

  // ---- one side ----

  datatype Outcome = Going | Agreed | Failed

  datatype Record = Record(peerPub: nat, uid: R.Uid, ula: Ula, lanPort: nat)

  /** `used` lists the key and nonce of every message this side has sealed. */
  datatype Peer = Peer(
    leader: bool, code: string, spake: nat, peerSpake: nat, pub: nat, ownPort: nat, store: seq<Ula>,
    uid: R.Uid, ula: Ula, l2f: nat, f2l: nat, outcome: Outcome, rec: Option<Record>, used: seq<(Key, seq<nat>)>)

  function KeyFor(p: Peer, purpose: Purpose): Key {
    if p.leader then Key(p.code, p.spake, p.peerSpake, purpose) else Key(p.code, p.peerSpake, p.spake, purpose)
  }

  /** seal_l2f or seal_f2l, by which side this is. */
  function Seal(p: Peer, m: Neg): (Peer, Box) {
    var key := KeyFor(p, if p.leader then LeaderToFollower else FollowerToLeader);
    var nonce := NonceFrom(if p.leader then p.l2f else p.f2l);
    (if p.leader then p.(l2f := p.l2f + 1, used := p.used + [(key, nonce)])
     else p.(f2l := p.f2l + 1, used := p.used + [(key, nonce)]),
     Box(key, nonce, m))
  }

  /** open_f2l or open_l2f: the counter moves whether or not it opens. */
  function Open(p: Peer, b: Box): (Peer, Option<Neg>) {
    if p.leader then (p.(f2l := p.f2l + 1), Unseal(b, KeyFor(p, FollowerToLeader), NonceFrom(p.f2l)))
    else (p.(l2f := p.l2f + 1), Unseal(b, KeyFor(p, LeaderToFollower), NonceFrom(p.l2f)))
  }

  function StoredPort(port: nat): nat {
    if port == DEFAULT_PORT then 0 else port
  }

  /** The leader offers its present address. */
  function SendOffer(l: Peer): (Peer, Box) {
    Seal(l, Offer(l.ula, l.uid, l.pub, l.ownPort))
  }

  function Fail(p: Peer): Peer {
    p.(outcome := Failed)
  }

  /** The follower's side bit: the last bit is set. */
  function FollowerUid(u: R.Uid): R.Uid {
    u[|u| - 1 := if u[|u| - 1] % 2 == 0 then u[|u| - 1] + 1 else u[|u| - 1]]
  }

  /** The follower's turn: refuse an address it knows (with one drawn at random, which
      nobody uses), or accept. */
  function OnOffer(f: Peer, b: Box, drawn: Ula): (Peer, Option<Box>) {
    var (g, m) := Open(f, b);
    if m.None? || !m.value.Offer? then (Fail(g), None)
    else if Collides(g.store, m.value.ula) then
      var (h, r) := Seal(g, RejectIp(drawn));
      (h, Some(r))
    else
      var (h, r) := Seal(g, Accept(g.pub, g.ownPort));
      var off := m.value;
      (h.(rec := Some(Record(off.pub, FollowerUid(off.uid), off.ula, StoredPort(off.lanPort))), outcome := Agreed), Some(r))
  }

  /** The leader's turn again: keep the agreed address, or go on to another one. `next`
      is what drawing until it fits ended with. */
  function OnReply(l: Peer, b: Box, next: Ula): Peer {
    var (k, m) := Open(l, b);
    if m.None? || m.value.Offer? then Fail(k)
    else match m.value
      case Accept(pub, lanPort) => k.(rec := Some(Record(pub, k.uid, k.ula, StoredPort(lanPort))), outcome := Agreed)
      case RejectIp(_) => k.(ula := next)
      case _ => Fail(k)
  }

  // ---- the handshake ----

  /** After SPAKE2 and key confirmation: the follower checks the leader's proof first,
      the leader the follower's. */
  function Confirm(l: Peer, f: Peer): (Peer, Peer) {
    var m := l.(peerSpake := f.spake);
    var g := f.(peerSpake := l.spake);
    if Proof(KeyFor(m, ConfirmLeader)) != Proof(KeyFor(g, ConfirmLeader)) then (Fail(m), Fail(g))
    else if Proof(KeyFor(g, ConfirmFollower)) != Proof(KeyFor(m, ConfirmFollower)) then (Fail(m), g)
    else (m, g)
  }

  // ---- the negotiation ----

  /** What the two sides draw at random: the leader's addresses, one an offer, and the
      follower's counter-proposals. */
  datatype Draws = Draws(offers: seq<Ula>, counters: seq<Ula>)

  /** A leader draws until the address is free in its own store and is not the one that
      came back with the refusal. */
  predicate GoodDraws(store: seq<Ula>, d: Draws) {
    && |d.offers| == MAX_OFFERS + 1 && |d.counters| == MAX_OFFERS
    && (forall i :: 0 <= i <= MAX_OFFERS ==> !Collides(store, d.offers[i]))
    && (forall i :: 0 < i <= MAX_OFFERS ==> !SameUla64(d.offers[i], d.counters[i - 1]))
  }

  /** Up to ten offers in turn; both loops end with the same count. */
  function Negotiate(l: Peer, f: Peer, d: Draws, attempt: nat): (Peer, Peer)
    requires attempt <= MAX_OFFERS && |d.offers| == MAX_OFFERS + 1 && |d.counters| == MAX_OFFERS
    decreases MAX_OFFERS - attempt
  {
    if attempt == MAX_OFFERS then (Fail(l), Fail(f))
    else
      var (m, b) := SendOffer(l);
      var (g, r) := OnOffer(f, b, d.counters[attempt]);
      if r.None? then (Fail(m), g)
      else
        var k := OnReply(m, r.value, d.offers[attempt + 1]);
        if k.outcome == Going && g.outcome == Going then Negotiate(k, g, d, attempt + 1) else (k, g)
  }

  function Run(l: Peer, f: Peer, d: Draws): (Peer, Peer)
    requires |d.offers| == MAX_OFFERS + 1 && |d.counters| == MAX_OFFERS
  {
    var (m, g) := Confirm(l, f);
    if m.outcome == Failed || g.outcome == Failed then (Fail(m), Fail(g)) else Negotiate(m, g, d, 0)
  }

  /** A side as run_pairing starts: the leader with a uid of its own, side bit 0, and an
      address free in its store. */
  predicate Starts(p: Peer) {
    && p.l2f == p.f2l == 0 && p.outcome == Going && p.rec == None && p.used == []
    && (p.leader ==> p.uid[|p.uid| - 1] % 2 == 0)
  }

  /** The two are in step: the same keys, the same counters, one per direction. */
  predicate InStep(l: Peer, f: Peer, n: nat) {
    && l.leader && !f.leader && l.code == f.code && l.spake == f.peerSpake && l.peerSpake == f.spake
    && l.l2f == f.l2f == l.f2l == f.f2l == n
    && l.outcome == Going && f.outcome == Going && l.rec == None && f.rec == None
    && Logged(l, LeaderToFollower, n) && Logged(f, FollowerToLeader, n)
    && l.uid[|l.uid| - 1] % 2 == 0
  }

  /** The first n nonces were used, each once. */
  predicate Logged(p: Peer, purpose: Purpose, n: nat) {
    |p.used| == n && forall i :: 0 <= i < n ==> p.used[i] == (KeyFor(p, purpose), NonceFrom(i))
  }

  /** A record leads to the port the peer listens on: it says 0 when that is the default
      one (which is also where a peer that told none is looked for), and else the port. */
  predicate LeadsTo(rec: Record, port: nat) {
    && (rec.lanPort == 0 <==> port == 0 || port == DEFAULT_PORT)
    && (port != 0 ==> (if rec.lanPort == 0 then DEFAULT_PORT else rec.lanPort) == port)
  }

  /** What both records say once both agree. */
  predicate Matched(l: Peer, f: Peer) {
    && l.outcome == Agreed && f.outcome == Agreed && l.rec.Some? && f.rec.Some?
    && l.rec.value.ula == f.rec.value.ula
    && !Collides(l.store, l.rec.value.ula) && !Collides(f.store, l.rec.value.ula)
    && f.rec.value.uid == R.PeerUid(l.rec.value.uid)
    && l.rec.value.peerPub == f.pub && f.rec.value.peerPub == l.pub
    && LeadsTo(l.rec.value, f.ownPort) && LeadsTo(f.rec.value, l.ownPort)
  }

  /** How it can end after n offers: agreed on both sides, or given up on both. */
  predicate Ends(l: Peer, f: Peer, n: nat) {
    && n <= MAX_OFFERS && l.leader && !f.leader
    && l.l2f == f.l2f == l.f2l == f.f2l == n
    && Logged(l, LeaderToFollower, n) && Logged(f, FollowerToLeader, n)
    && (Matched(l, f) || (l.outcome == Failed && f.outcome == Failed && l.rec == None && f.rec == None))
  }

  lemma OneOffer(l: Peer, f: Peer, d: Draws, n: nat)
    requires InStep(l, f, n) && n < MAX_OFFERS && GoodDraws(l.store, d) && l.ula == d.offers[n]
    ensures var (m, b) := SendOffer(l);
            var (g, r) := OnOffer(f, b, d.counters[n]);
            && r.Some?
            && var k := OnReply(m, r.value, d.offers[n + 1]);
            && k.store == l.store && g.store == f.store
            && if Collides(f.store, d.offers[n])
               then InStep(k, g, n + 1) && k.ula == d.offers[n + 1]
               else Ends(k, g, n + 1) && Matched(k, g)
  {
    hide NonceFrom, Collides;
    var (m, b) := SendOffer(l);
    var (g, r) := OnOffer(f, b, d.counters[n]);
    assert KeyFor(l, LeaderToFollower) == KeyFor(f, LeaderToFollower);
    assert KeyFor(m, FollowerToLeader) == KeyFor(f, FollowerToLeader);
  }

  /** Both sides agree, or both give up after ten offers; and they agree exactly when one
      of the ten addresses the leader draws is free in the follower's store. */
  lemma {:induction false} NegotiationEnds(l: Peer, f: Peer, d: Draws, n: nat) returns (last: nat)
    requires InStep(l, f, n) && n <= MAX_OFFERS && GoodDraws(l.store, d) && l.ula == d.offers[n]
    ensures Ends(Negotiate(l, f, d, n).0, Negotiate(l, f, d, n).1, last)
    ensures Negotiate(l, f, d, n).0.outcome == Agreed <==> exists i :: n <= i < MAX_OFFERS && !Collides(f.store, d.offers[i])
    decreases MAX_OFFERS - n
  {
    hide SendOffer, OnOffer, OnReply, Collides;
    assert |d.offers| == MAX_OFFERS + 1 && |d.counters| == MAX_OFFERS;
    hide GoodDraws;
    if n == MAX_OFFERS {
      last := n;
    } else {
      OneOffer(l, f, d, n);
      var m, b := SendOffer(l).0, SendOffer(l).1;
      var g, r := OnOffer(f, b, d.counters[n]).0, OnOffer(f, b, d.counters[n]).1;
      var k := OnReply(m, r.value, d.offers[n + 1]);
      if Collides(f.store, d.offers[n]) {
        last := NegotiationEnds(k, g, d, n + 1);
        assert Negotiate(l, f, d, n) == Negotiate(k, g, d, n + 1);
      } else {
        last := n + 1;
        assert Negotiate(l, f, d, n) == (k, g);
      }
    }
  }

  /** Pairing agrees: with the same code both sides agree or both give up, after at most
      ten offers; what they agree on matches; their counters stay equal. With different
      codes both give up before any offer. */
  lemma PairingAgrees(l: Peer, f: Peer, d: Draws)
    requires l.leader && !f.leader && Starts(l) && Starts(f) && GoodDraws(l.store, d) && l.ula == d.offers[0]
    ensures var (k, g) := Run(l, f, d);
            && (l.code == f.code ==>
                  && (exists n :: Ends(k, g, n))
                  && (k.outcome == Agreed <==> exists i :: 0 <= i < MAX_OFFERS && !Collides(f.store, d.offers[i])))
            && (l.code != f.code ==> k.outcome == Failed && g.outcome == Failed && k.used == [] && g.used == [])
  {
    hide Negotiate, Collides;
    var (m, g) := Confirm(l, f);
    if l.code == f.code {
      assert InStep(m, g, 0);
      var n := NegotiationEnds(m, g, d, 0);
      assert Ends(Run(l, f, d).0, Run(l, f, d).1, n);
    }
  }

  /** No nonce is ever used twice under a key, by either side. */
  lemma NoNonceTwice(l: Peer, f: Peer, n: nat, i: nat, j: nat)
    requires Ends(l, f, n) && i < j < |l.used + f.used|
    ensures (l.used + f.used)[i] != (l.used + f.used)[j]
  {
    hide NonceFrom, Matched;
    var a, b := if i < n then i else i - n, if j < n then j else j - n;
    assert (l.used + f.used)[i].1 == NonceFrom(a) && (l.used + f.used)[j].1 == NonceFrom(b);
    assert i < n <= j ==> (l.used + f.used)[i].0 != (l.used + f.used)[j].0;
    if NonceFrom(a) == NonceFrom(b) {
      FewOffers(a);
      FewOffers(b);
      NoncesApart(a, b);
    }
  }

  lemma FewOffers(n: nat)
    requires n <= MAX_OFFERS
    ensures n < Power256(8)
  {
    assert Power256(8) >= Power256(1);
  }

  // ---- the loops of the source ----

  /** One side of run_pairing. */
  class Side {
    const leader: bool
    const code: string
    const spake: nat
    const pub: nat
    const ownPort: nat
    const store: seq<Ula>
    const uid: R.Uid
    var peerSpake: nat
    var ula: Ula
    var l2f: nat
    var f2l: nat
    var outcome: Outcome
    var rec: Option<Record>
    var used: seq<(Key, seq<nat>)>

    function View(): Peer
      reads this
    {
      Peer(leader, code, spake, peerSpake, pub, ownPort, store, uid, ula, l2f, f2l, outcome, rec, used)
    }

    constructor (leader: bool, code: string, spake: nat, pub: nat, ownPort: nat, store: seq<Ula>, uid: R.Uid, ula: Ula)
      ensures View() == Peer(leader, code, spake, 0, pub, ownPort, store, uid, ula, 0, 0, Going, None, [])
    {
      this.leader, this.code, this.spake, this.pub, this.ownPort := leader, code, spake, pub, ownPort;
      this.store, this.uid, this.ula := store, uid, ula;
      peerSpake, l2f, f2l, outcome, rec, used := 0, 0, 0, Going, None, [];
    }

    /** ula_collides */
    method UlaCollides(u: Ula) returns (yes: bool)
      ensures yes <==> Collides(store, u)
    {
      var i := 0;
      while i < |store|
        invariant 0 <= i <= |store|
        invariant forall k :: 0 <= k < i ==> !SameUla64(store[k], u)
      {
        if SameUla64(store[i], u) {
          return true;
        }
        i := i + 1;
      }
      return false;
    }

    method DoSeal(m: Neg) returns (b: Box)
      modifies this`l2f, this`f2l, this`used
      ensures (View(), b) == Seal(old(View()), m)
    {
      var nonce := MakeNonce(if leader then l2f else f2l);
      var key := KeyFor(View(), if leader then LeaderToFollower else FollowerToLeader);
      used := used + [(key, nonce)];
      if leader {
        l2f := l2f + 1;
      } else {
        f2l := f2l + 1;
      }
      b := Box(key, nonce, m);
    }

    method DoOpen(b: Box) returns (m: Option<Neg>)
      modifies this`l2f, this`f2l
      ensures (View(), m) == Open(old(View()), b)
    {
      var nonce := MakeNonce(if leader then f2l else l2f);
      m := Unseal(b, KeyFor(View(), if leader then FollowerToLeader else LeaderToFollower), nonce);
      if leader {
        f2l := f2l + 1;
      } else {
        l2f := l2f + 1;
      }
    }

    method DoSendOffer() returns (b: Box)
      modifies this`l2f, this`f2l, this`used
      ensures (View(), b) == SendOffer(old(View()))
    {
      hide Seal;
      b := DoSeal(Offer(ula, uid, pub, ownPort));
    }

    /** One round of the follower's loop. */
    method DoOnOffer(b: Box, drawn: Ula) returns (r: Option<Box>)
      modifies this
      ensures (View(), r) == OnOffer(old(View()), b, drawn)
    {
      hide Open, Seal, Collides, NonceFrom;
      var m := DoOpen(b);
      if m.None? || !m.value.Offer? {
        outcome := Failed;
        return None;
      }
      var off := m.value;
      var taken := UlaCollides(off.ula);
      if taken {
        var c := DoSeal(RejectIp(drawn));
        return Some(c);
      }
      var c := DoSeal(Accept(pub, ownPort));
      rec := Some(Record(off.pub, FollowerUid(off.uid), off.ula, StoredPort(off.lanPort)));
      outcome := Agreed;
      return Some(c);
    }

    /** The second half of a round of the leader's loop. */
    method DoOnReply(b: Box, next: Ula)
      modifies this
      ensures View() == OnReply(old(View()), b, next)
    {
      hide Open;
      var m := DoOpen(b);
      if m.Some? && m.value.Accept? {
        rec := Some(Record(m.value.pub, uid, ula, StoredPort(m.value.lanPort)));
        outcome := Agreed;
      } else if m.Some? && m.value.RejectIp? {
        ula := next;
      } else {
        outcome := Failed;
      }
    }
  }

  /** The two attempt loops, turn by turn. */
  method RunLoops(leader: Side, follower: Side, d: Draws)
    requires leader != follower && |d.offers| == MAX_OFFERS + 1 && |d.counters| == MAX_OFFERS
    requires leader.outcome == Going && follower.outcome == Going
    modifies leader, follower
    ensures (leader.View(), follower.View()) == Negotiate(old(leader.View()), old(follower.View()), d, 0)
  {
    hide SendOffer, OnOffer, OnReply;
    var attempt := 0;
    ghost var l0, f0 := leader.View(), follower.View();
    while attempt < MAX_OFFERS && leader.outcome == Going && follower.outcome == Going
      invariant attempt <= MAX_OFFERS
      invariant leader.outcome == Going && follower.outcome == Going ==>
                  Negotiate(l0, f0, d, 0) == Negotiate(leader.View(), follower.View(), d, attempt)
      invariant leader.outcome != Going || follower.outcome != Going ==>
                  Negotiate(l0, f0, d, 0) == (leader.View(), follower.View())
    {
      var b := leader.DoSendOffer();
      var r := follower.DoOnOffer(b, d.counters[attempt]);
      if r.None? {
        leader.outcome := Failed;
      } else {
        leader.DoOnReply(r.value, d.offers[attempt + 1]);
      }
      attempt := attempt + 1;
    }
    if leader.outcome == Going && follower.outcome == Going {
      leader.outcome, follower.outcome := Failed, Failed;
    }
  }
}

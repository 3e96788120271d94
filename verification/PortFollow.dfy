/** Following the peer's LAN port (src/peer/pathman.cpp:74-86, 250-262, 343-381 and
    pathman.h:39-54, 119-129, 159-164, 214-228): a question with a fresh nonce, an answer
    with the pair's MAC, over a network that may lose, repeat, reorder, delay and replay
    what it sees, and put any MAC it has seen on any packet of its own. The MAC is a term
    that only the two key holders can build. */
module PortFollow {
  import opened Wrappers

  const ANSWER_MS: nat := 30000
  const REMEMBER: nat := 64
  const FAST_MS: nat := 5000
  const FAST_TRIES: nat := 6
  const SLOW_MS: nat := 300000
  const DEFAULT_PORT: nat := 7702

  // ---- what is signed ----

  type Nonce = n: seq<nat> | |n| == 16 witness seq(16, i => 0)

  datatype Label = Who | Here | PortQ | PortA

  function Bytes(l: Label): seq<nat> {
    match l
    case Who => [119, 104, 111]
    case Here => [104, 101, 114, 101]
    case PortQ => [112, 111, 114, 116, 113]
    case PortA => [112, 111, 114, 116, 97]
  }

  /** The MAC of the pair over these bytes. */
  datatype Mac = Mac(input: seq<nat>) | Junk(n: nat)

  /** lan_mac: over the label, the sender's side and the data. */
  function LanMac(l: Label, side: bool, data: seq<nat>): Mac {
    Mac(Bytes(l) + [if side then 1 else 0] + data)
  }

  function PortBytes(port: nat): seq<nat> {
    [port / 256 % 256, port % 256]
  }

  function DataSize(l: Label): nat {
    if l == PortA then 18 else 16
  }

  /** The four labels give inputs of four lengths, so one message is never another, nor
      one side's the other's. */
  lemma MacsApart(l: Label, side: bool, data: seq<nat>, m: Label, other: bool, more: seq<nat>)
    requires |data| == DataSize(l) && |more| == DataSize(m)
    requires LanMac(l, side, data) == LanMac(m, other, more)
    ensures l == m && side == other && data == more
  {
    var a, b := Bytes(l) + [if side then 1 else 0], Bytes(m) + [if other then 1 else 0];
    assert |a + data| == |b + more|;
    assert (a + data)[|a| - 1] == (b + more)[|b| - 1];
    assert (a + data)[|a|..] == data && (b + more)[|b|..] == more;
  }

  lemma SignedApart(n: Nonce, port: nat, m: Nonce, q: nat)
    requires port < 0x10000 && q < 0x10000 && n + PortBytes(port) == m + PortBytes(q)
    ensures n == m && port == q
  {
    var a, b := n + PortBytes(port), m + PortBytes(q);
    assert a[..16] == n && b[..16] == m;
    assert a[16] == PortBytes(port)[0] && a[17] == PortBytes(port)[1];
    assert b[16] == PortBytes(q)[0] && b[17] == PortBytes(q)[1];
  }

  // ---- one side ----

  datatype Ask = Ask(nonce: Nonce, at: nat)

  datatype Timer = Timer(last: nat)

  /** `listen` is the port this daemon listens on (0: none), `lanPort` where it looks for
      the peer. */
  datatype Party = Party(side: bool, listen: nat, active: bool, asked: seq<Ask>, seen: seq<Nonce>,
                         lanPort: nat, answered: bool, tries: nat, timer: Timer)

  datatype Packet = Question(nonce: Nonce, mac: Mac) | Answer(nonce: Nonce, port: nat, mac: Mac)

  function Remember(v: seq<Nonce>, x: Nonce): seq<Nonce> {
    (if |v| >= REMEMBER then v[1..] else v) + [x]
  }

  /** The pending asks that are not too old. */
  function Pending(asked: seq<Ask>, now: nat): seq<Ask> {
    if asked == [] then []
    else
      var rest := Pending(asked[..|asked| - 1], now);
      var a := asked[|asked| - 1];
      if now > a.at + ANSWER_MS then rest else rest + [a]
  }

  /** send_port_query, with the nonce that was drawn. */
  function SendQuery(p: Party, nonce: Nonce, now: nat): (Party, Packet) {
    (p.(asked := Pending(p.asked, now) + [Ask(nonce, now)], tries := p.tries + 1),
     Question(nonce, LanMac(PortQ, p.side, nonce)))
  }

  /** PORTQ in handle_disco. */
  function OnQuestion(p: Party, nonce: Nonce, mac: Mac): (Party, Option<Packet>) {
    if p.listen == 0 || !p.active || mac != LanMac(PortQ, !p.side, nonce) || nonce in p.seen then (p, None)
    else
      (p.(seen := Remember(p.seen, nonce)),
       Some(Answer(nonce, p.listen, LanMac(PortA, p.side, nonce + PortBytes(p.listen)))))
  }

  /** The first pending ask with this nonce, or the number of them. */
  function FindAsk(asked: seq<Ask>, nonce: Nonce): (i: nat)
    ensures i <= |asked| && (i < |asked| ==> asked[i].nonce == nonce)
    ensures forall k :: 0 <= k < i ==> asked[k].nonce != nonce
  {
    if asked == [] || asked[0].nonce == nonce then 0 else 1 + FindAsk(asked[1..], nonce)
  }

  predicate Accepts(p: Party, nonce: Nonce, port: nat, mac: Mac, now: nat) {
    && 0 < port < 0x10000
    && var i := FindAsk(p.asked, nonce);
    i < |p.asked| && now <= p.asked[i].at + ANSWER_MS && mac == LanMac(PortA, !p.side, nonce + PortBytes(port))
  }

  /** PORTA in handle_disco; following the port is set_lan_port. */
  function OnAnswer(p: Party, nonce: Nonce, port: nat, mac: Mac, now: nat): Party {
    if !Accepts(p, nonce, port, mac, now) then p
    else
      var i := FindAsk(p.asked, nonce);
      p.(asked := p.asked[..i] + p.asked[i + 1..], answered := true, lanPort := port)
  }

  /** restart_port_ask */
  function RestartAsk(p: Party): Party {
    p.(answered := false, tries := 0, timer := Timer(0))
  }

  /** set_active */
  function SetActive(p: Party, on: bool): Party {
    (if on && !p.active then RestartAsk(p) else p).(active := on)
  }

  /** Timer::due: does the gate open, and the timer after. */
  function Due(t: Timer, now: nat, interval: nat): (bool, Timer) {
    if now < t.last + interval then (false, t) else (true, Timer(now))
  }

  /** One call of a timer. */
  datatype Call = Call(now: nat, interval: nat)

  /** Which calls of a timer that is not re-armed open the gate. */
  function Opens(t: Timer, calls: seq<Call>): (o: seq<bool>)
    ensures |o| == |calls|
    decreases |calls|
  {
    if calls == [] then []
    else
      var (due, u) := Due(t, calls[0].now, calls[0].interval);
      [due] + Opens(u, calls[1..])
  }

  /** A call opens the gate exactly when its interval has gone by since the timer's stamp
      and since every call before that did. */
  lemma {:induction false} OpensWhen(t: Timer, calls: seq<Call>, j: nat)
    requires j < |calls|
    ensures Opens(t, calls)[j] <==>
              && calls[j].now >= t.last + calls[j].interval
              && forall i :: 0 <= i < j && Opens(t, calls)[i] ==> calls[j].now >= calls[i].now + calls[j].interval
    decreases |calls|
  {
    if j > 0 {
      var (due, u) := Due(t, calls[0].now, calls[0].interval);
      var rest := Opens(u, calls[1..]);
      OpensWhen(u, calls[1..], j - 1);
      assert forall i :: 0 < i < |calls| ==> Opens(t, calls)[i] == rest[i - 1] && calls[i] == calls[1..][i - 1];
    }
  }

  /** How long tick waits between questions: quickly at first, then now and then. */
  function AskInterval(p: Party): nat {
    if !p.answered && p.tries < FAST_TRIES then FAST_MS else SLOW_MS
  }

  /** Is it time for tick to ask? */
  predicate AskDue(p: Party, now: nat) {
    p.active && Due(p.timer, now, AskInterval(p)).0
  }

  // ---- the two sides and the network ----

  /** A port a side listened on at some moment. */
  datatype Moment = Moment(side: bool, port: nat, at: nat)

  datatype Asked = Asked(side: bool, at: nat)

  datatype Accepted = Accepted(side: bool, nonce: Nonce, port: nat, at: nat)

  /** `macs` are all MACs ever sent; `asks` all questions ever asked, by nonce; `moments`
      what each side listened on and when; `accepts` every port accepted. */
  datatype World = World(
    zero: Party, one: Party, clock: nat, macs: set<Mac>,
    asks: map<Nonce, Asked>, moments: set<Moment>, accepts: seq<Accepted>)

  function Side(w: World, side: bool): Party {
    if side then w.one else w.zero
  }

  function SetSide(w: World, side: bool, p: Party): World {
    if side then w.(one := p) else w.(zero := p)
  }

  /** Both sides listen where they listen now. */
  function Noted(w: World): World {
    w.(moments := w.moments + {Moment(false, w.zero.listen, w.clock), Moment(true, w.one.listen, w.clock)})
  }

  datatype Event =
    | Passes(time: nat)                           // time goes by
    | Asks(side: bool, nonce: Nonce)              // tick sends a question, with a nonce never drawn before
    | Delivers(side: bool, packet: Packet)        // the network hands over what it likes
    | Lan(side: bool, here: bool, data: Nonce)    // LAN discovery signs something of its own
    | Activates(side: bool, on: bool)
    | Restarts(side: bool, listen: nat, lanPort: nat)  // the daemon restarts, perhaps on another port

  /** The network can put on a packet a MAC it has seen, or one that fits nothing. */
  predicate Forgeable(w: World, p: Packet) {
    p.mac in w.macs || p.mac.Junk?
  }

  predicate Possible(w: World, e: Event) {
    match e
    case Asks(side, nonce) => nonce !in w.asks && AskDue(Side(w, side), w.clock)
    case Delivers(_, packet) => Forgeable(w, packet)
    case Restarts(_, listen, _) => listen < 0x10000
    case _ => true
  }

  function Happens(w: World, e: Event): World {
    match e
    case Passes(time) => Noted(w.(clock := w.clock + time))
    case Asks(side, nonce) =>
      var (p, q) := SendQuery(Side(w, side).(timer := Timer(w.clock)), nonce, w.clock);
      SetSide(w, side, p).(macs := w.macs + {q.mac}, asks := w.asks[nonce := Asked(side, w.clock)])
    case Delivers(side, Question(nonce, mac)) =>
      var (p, a) := OnQuestion(Side(w, side), nonce, mac);
      SetSide(w, side, p).(macs := w.macs + if a.Some? then {a.value.mac} else {})
    case Delivers(side, Answer(nonce, port, mac)) =>
      var p := Side(w, side);
      SetSide(w, side, OnAnswer(p, nonce, port, mac, w.clock))
      .(accepts := if Accepts(p, nonce, port, mac, w.clock) then w.accepts + [Accepted(side, nonce, port, w.clock)] else w.accepts)
    case Lan(side, here, data) => w.(macs := w.macs + {LanMac(if here then Here else Who, side, data)})
    case Activates(side, on) => SetSide(w, side, SetActive(Side(w, side), on))
    case Restarts(side, listen, lanPort) =>
      Noted(SetSide(w, side, Party(side, listen, false, [], [], if lanPort == 0 then DEFAULT_PORT else lanPort, false, 0, Timer(0))))
  }

  function Start(listen0: nat, listen1: nat): World {
    Noted(World(Party(false, listen0, false, [], [], DEFAULT_PORT, false, 0, Timer(0)),
                Party(true, listen1, false, [], [], DEFAULT_PORT, false, 0, Timer(0)), 0, {}, map[], {}, []))
  }

  // ---- the invariant ----

  predicate SignedByLan(m: Mac, here: bool, side: bool, data: Nonce) {
    m == LanMac(if here then Here else Who, side, data)
  }

  predicate SignedByAsk(w: World, m: Mac, n: Nonce) {
    n in w.asks && m == LanMac(PortQ, w.asks[n].side, n)
  }

  predicate SignedByAnswer(w: World, m: Mac, n: Nonce, port: nat, at: nat) {
    Answered(w, n, port, at) && m == LanMac(PortA, !w.asks[n].side, n + PortBytes(port))
  }

  /** Where a MAC can have come from. */
  ghost predicate Explained(w: World, m: Mac) {
    || (exists here: bool, side: bool, data: Nonce :: SignedByLan(m, here, side, data))
    || (exists n: Nonce :: SignedByAsk(w, m, n))
    || (exists n: Nonce, port: nat, at: nat :: SignedByAnswer(w, m, n, port, at))
  }

  /** The peer of a side listened on a port at a moment of this span. */
  predicate PeerListened(w: World, side: bool, port: nat, from: nat, at: nat, to: nat) {
    from <= at <= to && Moment(!side, port, at) in w.moments
  }

  /** The side that was asked listened on this port between the question and now. */
  predicate Answered(w: World, n: Nonce, port: nat, at: nat) {
    n in w.asks && w.asks[n].at <= at <= w.clock && port < 0x10000 && Moment(!w.asks[n].side, port, at) in w.moments
  }

  ghost predicate PartyOk(w: World, side: bool) {
    var p := Side(w, side);
    && p.side == side && p.listen < 0x10000 && Moment(side, p.listen, w.clock) in w.moments
    && (forall i :: 0 <= i < |p.asked| ==>
          p.asked[i].nonce in w.asks && w.asks[p.asked[i].nonce] == Asked(side, p.asked[i].at))
    && (forall i, j :: 0 <= i < j < |p.asked| ==> p.asked[i].nonce != p.asked[j].nonce)
    && (forall k, i :: 0 <= k < |w.accepts| && 0 <= i < |p.asked| && w.accepts[k].side == side ==>
          p.asked[i].nonce != w.accepts[k].nonce)
  }

  /** An accepted port was the peer's own at a moment between our question and the
      acceptance, which came within 30 seconds. */
  ghost predicate Genuine(w: World, a: Accepted) {
    && a.nonce in w.asks && w.asks[a.nonce].side == a.side
    && w.asks[a.nonce].at <= a.at <= w.clock && a.at <= w.asks[a.nonce].at + ANSWER_MS
    && exists at: nat :: PeerListened(w, a.side, a.port, w.asks[a.nonce].at, at, a.at)
  }

  ghost predicate Inv(w: World) {
    && PartyOk(w, false) && PartyOk(w, true)
    && (forall m :: m in w.macs ==> Explained(w, m))
    && (forall n :: n in w.asks ==> w.asks[n].at <= w.clock)
    && (forall k :: 0 <= k < |w.accepts| ==> Genuine(w, w.accepts[k]))
    && (forall j, k :: 0 <= j < k < |w.accepts| ==>
          w.accepts[j].side != w.accepts[k].side || w.accepts[j].nonce != w.accepts[k].nonce)
  }

  /** What was explained or genuine stays so as the records grow. */
  predicate Grows(w: World, v: World) {
    && w.clock <= v.clock && w.moments <= v.moments
    && (forall n :: n in w.asks ==> n in v.asks && v.asks[n] == w.asks[n])
  }

  lemma ExplainedStays(w: World, v: World, m: Mac)
    requires Explained(w, m) && Grows(w, v)
    ensures Explained(v, m)
  {
    hide LanMac;
    if here: bool, side: bool, data: Nonce :| SignedByLan(m, here, side, data) {
      assert Explained(v, m);
    } else if n: Nonce :| SignedByAsk(w, m, n) {
      assert SignedByAsk(v, m, n);
    } else {
      var n: Nonce, port: nat, at: nat :| SignedByAnswer(w, m, n, port, at);
      assert SignedByAnswer(v, m, n, port, at);
    }
  }

  lemma GenuineStays(w: World, v: World, a: Accepted)
    requires Genuine(w, a) && Grows(w, v)
    ensures Genuine(v, a)
  {
    var at: nat :| PeerListened(w, a.side, a.port, w.asks[a.nonce].at, at, a.at);
    assert PeerListened(v, a.side, a.port, v.asks[a.nonce].at, at, a.at);
  }

  lemma KeepsRecords(w: World, v: World)
    requires Inv(w) && Grows(w, v)
    requires forall m :: m in v.macs && m !in w.macs ==> Explained(v, m)
    ensures forall m :: m in v.macs ==> Explained(v, m)
    ensures forall k :: 0 <= k < |w.accepts| ==> Genuine(v, w.accepts[k])
  {
    hide Explained, Genuine, PartyOk;
    forall m | m in v.macs
      ensures Explained(v, m)
    {
      if m in w.macs {
        ExplainedStays(w, v, m);
      }
    }
    forall k | 0 <= k < |w.accepts|
      ensures Genuine(v, w.accepts[k])
    {
      GenuineStays(w, v, w.accepts[k]);
    }
  }

  /** A side whose own part did not change. */
  lemma OtherKept(w: World, v: World, side: bool)
    requires PartyOk(w, side) && Grows(w, v) && Side(v, side) == Side(w, side) && v.accepts == w.accepts
    requires Moment(side, Side(w, side).listen, v.clock) in v.moments
    ensures PartyOk(v, side)
  {}

  lemma {:induction false} PendingIs(asked: seq<Ask>, now: nat)
    ensures |Pending(asked, now)| <= |asked|
    ensures forall a :: a in Pending(asked, now) <==> a in asked && now <= a.at + ANSWER_MS
    ensures (forall i, j :: 0 <= i < j < |asked| ==> asked[i].nonce != asked[j].nonce) ==>
              forall i, j :: 0 <= i < j < |Pending(asked, now)| ==> Pending(asked, now)[i].nonce != Pending(asked, now)[j].nonce
    decreases |asked|
  {
    if asked != [] {
      var front, last := asked[..|asked| - 1], asked[|asked| - 1];
      PendingIs(front, now);
      assert forall a :: a in asked <==> a in front || a == last;
      var p := Pending(front, now);
      forall k | 0 <= k < |p| && forall i, j :: 0 <= i < j < |asked| ==> asked[i].nonce != asked[j].nonce
        ensures p[k].nonce != last.nonce
      {
        assert p[k] in front;
      }
    }
  }

  // ---- every event keeps it ----

  lemma AsksKeeps(w: World, side: bool, nonce: Nonce)
    requires Inv(w) && Possible(w, Asks(side, nonce))
    ensures Inv(Happens(w, Asks(side, nonce)))
  {
    hide Explained, Genuine, LanMac, AskDue;
    var v := Happens(w, Asks(side, nonce));
    var p := Side(w, side);
    assert Side(v, side).asked == Pending(p.asked, w.clock) + [Ask(nonce, w.clock)];
    forall k | 0 <= k < |w.accepts|
      ensures w.accepts[k].nonce in w.asks
    {
      GenuineAsked(w, w.accepts[k]);
    }
    AskedKept(w, v, side, nonce);
    OtherKept(w, v, !side);
    assert Explained(v, LanMac(PortQ, side, nonce)) by { QuestionExplained(v, nonce); }
    KeepsRecords(w, v);
  }

  lemma GenuineAsked(w: World, a: Accepted)
    requires Genuine(w, a)
    ensures a.nonce in w.asks
  {}

  lemma QuestionExplained(v: World, nonce: Nonce)
    requires nonce in v.asks
    ensures Explained(v, LanMac(PortQ, v.asks[nonce].side, nonce))
  {
    assert SignedByAsk(v, LanMac(PortQ, v.asks[nonce].side, nonce), nonce);
  }

  lemma AskedKept(w: World, v: World, side: bool, nonce: Nonce)
    requires PartyOk(w, side) && nonce !in w.asks && v.asks == w.asks[nonce := Asked(side, w.clock)]
    requires v.clock == w.clock && v.moments == w.moments && v.accepts == w.accepts
    requires forall k :: 0 <= k < |w.accepts| ==> w.accepts[k].nonce in w.asks
    requires Side(v, side) == Side(w, side).(asked := Pending(Side(w, side).asked, w.clock) + [Ask(nonce, w.clock)],
                                             tries := Side(v, side).tries, timer := Side(v, side).timer)
    ensures PartyOk(v, side)
  {
    var p, q := Side(w, side), Side(v, side);
    var kept := Pending(p.asked, w.clock);
    PendingIs(p.asked, w.clock);
    forall i | 0 <= i < |q.asked|
      ensures q.asked[i].nonce in v.asks && v.asks[q.asked[i].nonce] == Asked(side, q.asked[i].at)
      ensures i < |kept| ==> q.asked[i].nonce != nonce
      ensures forall k :: 0 <= k < |w.accepts| && w.accepts[k].side == side ==> q.asked[i].nonce != w.accepts[k].nonce
    {
      if i < |kept| {
        assert kept[i] in p.asked;
      }
    }
  }

  lemma QuestionKeeps(w: World, side: bool, nonce: Nonce, mac: Mac)
    requires Inv(w) && (mac in w.macs || mac.Junk?)
    ensures Inv(Happens(w, Delivers(side, Question(nonce, mac))))
  {
    hide Explained, Genuine;
    var v := Happens(w, Delivers(side, Question(nonce, mac)));
    var p := Side(w, side);
    var (q, a) := OnQuestion(p, nonce, mac);
    assert Side(v, side) == q && Side(v, !side) == Side(w, !side);
    assert PartyOk(v, side);
    OtherKept(w, v, !side);
    if a.Some? {
      Traced(w, PortQ, !side, nonce, nonce, 0);
      assert Answered(v, nonce, p.listen, w.clock);
      AnswerExplained(v, nonce, p.listen, w.clock);
    }
    KeepsRecords(w, v);
  }

  lemma AnswerExplained(v: World, n: Nonce, port: nat, at: nat)
    requires Answered(v, n, port, at)
    ensures Explained(v, LanMac(PortA, !v.asks[n].side, n + PortBytes(port)))
  {
    assert SignedByAnswer(v, LanMac(PortA, !v.asks[n].side, n + PortBytes(port)), n, port, at);
  }

  /** A MAC of the question or the answer that is about was made by the key holder it
      names: the question by the one who asked, the answer by one who listened there. */
  lemma Traced(w: World, l: Label, side: bool, data: seq<nat>, nonce: Nonce, port: nat)
    requires Inv(w) && LanMac(l, side, data) in w.macs && port < 0x10000
    requires (l == PortQ && data == nonce) || (l == PortA && data == nonce + PortBytes(port))
    ensures nonce in w.asks
    ensures l == PortQ ==> w.asks[nonce].side == side
    ensures l == PortA ==> w.asks[nonce].side == !side && exists at: nat :: Answered(w, nonce, port, at)
  {
    hide LanMac;
    var m := LanMac(l, side, data);
    assert Explained(w, m);
    if here: bool, s: bool, d: Nonce :| SignedByLan(m, here, s, d) {
      MacsApart(l, side, data, if here then Here else Who, s, d);
      assert false;
    } else if n: Nonce :| SignedByAsk(w, m, n) {
      MacsApart(l, side, data, PortQ, w.asks[n].side, n);
    } else {
      var n: Nonce, q: nat, at: nat :| SignedByAnswer(w, m, n, q, at);
      MacsApart(l, side, data, PortA, !w.asks[n].side, n + PortBytes(q));
      SignedApart(nonce, port, n, q);
    }
  }

  lemma AnswerKeeps(w: World, side: bool, nonce: Nonce, port: nat, mac: Mac)
    requires Inv(w) && (mac in w.macs || mac.Junk?)
    ensures Inv(Happens(w, Delivers(side, Answer(nonce, port, mac))))
  {
    hide Explained, LanMac, Answered;
    var v := Happens(w, Delivers(side, Answer(nonce, port, mac)));
    var p := Side(w, side);
    if Accepts(p, nonce, port, mac, w.clock) {
      var i := FindAsk(p.asked, nonce);
      MacIs(PortA, !side, nonce + PortBytes(port));
      Traced(w, PortA, !side, nonce + PortBytes(port), nonce, port);
      var at: nat :| Answered(w, nonce, port, at);
      AcceptGenuine(w, v, Accepted(side, nonce, port, w.clock), at);
      AcceptedKept(w, v, side, i);
      OtherAccepts(w, v, !side);
      KeepsRecords(w, v);
      NotYetAccepted(w, side, i);
    } else {
      assert v == w;
    }
  }

  /** What is still asked was not accepted before. */
  lemma NotYetAccepted(w: World, side: bool, i: nat)
    requires Inv(w) && i < |Side(w, side).asked|
    ensures forall k :: 0 <= k < |w.accepts| ==> w.accepts[k].side != side || w.accepts[k].nonce != Side(w, side).asked[i].nonce
  {
    hide Explained, Genuine;
    assert PartyOk(w, side);
  }

  lemma MacIs(l: Label, side: bool, data: seq<nat>)
    ensures LanMac(l, side, data).Mac?
  {}

  lemma AcceptGenuine(w: World, v: World, a: Accepted, at: nat)
    requires Inv(w) && Grows(w, v) && Answered(w, a.nonce, a.port, at) && a.at == w.clock
    requires w.asks[a.nonce].side == a.side && w.clock <= w.asks[a.nonce].at + ANSWER_MS
    ensures Genuine(v, a)
  {
    hide Explained;
    assert PeerListened(v, a.side, a.port, v.asks[a.nonce].at, at, a.at);
  }

  /** The ask that was answered is gone. */
  lemma AcceptedKept(w: World, v: World, side: bool, i: nat)
    requires PartyOk(w, side) && i < |Side(w, side).asked|
    requires v.asks == w.asks && v.clock == w.clock && v.moments == w.moments
    requires |v.accepts| == |w.accepts| + 1 && v.accepts == w.accepts + [v.accepts[|w.accepts|]] && v.accepts[|w.accepts|].nonce == Side(w, side).asked[i].nonce
    requires var p, q := Side(w, side), Side(v, side);
             q == p.(asked := p.asked[..i] + p.asked[i + 1..], answered := q.answered, lanPort := q.lanPort)
    ensures PartyOk(v, side)
  {
    var p, q := Side(w, side), Side(v, side);
    forall k | 0 <= k < |q.asked|
      ensures q.asked[k] == p.asked[if k < i then k else k + 1]
    {}
  }

  lemma OtherAccepts(w: World, v: World, side: bool)
    requires PartyOk(w, side) && Side(v, side) == Side(w, side)
    requires v.asks == w.asks && v.clock == w.clock && v.moments == w.moments
    requires |v.accepts| == |w.accepts| + 1 && v.accepts[..|w.accepts|] == w.accepts && v.accepts[|w.accepts|].side != side
    ensures PartyOk(v, side)
  {
    assert forall k :: 0 <= k < |w.accepts| ==> v.accepts[k] == v.accepts[..|w.accepts|][k];
  }

  lemma LanKeeps(w: World, side: bool, here: bool, data: Nonce)
    requires Inv(w)
    ensures Inv(Happens(w, Lan(side, here, data)))
  {
    hide Genuine, LanMac;
    var v := Happens(w, Lan(side, here, data));
    OtherKept(w, v, false);
    OtherKept(w, v, true);
    assert SignedByLan(LanMac(if here then Here else Who, side, data), here, side, data);
    KeepsRecords(w, v);
  }

  lemma QuietKeeps(w: World, e: Event)
    requires Inv(w) && Possible(w, e) && (e.Passes? || e.Activates? || e.Restarts?)
    ensures Inv(Happens(w, e))
  {
    hide Explained, Genuine, LanMac;
    var v := Happens(w, e);
    KeepsRecords(w, v);
    if e.Passes? {
      OtherKept(w, v, false);
      OtherKept(w, v, true);
    } else {
      OtherKept(w, v, !e.side);
    }
  }

  lemma EventKeeps(w: World, e: Event)
    requires Inv(w) && Possible(w, e)
    ensures Inv(Happens(w, e))
  {
    hide Inv, AskDue;
    match e
    case Asks(side, nonce) => AsksKeeps(w, side, nonce);
    case Delivers(side, Question(nonce, mac)) => QuestionKeeps(w, side, nonce, mac);
    case Delivers(side, Answer(nonce, port, mac)) => AnswerKeeps(w, side, nonce, port, mac);
    case Lan(side, here, data) => LanKeeps(w, side, here, data);
    case _ => QuietKeeps(w, e);
  }

  predicate PossibleRun(w: World, es: seq<Event>)
    decreases |es|
  {
    es == [] || (Possible(w, es[0]) && PossibleRun(Happens(w, es[0]), es[1..]))
  }

  function Run(w: World, es: seq<Event>): World
    decreases |es|
  {
    if es == [] then w else Run(Happens(w, es[0]), es[1..])
  }

  lemma {:induction false} RunKeeps(w: World, es: seq<Event>)
    requires Inv(w) && PossibleRun(w, es)
    ensures Inv(Run(w, es))
    decreases |es|
  {
    hide Inv, Possible, Happens;
    if es != [] {
      EventKeeps(w, es[0]);
      RunKeeps(Happens(w, es[0]), es[1..]);
    }
  }

  /** Port following is fresh in every run, whatever the network does and however often
      the daemons restart: an accepted port is one the peer's daemon really listened on
      between our question and the acceptance, at most 30 seconds after the question, and
      no question is answered twice. */
  lemma PortFresh(listen0: nat, listen1: nat, es: seq<Event>, k: nat)
    requires listen0 < 0x10000 && listen1 < 0x10000 && PossibleRun(Start(listen0, listen1), es)
    requires k < |Run(Start(listen0, listen1), es).accepts|
    ensures var w := Run(Start(listen0, listen1), es);
            var a := w.accepts[k];
            && a.nonce in w.asks && w.asks[a.nonce].side == a.side
            && w.asks[a.nonce].at <= a.at <= w.asks[a.nonce].at + ANSWER_MS
            && (exists at: nat :: PeerListened(w, a.side, a.port, w.asks[a.nonce].at, at, a.at))
            && (forall j :: 0 <= j < k ==> w.accepts[j].side != a.side || w.accepts[j].nonce != a.nonce)
  {
    hide Run, PossibleRun, Explained;
    RunKeeps(Start(listen0, listen1), es);
    assert Genuine(Run(Start(listen0, listen1), es), Run(Start(listen0, listen1), es).accepts[k]);
  }

  // ---- where a side looks for the other ----

  /** The port that an event makes a side look for the other on, if it does: a restart with
      a stored port (0 stands for the default), or an answer that is accepted. */
  function NewPort(w: World, e: Event, side: bool): Option<nat> {
    var v := Happens(w, e);
    if e.Restarts? && e.side == side then Some(if e.lanPort == 0 then DEFAULT_PORT else e.lanPort)
    else if |v.accepts| == |w.accepts| + 1 && v.accepts[|w.accepts|].side == side then Some(v.accepts[|w.accepts|].port)
    else None
  }

  /** The latest such port over a run, or `port` if there was none. */
  function Followed(w: World, es: seq<Event>, side: bool, port: nat): nat
    decreases |es|
  {
    if es == [] then port
    else
      var p := NewPort(w, es[0], side);
      Followed(Happens(w, es[0]), es[1..], side, if p.Some? then p.value else port)
  }

  lemma EventFollows(w: World, e: Event, side: bool)
    requires Inv(w)
    ensures var p := NewPort(w, e, side);
            Side(Happens(w, e), side).lanPort == if p.Some? then p.value else Side(w, side).lanPort
  {
    hide LanMac, Explained, Genuine;
  }

  lemma {:induction false} RunFollows(w: World, es: seq<Event>, side: bool)
    requires Inv(w) && PossibleRun(w, es)
    ensures Side(Run(w, es), side).lanPort == Followed(w, es, side, Side(w, side).lanPort)
    decreases |es|
  {
    hide Inv, Possible, Happens, NewPort;
    if es != [] {
      EventKeeps(w, es[0]);
      EventFollows(w, es[0], side);
      RunFollows(Happens(w, es[0]), es[1..], side);
    }
  }

  lemma StartInv(listen0: nat, listen1: nat)
    requires listen0 < 0x10000 && listen1 < 0x10000
    ensures Inv(Start(listen0, listen1))
  {}

  /** In every run a side looks for the other on the port of the latest answer it accepted
      since it last restarted, or else on the one it restarted with. */
  lemma PortFollowed(listen0: nat, listen1: nat, es: seq<Event>, side: bool)
    requires listen0 < 0x10000 && listen1 < 0x10000 && PossibleRun(Start(listen0, listen1), es)
    ensures Side(Run(Start(listen0, listen1), es), side).lanPort == Followed(Start(listen0, listen1), es, side, DEFAULT_PORT)
  {
    hide Run, PossibleRun, Inv, Followed;
    StartInv(listen0, listen1);
    RunFollows(Start(listen0, listen1), es, side);
  }

  /** A genuine answer to a pending question, delivered within 30 seconds, is accepted: the
      side then looks for the peer on the port in it, and the peer listened there after
      the question. */
  lemma AnswerFollowed(w: World, side: bool, nonce: Nonce, port: nat, at: nat)
    requires Inv(w) && Ask(nonce, at) in Side(w, side).asked && w.clock <= at + ANSWER_MS && 0 < port < 0x10000
    requires LanMac(PortA, !side, nonce + PortBytes(port)) in w.macs
    ensures var e := Delivers(side, Answer(nonce, port, LanMac(PortA, !side, nonce + PortBytes(port))));
            var v := Happens(w, e);
            && Possible(w, e) && v.accepts == w.accepts + [Accepted(side, nonce, port, w.clock)]
            && Side(v, side).lanPort == port
            && exists m: nat :: PeerListened(v, side, port, at, m, w.clock)
  {
    hide LanMac, Explained;
    var e := Delivers(side, Answer(nonce, port, LanMac(PortA, !side, nonce + PortBytes(port))));
    assert PartyOk(w, side);
    var asked := Side(w, side).asked;
    var i := FindAsk(asked, nonce);
    var k :| 0 <= k < |asked| && asked[k] == Ask(nonce, at);
    assert i == k;
    EventKeeps(w, e);
    var v := Happens(w, e);
    assert Genuine(v, v.accepts[|w.accepts|]);
    assert w.asks[nonce] == Asked(side, at);
  }

  /** One exchange in full: whatever happened before, a question by an active side reaches
      a peer that is active, listens and does not remember the nonce, the answer is
      delivered within 30 seconds, and the asker looks where the peer listens. */
  lemma ExchangeFollowed(w: World, side: bool, nonce: Nonce, later: nat)
    requires Inv(w) && Possible(w, Asks(side, nonce)) && later <= ANSWER_MS
    requires var peer := Side(w, !side); peer.active && peer.listen != 0 && nonce !in peer.seen
    ensures var port := Side(w, !side).listen;
            var es := [Asks(side, nonce), Delivers(!side, Question(nonce, LanMac(PortQ, side, nonce))), Passes(later),
                       Delivers(side, Answer(nonce, port, LanMac(PortA, !side, nonce + PortBytes(port))))];
            PossibleRun(w, es) && Side(Run(w, es), side).lanPort == port
  {
    hide LanMac, Explained, Inv, AskDue, Pending;
    var port := Side(w, !side).listen;
    var e0, e1, e2 := Asks(side, nonce), Delivers(!side, Question(nonce, LanMac(PortQ, side, nonce))), Passes(later);
    var e3 := Delivers(side, Answer(nonce, port, LanMac(PortA, !side, nonce + PortBytes(port))));
    var es := [e0, e1, e2, e3];
    SideIs(w, side);
    SideIs(w, !side);
    EventKeeps(w, e0);
    var w1 := Happens(w, e0);
    AskPends(w, side, nonce);
    EventKeeps(w1, e1);
    var w2 := Happens(w1, e1);
    EventKeeps(w2, e2);
    var w3 := Happens(w2, e2);
    AnswerFollowed(w3, side, nonce, port, w.clock);
    assert es[1..] == [e1, e2, e3] && es[1..][1..] == [e2, e3] && es[1..][1..][1..] == [e3];
    OneMore(w3, [e3]);
    OneMore(w2, [e2, e3]);
    OneMore(w1, [e1, e2, e3]);
    OneMore(w, es);
  }

  lemma SideIs(w: World, side: bool)
    requires Inv(w)
    ensures Side(w, side).side == side && Side(w, side).listen < 0x10000
  {
    hide Explained, Genuine;
    assert PartyOk(w, side);
  }

  lemma AskPends(w: World, side: bool, nonce: Nonce)
    ensures var v := Happens(w, Asks(side, nonce));
            && Ask(nonce, w.clock) in Side(v, side).asked && Side(v, !side) == Side(w, !side) && v.clock == w.clock
            && LanMac(PortQ, Side(w, side).side, nonce) in v.macs
  {
    hide LanMac, Pending;
  }

  lemma OneMore(w: World, es: seq<Event>)
    requires es != [] && Possible(w, es[0]) && PossibleRun(Happens(w, es[0]), es[1..])
    ensures PossibleRun(w, es) && Run(w, es) == Run(Happens(w, es[0]), es[1..])
  {
    hide Possible, Happens;
  }

  // ---- answering once ----

  /** Does the side answer at this event, and to which nonce? */
  function AnsweredAt(w: World, e: Event, side: bool): Option<Nonce> {
    if e.Delivers? && e.side == side && e.packet.Question? && OnQuestion(Side(w, side), e.packet.nonce, e.packet.mac).1.Some?
    then Some(e.packet.nonce) else None
  }

  /** The nonces a side has answered since it last restarted, behind `given`. */
  function Given(w: World, es: seq<Event>, side: bool, given: seq<Nonce>): seq<Nonce>
    decreases |es|
  {
    if es == [] then given
    else
      var a := AnsweredAt(w, es[0], side);
      var more := if es[0].Restarts? && es[0].side == side then [] else if a.Some? then given + [a.value] else given;
      Given(Happens(w, es[0]), es[1..], side, more)
  }

  function Latest(v: seq<Nonce>): seq<Nonce> {
    if |v| <= REMEMBER then v else v[|v| - REMEMBER..]
  }

  lemma EventRemembers(w: World, e: Event, side: bool, given: seq<Nonce>)
    requires Side(w, side).seen == Latest(given)
    ensures var a := AnsweredAt(w, e, side);
            var more := if e.Restarts? && e.side == side then [] else if a.Some? then given + [a.value] else given;
            Side(Happens(w, e), side).seen == Latest(more)
  {
    hide LanMac;
    if e.Delivers? && e.packet.Question? {
      assert Remember(Latest(given), e.packet.nonce) == Latest(given + [e.packet.nonce]);
    }
  }

  lemma {:induction false} RunRemembers(w: World, es: seq<Event>, side: bool, given: seq<Nonce>)
    requires Side(w, side).seen == Latest(given)
    ensures Side(Run(w, es), side).seen == Latest(Given(w, es, side, given))
    decreases |es|
  {
    hide Happens, AnsweredAt, Latest;
    if es != [] {
      var a := AnsweredAt(w, es[0], side);
      EventRemembers(w, es[0], side, given);
      RunRemembers(Happens(w, es[0]), es[1..], side,
                   if es[0].Restarts? && es[0].side == side then [] else if a.Some? then given + [a.value] else given);
    }
  }

  /** In every run a question is answered exactly when the side is active and listens, the
      other side made the MAC, and the nonce is not among the last 64 it answered since
      it restarted; and then with the port it listens on. */
  lemma AnsweredWhen(listen0: nat, listen1: nat, es: seq<Event>, side: bool, nonce: Nonce, mac: Mac)
    requires listen0 < 0x10000 && listen1 < 0x10000 && PossibleRun(Start(listen0, listen1), es)
    ensures var w := Run(Start(listen0, listen1), es);
            var p := Side(w, side);
            var a := OnQuestion(p, nonce, mac).1;
            && (a.Some? <==> p.active && p.listen != 0 && mac == LanMac(PortQ, !side, nonce)
                             && nonce !in Latest(Given(Start(listen0, listen1), es, side, [])))
            && (a.Some? ==> a.value == Answer(nonce, p.listen, LanMac(PortA, side, nonce + PortBytes(p.listen))))
  {
    hide Run, PossibleRun, Inv, Given, Latest, LanMac;
    assert Side(Start(listen0, listen1), side).seen == [];
    LatestNone();
    StartInv(listen0, listen1);
    RunKeeps(Start(listen0, listen1), es);
    SideIs(Run(Start(listen0, listen1), es), side);
    RunRemembers(Start(listen0, listen1), es, side, []);
  }

  lemma LatestNone()
    ensures Latest([]) == []
  {}

  // ---- the class of the source ----

  class PortAsker {
    const side: bool
    const ownLanPort: nat
    var active: bool
    var portAsked: seq<Ask>
    var portSeen: seq<Nonce>
    var lanPort: nat
    var portAnswered: bool
    var portTries: nat
    var portTimer: Timer

    function View(): Party
      reads this
    {
      Party(side, ownLanPort, active, portAsked, portSeen, lanPort, portAnswered, portTries, portTimer)
    }

    constructor (side: bool, ownLanPort: nat, lanPort: nat)
      ensures View() == Party(side, ownLanPort, false, [], [], if lanPort == 0 then DEFAULT_PORT else lanPort, false, 0, Timer(0))
    {
      this.side, this.ownLanPort := side, ownLanPort;
      active, portAsked, portSeen, portAnswered, portTries := false, [], [], false, 0;
      this.lanPort := if lanPort == 0 then DEFAULT_PORT else lanPort;
      portTimer := Timer(0);
    }

    /** Timer::due for the port question. */
    method PortDue(now: nat) returns (due: bool)
      modifies this`portTimer
      ensures (due, portTimer) == Due(old(portTimer), now, AskInterval(old(View())))
    {
      var interval := if !portAnswered && portTries < FAST_TRIES then FAST_MS else SLOW_MS;
      if now < portTimer.last + interval {
        return false;
      }
      portTimer := Timer(now);
      return true;
    }

    method SendPortQuery(nonce: Nonce, now: nat) returns (q: Packet)
      modifies this`portAsked, this`portTries
      ensures (View(), q) == SendQuery(old(View()), nonce, now)
    {
      var kept := [];
      var i := 0;
      while i < |portAsked|
        invariant 0 <= i <= |portAsked|
        invariant kept == Pending(portAsked[..i], now)
      {
        assert portAsked[..i + 1][..i] == portAsked[..i];
        if now <= portAsked[i].at + ANSWER_MS {
          kept := kept + [portAsked[i]];
        }
        i := i + 1;
      }
      assert portAsked[..i] == portAsked;
      portAsked := kept + [Ask(nonce, now)];
      portTries := portTries + 1;
      q := Question(nonce, LanMac(PortQ, side, nonce));
    }

    method OnPortQuestion(nonce: Nonce, mac: Mac) returns (a: Option<Packet>)
      modifies this`portSeen
      ensures (View(), a) == OnQuestion(old(View()), nonce, mac)
    {
      if ownLanPort == 0 || !active || mac != LanMac(PortQ, !side, nonce) || nonce in portSeen {
        return None;
      }
      if |portSeen| >= REMEMBER {
        portSeen := portSeen[1..];
      }
      portSeen := portSeen + [nonce];
      return Some(Answer(nonce, ownLanPort, LanMac(PortA, side, nonce + PortBytes(ownLanPort))));
    }

    method OnPortAnswer(nonce: Nonce, port: nat, mac: Mac, now: nat)
      modifies this`portAsked, this`portAnswered, this`lanPort
      ensures View() == OnAnswer(old(View()), nonce, port, mac, now)
    {
      if port == 0 || port >= 0x10000 {
        return;
      }
      var i := 0;
      while i < |portAsked| && portAsked[i].nonce != nonce
        invariant 0 <= i <= |portAsked|
        invariant forall k :: 0 <= k < i ==> portAsked[k].nonce != nonce
      {
        i := i + 1;
      }
      if i == |portAsked| || now > portAsked[i].at + ANSWER_MS || mac != LanMac(PortA, !side, nonce + PortBytes(port)) {
        return;
      }
      portAsked := portAsked[..i] + portAsked[i + 1..];
      portAnswered := true;
      if port != lanPort {
        lanPort := port;
      }
    }

    method RestartPortAsk()
      modifies this`portAnswered, this`portTries, this`portTimer
      ensures View() == RestartAsk(old(View()))
    {
      portAnswered, portTries, portTimer := false, 0, Timer(0);
    }

    method DoSetActive(on: bool)
      modifies this`active, this`portAnswered, this`portTries, this`portTimer
      ensures View() == SetActive(old(View()), on)
    {
      if on && !active {
        RestartPortAsk();
      }
      active := on;
    }
  }
}

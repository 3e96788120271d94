/** The rate limiter (src/server/rate_limit.cpp): token buckets per source address and one
    for all, over real numbers; and the eviction of idle buckets, which nobody can see
    when the idle time refills a bucket. Times are in milliseconds. */
module RateLimit {
  datatype Bucket = Bucket(tokens: real, rate: real, burst: real, last: int)

  type Ip = nat

  datatype Limiter = Limiter(ips: map<Ip, Bucket>, all: Bucket, ipRate: real, ipBurst: real)

  function Min(a: real, b: real): (m: real)
    ensures m <= a && m <= b && (m == a || m == b)
  {
    if a <= b then a else b
  }

  function Elapsed(b: Bucket, now: int): real {
    (now - b.last) as real / 1000.0
  }

  /** The bucket at `now`, before it is charged. */
  function Refilled(b: Bucket, now: int): Bucket {
    if Elapsed(b, now) > 0.0 then b.(tokens := Min(b.burst, b.tokens + Elapsed(b, now) * b.rate), last := now) else b
  }

  /** TokenBucket::allow with a cost of one: does it allow, and the bucket after. */
  function Charge(b: Bucket, now: int): (bool, Bucket) {
    var r := Refilled(b, now);
    if r.tokens >= 1.0 then (true, r.(tokens := r.tokens - 1.0)) else (false, r)
  }

  function NewBucket(l: Limiter, now: int): Bucket {
    Bucket(l.ipBurst, l.ipRate, l.ipBurst, now)
  }

  function BucketOf(l: Limiter, ip: Ip, now: int): Bucket {
    if ip in l.ips then l.ips[ip] else NewBucket(l, now)
  }

  /** RateLimiter::allow: the address first, and only then everybody. */
  function Allow(l: Limiter, ip: Ip, now: int): (bool, Limiter) {
    var (ok, b) := Charge(BucketOf(l, ip, now), now);
    var m := l.(ips := l.ips[ip := b]);
    if !ok then (false, m)
    else
      var (yes, a) := Charge(l.all, now);
      (yes, m.(all := a))
  }

  /** RateLimiter::evict_idle */
  function Evict(l: Limiter, now: int, idle: int): Limiter {
    l.(ips := map ip | ip in l.ips && now - l.ips[ip].last <= idle :: l.ips[ip])
  }

  // ---- the classes of the source ----

  class TokenBucket {
    var tokens: real
    const rate: real
    const burst: real
    var last: int

    ghost function View(): Bucket
      reads this
    {
      Bucket(tokens, rate, burst, last)
    }

    constructor (tokens: real, rate: real, burst: real, last: int)
      ensures View() == Bucket(tokens, rate, burst, last)
    {
      this.tokens, this.rate, this.burst, this.last := tokens, rate, burst, last;
    }

    method Allow(now: int) returns (ok: bool)
      modifies this
      ensures ok == Charge(old(View()), now).0 && View() == Charge(old(View()), now).1
    {
      var elapsed := (now - last) as real / 1000.0;
      if elapsed > 0.0 {
        tokens := Min(burst, tokens + elapsed * rate);
        last := now;
      }
      if tokens >= 1.0 {
        tokens := tokens - 1.0;
        return true;
      }
      return false;
    }
  }

  class RateLimiter {
    var ips: map<Ip, Bucket>
    const all: TokenBucket
    const ipRate: real
    const ipBurst: real

    ghost function View(): Limiter
      reads this, all
    {
      Limiter(ips, all.View(), ipRate, ipBurst)
    }

    constructor (ipRate: real, ipBurst: real, allRate: real, allBurst: real)
      ensures fresh(all)
      ensures View() == Limiter(map[], Bucket(allBurst, allRate, allBurst, 0), ipRate, ipBurst)
    {
      ips := map[];
      this.ipRate, this.ipBurst := ipRate, ipBurst;
      all := new TokenBucket(allBurst, allRate, allBurst, 0);
    }

    method DoAllow(ip: Ip, now: int) returns (ok: bool)
      modifies this, all
      ensures ok == Allow(old(View()), ip, now).0 && View() == Allow(old(View()), ip, now).1
    {
      if ip !in ips {
        ips := ips[ip := Bucket(ipBurst, ipRate, ipBurst, now)];
      }
      hide Charge;
      var b := ips[ip];
      var mine := new TokenBucket(b.tokens, b.rate, b.burst, b.last);
      ok := mine.Allow(now);
      ips := ips[ip := Bucket(mine.tokens, mine.rate, mine.burst, mine.last)];
      if ok {
        ok := all.Allow(now);
      }
    }

    method EvictIdle(now: int, idle: int)
      modifies this
      ensures View() == Evict(old(View()), now, idle)
    {
      ghost var v0 := ips;
      var keys := ips.Keys;
      while keys != {}
        invariant keys <= ips.Keys
        invariant forall ip :: ip in ips <==> ip in v0 && (ip in keys || now - v0[ip].last <= idle)
        invariant forall ip :: ip in ips ==> ips[ip] == v0[ip]
        decreases |keys|
      {
        var ip :| ip in keys;
        keys := keys - {ip};
        if now - ips[ip].last > idle {
          ips := ips - {ip};
        }
      }
    }
  }

  // ---- one bucket ----

  predicate ValidBucket(b: Bucket, now: int) {
    b.rate >= 0.0 && 0.0 <= b.tokens <= b.burst && b.last <= now
  }

  /** The tokens that drip in until `now`. */
  function Drip(b: Bucket, now: int): real {
    Elapsed(b, now) * b.rate
  }

  lemma DripGrows(b: Bucket, now: int, end: int)
    requires b.last <= now <= end && b.rate >= 0.0
    ensures 0.0 <= Drip(b, now) <= Drip(b, end)
    ensures Drip(b, end) == Drip(b, now) + Drip(b.(last := now), end)
  {
    assert Elapsed(b, end) == Elapsed(b, now) + (end - now) as real / 1000.0;
  }

  lemma DripAs(b: Bucket, c: Bucket, now: int)
    requires b.rate == c.rate && b.last == c.last
    ensures Drip(b, now) == Drip(c, now)
  {}

  lemma RefillKeeps(b: Bucket, now: int)
    requires ValidBucket(b, now)
    ensures var r := Refilled(b, now);
            ValidBucket(r, now) && r.rate == b.rate && r.burst == b.burst && r.last == now
            && b.tokens <= r.tokens <= b.tokens + Drip(b, now)
  {
    DripGrows(b, now, now);
  }

  /** A packet let through costs a token; none is made but by time. */
  lemma ChargePays(b: Bucket, now: int)
    requires ValidBucket(b, now)
    ensures var (ok, c) := Charge(b, now);
            && ValidBucket(c, now) && c.rate == b.rate && c.burst == b.burst && c.last == now
            && c.tokens + (if ok then 1.0 else 0.0) <= b.tokens + Drip(b, now)
  {
    RefillKeeps(b, now);
    hide Drip, Refilled;
  }

  // ---- the limiter over a run ----

  datatype Event = Packet(ip: Ip, at: int) | Sweep(at: int, idle: int)

  predicate InOrder(es: seq<Event>, clock: int)
    decreases |es|
  {
    es == [] || (clock <= es[0].at && InOrder(es[1..], es[0].at))
  }

  predicate ValidLimiter(l: Limiter, clock: int) {
    && l.ipRate >= 0.0 && l.ipBurst >= 0.0
    && ValidBucket(l.all, clock)
    && (forall ip :: ip in l.ips ==> ValidBucket(l.ips[ip], clock) && l.ips[ip].rate == l.ipRate && l.ips[ip].burst == l.ipBurst)
  }

  /** The answers of a limiter to the packets of a run, with or without the sweeps. */
  function Answers(l: Limiter, es: seq<Event>, sweeps: bool): seq<bool>
    decreases |es|
  {
    if es == [] then []
    else match es[0]
      case Packet(ip, at) =>
        var (ok, m) := Allow(l, ip, at);
        [ok] + Answers(m, es[1..], sweeps)
      case Sweep(at, idle) =>
        Answers(if sweeps then Evict(l, at, idle) else l, es[1..], sweeps)
  }

  /** Idle for longer than this, a bucket is full again. */
  predicate Covers(l: Limiter, idle: int) {
    idle >= 0 && (idle + 1) as real / 1000.0 * l.ipRate >= l.ipBurst
  }

  predicate AllCover(l: Limiter, es: seq<Event>) {
    forall i :: 0 <= i < |es| && es[i].Sweep? ==> Covers(l, es[i].idle)
  }

  /** `a` differs from `b` at most by buckets that would be full again by now. */
  ghost predicate Alike(a: Limiter, b: Limiter, clock: int) {
    && a.all == b.all && a.ipRate == b.ipRate && a.ipBurst == b.ipBurst
    && a.ips.Keys <= b.ips.Keys
    && (forall ip :: ip in a.ips ==> a.ips[ip] == b.ips[ip])
    && (forall ip :: ip in b.ips && ip !in a.ips ==> Full(b.ips[ip], clock))
  }

  predicate Full(b: Bucket, now: int) {
    b.last <= now && b.tokens + Drip(b, now) >= b.burst
  }

  lemma FullLater(b: Bucket, now: int, later: int)
    requires Full(b, now) && now <= later && b.rate >= 0.0
    ensures Full(b, later)
  {
    DripGrows(b, now, later);
  }

  /** A full bucket charges like a new one. */
  lemma FullIsNew(l: Limiter, b: Bucket, now: int)
    requires Full(b, now) && b.rate == l.ipRate && b.burst == l.ipBurst && 0.0 <= b.tokens <= b.burst
    ensures Charge(b, now) == Charge(NewBucket(l, now), now)
  {
    assert now == b.last ==> Elapsed(b, now) * b.rate == 0.0;
  }

  lemma SweepUnseen(a: Limiter, b: Limiter, clock: int, now: int, idle: int)
    requires Alike(a, b, clock) && ValidLimiter(b, clock) && clock <= now && Covers(b, idle)
    ensures Alike(Evict(a, now, idle), b, now)
  {
    var e := Evict(a, now, idle);
    forall ip | ip in b.ips && ip !in e.ips
      ensures Full(b.ips[ip], now)
    {
      if ip in a.ips {
        assert now - b.ips[ip].last >= idle + 1;
        IdleFills(b.ips[ip], now, idle);
      } else {
        FullLater(b.ips[ip], clock, now);
      }
    }
  }

  lemma IdleFills(b: Bucket, now: int, idle: int)
    requires b.rate >= 0.0 && b.tokens >= 0.0 && now - b.last >= idle + 1 && idle >= 0
    requires (idle + 1) as real / 1000.0 * b.rate >= b.burst
    ensures Full(b, now)
  {
    var e, f := Elapsed(b, now), (idle + 1) as real / 1000.0;
    assert e >= f;
    Grows(e, f, b.rate);
  }

  lemma Grows(e: real, f: real, rate: real)
    requires e >= f && rate >= 0.0
    ensures e * rate >= f * rate
  {}

  lemma PacketUnseen(a: Limiter, b: Limiter, clock: int, ip: Ip, now: int)
    requires Alike(a, b, clock) && ValidLimiter(b, clock) && clock <= now
    ensures var (x, a1) := Allow(a, ip, now);
            var (y, b1) := Allow(b, ip, now);
            x == y && Alike(a1, b1, now)
  {
    if ip in b.ips && ip !in a.ips {
      FullLater(b.ips[ip], clock, now);
      FullIsNew(a, b.ips[ip], now);
    }
    forall i | i in b.ips && i !in a.ips && i != ip
      ensures Full(b.ips[i], now)
    {
      FullLater(b.ips[i], clock, now);
    }
    hide Charge, Full;
  }

  lemma ChargeKeeps(b: Bucket, clock: int, now: int)
    requires ValidBucket(b, clock) && clock <= now
    ensures var (_, c) := Charge(b, now); ValidBucket(c, now) && c.rate == b.rate && c.burst == b.burst
  {
    RefillKeeps(b, now);
  }

  lemma AllowKeeps(l: Limiter, clock: int, ip: Ip, now: int)
    requires ValidLimiter(l, clock) && clock <= now
    ensures ValidLimiter(Allow(l, ip, now).1, now)
    ensures var m := Allow(l, ip, now).1; m.ipRate == l.ipRate && m.ipBurst == l.ipBurst
  {
    hide Charge;
    ChargeKeeps(BucketOf(l, ip, now), now, now);
    ChargeKeeps(l.all, clock, now);
  }

  lemma {:induction false} SameAnswers(a: Limiter, b: Limiter, es: seq<Event>, clock: int)
    requires Alike(a, b, clock) && ValidLimiter(b, clock) && InOrder(es, clock) && AllCover(b, es)
    ensures Answers(a, es, true) == Answers(b, es, false)
    decreases |es|
  {
    hide Allow, Evict, Alike, ValidLimiter;
    if es != [] {
      var now := es[0].at;
      assert forall i :: 0 <= i < |es[1..]| ==> es[1..][i] == es[i + 1];
      match es[0]
      case Packet(ip, _) =>
        PacketUnseen(a, b, clock, ip, now);
        AllowKeeps(b, clock, ip, now);
        SameAnswers(Allow(a, ip, now).1, Allow(b, ip, now).1, es[1..], now);
      case Sweep(_, idle) =>
        SweepUnseen(a, b, clock, now, idle);
        ValidLater(b, clock, now);
        SameAnswers(Evict(a, now, idle), b, es[1..], now);
    }
  }

  lemma ValidLater(l: Limiter, clock: int, now: int)
    requires ValidLimiter(l, clock) && clock <= now
    ensures ValidLimiter(l, now)
  {}

  /** Eviction is invisible: when the idle time refills a bucket, every packet is answered
      as if no bucket had ever been dropped. */
  lemma EvictionUnseen(l: Limiter, es: seq<Event>, clock: int)
    requires ValidLimiter(l, clock) && InOrder(es, clock) && AllCover(l, es)
    ensures Answers(l, es, true) == Answers(l, es, false)
  {
    SameAnswers(l, l, es, clock);
  }

  // ---- how much gets through ----

  /** How many packets of one address (or of all) a run's answers let through. */
  function Count(answers: seq<bool>, es: seq<Event>, who: set<Ip>, everybody: bool): nat
    decreases |es|
  {
    if es == [] then 0
    else match es[0]
      case Packet(ip, _) =>
        if answers == [] then 0
        else (if answers[0] && (everybody || ip in who) then 1 else 0) + Count(answers[1..], es[1..], who, everybody)
      case Sweep(_, _) => Count(answers, es[1..], who, everybody)
  }

  /** What a bucket can let through from `clock` to `end`. */
  function Reach(b: Bucket, clock: int, end: int): real {
    Refilled(b, clock).tokens + Drip(b.(last := clock), end)
  }

  lemma ReachBound(b: Bucket, clock: int, end: int)
    requires ValidBucket(b, clock) && clock <= end
    ensures 0.0 <= Reach(b, clock, end) <= b.burst + (end - clock) as real / 1000.0 * b.rate
  {
    RefillKeeps(b, clock);
    DripGrows(b.(last := clock), clock, end);
  }

  /** Waiting gains a bucket nothing. */
  lemma ReachShrinks(b: Bucket, clock: int, now: int, end: int)
    requires ValidBucket(b, clock) && clock <= now <= end
    ensures Reach(b, now, end) <= Reach(b, clock, end)
  {
    DripGrows(b, clock, now);
    DripGrows(b.(last := clock), now, end);
    DripAs(b.(last := clock).(last := now), b.(last := now), end);
    RefillIs(b, clock);
    RefillIs(b, now);
    DripGrows(b.(last := clock), clock, now);
    hide Drip, Refilled;
  }

  lemma RefillIs(b: Bucket, now: int)
    requires ValidBucket(b, now)
    ensures Refilled(b, now).tokens == Min(b.burst, b.tokens + Drip(b, now))
  {
    DripGrows(b, now, now);
  }

  /** Letting a packet through costs a bucket one. */
  lemma ReachPays(b: Bucket, clock: int, now: int, end: int)
    requires ValidBucket(b, clock) && clock <= now <= end
    ensures var (ok, c) := Charge(b, now);
            ValidBucket(c, now) && Reach(c, now, end) + (if ok then 1.0 else 0.0) <= Reach(b, clock, end)
  {
    ReachShrinks(b, clock, now, end);
    ChargePays(b, now);
    var c := Charge(b, now).1;
    DripAs(c.(last := now), b.(last := now), end);
    RefillIs(c, now);
    DripSelf(c, now);
    hide Drip;
  }

  lemma DripSelf(b: Bucket, now: int)
    requires b.last == now
    ensures Drip(b, now) == 0.0
  {}

  predicate Until(es: seq<Event>, end: int) {
    forall i :: 0 <= i < |es| ==> es[i].at <= end
  }

  lemma {:induction false} IpReach(l: Limiter, es: seq<Event>, ip: Ip, clock: int, end: int)
    requires ValidLimiter(l, clock) && InOrder(es, clock) && Until(es, end) && clock <= end
    ensures Count(Answers(l, es, false), es, {ip}, false) as real <= Reach(BucketOf(l, ip, clock), clock, end)
    decreases |es|
  {
    hide Reach, Allow, Evict, ValidLimiter, Charge;
    BucketValid(l, ip, clock);
    if es == [] {
      ReachBound(BucketOf(l, ip, clock), clock, end);
    } else {
      var now := es[0].at;
      assert forall i :: 0 <= i < |es[1..]| ==> es[1..][i] == es[i + 1];
      match es[0]
      case Packet(x, _) =>
        var (ok, m) := Allow(l, x, now);
        assert ([ok] + Answers(m, es[1..], false))[1..] == Answers(m, es[1..], false);
        AllowKeeps(l, clock, x, now);
        IpReach(m, es[1..], ip, now, end);
        IpStep(l, x, ip, clock, now, end);
      case Sweep(_, _) =>
        ValidLater(l, clock, now);
        IpReach(l, es[1..], ip, now, end);
        IpWaits(l, ip, clock, now, end);
    }
  }

  lemma BucketValid(l: Limiter, ip: Ip, clock: int)
    requires ValidLimiter(l, clock)
    ensures ValidBucket(BucketOf(l, ip, clock), clock)
    ensures BucketOf(l, ip, clock).burst == l.ipBurst && BucketOf(l, ip, clock).rate == l.ipRate
  {}

  lemma IpWaits(l: Limiter, ip: Ip, clock: int, now: int, end: int)
    requires ValidLimiter(l, clock) && clock <= now <= end
    ensures Reach(BucketOf(l, ip, now), now, end) <= Reach(BucketOf(l, ip, clock), clock, end)
  {
    BucketValid(l, ip, clock);
    ReachShrinks(BucketOf(l, ip, clock), clock, now, end);
    if ip !in l.ips {
      NewReach(l, clock, now, end);
    }
  }

  /** A bucket not made yet reaches as far as one made now. */
  lemma NewReach(l: Limiter, clock: int, now: int, end: int)
    requires clock <= now <= end && l.ipRate >= 0.0 && l.ipBurst >= 0.0
    ensures Reach(NewBucket(l, now), now, end) <= Reach(NewBucket(l, clock), now, end)
  {
    RefillIs(NewBucket(l, clock), now);
    RefillIs(NewBucket(l, now), now);
    DripGrows(NewBucket(l, clock), clock, now);
    DripSelf(NewBucket(l, now), now);
    DripAs(NewBucket(l, now).(last := now), NewBucket(l, clock).(last := now), end);
    hide Drip, Refilled;
  }

  lemma IpStep(l: Limiter, x: Ip, ip: Ip, clock: int, now: int, end: int)
    requires ValidLimiter(l, clock) && clock <= now <= end
    ensures var (ok, m) := Allow(l, x, now);
            Reach(BucketOf(m, ip, now), now, end) + (if ok && x == ip then 1.0 else 0.0) <= Reach(BucketOf(l, ip, clock), clock, end)
  {
    hide Reach, Charge;
    IpWaits(l, ip, clock, now, end);
    if x == ip {
      ValidLater(l, clock, now);
      BucketValid(l, ip, now);
      ReachPays(BucketOf(l, ip, now), now, now, end);
    }
  }

  lemma {:induction false} AllReach(l: Limiter, es: seq<Event>, sweeps: bool, clock: int, end: int)
    requires ValidLimiter(l, clock) && InOrder(es, clock) && Until(es, end) && clock <= end
    ensures Count(Answers(l, es, sweeps), es, {}, true) as real <= Reach(l.all, clock, end)
    decreases |es|
  {
    hide Reach, Allow, Evict, ValidLimiter, Charge;
    AllValid(l, clock);
    if es == [] {
      ReachBound(l.all, clock, end);
    } else {
      var now := es[0].at;
      assert forall i :: 0 <= i < |es[1..]| ==> es[1..][i] == es[i + 1];
      match es[0]
      case Packet(x, _) =>
        var (ok, m) := Allow(l, x, now);
        assert ([ok] + Answers(m, es[1..], sweeps))[1..] == Answers(m, es[1..], sweeps);
        AllowKeeps(l, clock, x, now);
        AllReach(m, es[1..], sweeps, now, end);
        AllStep(l, x, clock, now, end);
      case Sweep(_, idle) =>
        ValidLater(l, clock, now);
        EvictKeeps(l, now, idle);
        AllReach(if sweeps then Evict(l, now, idle) else l, es[1..], sweeps, now, end);
        ReachShrinks(l.all, clock, now, end);
    }
  }

  lemma AllValid(l: Limiter, clock: int)
    requires ValidLimiter(l, clock)
    ensures ValidBucket(l.all, clock)
  {}

  lemma EvictKeeps(l: Limiter, now: int, idle: int)
    requires ValidLimiter(l, now)
    ensures ValidLimiter(Evict(l, now, idle), now) && Evict(l, now, idle).all == l.all
  {}

  lemma AllStep(l: Limiter, x: Ip, clock: int, now: int, end: int)
    requires ValidBucket(l.all, clock) && clock <= now <= end
    ensures var (ok, m) := Allow(l, x, now);
            Reach(m.all, now, end) + (if ok then 1.0 else 0.0) <= Reach(l.all, clock, end)
  {
    hide Reach, Charge;
    ReachPays(l.all, clock, now, end);
    ReachShrinks(l.all, clock, now, end);
  }

  /** The burst, and what the rate gives in `span` milliseconds. */
  function Allowance(burst: real, rate: real, span: int): real {
    burst + span as real / 1000.0 * rate
  }

  lemma ReachAllowed(b: Bucket, start: int, end: int)
    requires ValidBucket(b, start) && start <= end
    ensures Reach(b, start, end) <= Allowance(b.burst, b.rate, end - start)
  {
    hide Reach;
    ReachBound(b, start, end);
  }

  /** Over any window of any run: all addresses together get at most their burst and what
      their rate gives in that time. */
  lemma AllBounded(l: Limiter, es: seq<Event>, sweeps: bool, start: int, end: int)
    requires ValidLimiter(l, start) && InOrder(es, start) && Until(es, end) && start <= end
    ensures Count(Answers(l, es, sweeps), es, {}, true) as real <= Allowance(l.all.burst, l.all.rate, end - start)
  {
    hide Reach, ValidLimiter, Answers, Count, Allowance, ValidBucket;
    AllValid(l, start);
    AllReach(l, es, sweeps, start, end);
    ReachAllowed(l.all, start, end);
  }

  /** Without sweeps an address is bounded whatever the idle time. */
  lemma UnsweptBounded(l: Limiter, es: seq<Event>, ip: Ip, start: int, end: int)
    requires ValidLimiter(l, start) && InOrder(es, start) && Until(es, end) && start <= end
    ensures Count(Answers(l, es, false), es, {ip}, false) as real <= Allowance(l.ipBurst, l.ipRate, end - start)
  {
    hide Reach, ValidLimiter, Answers, Count, Allowance, ValidBucket, BucketOf;
    BucketValid(l, ip, start);
    IpReach(l, es, ip, start, end);
    ReachAllowed(BucketOf(l, ip, start), start, end);
  }

  /** ... and so does each address, even with eviction, when eviction is unseen. */
  lemma IpBounded(l: Limiter, es: seq<Event>, ip: Ip, start: int, end: int)
    requires ValidLimiter(l, start) && InOrder(es, start) && Until(es, end) && start <= end && AllCover(l, es)
    ensures Count(Answers(l, es, true), es, {ip}, false) as real <= Allowance(l.ipBurst, l.ipRate, end - start)
  {
    hide ValidLimiter, Answers, Count, Allowance;
    EvictionUnseen(l, es, start);
    UnsweptBounded(l, es, ip, start, end);
  }

  // ---- what a flood costs the others ----

  predicate OnlyFrom(es: seq<Event>, ip: Ip) {
    forall i :: 0 <= i < |es| ==> es[i].Packet? && es[i].ip == ip
  }

  /** The limiter after a run of packets. */
  function After(l: Limiter, es: seq<Event>): Limiter
    requires forall i :: 0 <= i < |es| ==> es[i].Packet?
    decreases |es|
  {
    if es == [] then l
    else
      assert es[0].Packet?;
      After(Allow(l, es[0].ip, es[0].at).1, es[1..])
  }

  /** Everybody's bucket loses a token only for a packet whose own address had one. */
  lemma FloodStep(l: Limiter, ip: Ip, clock: int, now: int, end: int)
    requires ValidLimiter(l, clock) && clock <= now <= end
    ensures var m := Allow(l, ip, now).1;
            l.all.tokens - m.all.tokens <= Reach(BucketOf(l, ip, clock), clock, end) - Reach(BucketOf(m, ip, now), now, end)
  {
    hide Reach;
    IpWaits(l, ip, clock, now, end);
    ValidLater(l, clock, now);
    BucketValid(l, ip, now);
    ReachPays(BucketOf(l, ip, now), now, now, end);
    AllValid(l, now);
    RefillKeeps(l.all, now);
    hide Refilled;
  }

  lemma {:induction false} FloodReach(l: Limiter, es: seq<Event>, ip: Ip, clock: int, end: int)
    requires ValidLimiter(l, clock) && InOrder(es, clock) && Until(es, end) && clock <= end && OnlyFrom(es, ip)
    ensures l.all.tokens - After(l, es).all.tokens <= Reach(BucketOf(l, ip, clock), clock, end)
    decreases |es|
  {
    hide Reach, Allow, ValidLimiter, BucketOf;
    BucketValid(l, ip, clock);
    ReachBound(BucketOf(l, ip, clock), clock, end);
    if es != [] {
      var now := es[0].at;
      assert es[0].ip == ip;
      assert forall i :: 0 <= i < |es[1..]| ==> es[1..][i] == es[i + 1];
      AllowKeeps(l, clock, ip, now);
      FloodStep(l, ip, clock, now, end);
      FloodReach(Allow(l, ip, now).1, es[1..], ip, now, end);
    }
  }

  /** However much one address sends, it takes from everybody's bucket no more than its own
      burst and rate allow it. */
  lemma FloodHarmless(l: Limiter, es: seq<Event>, ip: Ip, start: int, end: int)
    requires ValidLimiter(l, start) && InOrder(es, start) && Until(es, end) && start <= end && OnlyFrom(es, ip)
    ensures l.all.tokens - After(l, es).all.tokens <= Allowance(l.ipBurst, l.ipRate, end - start)
  {
    hide Reach, ValidLimiter, After, Allowance, ValidBucket, BucketOf;
    BucketValid(l, ip, start);
    FloodReach(l, es, ip, start, end);
    ReachAllowed(BucketOf(l, ip, start), start, end);
  }

  // ---- when it is not unseen ----

  predicate SweepsBy(es: seq<Event>, idle: int) {
    forall i :: 0 <= i < |es| && es[i].Sweep? ==> es[i].idle == idle
  }

  /** No run whose sweeps go by this idle time is answered differently for them. */
  ghost predicate Unseen(l: Limiter, idle: int) {
    forall es :: InOrder(es, 0) && SweepsBy(es, idle) ==> Answers(l, es, true) == Answers(l, es, false)
  }

  /** In no such run does an address get more than its burst and its rate. */
  ghost predicate Bounds(l: Limiter, idle: int) {
    forall es, ip: Ip, end :: InOrder(es, 0) && SweepsBy(es, idle) && 0 <= end && Until(es, end) ==>
      Passed(l, es, ip) <= Allowance(l.ipBurst, l.ipRate, end)
  }

  /** What an address gets through in a run with its sweeps. */
  function Passed(l: Limiter, es: seq<Event>, ip: Ip): real {
    Count(Answers(l, es, true), es, {ip}, false) as real
  }

  /** A limiter that has seen no packet, with bursts of n packets for an address and of at
      least two of those for everybody. */
  predicate Untouched(l: Limiter, n: nat) {
    && n >= 1 && l.ips == map[] && l.ipBurst == n as real && l.ipRate >= 0.0
    && ValidBucket(l.all, 0) && l.all.tokens >= 2.0 * n as real
  }

  function Packets(ip: Ip, at: int, n: nat): seq<Event> {
    if n == 0 then [] else [Packet(ip, at)] + Packets(ip, at, n - 1)
  }

  /** The limiter after n packets of an address. */
  function AfterPackets(l: Limiter, ip: Ip, at: int, n: nat): Limiter
    decreases n
  {
    if n == 0 then l else AfterPackets(Allow(l, ip, at).1, ip, at, n - 1)
  }

  /** Two bursts, with a sweep between them as early as it drops the bucket. */
  function TwoBursts(n: nat, idle: int): seq<Event> {
    Packets(0, 0, n) + [Sweep(Soonest(idle), idle)] + Packets(0, Soonest(idle), n)
  }

  function Soonest(idle: int): (t: int)
    ensures t >= 0 && t > idle
  {
    if idle >= 0 then idle + 1 else 0
  }

  /** While there are tokens, every packet passes and costs one. */
  lemma {:induction false} PacketsPass(l: Limiter, ip: Ip, at: int, n: nat, x: real, rest: seq<Event>)
    requires BucketOf(l, ip, at) == Bucket(x, l.ipRate, l.ipBurst, at) && x >= n as real
    requires ValidBucket(l.all, at) && l.all.tokens >= n as real
    ensures var m := AfterPackets(l, ip, at, n);
            && BucketOf(m, ip, at) == Bucket(x - n as real, l.ipRate, l.ipBurst, at)
            && (n > 0 ==> ip in m.ips) && m.ips.Keys <= l.ips.Keys + {ip}
            && m.ipRate == l.ipRate && m.ipBurst == l.ipBurst
            && ValidBucket(m.all, at) && m.all.tokens >= l.all.tokens - n as real
            && Passed(l, Packets(ip, at, n) + rest, ip) == n as real + Passed(m, rest, ip)
    decreases n
  {
    hide Allow, BucketOf, ValidBucket;
    if n == 0 {
      assert Packets(ip, at, n) + rest == rest;
    } else {
      OnePasses(l, ip, at, x);
      var m := Allow(l, ip, at).1;
      PacketsPass(m, ip, at, n - 1, x - 1.0, rest);
      var es := Packets(ip, at, n) + rest;
      assert es[0] == Packet(ip, at) && es[1..] == Packets(ip, at, n - 1) + rest;
      assert ([true] + Answers(m, es[1..], true))[1..] == Answers(m, es[1..], true);
      StaysIn(l, ip, at, n);
    }
  }

  lemma OnePasses(l: Limiter, ip: Ip, at: int, x: real)
    requires BucketOf(l, ip, at) == Bucket(x, l.ipRate, l.ipBurst, at) && x >= 1.0
    requires ValidBucket(l.all, at) && l.all.tokens >= 1.0
    ensures var (ok, m) := Allow(l, ip, at);
            && ok && BucketOf(m, ip, at) == Bucket(x - 1.0, l.ipRate, l.ipBurst, at)
            && ip in m.ips && m.ips.Keys == l.ips.Keys + {ip} && m.ipRate == l.ipRate && m.ipBurst == l.ipBurst
            && ValidBucket(m.all, at) && m.all.tokens >= l.all.tokens - 1.0
  {
    assert Elapsed(Bucket(x, l.ipRate, l.ipBurst, at), at) == 0.0;
    RefillKeeps(l.all, at);
    hide Elapsed, Min;
  }

  lemma {:induction false} StaysIn(l: Limiter, ip: Ip, at: int, n: nat)
    requires n > 0
    ensures ip in AfterPackets(l, ip, at, n).ips
    decreases n
  {
    hide Charge;
    if n > 1 {
      StaysIn(Allow(l, ip, at).1, ip, at, n - 1);
    }
  }

  lemma {:induction false} PacketsAt(ip: Ip, at: int, n: nat, rest: seq<Event>, clock: int, end: int, idle: int)
    requires clock <= at <= end && InOrder(rest, at) && Until(rest, end) && SweepsBy(rest, idle)
    ensures var es := Packets(ip, at, n) + rest;
            InOrder(es, clock) && Until(es, end) && SweepsBy(es, idle)
    decreases n
  {
    var es := Packets(ip, at, n) + rest;
    if n == 0 {
      assert es == rest;
      OrderEarlier(rest, clock, at);
    } else {
      PacketsAt(ip, at, n - 1, rest, at, end, idle);
      assert es == [Packet(ip, at)] + (Packets(ip, at, n - 1) + rest);
      assert es[1..] == Packets(ip, at, n - 1) + rest;
    }
  }

  lemma OrderEarlier(es: seq<Event>, clock: int, at: int)
    requires InOrder(es, at) && clock <= at
    ensures InOrder(es, clock)
  {}

  /** Both bursts pass, the second on a bucket made anew. */
  lemma BothPass(l: Limiter, n: nat, idle: int)
    requires Untouched(l, n)
    ensures var es := TwoBursts(n, idle);
            && InOrder(es, 0) && SweepsBy(es, idle) && Until(es, Soonest(idle))
            && Passed(l, es, 0) == 2.0 * n as real
  {
    hide AfterPackets, Passed;
    var t := Soonest(idle);
    var last := Packets(0, t, n);
    var rest := [Sweep(t, idle)] + last;
    assert TwoBursts(n, idle) == Packets(0, 0, n) + rest;
    assert last + [] == last;
    PacketsAt(0, t, n, [], t, t, idle);
    RestInOrder(last, t, idle);
    PacketsAt(0, 0, n, rest, 0, t, idle);
    PacketsPass(l, 0, 0, n, n as real, rest);
    var m := AfterPackets(l, 0, 0, n);
    var e := Evict(m, t, idle);
    SweptAway(m, t, idle);
    SweepPassed(m, t, idle, last);
    PacketsPass(e, 0, t, n, n as real, []);
    NothingPasses(AfterPackets(e, 0, t, n));
  }

  lemma RestInOrder(last: seq<Event>, t: int, idle: int)
    requires InOrder(last, t) && Until(last, t) && SweepsBy(last, idle)
    ensures var rest := [Sweep(t, idle)] + last; InOrder(rest, t) && Until(rest, t) && SweepsBy(rest, idle)
  {
    assert ([Sweep(t, idle)] + last)[1..] == last;
  }

  lemma SweptAway(m: Limiter, t: int, idle: int)
    requires m.ips.Keys <= {0} && 0 in m.ips && m.ips[0].last == 0 && t > idle && t >= 0 && ValidBucket(m.all, 0)
    ensures var e := Evict(m, t, idle);
            BucketOf(e, 0, t) == Bucket(m.ipBurst, m.ipRate, m.ipBurst, t) && e.all == m.all && ValidBucket(e.all, t)
  {}

  lemma SweepPassed(m: Limiter, t: int, idle: int, last: seq<Event>)
    ensures Passed(m, [Sweep(t, idle)] + last, 0) == Passed(Evict(m, t, idle), last, 0)
  {
    assert ([Sweep(t, idle)] + last)[1..] == last;
    hide Evict;
  }

  lemma NothingPasses(m: Limiter)
    ensures Passed(m, [], 0) == 0.0
  {}

  /** The tokens that drip in between the bursts do not make up a second one. */
  lemma TooMuch(l: Limiter, n: nat, idle: int)
    requires Untouched(l, n) && !Covers(l, idle)
    ensures Allowance(l.ipBurst, l.ipRate, Soonest(idle)) < 2.0 * n as real
  {
    if idle < 0 {
      assert Soonest(idle) as real / 1000.0 * l.ipRate == 0.0;
    }
  }

  lemma CoversAll(l: Limiter, es: seq<Event>, idle: int)
    requires Covers(l, idle) && SweepsBy(es, idle)
    ensures AllCover(l, es)
  {}

  lemma UntouchedValid(l: Limiter, n: nat)
    requires Untouched(l, n)
    ensures ValidLimiter(l, 0)
  {}

  /** Eviction is unseen exactly when the idle time refills a bucket. */
  lemma UnseenWhen(l: Limiter, n: nat, idle: int)
    requires Untouched(l, n)
    ensures Unseen(l, idle) <==> Covers(l, idle)
  {
    hide Covers, Answers, Count, TwoBursts, Allowance, ValidLimiter, InOrder, AllCover, SweepsBy;
    UntouchedValid(l, n);
    if Covers(l, idle) {
      forall es | InOrder(es, 0) && SweepsBy(es, idle)
        ensures Answers(l, es, true) == Answers(l, es, false)
      {
        CoversAll(l, es, idle);
        EvictionUnseen(l, es, 0);
      }
    } else {
      var es := TwoBursts(n, idle);
      BothPass(l, n, idle);
      TooMuch(l, n, idle);
      UnsweptBounded(l, es, 0, 0, Soonest(idle));
      assert Answers(l, es, true) != Answers(l, es, false);
    }
  }

  /** And exactly then is an address held to its burst and its rate. */
  lemma BoundedWhen(l: Limiter, n: nat, idle: int)
    requires Untouched(l, n)
    ensures Bounds(l, idle) <==> Covers(l, idle)
  {
    hide Covers, Passed, TwoBursts, Allowance, ValidLimiter, InOrder, AllCover, SweepsBy, Until;
    UntouchedValid(l, n);
    if Covers(l, idle) {
      forall es, ip: Ip, end | InOrder(es, 0) && SweepsBy(es, idle) && 0 <= end && Until(es, end)
        ensures Passed(l, es, ip) <= Allowance(l.ipBurst, l.ipRate, end)
      {
        CoversAll(l, es, idle);
        IpBounded(l, es, ip, 0, end);
        PassedIs(l, es, ip);
      }
    } else {
      BothPass(l, n, idle);
      TooMuch(l, n, idle);
      assert Passed(l, TwoBursts(n, idle), 0) > Allowance(l.ipBurst, l.ipRate, Soonest(idle));
    }
  }

  lemma PassedIs(l: Limiter, es: seq<Event>, ip: Ip)
    ensures Passed(l, es, ip) == Count(Answers(l, es, true), es, {ip}, false) as real
  {}
}

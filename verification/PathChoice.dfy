/** Direct-path candidates and the choice among them (src/peer/pathman.cpp:380-395,
    436-532): a bounded table of addresses, probed, and the fastest living one in use,
    with enough inertia not to flap. */
module PathChoice {
  import opened Wrappers

  datatype Endpoint = Endpoint(ip: int, port: nat)

  /** `lastRx` and `srtt` are 0 while nothing came from the address, or no round trip was
      measured. */
  datatype Cand = Cand(ep: Endpoint, lan: bool, lastRx: nat, srtt: nat, learned: nat)

  const MAX_CANDS: nat := 16
  const DIRECT_DEAD_MS: nat := 3000
  const CAND_STALE_MS: nat := 120000
  const UNMEASURED: nat := 1000000

  predicate Alive(c: Cand, now: nat) {
    c.lastRx != 0 && now < c.lastRx + DIRECT_DEAD_MS
  }

  function Score(c: Cand): nat {
    if c.srtt != 0 then c.srtt else UNMEASURED
  }

  /** A quarter (rounded down) more than this score. */
  function Tolerance(score: nat): nat {
    score + score / 4
  }

  // ---- the table ----

  predicate Distinct(cs: seq<Cand>) {
    forall i, j :: 0 <= i < j < |cs| ==> cs[i].ep != cs[j].ep
  }

  predicate Has(cs: seq<Cand>, ep: Endpoint) {
    exists i :: 0 <= i < |cs| && cs[i].ep == ep
  }

  /** Where an address is in the table, or its length. */
  function Find(cs: seq<Cand>, ep: Endpoint): (i: nat)
    ensures i <= |cs| && (i < |cs| ==> cs[i].ep == ep)
    ensures forall k :: 0 <= k < i ==> cs[k].ep != ep
  {
    if cs == [] || cs[0].ep == ep then 0 else 1 + Find(cs[1..], ep)
  }

  lemma FindHas(cs: seq<Cand>, ep: Endpoint)
    ensures Find(cs, ep) < |cs| <==> Has(cs, ep)
  {}

  /** The first candidate that never answered and is not in use. */
  function Idle(cs: seq<Cand>, chosen: Option<Endpoint>): (i: nat)
    ensures i <= |cs| && (i < |cs| ==> cs[i].lastRx == 0 && chosen != Some(cs[i].ep))
    ensures forall k :: 0 <= k < i ==> cs[k].lastRx != 0 || chosen == Some(cs[k].ep)
  {
    if cs == [] || (cs[0].lastRx == 0 && chosen != Some(cs[0].ep)) then 0 else 1 + Idle(cs[1..], chosen)
  }

  /** add_cand */
  function Add(cs: seq<Cand>, chosen: Option<Endpoint>, ep: Endpoint, lan: bool, now: nat): seq<Cand> {
    if ep.port == 0 then cs
    else
      var i := Find(cs, ep);
      if i < |cs| then cs[i := cs[i].(lan := lan || cs[i].lan, learned := now)]
      else if |cs| < MAX_CANDS then cs + [Cand(ep, lan, 0, 0, now)]
      else
        var d := Idle(cs, chosen);
        if d == |cs| then cs else cs[..d] + cs[d + 1..] + [Cand(ep, lan, 0, 0, now)]
  }

  /** touch_cand */
  function Touch(cs: seq<Cand>, ep: Endpoint, now: nat): seq<Cand> {
    var i := Find(cs, ep);
    if i < |cs| then cs[i := cs[i].(lastRx := now)]
    else if |cs| >= MAX_CANDS then cs
    else cs + [Cand(ep, false, now, 0, now)]
  }

  /** A PONG from a candidate, with whatever round trip it shows. */
  function Pong(cs: seq<Cand>, ep: Endpoint, now: nat, rtt: nat): seq<Cand> {
    var i := Find(cs, ep);
    if i == |cs| then cs
    else
      var sample := if rtt < 1 then 1 else rtt;
      cs[i := cs[i].(lastRx := now, srtt := if cs[i].srtt != 0 then (cs[i].srtt * 3 + sample) / 4 else sample)]
  }

  predicate Stale(c: Cand, chosen: Option<Endpoint>, now: nat) {
    chosen != Some(c.ep) && now > (if c.lastRx > c.learned then c.lastRx else c.learned) + CAND_STALE_MS
  }

  /** prune_cands */
  function Prune(cs: seq<Cand>, chosen: Option<Endpoint>, now: nat): seq<Cand> {
    if cs == [] then []
    else
      var rest := Prune(cs[..|cs| - 1], chosen, now);
      if Stale(cs[|cs| - 1], chosen, now) then rest else rest + [cs[|cs| - 1]]
  }

  /** The table and the choice: candidates distinct, at most 16, the chosen one among
      them. */
  predicate Kept(cs: seq<Cand>, chosen: Option<Endpoint>) {
    Distinct(cs) && |cs| <= MAX_CANDS && (chosen.Some? ==> Has(cs, chosen.value))
  }

  lemma AddKeeps(cs: seq<Cand>, chosen: Option<Endpoint>, ep: Endpoint, lan: bool, now: nat)
    requires Kept(cs, chosen)
    ensures Kept(Add(cs, chosen, ep, lan, now), chosen)
  {
    hide Kept, Find, Idle;
    var i := Find(cs, ep);
    FindHas(cs, ep);
    KeptSize(cs, chosen);
    if ep.port != 0 && i == |cs| && |cs| == MAX_CANDS && Idle(cs, chosen) < |cs| {
      ReplaceKeeps(cs, chosen, Idle(cs, chosen), Cand(ep, lan, 0, 0, now));
    } else if ep.port != 0 && i == |cs| && |cs| < MAX_CANDS {
      SnocKeeps(cs, chosen, Cand(ep, lan, 0, 0, now));
    } else if ep.port != 0 && i < |cs| {
      RewriteKeeps(cs, chosen, i, cs[i].(lan := lan || cs[i].lan, learned := now));
    }
  }

  lemma KeptSize(cs: seq<Cand>, chosen: Option<Endpoint>)
    requires Kept(cs, chosen)
    ensures |cs| <= MAX_CANDS
  {}

  /** One makes room for another. */
  lemma ReplaceKeeps(cs: seq<Cand>, chosen: Option<Endpoint>, d: nat, c: Cand)
    requires Kept(cs, chosen) && d < |cs| && chosen != Some(cs[d].ep) && forall k :: 0 <= k < |cs| ==> cs[k].ep != c.ep
    ensures Kept(cs[..d] + cs[d + 1..] + [c], chosen)
  {
    EvictKeeps(cs, chosen, d);
    var fewer := cs[..d] + cs[d + 1..];
    assert forall k :: 0 <= k < |fewer| ==> fewer[k] == cs[if k < d then k else k + 1];
    SnocKeeps(fewer, chosen, c);
  }

  lemma EvictKeeps(cs: seq<Cand>, chosen: Option<Endpoint>, d: nat)
    requires Kept(cs, chosen) && d < |cs| && chosen != Some(cs[d].ep)
    ensures Kept(cs[..d] + cs[d + 1..], chosen)
  {
    var fewer := cs[..d] + cs[d + 1..];
    assert forall k :: 0 <= k < |fewer| ==> fewer[k] == cs[if k < d then k else k + 1];
    if chosen.Some? {
      var i :| 0 <= i < |cs| && cs[i].ep == chosen.value;
      assert fewer[if i < d then i else i - 1] == cs[i];
    }
  }

  lemma SnocKeeps(cs: seq<Cand>, chosen: Option<Endpoint>, c: Cand)
    requires Kept(cs, chosen) && |cs| < MAX_CANDS && forall k :: 0 <= k < |cs| ==> cs[k].ep != c.ep
    ensures Kept(cs + [c], chosen)
  {
    var more := cs + [c];
    assert forall k :: 0 <= k < |cs| ==> more[k] == cs[k];
    if chosen.Some? {
      var i :| 0 <= i < |cs| && cs[i].ep == chosen.value;
      assert more[i].ep == chosen.value;
    }
  }

  lemma RewriteKeeps(cs: seq<Cand>, chosen: Option<Endpoint>, i: nat, c: Cand)
    requires Kept(cs, chosen) && i < |cs| && c.ep == cs[i].ep
    ensures Kept(cs[i := c], chosen)
  {
    var after := cs[i := c];
    assert forall k :: 0 <= k < |cs| ==> after[k].ep == cs[k].ep;
  }

  lemma TouchKeeps(cs: seq<Cand>, chosen: Option<Endpoint>, ep: Endpoint, now: nat)
    requires Kept(cs, chosen)
    ensures Kept(Touch(cs, ep, now), chosen)
  {
    var i := Find(cs, ep);
    if i < |cs| {
      RewriteKeeps(cs, chosen, i, cs[i].(lastRx := now));
    } else if |cs| < MAX_CANDS {
      SnocKeeps(cs, chosen, Cand(ep, false, now, 0, now));
    }
  }

  lemma PongKeeps(cs: seq<Cand>, chosen: Option<Endpoint>, ep: Endpoint, now: nat, rtt: nat)
    requires Kept(cs, chosen)
    ensures Kept(Pong(cs, ep, now, rtt), chosen)
  {
    var i := Find(cs, ep);
    if i < |cs| {
      RewriteKeeps(cs, chosen, i, Pong(cs, ep, now, rtt)[i]);
    }
  }

  /** What stays after pruning: every candidate that is not stale, and no other. */
  lemma {:induction false} PruneIs(cs: seq<Cand>, chosen: Option<Endpoint>, now: nat)
    ensures |Prune(cs, chosen, now)| <= |cs|
    ensures forall c :: c in Prune(cs, chosen, now) <==> c in cs && !Stale(c, chosen, now)
    ensures Distinct(cs) ==> Distinct(Prune(cs, chosen, now))
    decreases |cs|
  {
    if cs != [] {
      var front := cs[..|cs| - 1];
      PruneIs(front, chosen, now);
      assert cs == front + [cs[|cs| - 1]];
      assert forall c :: c in cs <==> c in front || c == cs[|cs| - 1];
      if Distinct(cs) {
        assert Distinct(front);
        var p := Prune(front, chosen, now);
        forall k | 0 <= k < |p|
          ensures p[k].ep != cs[|cs| - 1].ep
        {
          assert p[k] in front;
        }
      }
    }
  }

  lemma PruneKeeps(cs: seq<Cand>, chosen: Option<Endpoint>, now: nat)
    requires Kept(cs, chosen)
    ensures Kept(Prune(cs, chosen, now), chosen)
  {
    PruneIs(cs, chosen, now);
    if chosen.Some? {
      var i :| 0 <= i < |cs| && cs[i].ep == chosen.value;
      assert cs[i] in Prune(cs, chosen, now);
    }
  }

  // ---- the choice ----

  /** The first of the fastest living candidates. */
  function Best(cs: seq<Cand>, now: nat): Option<Cand> {
    if cs == [] then None
    else
      var b, c := Best(cs[..|cs| - 1], now), cs[|cs| - 1];
      if Alive(c, now) && (b.None? || Score(c) < Score(b.value)) then Some(c) else b
  }

  /** choose_direct */
  function Choice(cs: seq<Cand>, chosen: Option<Endpoint>, now: nat): Option<Endpoint> {
    var best := Best(cs, now);
    if best.None? then None
    else
      var i := if chosen.Some? then Find(cs, chosen.value) else |cs|;
      if i < |cs| && Alive(cs[i], now) && Score(cs[i]) <= Tolerance(Score(best.value)) then Some(cs[i].ep)
      else Some(best.value.ep)
  }

  lemma {:induction false} BestIs(cs: seq<Cand>, now: nat)
    ensures Best(cs, now).Some? <==> exists c :: c in cs && Alive(c, now)
    ensures Best(cs, now).Some? ==> Best(cs, now).value in cs && Alive(Best(cs, now).value, now)
    ensures forall c :: c in cs && Alive(c, now) ==> Score(Best(cs, now).value) <= Score(c)
    decreases |cs|
  {
    if cs != [] {
      BestIs(cs[..|cs| - 1], now);
      assert forall c :: c in cs <==> c in cs[..|cs| - 1] || c == cs[|cs| - 1];
    }
  }

  /** The choice is a living candidate of the table, within a quarter of every other
      living one; there is none exactly when nobody lives; and the present choice, while
      it lives, is left only for something it is more than a quarter slower than. */
  lemma ChoiceIs(cs: seq<Cand>, chosen: Option<Endpoint>, now: nat)
    requires Distinct(cs)
    ensures var ch := Choice(cs, chosen, now);
            && (ch.Some? <==> exists c :: c in cs && Alive(c, now))
            && (ch.Some? ==>
                  Has(cs, ch.value) && var m := cs[Find(cs, ch.value)];
                  Alive(m, now) && forall c :: c in cs && Alive(c, now) ==> Score(m) <= Tolerance(Score(c)))
    ensures var ch := Choice(cs, chosen, now);
            forall i :: 0 <= i < |cs| && chosen == Some(cs[i].ep) && Alive(cs[i], now) && ch != chosen ==>
              exists c :: c in cs && Alive(c, now) && Tolerance(Score(c)) < Score(cs[i])
  {
    BestIs(cs, now);
    var ch := Choice(cs, chosen, now);
    if ch.Some? {
      var best := Best(cs, now).value;
      FindUnique(cs, best);
      forall c | c in cs && Alive(c, now)
        ensures Score(cs[Find(cs, ch.value)]) <= Tolerance(Score(c))
      {
        Tolerates(Score(best), Score(c));
      }
      forall i | 0 <= i < |cs| && chosen == Some(cs[i].ep) && Alive(cs[i], now) && ch != chosen
        ensures Tolerance(Score(best)) < Score(cs[i])
      {
        FindUnique(cs, cs[i]);
      }
    } else {
      assert forall i :: 0 <= i < |cs| ==> cs[i] in cs;
    }
  }

  lemma Tolerates(a: nat, b: nat)
    requires a <= b
    ensures a <= Tolerance(a) <= Tolerance(b)
  {}

  lemma FindUnique(cs: seq<Cand>, c: Cand)
    requires Distinct(cs) && c in cs
    ensures Find(cs, c.ep) < |cs| && cs[Find(cs, c.ep)] == c
  {
    var i :| 0 <= i < |cs| && cs[i] == c;
    assert Find(cs, c.ep) <= i;
  }

  /** Choosing again on unchanged data changes nothing. */
  lemma ChoiceStays(cs: seq<Cand>, chosen: Option<Endpoint>, now: nat)
    requires Distinct(cs)
    ensures Choice(cs, Choice(cs, chosen, now), now) == Choice(cs, chosen, now)
  {
    BestIs(cs, now);
    ChoiceIs(cs, chosen, now);
    if Best(cs, now).Some? {
      FindUnique(cs, Best(cs, now).value);
    }
  }

  lemma ChoiceKeeps(cs: seq<Cand>, chosen: Option<Endpoint>, now: nat)
    requires Kept(cs, chosen)
    ensures Kept(cs, Choice(cs, chosen, now))
  {
    ChoiceIs(cs, chosen, now);
  }

  // ---- over runs ----

  /** The table and the choice made from it. */
  datatype Paths = Paths(cands: seq<Cand>, chosen: Option<Endpoint>)

  datatype Event =
    | Learns(ep: Endpoint, lan: bool, now: nat)      // reported by the peer, or found on the LAN
    | Hears(ep: Endpoint, now: nat)                  // a packet that proved to be the peer's
    | Answers(ep: Endpoint, now: nat, rtt: nat)      // a PONG to the latest PING
    | Prunes(now: nat)
    | Chooses(now: nat)

  function Happens(s: Paths, e: Event): Paths {
    match e
    case Learns(ep, lan, now) => s.(cands := Add(s.cands, s.chosen, ep, lan, now))
    case Hears(ep, now) => s.(cands := Touch(s.cands, ep, now))
    case Answers(ep, now, rtt) => s.(cands := Pong(s.cands, ep, now, rtt))
    case Prunes(now) => s.(cands := Prune(s.cands, s.chosen, now))
    case Chooses(now) => s.(chosen := Choice(s.cands, s.chosen, now))
  }

  function Run(s: Paths, es: seq<Event>): Paths
    decreases |es|
  {
    if es == [] then s else Run(Happens(s, es[0]), es[1..])
  }

  const NOTHING := Paths([], None)

  /** What is known of one address from the events about it since it entered the table:
      when it was last heard of (0: never) and last reported, whether it was ever found on
      the LAN, and the smoothed round trip (0: none measured). */
  datatype Story = Story(heard: nat, learned: nat, lan: bool, srtt: nat)

  /** The story after an event about an address in the table. */
  function Told(h: Story, e: Event): Story {
    match e
    case Learns(_, lan, now) => h.(learned := now, lan := h.lan || lan)
    case Hears(_, now) => h.(heard := now)
    case Answers(_, now, rtt) =>
      var sample := if rtt == 0 then 1 else rtt;
      h.(heard := now, srtt := if h.srtt == 0 then sample else (3 * h.srtt + sample) / 4)
    case _ => h
  }

  /** The story of an address that this event brings in. */
  function Opening(e: Event): Story {
    match e
    case Learns(_, lan, now) => Story(0, now, lan, 0)
    case Hears(_, now) => Story(now, now, false, 0)
    case _ => Story(0, 0, false, 0)
  }

  /** (A report of port 0 is of no address.) */
  predicate About(e: Event, ep: Endpoint) {
    match e
    case Learns(x, _, _) => x == ep && x.port != 0
    case Hears(x, _) => x == ep
    case Answers(x, _, _) => x == ep
    case _ => false
  }

  /** The story of an address over a run; it begins anew whenever the address enters. */
  function StoryOf(s: Paths, es: seq<Event>, ep: Endpoint, h: Story): Story
    decreases |es|
  {
    if es == [] then h
    else
      var next := if !About(es[0], ep) then h else if Has(s.cands, ep) then Told(h, es[0]) else Opening(es[0]);
      StoryOf(Happens(s, es[0]), es[1..], ep, next)
  }

  /** The candidate that tells a story. */
  function CandOf(ep: Endpoint, h: Story): Cand {
    Cand(ep, h.lan, h.heard, h.srtt, h.learned)
  }

  /** Whatever the table says of the address is its story. */
  predicate Tells(cs: seq<Cand>, ep: Endpoint, h: Story) {
    forall i :: 0 <= i < |cs| && cs[i].ep == ep ==> cs[i] == CandOf(ep, h)
  }

  lemma EventTells(s: Paths, e: Event, ep: Endpoint, h: Story)
    requires Kept(s.cands, s.chosen) && Tells(s.cands, ep, h)
    ensures var next := if !About(e, ep) then h else if Has(s.cands, ep) then Told(h, e) else Opening(e);
            Tells(Happens(s, e).cands, ep, next)
  {
    FindHas(s.cands, ep);
    match e
    case Learns(x, lan, now) => AddTells(s.cands, s.chosen, x, lan, now, ep, h);
    case Hears(x, now) =>
    case Answers(x, now, rtt) =>
    case Prunes(now) => PruneTells(s.cands, s.chosen, now, ep, h);
    case Chooses(now) =>
  }

  lemma PruneTells(cs: seq<Cand>, chosen: Option<Endpoint>, now: nat, ep: Endpoint, h: Story)
    requires Tells(cs, ep, h)
    ensures Tells(Prune(cs, chosen, now), ep, h)
  {
    PruneIs(cs, chosen, now);
    var ds := Prune(cs, chosen, now);
    forall i | 0 <= i < |ds| && ds[i].ep == ep
      ensures ds[i] == CandOf(ep, h)
    {
      assert ds[i] in cs;
    }
  }

  lemma AddTells(cs: seq<Cand>, chosen: Option<Endpoint>, x: Endpoint, lan: bool, now: nat, ep: Endpoint, h: Story)
    requires Kept(cs, chosen) && Tells(cs, ep, h)
    ensures var e := Learns(x, lan, now);
            var next := if !About(e, ep) then h else if Has(cs, ep) then Told(h, e) else Opening(e);
            Tells(Add(cs, chosen, x, lan, now), ep, next)
  {
    FindHas(cs, x);
    var d := Idle(cs, chosen);
    if x.port != 0 && Find(cs, x) == |cs| && |cs| == MAX_CANDS && d < |cs| {
      var fewer := cs[..d] + cs[d + 1..];
      assert forall k :: 0 <= k < |fewer| ==> fewer[k] == cs[if k < d then k else k + 1];
    }
  }

  lemma EventKeeps(s: Paths, e: Event)
    requires Kept(s.cands, s.chosen)
    ensures Kept(Happens(s, e).cands, Happens(s, e).chosen)
  {
    hide Kept;
    match e
    case Learns(ep, lan, now) => AddKeeps(s.cands, s.chosen, ep, lan, now);
    case Hears(ep, now) => TouchKeeps(s.cands, s.chosen, ep, now);
    case Answers(ep, now, rtt) => PongKeeps(s.cands, s.chosen, ep, now, rtt);
    case Prunes(now) => PruneKeeps(s.cands, s.chosen, now);
    case Chooses(now) => ChoiceKeeps(s.cands, s.chosen, now);
  }

  lemma {:induction false} RunTells(s: Paths, es: seq<Event>, ep: Endpoint, h: Story)
    requires Kept(s.cands, s.chosen) && Tells(s.cands, ep, h)
    ensures Kept(Run(s, es).cands, Run(s, es).chosen) && Tells(Run(s, es).cands, ep, StoryOf(s, es, ep, h))
    decreases |es|
  {
    hide Kept, Tells, Happens, Told, Opening, About, Has;
    if es != [] {
      EventKeeps(s, es[0]);
      EventTells(s, es[0], ep, h);
      RunTells(Happens(s, es[0]), es[1..], ep,
               if !About(es[0], ep) then h else if Has(s.cands, ep) then Told(h, es[0]) else Opening(es[0]));
    }
  }

  const UNTOLD := Story(0, 0, false, 0)

  /** In every run: at most 16 candidates, all different, the chosen one among them; and
      each says exactly what was heard, reported and measured of its address since it
      entered the table, whatever happened to others. */
  lemma TableTells(es: seq<Event>, ep: Endpoint)
    ensures var s := Run(NOTHING, es);
            && Kept(s.cands, s.chosen)
            && forall c :: c in s.cands && c.ep == ep ==> c == CandOf(ep, StoryOf(NOTHING, es, ep, UNTOLD))
  {
    hide Run, StoryOf, Kept;
    assert Kept([], None) by {
      hide Run, StoryOf;
      NothingKept();
    }
    RunTells(NOTHING, es, ep, UNTOLD);
  }

  lemma NothingKept()
    ensures Kept([], None)
  {}

  /** An address is heard of when a packet or a PONG comes from it. */
  predicate HearsOf(e: Event, ep: Endpoint) {
    About(e, ep) && !e.Learns?
  }

  /** The time of the latest packet or PONG from an address since it entered, or 0. */
  function LastHeard(s: Paths, es: seq<Event>, ep: Endpoint, at: nat): nat
    decreases |es|
  {
    if es == [] then at
    else
      var t := Happens(s, es[0]);
      LastHeard(t, es[1..], ep, if !Has(t.cands, ep) then 0 else if HearsOf(es[0], ep) then es[0].now else at)
  }

  /** In every run `lastRx` is the time of the latest packet or PONG from the address. */
  lemma HeardOf(es: seq<Event>, c: Cand)
    requires c in Run(NOTHING, es).cands
    ensures c.lastRx == LastHeard(NOTHING, es, c.ep, 0)
  {
    hide Run, LastHeard;
    NothingKept();
    RunHears(NOTHING, es, c.ep, 0);
  }

  /** `at` is when the table says the address was last heard of. */
  predicate HeardAt(cs: seq<Cand>, ep: Endpoint, at: nat) {
    && (forall i :: 0 <= i < |cs| && cs[i].ep == ep ==> cs[i].lastRx == at)
    && (!Has(cs, ep) ==> at == 0)
  }

  lemma {:induction false} RunHears(s: Paths, es: seq<Event>, ep: Endpoint, at: nat)
    requires Kept(s.cands, s.chosen) && HeardAt(s.cands, ep, at)
    ensures HeardAt(Run(s, es).cands, ep, LastHeard(s, es, ep, at))
    decreases |es|
  {
    hide Kept, HeardAt, Happens, HearsOf, Has;
    if es != [] {
      var t := Happens(s, es[0]);
      EventKeeps(s, es[0]);
      EventHears(s, es[0], ep, at);
      RunHears(t, es[1..], ep, if !Has(t.cands, ep) then 0 else if HearsOf(es[0], ep) then es[0].now else at);
    }
  }

  lemma EventHears(s: Paths, e: Event, ep: Endpoint, at: nat)
    requires Kept(s.cands, s.chosen) && HeardAt(s.cands, ep, at)
    ensures var t := Happens(s, e);
            HeardAt(t.cands, ep, if !Has(t.cands, ep) then 0 else if HearsOf(e, ep) then e.now else at)
  {
    FindHas(s.cands, ep);
    match e
    case Learns(x, lan, now) => AddHears(s.cands, s.chosen, x, lan, now, ep, at);
    case Hears(x, now) =>
    case Answers(x, now, rtt) =>
    case Prunes(now) => PruneHears(s.cands, s.chosen, now, ep, at);
    case Chooses(now) =>
  }

  lemma AddHears(cs: seq<Cand>, chosen: Option<Endpoint>, x: Endpoint, lan: bool, now: nat, ep: Endpoint, at: nat)
    requires Kept(cs, chosen) && HeardAt(cs, ep, at)
    ensures var ds := Add(cs, chosen, x, lan, now);
            HeardAt(ds, ep, if !Has(ds, ep) then 0 else at)
  {
    FindHas(cs, x);
    var d := Idle(cs, chosen);
    if x.port != 0 && Find(cs, x) == |cs| && |cs| == MAX_CANDS && d < |cs| {
      var fewer := cs[..d] + cs[d + 1..];
      assert forall k :: 0 <= k < |fewer| ==> fewer[k] == cs[if k < d then k else k + 1];
    }
  }

  lemma PruneHears(cs: seq<Cand>, chosen: Option<Endpoint>, now: nat, ep: Endpoint, at: nat)
    requires HeardAt(cs, ep, at)
    ensures var ds := Prune(cs, chosen, now);
            HeardAt(ds, ep, if !Has(ds, ep) then 0 else at)
  {
    PruneIs(cs, chosen, now);
    var ds := Prune(cs, chosen, now);
    forall i | 0 <= i < |ds| && ds[i].ep == ep
      ensures ds[i].lastRx == at
    {
      assert ds[i] in cs;
    }
  }

  /** Who leaves the table: only by pruning, an address that is not in use and was neither
      heard of nor reported for two minutes; or, to make room in a full table for a new
      report, one that is not in use and was never heard of. */
  lemma LeavesWhen(s: Paths, e: Event, c: Cand)
    requires Kept(s.cands, s.chosen) && c in s.cands && !Has(Happens(s, e).cands, c.ep)
    ensures s.chosen != Some(c.ep)
    ensures (e.Prunes? && e.now > c.lastRx + CAND_STALE_MS && e.now > c.learned + CAND_STALE_MS)
            || (e.Learns? && !Has(s.cands, e.ep) && |s.cands| == MAX_CANDS && c.lastRx == 0)
  {
    var i :| 0 <= i < |s.cands| && s.cands[i] == c;
    if e.Learns? {
      FindHas(s.cands, e.ep);
      AddLoses(s.cands, s.chosen, e.ep, e.lan, e.now, i);
    } else if e.Prunes? {
      PruneLoses(s.cands, s.chosen, e.now, i);
    } else {
      StillThere(s, e, i);
    }
  }

  /** Who enters: an address reported with a port, if there is room or some candidate can
      make room; and one a packet came from, if there is room. */
  lemma EntersWhen(s: Paths, e: Event, ep: Endpoint)
    requires Kept(s.cands, s.chosen) && !Has(s.cands, ep)
    ensures Has(Happens(s, e).cands, ep) <==>
              || (e.Learns? && About(e, ep)
                  && (|s.cands| < MAX_CANDS || exists c :: c in s.cands && c.lastRx == 0 && s.chosen != Some(c.ep)))
              || (e.Hears? && e.ep == ep && |s.cands| < MAX_CANDS)
  {
    FindHas(s.cands, ep);
    var t := Happens(s, e);
    match e
    case Learns(x, lan, now) => AddEnters(s.cands, s.chosen, x, lan, now, ep);
    case Hears(x, now) =>
      if x == ep && |s.cands| < MAX_CANDS {
        assert t.cands[|s.cands|].ep == ep;
      }
    case Answers(x, now, rtt) =>
    case Prunes(now) =>
      PruneIs(s.cands, s.chosen, now);
      if i :| 0 <= i < |t.cands| && t.cands[i].ep == ep {
        NotThere(s.cands, t.cands[i]);
      }
    case Chooses(now) =>
  }

  lemma NotThere(cs: seq<Cand>, c: Cand)
    requires c in cs
    ensures Has(cs, c.ep)
  {
    var i :| 0 <= i < |cs| && cs[i] == c;
  }

  lemma AddEnters(cs: seq<Cand>, chosen: Option<Endpoint>, x: Endpoint, lan: bool, now: nat, ep: Endpoint)
    requires Kept(cs, chosen) && !Has(cs, ep)
    ensures Has(Add(cs, chosen, x, lan, now), ep) <==>
              x == ep && x.port != 0 && (|cs| < MAX_CANDS || exists c :: c in cs && c.lastRx == 0 && chosen != Some(c.ep))
  {
    FindHas(cs, x);
    FindHas(cs, ep);
    var ds, d := Add(cs, chosen, x, lan, now), Idle(cs, chosen);
    if c :| c in cs && c.lastRx == 0 && chosen != Some(c.ep) {
      assert d < |cs|;
    }
    if d < |cs| {
      assert cs[d] in cs;
    }
    if x == ep && x.port != 0 && ds != cs {
      assert ds[|ds| - 1].ep == ep;
    }
  }

  lemma StillThere(s: Paths, e: Event, i: nat)
    requires i < |s.cands| && !e.Learns? && !e.Prunes?
    ensures Has(Happens(s, e).cands, s.cands[i].ep)
  {
    var t := Happens(s, e);
    assert |t.cands| >= |s.cands| && t.cands[i].ep == s.cands[i].ep;
  }

  lemma PruneLoses(cs: seq<Cand>, chosen: Option<Endpoint>, now: nat, i: nat)
    requires i < |cs|
    ensures Stale(cs[i], chosen, now) || Has(Prune(cs, chosen, now), cs[i].ep)
  {
    PruneIs(cs, chosen, now);
    var ds := Prune(cs, chosen, now);
    if !Stale(cs[i], chosen, now) {
      assert cs[i] in ds;
      var k :| 0 <= k < |ds| && ds[k] == cs[i];
    }
  }

  lemma AddLoses(cs: seq<Cand>, chosen: Option<Endpoint>, x: Endpoint, lan: bool, now: nat, i: nat)
    requires i < |cs|
    ensures Has(Add(cs, chosen, x, lan, now), cs[i].ep) || (Find(cs, x) == |cs| && |cs| >= MAX_CANDS && Idle(cs, chosen) == i)
  {
    var ds := Add(cs, chosen, x, lan, now);
    var d := Idle(cs, chosen);
    if x.port == 0 || Find(cs, x) < |cs| || |cs| < MAX_CANDS || d == |cs| {
      assert ds[i].ep == cs[i].ep;
    } else if i != d {
      assert ds[if i < d then i else i - 1] == cs[i];
    }
  }

  /** Heard of within three seconds before `now`. */
  predicate HeardLately(es: seq<Event>, ep: Endpoint, now: nat) {
    var at := LastHeard(NOTHING, es, ep, 0);
    at != 0 && now < at + DIRECT_DEAD_MS
  }

  /** After any run: there is a direct path exactly when some address of the table was heard
      of within three seconds; the chosen one was, and its round trip is within a quarter
      of that of every other such; and one in use that was heard of so lately is left only
      for another that is faster by more than a quarter. */
  lemma PathChosen(es: seq<Event>, now: nat)
    ensures var s := Run(NOTHING, es);
            var ch := Happens(s, Chooses(now)).chosen;
            && (ch.Some? <==> exists c :: c in s.cands && HeardLately(es, c.ep, now))
            && (ch.Some? ==> exists m :: m in s.cands && m.ep == ch.value && HeardLately(es, m.ep, now)
                               && forall c :: c in s.cands && HeardLately(es, c.ep, now) ==> Score(m) <= Tolerance(Score(c)))
            && (forall m :: m in s.cands && s.chosen == Some(m.ep) && HeardLately(es, m.ep, now) && ch != s.chosen ==>
                  exists c :: c in s.cands && HeardLately(es, c.ep, now) && Tolerance(Score(c)) < Score(m))
  {
    hide Run, LastHeard, Choice, Best;
    var s := Run(NOTHING, es);
    var ch := Choice(s.cands, s.chosen, now);
    TableTells(es, Endpoint(0, 0));
    forall c | c in s.cands
      ensures Alive(c, now) <==> HeardLately(es, c.ep, now)
    {
      HeardOf(es, c);
    }
    ChoiceIs(s.cands, s.chosen, now);
    if ch.Some? {
      FindHas(s.cands, ch.value);
      var m := s.cands[Find(s.cands, ch.value)];
      assert m in s.cands && HeardLately(es, m.ep, now);
    }
    forall m | m in s.cands && s.chosen == Some(m.ep) && HeardLately(es, m.ep, now) && ch != s.chosen
      ensures exists c :: c in s.cands && HeardLately(es, c.ep, now) && Tolerance(Score(c)) < Score(m)
    {
      var i :| 0 <= i < |s.cands| && s.cands[i] == m;
    }
  }

  // ---- the class of the source ----

  class PathManager {
    var cands: seq<Cand>
    var chosen: Option<Endpoint>
    var directConfirmed: bool
    var txDirect: bool
    var forceRelay: bool
    /** How often the LAN search and the question for the peer's port were restarted. */
    var lanRestarts: nat
    var portRestarts: nat

    /** A direct path is confirmed exactly when one is chosen. */
    ghost predicate Valid()
      reads this
    {
      && Kept(cands, chosen)
      && (directConfirmed <==> chosen.Some?)
      && (txDirect ==> chosen.Some? && !forceRelay)
    }

    constructor (forceRelay: bool)
      ensures Valid() && cands == [] && chosen == None && this.forceRelay == forceRelay
    {
      cands, chosen, directConfirmed, txDirect := [], None, false, false;
      this.forceRelay := forceRelay;
      lanRestarts, portRestarts := 0, 0;
    }

    method FindCand(ep: Endpoint) returns (i: nat)
      ensures i == Find(cands, ep)
    {
      i := 0;
      while i < |cands| && cands[i].ep != ep
        invariant i <= |cands|
        invariant forall k :: 0 <= k < i ==> cands[k].ep != ep
      {
        i := i + 1;
      }
    }

    method AddCand(ep: Endpoint, lan: bool, now: nat)
      requires Valid()
      modifies this`cands
      ensures Valid() && cands == Add(old(cands), chosen, ep, lan, now)
    {
      AddKeeps(cands, chosen, ep, lan, now);
      if ep.port == 0 {
        return;
      }
      var i := FindCand(ep);
      if i < |cands| {
        cands := cands[i := cands[i].(lan := lan || cands[i].lan, learned := now)];
        return;
      }
      if |cands| >= MAX_CANDS {
        var d := 0;
        while d < |cands| && !(cands[d].lastRx == 0 && chosen != Some(cands[d].ep))
          invariant d <= |cands|
          invariant forall k :: 0 <= k < d ==> cands[k].lastRx != 0 || chosen == Some(cands[k].ep)
        {
          d := d + 1;
        }
        if d == |cands| {
          return;
        }
        cands := cands[..d] + cands[d + 1..];
      }
      cands := cands + [Cand(ep, lan, 0, 0, now)];
    }

    method TouchCand(ep: Endpoint, now: nat)
      requires Valid()
      modifies this`cands
      ensures Valid() && cands == Touch(old(cands), ep, now)
    {
      TouchKeeps(cands, chosen, ep, now);
      var i := FindCand(ep);
      if i < |cands| {
        cands := cands[i := cands[i].(lastRx := now)];
        return;
      }
      if |cands| >= MAX_CANDS {
        return;
      }
      cands := cands + [Cand(ep, false, now, 0, now)];
    }

    method OnPong(ep: Endpoint, now: nat, rtt: nat)
      requires Valid()
      modifies this`cands
      ensures Valid() && cands == Pong(old(cands), ep, now, rtt)
    {
      PongKeeps(cands, chosen, ep, now, rtt);
      var i := FindCand(ep);
      if i < |cands| {
        var c := cands[i];
        var sample := if rtt < 1 then 1 else rtt;
        cands := cands[i := c.(lastRx := now, srtt := if c.srtt != 0 then (c.srtt * 3 + sample) / 4 else sample)];
      }
    }

    method PruneCands(now: nat)
      requires Valid()
      modifies this`cands
      ensures Valid() && cands == Prune(old(cands), chosen, now)
    {
      PruneKeeps(cands, chosen, now);
      ghost var all := cands;
      var from, kept := cands, [];
      var i := 0;
      while i < |from|
        invariant 0 <= i <= |from|
        invariant kept == Prune(from[..i], chosen, now)
      {
        assert from[..i + 1][..i] == from[..i];
        if !Stale(from[i], chosen, now) {
          kept := kept + [from[i]];
        }
        i := i + 1;
      }
      assert from[..i] == from;
      cands := kept;
    }

    method ChooseDirect(now: nat)
      requires Valid()
      modifies this`chosen, this`directConfirmed
      ensures Kept(cands, chosen) && (directConfirmed <==> chosen.Some?)
      ensures chosen == Choice(cands, old(chosen), now)
    {
      ChoiceKeeps(cands, chosen, now);
      var best: Option<Cand> := None;
      var i := 0;
      while i < |cands|
        invariant 0 <= i <= |cands|
        invariant best == Best(cands[..i], now)
      {
        assert cands[..i + 1][..i] == cands[..i];
        if Alive(cands[i], now) && (best.None? || Score(cands[i]) < Score(best.value)) {
          best := Some(cands[i]);
        }
        i := i + 1;
      }
      assert cands[..i] == cands;
      if chosen.Some? {
        var k := FindCand(chosen.value);
        if k < |cands| && Alive(cands[k], now) && best.Some? && Score(cands[k]) <= Tolerance(Score(best.value)) {
          best := Some(cands[k]);
        }
      }
      if best.Some? {
        chosen, directConfirmed := Some(best.value.ep), true;
      } else {
        chosen, directConfirmed := None, false;
      }
    }

    /** update_tx_path: choose, and look around again when the path was lost; ask for the
        peer's port again when it was lost, came up or moved. */
    method UpdateTxPath(now: nat)
      requires Valid()
      modifies this`chosen, this`directConfirmed, this`txDirect, this`lanRestarts, this`portRestarts
      ensures Valid() && chosen == Choice(cands, old(chosen), now)
      ensures txDirect <==> chosen.Some? && !forceRelay
      ensures lanRestarts == old(lanRestarts) + if old(chosen).Some? && chosen.None? then 1 else 0
      ensures portRestarts == old(portRestarts) + if old(chosen) != chosen then 1 else 0
    {
      var wasDirect, wasChosen := directConfirmed, chosen;
      ChooseDirect(now);
      if wasDirect && !directConfirmed {
        lanRestarts := lanRestarts + 1;
        portRestarts := portRestarts + 1;
      } else if directConfirmed && chosen != wasChosen {
        portRestarts := portRestarts + 1;
      }
      txDirect := !forceRelay && directConfirmed;
    }
  }
}

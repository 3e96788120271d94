/** CodeAllocator (src/server/code_alloc.cpp): pairing codes, the smallest free one first,
    each held back for a while before it is given out again. */
module CodeAlloc {
  import opened Wrappers

  datatype Config = Config(initialMax: nat, hardMax: int, cooldown: int)

  // ---- growing the pool ----

  /** One growth of the pool: ten times as large, up to the hard cap. */
  function Grown(max: int, hard: int): int {
    if max * 10 > hard then hard else max * 10
  }

  function GrownTimes(max: int, hard: int, k: nat): int
    decreases k
  {
    if k == 0 then max else GrownTimes(if max >= hard then max else Grown(max, hard), hard, k - 1)
  }

  /** Growing reaches the cap exactly when the pool is not empty to begin with, or there
      is nothing to grow to: an empty pool below its cap grows for ever. */
  lemma GrowthEnds(max: nat, hard: int)
    ensures (exists k: nat :: GrownTimes(max, hard, k) >= hard) <==> max >= 1 || hard <= max
  {
    if max >= 1 || hard <= max {
      var k := Enough(max, hard);
      assert GrownTimes(max, hard, k) >= hard;
    } else {
      forall k: nat
        ensures GrownTimes(max, hard, k) < hard
      {
        StuckAtZero(hard, k);
      }
    }
  }

  lemma {:induction false} Enough(max: nat, hard: int) returns (k: nat)
    requires max >= 1 || hard <= max
    ensures GrownTimes(max, hard, k) >= hard
    decreases if hard > max then hard - max else 0
  {
    if max >= hard {
      k := 0;
    } else {
      var n := Enough(Grown(max, hard), hard);
      k := n + 1;
    }
  }

  lemma {:induction false} StuckAtZero(hard: int, k: nat)
    requires hard > 0
    ensures GrownTimes(0, hard, k) == 0
  {
    if k > 0 {
      StuckAtZero(hard, k - 1);
    }
  }

  // ---- the allocator ----

  /** `freed` remembers when a code was last released or ran out, `clock` the latest time
      seen. */
  predicate Kept(active: map<nat, int>, cooldown: map<nat, int>, freed: map<nat, int>, clock: int, hold: int) {
    && active.Keys !! cooldown.Keys
    && (forall c :: c in cooldown ==> c in freed && cooldown[c] >= freed[c] + hold)
    && (forall c :: c in freed && c !in active && c !in cooldown ==> freed[c] + hold <= clock)
    && (forall c :: c in freed && c in active ==> freed[c] + hold <= clock)
  }

  lemma Later(active: map<nat, int>, cooldown: map<nat, int>, freed: map<nat, int>, clock: int, hold: int, now: int)
    requires Kept(active, cooldown, freed, clock, hold) && clock <= now
    ensures Kept(active, cooldown, freed, now, hold)
  {}

  lemma RunsOut(active: map<nat, int>, cooldown: map<nat, int>, freed: map<nat, int>, clock: int, hold: int, c: nat)
    requires Kept(active, cooldown, freed, clock, hold) && c in active && active[c] <= clock
    ensures Kept(active - {c}, cooldown[c := clock + hold], freed[c := active[c]], clock, hold)
  {}

  /** The first loop of expire has dealt with all codes but `codes`. */
  ghost predicate Swept(a0: map<nat, int>, c0: map<nat, int>, f0: map<nat, int>, codes: set<nat>, now: int, hold: int,
                        active: map<nat, int>, cooldown: map<nat, int>, freed: map<nat, int>) {
    && (forall c :: c in active <==> c in a0 && (c in codes || a0[c] > now))
    && (forall c :: c in active ==> active[c] == a0[c])
    && (forall c :: c in cooldown <==> c in c0 || (c in a0 && c !in active))
    && (forall c :: c in cooldown ==> cooldown[c] == if c in a0 then now + hold else c0[c])
    && (forall c :: c in a0 && c !in active ==> c in freed && freed[c] == a0[c])
    && f0.Keys <= freed.Keys
  }

  lemma Apart(active: map<nat, int>, cooldown: map<nat, int>, freed: map<nat, int>, clock: int, hold: int)
    requires Kept(active, cooldown, freed, clock, hold)
    ensures active.Keys !! cooldown.Keys
  {}

  lemma SweepStarts(a: map<nat, int>, c: map<nat, int>, f: map<nat, int>, now: int, hold: int)
    requires a.Keys !! c.Keys
    ensures Swept(a, c, f, a.Keys, now, hold, a, c, f)
  {}

  lemma SweepStep(a0: map<nat, int>, c0: map<nat, int>, f0: map<nat, int>, codes: set<nat>, now: int, hold: int,
                  active: map<nat, int>, cooldown: map<nat, int>, freed: map<nat, int>, c: nat)
    requires Swept(a0, c0, f0, codes, now, hold, active, cooldown, freed) && c in codes && c in a0
    ensures c in active && if active[c] <= now
            then Swept(a0, c0, f0, codes - {c}, now, hold, active - {c}, cooldown[c := now + hold], freed[c := active[c]])
            else Swept(a0, c0, f0, codes - {c}, now, hold, active, cooldown, freed)
  {}

  lemma SweepDone(a0: map<nat, int>, c0: map<nat, int>, f0: map<nat, int>, now: int, hold: int,
                  active: map<nat, int>, cooldown: map<nat, int>, freed: map<nat, int>)
    requires Swept(a0, c0, f0, {}, now, hold, active, cooldown, freed)
    ensures forall c :: c in active <==> c in a0 && a0[c] > now
    ensures forall c :: c in active ==> active[c] == a0[c]
    ensures forall c :: c in cooldown <==> c in c0 || (c in a0 && a0[c] <= now)
    ensures forall c :: c in cooldown ==> cooldown[c] == if c in a0 then now + hold else c0[c]
    ensures forall c :: c in a0 && c !in active ==> c in freed && freed[c] == a0[c]
    ensures f0.Keys <= freed.Keys && forall c :: c in a0 ==> c in active || c in freed
  {}

  predicate Taken(active: map<nat, int>, cooldown: map<nat, int>, c: nat) {
    c in active || c in cooldown
  }

  class CodeAllocator {
    const cfg: Config
    var max: int
    var active: map<nat, int>
    var cooldown: map<nat, int>
    ghost var freed: map<nat, int>
    ghost var clock: int
    /** Every code ever given out. */
    ghost var issued: set<nat>

    ghost predicate Valid()
      reads this
    {
      && (forall c :: c in issued ==> c in active || c in freed)
      && Kept(active, cooldown, freed, clock, cfg.cooldown)
      && max >= 0 && (max >= 1 || cfg.hardMax <= max)
    }

    constructor (cfg: Config)
      requires cfg.initialMax >= 1 || cfg.hardMax <= cfg.initialMax
      ensures Valid() && this.cfg == cfg && max == cfg.initialMax && active == map[] && cooldown == map[]
    {
      this.cfg := cfg;
      max := cfg.initialMax;
      active, cooldown, freed, clock, issued := map[], map[], map[], 0, {};
    }

    /** expire: what has run out goes into cooldown, what has cooled down is free. */
    method Expire(now: int)
      requires Valid() && clock <= now
      modifies this`active, this`cooldown, this`freed, this`clock
      ensures Valid() && clock == now
      ensures forall c :: c in active <==> c in old(active) && old(active)[c] > now
      ensures forall c :: c in active ==> active[c] == old(active)[c]
      ensures forall c :: c in cooldown ==>
                cooldown[c] > now
                && ((c in old(cooldown) && c !in old(active) && cooldown[c] == old(cooldown)[c])
                    || (c in old(active) && cooldown[c] == now + cfg.cooldown))
      ensures forall c :: c in old(cooldown) && c !in old(active) && old(cooldown)[c] > now ==> c in cooldown
      ensures forall c :: c in old(active) && c !in active ==>
                c in freed && freed[c] == old(active)[c] && (cfg.cooldown > 0 ==> c in cooldown)
    {
      ExpireActive(now);
      CoolDown(now);
    }

    method ExpireActive(now: int)
      requires Valid() && clock <= now
      modifies this`active, this`cooldown, this`freed, this`clock
      ensures Valid() && clock == now
      ensures forall c :: c in active <==> c in old(active) && old(active)[c] > now
      ensures forall c :: c in active ==> active[c] == old(active)[c]
      ensures forall c :: c in cooldown <==> c in old(cooldown) || (c in old(active) && old(active)[c] <= now)
      ensures forall c :: c in cooldown ==>
                cooldown[c] == if c in old(active) then now + cfg.cooldown else old(cooldown)[c]
      ensures forall c :: c in old(active) && c !in active ==> c in freed && freed[c] == old(active)[c]
    {
      hide Kept, Swept;
      ghost var a0, c0, f0 := active, cooldown, freed;
      Later(active, cooldown, freed, clock, cfg.cooldown, now);
      clock := now;
      SweepActive(now);
      SweepDone(a0, c0, f0, now, cfg.cooldown, active, cooldown, freed);
    }

    /** The loop over the active codes. */
    method SweepActive(now: int)
      requires Kept(active, cooldown, freed, now, cfg.cooldown)
      modifies this`active, this`cooldown, this`freed
      ensures Kept(active, cooldown, freed, now, cfg.cooldown)
      ensures Swept(old(active), old(cooldown), old(freed), {}, now, cfg.cooldown, active, cooldown, freed)
    {
      hide Kept, Swept;
      var codes := active.Keys;
      ghost var a0, c0, f0 := active, cooldown, freed;
      Apart(a0, c0, f0, now, cfg.cooldown);
      SweepStarts(a0, c0, f0, now, cfg.cooldown);
      while codes != {}
        invariant codes <= a0.Keys
        invariant Kept(active, cooldown, freed, now, cfg.cooldown)
        invariant Swept(a0, c0, f0, codes, now, cfg.cooldown, active, cooldown, freed)
        decreases |codes|
      {
        var c :| c in codes;
        SweepStep(a0, c0, f0, codes, now, cfg.cooldown, active, cooldown, freed, c);
        codes := codes - {c};
        ExpireOne(c, now);
      }
    }

    method ExpireOne(c: nat, now: int)
      requires c in active && Kept(active, cooldown, freed, now, cfg.cooldown)
      modifies this`active, this`cooldown, this`freed
      ensures Kept(active, cooldown, freed, now, cfg.cooldown)
      ensures if old(active)[c] <= now
              then active == old(active) - {c} && cooldown == old(cooldown)[c := now + cfg.cooldown] && freed == old(freed)[c := old(active)[c]]
              else active == old(active) && cooldown == old(cooldown) && freed == old(freed)
    {
      hide Kept;
      if active[c] <= now {
        RunsOut(active, cooldown, freed, now, cfg.cooldown, c);
        freed := freed[c := active[c]];
        cooldown := cooldown[c := now + cfg.cooldown];
        active := active - {c};
      }
    }

    method CoolDown(now: int)
      requires Valid() && clock == now
      modifies this`cooldown
      ensures Valid()
      ensures forall c :: c in cooldown <==> c in old(cooldown) && old(cooldown)[c] > now
      ensures forall c :: c in cooldown ==> cooldown[c] == old(cooldown)[c]
    {
      var codes := cooldown.Keys;
      ghost var c0 := cooldown;
      while codes != {}
        invariant Valid() && codes <= cooldown.Keys
        invariant forall c :: c in cooldown <==> c in c0 && (c in codes || c0[c] > now)
        invariant forall c :: c in cooldown ==> cooldown[c] == c0[c]
        decreases |codes|
      {
        var c :| c in codes;
        codes := codes - {c};
        if cooldown[c] <= now {
          cooldown := cooldown - {c};
        }
      }
    }

    /** allocate: the smallest code that is neither active nor cooling down; none only
        when every code below the cap is taken. A code that was given out before has
        been free for the whole cooldown. */
    method Allocate(now: int, ttl: int) returns (code: Option<nat>)
      requires Valid() && clock <= now
      modifies this
      ensures Valid() && clock == now
      ensures code.Some? ==>
                && (forall c :: 0 <= c < code.value ==> Taken(active, cooldown, c))
                && code.value in active && active[code.value] == now + ttl && code.value !in cooldown
                && (code.value in old(active) ==> old(active)[code.value] <= now)
                && (code.value in old(cooldown) && code.value !in old(active) ==> old(cooldown)[code.value] <= now)
                && (code.value in old(issued) ==> code.value in freed)
                && (code.value in freed ==> freed[code.value] + cfg.cooldown <= now)
                && issued == old(issued) + {code.value}
      ensures code.None? ==> issued == old(issued) && forall c :: 0 <= c < cfg.hardMax || 0 <= c < old(max) ==> Taken(active, cooldown, c)
      ensures forall c :: c in active && Some(c) != code ==> c in old(active) && active[c] == old(active)[c] > now
      ensures max >= old(max)
    {
      Expire(now);
      while true
        invariant Valid() && clock == now && max >= old(max) && issued == old(issued)
        invariant forall c :: c in active <==> c in old(active) && old(active)[c] > now
        invariant forall c :: c in active ==> active[c] == old(active)[c]
        invariant forall c :: c in old(cooldown) && c !in old(active) && old(cooldown)[c] > now ==> c in cooldown
        decreases if cfg.hardMax > max then cfg.hardMax - max else 0
      {
        var c := FindFree();
        if c < max {
          ghost var a1 := active;
          active := active[c := now + ttl];
          issued := issued + {c};
          assert forall d :: Taken(a1, cooldown, d) ==> Taken(active, cooldown, d);
          return Some(c);
        }
        if max >= cfg.hardMax {
          return None;
        }
        var grown := max * 10;
        max := if grown > cfg.hardMax then cfg.hardMax else grown;
      }
    }

    /** The scan from zero: the first code below the pool's size that is free. */
    method FindFree() returns (c: nat)
      requires max >= 0
      ensures c <= max && (c < max ==> !Taken(active, cooldown, c))
      ensures forall d :: 0 <= d < c ==> Taken(active, cooldown, d)
    {
      c := 0;
      while c < max && (c in active || c in cooldown)
        invariant c <= max
        invariant forall d :: 0 <= d < c ==> Taken(active, cooldown, d)
      {
        c := c + 1;
      }
    }

    method Active(code: nat, now: int) returns (yes: bool)
      ensures yes <==> code in active && active[code] > now
    {
      yes := code in active && active[code] > now;
    }

    /** release: at once out of use, and cooling down from now. */
    method Release(code: nat, now: int)
      requires Valid() && clock <= now
      modifies this`active, this`cooldown, this`freed, this`clock
      ensures Valid() && clock == now && code in freed && freed[code] == now
      ensures active == old(active) - {code} && cooldown == old(cooldown)[code := now + cfg.cooldown]
    {
      active := active - {code};
      cooldown := cooldown[code := now + cfg.cooldown];
      freed := freed[code := now];
      clock := now;
    }
  }
}

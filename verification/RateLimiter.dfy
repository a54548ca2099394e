/**
 * Per-peer token buckets with eviction (src/ratelimit.rs). `f64` is modelled as `real`.
 * `allow` has two critical sections: `Ask` charges the bucket, and a call that found the table
 * over capacity performs a `Sweep` later, with the clock it read at its start.
 */
module RateLimiting {
  import opened Protocol

  type Peer = nat

  datatype Config = Config(burst: real, refill: real, maxBuckets: nat, ttl: real) {
    predicate Valid() {
      burst >= 0.0 && refill >= 0.0 && ttl >= 0.0
    }
  }

  datatype Bucket = Bucket(tokens: real, lastUsed: real)

  type Buckets = map<Peer, Bucket>

  // ---------------------------------------------------------------- one decision

  /** `duration_since`: zero when the other instant is later. */
  function Since(now: real, earlier: real): real {
    if now >= earlier then now - earlier else 0.0
  }

  function MinReal(a: real, b: real): real {
    if a < b then a else b
  }

  /** The bucket `allow` works on: the peer's, or a full one. */
  function Current(cfg: Config, m: Buckets, peer: Peer, now: real): Bucket {
    if peer in m then m[peer] else Bucket(cfg.burst, now)
  }

  /** Tokens after the refill. */
  function Level(cfg: Config, m: Buckets, peer: Peer, now: real): real {
    var b := Current(cfg, m, peer, now);
    MinReal(b.tokens + Since(now, b.lastUsed) * cfg.refill, cfg.burst)
  }

  predicate Admits(cfg: Config, m: Buckets, peer: Peer, now: real) {
    Level(cfg, m, peer, now) >= 1.0
  }

  function Cost(cfg: Config, m: Buckets, peer: Peer, now: real): nat {
    if Admits(cfg, m, peer, now) then 1 else 0
  }

  function Charge(cfg: Config, m: Buckets, peer: Peer, now: real): Buckets {
    m[peer := Bucket(Level(cfg, m, peer, now) - Cost(cfg, m, peer, now) as real, now)]
  }

  // ---------------------------------------------------------------- eviction

  predicate IsLru(m: Buckets, victim: Peer) {
    victim in m && forall p :: p in m ==> m[victim].lastUsed <= m[p].lastUsed
  }

  function Retain(m: Buckets, cutoff: real): Buckets {
    map p | p in m && m[p].lastUsed >= cutoff :: m[p]
  }

  /** The second critical section, entered with the clock value `now`. */
  function Swept(cfg: Config, m: Buckets, victim: Peer, now: real): Buckets {
    Retain(if |m| > cfg.maxBuckets then m - {victim} else m, now - cfg.ttl)
  }

  /**
   * What a sweep at `now` does to a table: over capacity, one least recently used bucket goes; of
   * the others exactly those go that have not been used for longer than the time-to-live; and what
   * stays is as it was.
   */
  ghost predicate SweptTo(cfg: Config, m: Buckets, m': Buckets, victim: Peer, now: real) {
    && (|m| > cfg.maxBuckets ==> victim in m && forall p :: p in m ==> m[victim].lastUsed <= m[p].lastUsed)
    && (forall p :: p in m' <==>
          p in m && m[p].lastUsed + cfg.ttl >= now && !(|m| > cfg.maxBuckets && p == victim))
    && (forall p :: p in m' ==> m'[p] == m[p])
  }

  /** The table after a call of `allow` with nothing else going on. */
  ghost predicate AfterAllow(cfg: Config, m: Buckets, m': Buckets, peer: Peer, now: real) {
    var charged := Charge(cfg, m, peer, now);
    if |charged| <= cfg.maxBuckets then m' == charged
    else exists victim :: IsLru(charged, victim) && m' == Swept(cfg, charged, victim, now)
  }

  /** Only the bucket of `peer` is touched, at `now`. */
  ghost predicate UsedBy(m: Buckets, m': Buckets, peer: Peer, now: real) {
    && peer in m' && m'[peer].lastUsed == now
    && (forall p :: p != peer ==> (p in m' <==> p in m))
    && (forall p :: p != peer && p in m' ==> m'[p] == m[p])
  }

  lemma UsesOwn(cfg: Config, m: Buckets, peer: Peer, now: real)
    ensures UsedBy(m, Charge(cfg, m, peer, now), peer, now)
    ensures |Charge(cfg, m, peer, now)| == |m| + if peer in m then 0 else 1
  {
    InsertSize(m, peer, Charge(cfg, m, peer, now)[peer]);
  }

  class RateLimiter {
    const cfg: Config
    var buckets: Buckets

    constructor (cfg: Config)
      ensures this.cfg == cfg && buckets == map[]
    {
      this.cfg := cfg;
      buckets := map[];
    }

    /** Lines 43-62: refill, decide and charge. */
    method Ask(peer: Peer, now: real) returns (allowed: bool, overCap: bool)
      modifies this
      ensures buckets == Charge(cfg, old(buckets), peer, now)
      ensures allowed == Admits(cfg, old(buckets), peer, now)
      ensures overCap <==> |buckets| > cfg.maxBuckets
    {
      var bucket := if peer in buckets then buckets[peer] else Bucket(cfg.burst, now);
      var tokens := bucket.tokens + Since(now, bucket.lastUsed) * cfg.refill;
      if cfg.burst <= tokens {
        tokens := cfg.burst;
      }
      allowed := tokens >= 1.0;
      if allowed {
        tokens := tokens - 1.0;
      }
      buckets := buckets[peer := Bucket(tokens, now)];
      overCap := |buckets| > cfg.maxBuckets;
    }

    /** Lines 78-87: drop one least recently used bucket, if there is any. */
    method EvictLru() returns (oldest: Option<Peer>)
      modifies this
      ensures oldest.None? <==> old(buckets) == map[]
      ensures if oldest.None? then buckets == map[]
              else IsLru(old(buckets), oldest.value) && buckets == old(buckets) - {oldest.value}
      ensures oldest.Some? ==>
        && oldest.value in old(buckets)
        && forall p :: p in old(buckets) ==> old(buckets)[oldest.value].lastUsed <= old(buckets)[p].lastUsed
    {
      oldest := None;
      var todo := buckets.Keys;
      while todo != {}
        invariant todo <= buckets.Keys
        invariant oldest.None? ==> todo == buckets.Keys
        invariant oldest.Some? ==> oldest.value in buckets
        invariant oldest.Some? ==>
          forall p :: p in buckets && p !in todo ==> buckets[oldest.value].lastUsed <= buckets[p].lastUsed
        decreases |todo|
      {
        var p :| p in todo;
        if oldest.None? || buckets[p].lastUsed < buckets[oldest.value].lastUsed {
          oldest := Some(p);
        }
        todo := todo - {p};
      }
      if oldest.Some? {
        buckets := buckets - {oldest.value};
      }
    }

    /** Lines 90-97: keep what was used since the cutoff. */
    method EvictStale(now: real)
      modifies this
      ensures buckets == Retain(old(buckets), now - cfg.ttl)
      ensures forall p :: p in buckets <==> p in old(buckets) && old(buckets)[p].lastUsed + cfg.ttl >= now
      ensures forall p :: p in buckets ==> buckets[p] == old(buckets)[p]
    {
      var cutoff := now - cfg.ttl;
      var todo := buckets.Keys;
      while todo != {}
        invariant todo <= old(buckets).Keys
        invariant forall p :: p in buckets <==> p in old(buckets) && (p in todo || old(buckets)[p].lastUsed >= cutoff)
        invariant forall p :: p in buckets ==> buckets[p] == old(buckets)[p]
        decreases |todo|
      {
        var p :| p in todo;
        if buckets[p].lastUsed < cutoff {
          buckets := buckets - {p};
        }
        todo := todo - {p};
      }
    }

    /** Lines 67-71: the second critical section. */
    method Sweep(now: real) returns (ghost victim: Peer)
      modifies this
      ensures |old(buckets)| > cfg.maxBuckets ==> IsLru(old(buckets), victim)
      ensures buckets == Swept(cfg, old(buckets), victim, now)
      ensures SweptTo(cfg, old(buckets), buckets, victim, now)
    {
      victim := 0;
      if |buckets| > cfg.maxBuckets {
        var oldest := EvictLru();
        victim := oldest.value;
      }
      EvictStale(now);
    }

    /** `allow`, called with nothing else going on. */
    method Allow(peer: Peer, now: real) returns (allowed: bool)
      modifies this
      ensures allowed == Admits(cfg, old(buckets), peer, now)
      ensures |old(buckets)| <= cfg.maxBuckets ==> |buckets| <= cfg.maxBuckets
      ensures AfterAllow(cfg, old(buckets), buckets, peer, now)
      ensures
        var others := |old(buckets)| - if peer in old(buckets) then 1 else 0;
        if others < cfg.maxBuckets then UsedBy(old(buckets), buckets, peer, now)
        else exists m, victim :: UsedBy(old(buckets), m, peer, now) && SweptTo(cfg, m, buckets, victim, now)
    {
      UsesOwn(cfg, buckets, peer, now);
      var overCap;
      allowed, overCap := Ask(peer, now);
      if overCap {
        ghost var m := buckets;
        ghost var victim := Sweep(now);
        SweptSize(cfg, m, victim, now);
        assert UsedBy(old(buckets), m, peer, now) && SweptTo(cfg, m, buckets, victim, now);
      }
      ChargeSize(cfg, old(buckets), peer, now);
    }
  }

  lemma SubmapSize(small: Buckets, big: Buckets)
    requires small.Keys <= big.Keys
    ensures |small| <= |big|
  {
    var rest := big.Keys - small.Keys;
    assert big.Keys == small.Keys + rest;
    assert |small.Keys| == |small| && |big.Keys| == |big|;
  }

  /** A sweep brings an over-full table down by one, and never lets a fitting one overflow. */
  lemma SweptSize(cfg: Config, m: Buckets, victim: Peer, now: real)
    requires |m| > cfg.maxBuckets ==> victim in m
    ensures |Swept(cfg, m, victim, now)| <= if |m| > cfg.maxBuckets then |m| - 1 else |m|
  {
    var m1 := if |m| > cfg.maxBuckets then m - {victim} else m;
    if |m| > cfg.maxBuckets {
      assert m1.Keys == m.Keys - {victim};
      assert |m1.Keys| == |m.Keys| - 1;
    }
    SubmapSize(Swept(cfg, m, victim, now), m1);
  }

  // ---------------------------------------------------------------- concurrent calls

  /** One critical section of call `id`. */
  datatype Event =
    | Ask(id: nat, peer: Peer, now: real)
    | Sweep(id: nat, victim: Peer)

  /** The table, and for each call between its two sections the clock it read. */
  datatype Limiter = Limiter(buckets: Buckets, waiting: map<nat, real>)

  predicate CanStep(cfg: Config, s: Limiter, e: Event) {
    match e
    case Ask(id, _, _) => id !in s.waiting
    case Sweep(id, victim) => id in s.waiting && (|s.buckets| > cfg.maxBuckets ==> IsLru(s.buckets, victim))
  }

  function StepL(cfg: Config, s: Limiter, e: Event): Limiter
    requires CanStep(cfg, s, e)
  {
    match e
    case Ask(id, peer, now) =>
      var m := Charge(cfg, s.buckets, peer, now);
      Limiter(m, if |m| > cfg.maxBuckets then s.waiting[id := now] else s.waiting)
    case Sweep(id, victim) =>
      Limiter(Swept(cfg, s.buckets, victim, s.waiting[id]), s.waiting - {id})
  }

  /** Every sweep of a trace does to the table what a sweep should, with the clock its call read. */
  lemma SweepEventSweeps(cfg: Config, s: Limiter, id: nat, victim: Peer)
    requires CanStep(cfg, s, Sweep(id, victim))
    ensures
      var s' := StepL(cfg, s, Sweep(id, victim));
      SweptTo(cfg, s.buckets, s'.buckets, victim, s.waiting[id]) && id !in s'.waiting
  {
  }

  predicate ValidTrace(cfg: Config, s: Limiter, es: seq<Event>)
    decreases |es|
  {
    es == [] || (CanStep(cfg, s, es[0]) && ValidTrace(cfg, StepL(cfg, s, es[0]), es[1..]))
  }

  function RunL(cfg: Config, s: Limiter, es: seq<Event>): Limiter
    requires ValidTrace(cfg, s, es)
    decreases |es|
  {
    if es == [] then s else RunL(cfg, StepL(cfg, s, es[0]), es[1..])
  }

  /** The table exceeds its cap by at most the calls still to sweep. */
  predicate Capped(cfg: Config, s: Limiter) {
    |s.buckets| <= cfg.maxBuckets + |s.waiting|
  }

  lemma InsertSize<K, V>(m: map<K, V>, k: K, v: V)
    ensures |m[k := v]| == |m| + if k in m then 0 else 1
  {
    assert m[k := v].Keys == m.Keys + {k};
    assert |m[k := v].Keys| == |m.Keys| + if k in m then 0 else 1;
  }

  lemma ChargeSize(cfg: Config, m: Buckets, peer: Peer, now: real)
    ensures |Charge(cfg, m, peer, now)| <= |m| + 1
  {
    InsertSize(m, peer, Charge(cfg, m, peer, now)[peer]);
  }

  lemma AskKeepsCapped(cfg: Config, s: Limiter, id: nat, peer: Peer, now: real)
    requires Capped(cfg, s) && id !in s.waiting
    ensures Capped(cfg, StepL(cfg, s, Ask(id, peer, now)))
  {
    ChargeSize(cfg, s.buckets, peer, now);
    InsertSize(s.waiting, id, now);
  }

  lemma SweepKeepsCapped(cfg: Config, s: Limiter, id: nat, victim: Peer)
    requires Capped(cfg, s) && CanStep(cfg, s, Sweep(id, victim))
    ensures Capped(cfg, StepL(cfg, s, Sweep(id, victim)))
  {
    SweptSize(cfg, s.buckets, victim, s.waiting[id]);
    assert (s.waiting - {id}).Keys == s.waiting.Keys - {id};
  }

  /**
   * However calls interleave, the table exceeds its cap by at most the calls still to sweep, and
   * not at all when there are none.
   */
  lemma {:induction false} CapacityBound(cfg: Config, s: Limiter, es: seq<Event>)
    requires ValidTrace(cfg, s, es) && Capped(cfg, s)
    ensures
      var s' := RunL(cfg, s, es);
      && |s'.buckets| <= cfg.maxBuckets + |s'.waiting|
      && (s'.waiting == map[] ==> |s'.buckets| <= cfg.maxBuckets)
    decreases |es|
  {
    if es != [] {
      match es[0] {
        case Ask(id, peer, now) => AskKeepsCapped(cfg, s, id, peer, now);
        case Sweep(id, victim) => SweepKeepsCapped(cfg, s, id, victim);
      }
      CapacityBound(cfg, StepL(cfg, s, es[0]), es[1..]);
    }
  }

  // ---------------------------------------------------------------- admitted requests

  function Granted(cfg: Config, s: Limiter, e: Event, p: Peer): nat {
    if e.Ask? && e.peer == p then Cost(cfg, s.buckets, p, e.now) else 0
  }

  /** Requests of `p` the limiter admits along a trace. */
  function Admitted(cfg: Config, s: Limiter, es: seq<Event>, p: Peer): nat
    requires ValidTrace(cfg, s, es)
    decreases |es|
  {
    if es == [] then 0
    else Granted(cfg, s, es[0], p) + Admitted(cfg, StepL(cfg, s, es[0]), es[1..], p)
  }

  /** The same for a limiter that never evicts. */
  function AdmittedSimple(cfg: Config, m: Buckets, es: seq<Event>, p: Peer): nat
    decreases |es|
  {
    if es == [] then 0
    else if es[0].Sweep? then AdmittedSimple(cfg, m, es[1..], p)
    else
      (if es[0].peer == p then Cost(cfg, m, p, es[0].now) else 0)
      + AdmittedSimple(cfg, Charge(cfg, m, es[0].peer, es[0].now), es[1..], p)
  }

  /** Every bucket holds between nothing and a burst. */
  ghost predicate Bounded(cfg: Config, m: Buckets) {
    forall p :: p in m ==> 0.0 <= m[p].tokens <= cfg.burst
  }

  lemma ChargeKeepsBounded(cfg: Config, m: Buckets, peer: Peer, now: real)
    requires cfg.Valid() && Bounded(cfg, m)
    ensures Bounded(cfg, Charge(cfg, m, peer, now))
  {
    var b := Current(cfg, m, peer, now);
    assert Since(now, b.lastUsed) * cfg.refill >= 0.0;
  }

  lemma StepKeepsBounded(cfg: Config, s: Limiter, e: Event)
    requires cfg.Valid() && Bounded(cfg, s.buckets) && CanStep(cfg, s, e)
    ensures Bounded(cfg, StepL(cfg, s, e).buckets)
  {
    if e.Ask? {
      ChargeKeepsBounded(cfg, s.buckets, e.peer, e.now);
    }
  }

  /**
   * The evicting limiter owes `p` nothing: a bucket it kept has the other's clock, and what it
   * lacks in tokens it has already granted, `lead` requests more than the other.
   */
  predicate Ahead(m: Buckets, simple: Buckets, p: Peer, lead: nat) {
    p in m ==> p in simple && m[p].lastUsed == simple[p].lastUsed && m[p].tokens + lead as real >= simple[p].tokens
  }

  /** The same refill keeps a lead. */
  lemma RefillKeepsLead(tokens: real, simple: real, gain: real, burst: real, lead: nat)
    requires tokens + lead as real >= simple
    ensures MinReal(tokens + gain, burst) + lead as real >= MinReal(simple + gain, burst)
  {
  }

  lemma LevelsKeepLead(cfg: Config, m: Buckets, simple: Buckets, p: Peer, lead: nat, now: real)
    requires Ahead(m, simple, p, lead)
    ensures Level(cfg, m, p, now) + lead as real >= Level(cfg, simple, p, now)
  {
    if p in m {
      RefillKeepsLead(m[p].tokens, simple[p].tokens, Since(now, m[p].lastUsed) * cfg.refill, cfg.burst, lead);
    } else {
      assert Level(cfg, m, p, now) == cfg.burst;
    }
  }

  /** A request taken at levels `le` and `ls`, the first at most `lead` behind. */
  lemma AskKeepsLead(le: real, ls: real, lead: nat)
    requires le + lead as real >= ls
    ensures
      var ce, cs := if le >= 1.0 then 1 else 0, if ls >= 1.0 then 1 else 0;
      && lead + ce >= cs
      && (le - ce as real) + (lead + ce - cs) as real >= ls - cs as real
  {
  }

  lemma AskKeepsAhead(cfg: Config, m: Buckets, simple: Buckets, p: Peer, lead: nat, now: real)
    requires Ahead(m, simple, p, lead)
    ensures lead + Cost(cfg, m, p, now) >= Cost(cfg, simple, p, now)
    ensures Ahead(Charge(cfg, m, p, now), Charge(cfg, simple, p, now), p,
                  lead + Cost(cfg, m, p, now) - Cost(cfg, simple, p, now))
  {
    LevelsKeepLead(cfg, m, simple, p, lead, now);
    AskKeepsLead(Level(cfg, m, p, now), Level(cfg, simple, p, now), lead);
  }

  /** Dominance, from any pair of states in which the evicting limiter is `lead` requests ahead. */
  lemma {:induction false} EvictionDominates(
    cfg: Config, s: Limiter, simple: Buckets, es: seq<Event>, p: Peer, lead: nat)
    requires ValidTrace(cfg, s, es) && Ahead(s.buckets, simple, p, lead)
    ensures lead + Admitted(cfg, s, es, p) >= AdmittedSimple(cfg, simple, es, p)
    decreases |es|
  {
    if es != [] {
      var e := es[0];
      var s1 := StepL(cfg, s, e);
      if e.Sweep? {
        EvictionDominates(cfg, s1, simple, es[1..], p, lead);
      } else {
        var simple1 := Charge(cfg, simple, e.peer, e.now);
        var lead1 := lead;
        if e.peer == p {
          AskKeepsAhead(cfg, s.buckets, simple, p, lead, e.now);
          lead1 := lead + Cost(cfg, s.buckets, p, e.now) - Cost(cfg, simple, p, e.now);
        }
        EvictionDominates(cfg, s1, simple1, es[1..], p, lead1);
      }
    }
  }

  /**
   * Eviction never costs a peer requests: for every trace, whatever its timestamps and sweeps,
   * a limiter that starts empty admits at least what one that never evicts admits.
   */
  lemma EvictionNeverCosts(cfg: Config, es: seq<Event>, p: Peer)
    requires ValidTrace(cfg, Limiter(map[], map[]), es)
    ensures Admitted(cfg, Limiter(map[], map[]), es, p) >= AdmittedSimple(cfg, map[], es, p)
  {
    EvictionDominates(cfg, Limiter(map[], map[]), map[], es, p, 0);
  }

  lemma Scaled(a: real, b: real, r: real)
    requires a <= b && r >= 0.0
    ensures a * r <= b * r && r * a <= r * b
  {
  }

  // ---------------------------------------------------------------- window bound

  /** No sweep of the trace drops the bucket of `p`. */
  predicate Keeps(cfg: Config, s: Limiter, es: seq<Event>, p: Peer)
    requires ValidTrace(cfg, s, es)
    decreases |es|
  {
    es == [] ||
    (&& (p in s.buckets ==> p in StepL(cfg, s, es[0]).buckets)
     && Keeps(cfg, StepL(cfg, s, es[0]), es[1..], p))
  }

  /** Every request of `p` carries a clock reading between `t0` and `t1`. */
  predicate Within(es: seq<Event>, p: Peer, t0: real, t1: real) {
    forall i :: 0 <= i < |es| && es[i].Ask? && es[i].peer == p ==> t0 <= es[i].now <= t1
  }

  /**
   * How far the clock of successive requests of `p` went back in total: `now` is read before
   * the lock is taken, so a later section can carry an earlier reading.
   */
  function Regress(es: seq<Event>, p: Peer, last: Option<real>): real
    decreases |es|
  {
    if es == [] then 0.0
    else if es[0].Ask? && es[0].peer == p then
      (if last.Some? then Since(last.value, es[0].now) else 0.0) + Regress(es[1..], p, Some(es[0].now))
    else Regress(es[1..], p, last)
  }

  /** Time credited between successive requests of `p`. */
  function Gaps(es: seq<Event>, p: Peer, last: Option<real>): real
    decreases |es|
  {
    if es == [] then 0.0
    else if es[0].Ask? && es[0].peer == p then
      (if last.Some? then Since(es[0].now, last.value) else 0.0) + Gaps(es[1..], p, Some(es[0].now))
    else Gaps(es[1..], p, last)
  }

  /** Tokens credited between successive requests of `p`. */
  function Refills(cfg: Config, es: seq<Event>, p: Peer, last: Option<real>): real
    decreases |es|
  {
    if es == [] then 0.0
    else if es[0].Ask? && es[0].peer == p then
      (if last.Some? then Since(es[0].now, last.value) * cfg.refill else 0.0)
      + Refills(cfg, es[1..], p, Some(es[0].now))
    else Refills(cfg, es[1..], p, last)
  }

  lemma {:induction false} RefillsAreGaps(cfg: Config, es: seq<Event>, p: Peer, last: Option<real>)
    ensures Refills(cfg, es, p, last) == cfg.refill * Gaps(es, p, last)
    decreases |es|
  {
    if es != [] {
      if es[0].Ask? && es[0].peer == p {
        RefillsAreGaps(cfg, es[1..], p, Some(es[0].now));
      } else {
        RefillsAreGaps(cfg, es[1..], p, last);
      }
    }
  }

  lemma {:induction false} GapsFitWindow(es: seq<Event>, p: Peer, last: Option<real>, t0: real, t1: real)
    requires Within(es, p, t0, t1) && t0 <= t1 && (last.Some? ==> last.value <= t1)
    ensures Gaps(es, p, last) <= t1 - (if last.Some? then last.value else t0) + Regress(es, p, last)
    decreases |es|
  {
    if es != [] {
      assert Within(es[1..], p, t0, t1);
      GapsFitWindow(es[1..], p, if es[0].Ask? && es[0].peer == p then Some(es[0].now) else last, t0, t1);
    }
  }

  lemma Product(r: real, a: real, b: real, product: real)
    requires r >= 0.0 && a <= b && product == r * a
    ensures product <= r * b
  {
    Scaled(a, b, r);
  }

  lemma RefillsFitWindow(cfg: Config, es: seq<Event>, p: Peer, t0: real, t1: real)
    requires cfg.Valid() && Within(es, p, t0, t1) && t0 <= t1
    ensures Refills(cfg, es, p, None) <= cfg.refill * (t1 - t0 + Regress(es, p, None))
  {
    RefillsAreGaps(cfg, es, p, None);
    GapsFitWindow(es, p, None, t0, t1);
    Product(cfg.refill, Gaps(es, p, None), t1 - t0 + Regress(es, p, None), Refills(cfg, es, p, None));
  }

  /** One event costs at most what it takes from the bucket of `p` plus what it credits. */
  lemma EventSpends(cfg: Config, s: Limiter, es: seq<Event>, p: Peer) returns (gain: real)
    requires es != [] && CanStep(cfg, s, es[0]) && p in s.buckets && p in StepL(cfg, s, es[0]).buckets
    ensures
      var b, b' := s.buckets[p], StepL(cfg, s, es[0]).buckets[p];
      && b'.tokens + Granted(cfg, s, es[0], p) as real <= b.tokens + gain
      && Refills(cfg, es, p, Some(b.lastUsed)) == gain + Refills(cfg, es[1..], p, Some(b'.lastUsed))
  {
    var e := es[0];
    gain := if e.Ask? && e.peer == p then Since(e.now, s.buckets[p].lastUsed) * cfg.refill else 0.0;
  }

  /** A bucket in use pays for what it admits from its tokens and its refills. */
  lemma {:induction false} SpendingBound(cfg: Config, s: Limiter, es: seq<Event>, p: Peer)
    requires cfg.Valid() && ValidTrace(cfg, s, es) && Bounded(cfg, s.buckets) && Keeps(cfg, s, es, p)
    requires p in s.buckets
    ensures Admitted(cfg, s, es, p) as real <= s.buckets[p].tokens + Refills(cfg, es, p, Some(s.buckets[p].lastUsed))
    decreases |es|
  {
    if es != [] {
      StepKeepsBounded(cfg, s, es[0]);
      var gain := EventSpends(cfg, s, es, p);
      SpendingBound(cfg, StepL(cfg, s, es[0]), es[1..], p);
    }
  }

  /** Wherever its bucket stood, a peer's first request finds at most a burst. */
  lemma {:induction false} BurstBound(cfg: Config, s: Limiter, es: seq<Event>, p: Peer)
    requires cfg.Valid() && ValidTrace(cfg, s, es) && Bounded(cfg, s.buckets) && Keeps(cfg, s, es, p)
    ensures Admitted(cfg, s, es, p) as real <= cfg.burst + Refills(cfg, es, p, None)
    decreases |es|
  {
    if es != [] {
      StepKeepsBounded(cfg, s, es[0]);
      if es[0].Ask? && es[0].peer == p {
        SpendingBound(cfg, StepL(cfg, s, es[0]), es[1..], p);
      } else {
        BurstBound(cfg, StepL(cfg, s, es[0]), es[1..], p);
      }
    }
  }

  /**
   * In any window in which its bucket is not evicted, a peer is admitted at most a burst plus
   * the refill for the window's length and for what the clock went back.
   */
  lemma WindowBound(cfg: Config, s: Limiter, es: seq<Event>, p: Peer, t0: real, t1: real)
    requires cfg.Valid() && ValidTrace(cfg, s, es) && Bounded(cfg, s.buckets)
    requires Keeps(cfg, s, es, p) && Within(es, p, t0, t1) && t0 <= t1
    ensures Admitted(cfg, s, es, p) as real <= cfg.burst + cfg.refill * (t1 - t0 + Regress(es, p, None))
  {
    BurstBound(cfg, s, es, p);
    RefillsFitWindow(cfg, es, p, t0, t1);
  }

  /** The clock readings of one peer never go back, in the order its requests take the lock. */
  predicate PeerOrdered(es: seq<Event>, t: real, p: Peer)
    decreases |es|
  {
    es == [] ||
    (if es[0].Ask? && es[0].peer == p then t <= es[0].now && PeerOrdered(es[1..], es[0].now, p)
     else PeerOrdered(es[1..], t, p))
  }

  lemma {:induction false} OrderedNeverRegresses(es: seq<Event>, t: real, p: Peer, last: Option<real>)
    requires PeerOrdered(es, t, p) && (last.Some? ==> last.value <= t)
    ensures Regress(es, p, last) == 0.0
    decreases |es|
  {
    if es != [] {
      if es[0].Ask? && es[0].peer == p {
        OrderedNeverRegresses(es[1..], es[0].now, p, Some(es[0].now));
      } else {
        OrderedNeverRegresses(es[1..], t, p, last);
      }
    }
  }

  /** The classical bound, when the peer's own clock readings are in lock order. */
  lemma OrderedWindowBound(cfg: Config, s: Limiter, es: seq<Event>, p: Peer, t0: real, t1: real)
    requires cfg.Valid() && ValidTrace(cfg, s, es) && Bounded(cfg, s.buckets)
    requires Keeps(cfg, s, es, p) && Within(es, p, t0, t1) && t0 <= t1 && PeerOrdered(es, t0, p)
    ensures Admitted(cfg, s, es, p) as real <= cfg.burst + cfg.refill * (t1 - t0)
  {
    WindowBound(cfg, s, es, p, t0, t1);
    OrderedNeverRegresses(es, t0, p, None);
  }

  // ---------------------------------------------------------------- exactly when the classical bound holds

  /** The clock readings of a peer's requests, in lock order. */
  function Clocks(es: seq<Event>, p: Peer): seq<real>
    decreases |es|
  {
    if es == [] then []
    else if es[0].Ask? && es[0].peer == p then [es[0].now] + Clocks(es[1..], p)
    else Clocks(es[1..], p)
  }

  /** How far a sequence of readings goes forward in total, after the reading `last`. */
  function Climb(readings: seq<real>, last: Option<real>): (c: real)
    ensures c >= 0.0
    decreases |readings|
  {
    if readings == [] then 0.0
    else (if last.Some? then Since(readings[0], last.value) else 0.0) + Climb(readings[1..], Some(readings[0]))
  }

  lemma {:induction false} GapsAreClimb(es: seq<Event>, p: Peer, last: Option<real>)
    ensures Gaps(es, p, last) == Climb(Clocks(es, p), last)
    decreases |es|
  {
    if es != [] {
      if es[0].Ask? && es[0].peer == p {
        assert Clocks(es, p)[1..] == Clocks(es[1..], p);
        GapsAreClimb(es[1..], p, Some(es[0].now));
      } else {
        GapsAreClimb(es[1..], p, last);
      }
    }
  }

  /** The classical bound over a window of the given length, for one trace. */
  predicate Meets(cfg: Config, s: Limiter, es: seq<Event>, p: Peer, length: real)
    requires ValidTrace(cfg, s, es)
  {
    Admitted(cfg, s, es, p) as real <= cfg.burst + cfg.refill * length
  }

  /** A trace in which a peer's bucket is kept and its requests carry the given readings. */
  ghost predicate Shows(cfg: Config, s: Limiter, es: seq<Event>, p: Peer, readings: seq<real>) {
    && cfg.Valid() && ValidTrace(cfg, s, es) && Bounded(cfg, s.buckets)
    && Keeps(cfg, s, es, p) && Clocks(es, p) == readings
  }

  /** The classical bound, whatever the configuration, the state and the other peers. */
  ghost predicate AlwaysMeets(p: Peer, readings: seq<real>, length: real) {
    forall cfg, s, es :: Shows(cfg, s, es, p, readings) ==> Meets(cfg, s, es, p, length)
  }

  lemma ClimbingLessMeets(cfg: Config, s: Limiter, es: seq<Event>, p: Peer, readings: seq<real>, length: real)
    requires Shows(cfg, s, es, p, readings) && Climb(readings, None) <= length
    ensures Meets(cfg, s, es, p, length)
  {
    BurstBound(cfg, s, es, p);
    assert Refills(cfg, es, p, None) <= cfg.refill * length by {
      RefillsFit(cfg, es, p, length);
    }
  }

  lemma RefillsFit(cfg: Config, es: seq<Event>, p: Peer, length: real)
    requires cfg.Valid() && Climb(Clocks(es, p), None) <= length
    ensures Refills(cfg, es, p, None) <= cfg.refill * length
  {
    RefillsAreGaps(cfg, es, p, None);
    GapsAreClimb(es, p, None);
    Product(cfg.refill, Gaps(es, p, None), length, Refills(cfg, es, p, None));
  }

  /** One peer's requests and nothing else. */
  function AsksOf(readings: seq<real>, p: Peer): seq<Event>
    decreases |readings|
  {
    if readings == [] then [] else [Ask(0, p, readings[0])] + AsksOf(readings[1..], p)
  }

  lemma {:induction false} AsksShowReadings(readings: seq<real>, p: Peer)
    ensures Clocks(AsksOf(readings, p), p) == readings
    decreases |readings|
  {
    if readings != [] {
      AsksShowReadings(readings[1..], p);
      assert AsksOf(readings, p)[1..] == AsksOf(readings[1..], p);
    }
  }

  /** A limiter with the one bucket of `p`. */
  function Alone(p: Peer, b: Bucket): Limiter {
    Limiter(map[p := b], map[])
  }

  lemma AskAlone(cfg: Config, p: Peer, b: Bucket, now: real, gain: real)
    requires cfg.maxBuckets >= 1 && gain == Since(now, b.lastUsed) * cfg.refill
    requires 1.0 <= b.tokens + gain <= cfg.burst
    ensures StepL(cfg, Alone(p, b), Ask(0, p, now)) == Alone(p, Bucket(b.tokens + gain - 1.0, now))
    ensures Cost(cfg, Alone(p, b).buckets, p, now) == 1
  {
    assert Charge(cfg, Alone(p, b).buckets, p, now) == map[p := Bucket(b.tokens + gain - 1.0, now)];
    assert |map[p := Bucket(b.tokens + gain - 1.0, now)]| == 1;
  }

  lemma DenyAlone(cfg: Config, p: Peer, b: Bucket, now: real)
    requires cfg.maxBuckets >= 1 && now <= b.lastUsed && b.tokens < 1.0 <= cfg.burst
    ensures StepL(cfg, Alone(p, b), Ask(0, p, now)) == Alone(p, Bucket(b.tokens, now))
    ensures Cost(cfg, Alone(p, b).buckets, p, now) == 0
  {
    assert Charge(cfg, Alone(p, b).buckets, p, now) == map[p := Bucket(b.tokens, now)];
    assert |map[p := Bucket(b.tokens, now)]| == 1;
  }

  /** What one more event in front adds to what is admitted. */
  lemma AdmitFront(cfg: Config, s: Limiter, e: Event, s1: Limiter, rest: seq<Event>, p: Peer) returns (es: seq<Event>)
    requires CanStep(cfg, s, e) && StepL(cfg, s, e) == s1 && p in s1.buckets
    requires ValidTrace(cfg, s1, rest) && Keeps(cfg, s1, rest, p)
    ensures es == [e] + rest && ValidTrace(cfg, s, es) && Keeps(cfg, s, es, p)
    ensures Admitted(cfg, s, es, p) == Granted(cfg, s, e, p) + Admitted(cfg, s1, rest, p)
  {
    es := [e] + rest;
    assert es[1..] == rest;
  }

  lemma Distributes(r: real, a: real, b: real)
    ensures (a + b) * r == a * r + b * r
  {
  }

  /** What the first of a peer's requests is credited, and what the others are. */
  lemma RefillsSplit(cfg: Config, p: Peer, readings: seq<real>, last: Option<real>) returns (gain: real, later: real)
    requires cfg.Valid() && readings != []
    ensures gain == (if last.Some? then Since(readings[0], last.value) * cfg.refill else 0.0) && gain >= 0.0
    ensures later == Refills(cfg, AsksOf(readings[1..], p), p, Some(readings[0])) && later >= 0.0
    ensures Refills(cfg, AsksOf(readings, p), p, last) == gain + later
    ensures readings[1..] == [] ==> later == 0.0
  {
    gain := if last.Some? then Since(readings[0], last.value) * cfg.refill else 0.0;
    later := Refills(cfg, AsksOf(readings[1..], p), p, Some(readings[0]));
    assert AsksOf(readings, p)[1..] == AsksOf(readings[1..], p);
    RefillsNonnegative(cfg, AsksOf(readings[1..], p), p, Some(readings[0]));
  }

  lemma {:induction false} RefillsNonnegative(cfg: Config, es: seq<Event>, p: Peer, last: Option<real>)
    requires cfg.Valid()
    ensures Refills(cfg, es, p, last) >= 0.0
    decreases |es|
  {
    if es != [] {
      RefillsNonnegative(cfg, es[1..], p, if es[0].Ask? && es[0].peer == p then Some(es[0].now) else last);
    }
  }

  /** The peer's requests alone, from the bucket `b` on, are all admitted. */
  ghost predicate AllPass(cfg: Config, s: Limiter, readings: seq<real>, p: Peer) {
    var es := AsksOf(readings, p);
    && ValidTrace(cfg, s, es) && Keeps(cfg, s, es, p)
    && Admitted(cfg, s, es, p) == |readings|
  }

  lemma TokensSuffice(tokens: real, gain: real, later: real, n: nat, burst: real)
    requires n >= 1 && tokens + (gain + later) == n as real && gain >= 0.0 && later >= 0.0
    requires gain + later <= 1.0 && n as real <= burst && (n == 1 ==> later == 0.0)
    ensures 1.0 <= tokens + gain <= burst
    ensures tokens + gain - 1.0 + later == (n - 1) as real
  {
  }

  lemma PassFront(cfg: Config, s: Limiter, readings: seq<real>, p: Peer, s1: Limiter)
    requires readings != [] && CanStep(cfg, s, Ask(0, p, readings[0])) && StepL(cfg, s, Ask(0, p, readings[0])) == s1
    requires p in s1.buckets && Cost(cfg, s.buckets, p, readings[0]) == 1 && AllPass(cfg, s1, readings[1..], p)
    ensures AllPass(cfg, s, readings, p)
  {
    var es := AdmitFront(cfg, s, Ask(0, p, readings[0]), s1, AsksOf(readings[1..], p), p);
  }

  /** Tokens and refills that come to one for each request, and no refill lost: all are admitted. */
  lemma {:induction false} AllAdmitted(cfg: Config, p: Peer, b: Bucket, readings: seq<real>)
    requires cfg.Valid() && cfg.maxBuckets == 1 && |readings| as real <= cfg.burst
    requires b.tokens + Refills(cfg, AsksOf(readings, p), p, Some(b.lastUsed)) == |readings| as real
    requires Refills(cfg, AsksOf(readings, p), p, Some(b.lastUsed)) <= 1.0
    ensures AllPass(cfg, Alone(p, b), readings, p)
    decreases |readings|
  {
    if readings != [] {
      var gain, later := RefillsSplit(cfg, p, readings, Some(b.lastUsed));
      TokensSuffice(b.tokens, gain, later, |readings|, cfg.burst);
      AskAlone(cfg, p, b, readings[0], gain);
      var b1 := Bucket(b.tokens + gain - 1.0, readings[0]);
      AllAdmitted(cfg, p, b1, readings[1..]);
      PassFront(cfg, Alone(p, b), readings, p, Alone(p, b1));
    }
  }

  /** A refill rate at which a climb credits at most one token. */
  lemma SlowRefill(climb: real) returns (refill: real)
    requires climb >= 0.0
    ensures refill > 0.0 && climb * refill <= 1.0
  {
    refill := 1.0 / (climb + 1.0);
    assert (climb + 1.0) * refill == 1.0;
    Distributes(refill, climb, 1.0);
  }

  /** A burst that all requests together with their credits use up exactly. */
  lemma AllAdmittedFromEmpty(cfg: Config, p: Peer, readings: seq<real>)
    requires cfg.Valid() && cfg.maxBuckets == 1
    requires cfg.burst + Refills(cfg, AsksOf(readings, p), p, None) == |readings| as real
    requires Refills(cfg, AsksOf(readings, p), p, None) <= 1.0
    ensures AllPass(cfg, Limiter(map[], map[]), readings, p)
  {
    if readings != [] {
      var gain, later := RefillsSplit(cfg, p, readings, None);
      FirstAsk(cfg, p, readings[0]);
      AllAdmitted(cfg, p, Bucket(cfg.burst - 1.0, readings[0]), readings[1..]);
      PassFront(cfg, Limiter(map[], map[]), readings, p, Alone(p, Bucket(cfg.burst - 1.0, readings[0])));
    }
  }

  lemma RefillsAreCredit(cfg: Config, p: Peer, readings: seq<real>)
    ensures Refills(cfg, AsksOf(readings, p), p, None) == Climb(readings, None) * cfg.refill
  {
    AsksShowReadings(readings, p);
    GapsAreClimb(AsksOf(readings, p), p, None);
    RefillsAreGaps(cfg, AsksOf(readings, p), p, None);
  }

  /** The configuration that shows a climb: a burst short of one token for each request by the credits. */
  lemma ClimbIsCredited(p: Peer, readings: seq<real>) returns (cfg: Config, credited: real)
    ensures cfg.Valid() && cfg.refill > 0.0 && credited == Climb(readings, None) * cfg.refill
    ensures cfg.burst + credited == |readings| as real && AllPass(cfg, Limiter(map[], map[]), readings, p)
  {
    var refill := SlowRefill(Climb(readings, None));
    credited := Climb(readings, None) * refill;
    cfg := Config(|readings| as real - credited, refill, 1, 0.0);
    assert readings == [] ==> credited == 0.0;
    RefillsAreCredit(cfg, p, readings);
    AllAdmittedFromEmpty(cfg, p, readings);
  }

  lemma FirstAsk(cfg: Config, p: Peer, now: real)
    requires cfg.maxBuckets >= 1 && cfg.burst >= 1.0
    ensures StepL(cfg, Limiter(map[], map[]), Ask(0, p, now)) == Alone(p, Bucket(cfg.burst - 1.0, now))
    ensures Cost(cfg, map[], p, now) == 1
  {
    assert Charge(cfg, map[], p, now) == map[p := Bucket(cfg.burst - 1.0, now)];
    assert |map[p := Bucket(cfg.burst - 1.0, now)]| == 1;
  }

  lemma StrictlyMore(a: real, b: real, r: real)
    requires a > b && r > 0.0
    ensures a * r > r * b
  {
  }

  lemma ExceedsBurst(n: real, burst: real, refill: real, climb: real, length: real)
    requires climb > length && refill > 0.0 && burst + climb * refill == n
    ensures n > burst + refill * length
  {
    StrictlyMore(climb, length, refill);
  }

  lemma ClimbingMoreFails(p: Peer, readings: seq<real>, length: real) returns (cfg: Config, s: Limiter, es: seq<Event>)
    requires Climb(readings, None) > length
    ensures Shows(cfg, s, es, p, readings) && !Meets(cfg, s, es, p, length)
  {
    var credited;
    cfg, credited := ClimbIsCredited(p, readings);
    s, es := Limiter(map[], map[]), AsksOf(readings, p);
    assert Clocks(es, p) == readings by {
      AsksShowReadings(readings, p);
    }
    assert |readings| as real > cfg.burst + cfg.refill * length by {
      ExceedsBurst(|readings| as real, cfg.burst, cfg.refill, Climb(readings, None), length);
    }
  }

  /**
   * The classical bound over a window of a given length holds for a peer's clock readings, whatever
   * the configuration and the rest of the traffic, if and only if the readings go forward by no
   * more than that length in total. Readings in lock order that fall into the window always do.
   */
  lemma WindowBoundIff(p: Peer, readings: seq<real>, length: real)
    ensures AlwaysMeets(p, readings, length) <==> Climb(readings, None) <= length
  {
    if Climb(readings, None) <= length {
      forall cfg, s, es | Shows(cfg, s, es, p, readings)
        ensures Meets(cfg, s, es, p, length)
      {
        ClimbingLessMeets(cfg, s, es, p, readings, length);
      }
    } else {
      var cfg, s, es := ClimbingMoreFails(p, readings, length);
    }
  }

  /** Out of lock order the classical bound fails: one token a second, three requests in one second. */
  lemma BackwardClockBreaksWindow() returns (cfg: Config, s: Limiter, es: seq<Event>)
    ensures cfg == Config(1.0, 1.0, 10, 90.0) && s == Limiter(map[], map[])
    ensures es == [Ask(0, 7, 0.0), Ask(0, 7, 1.0), Ask(0, 7, 0.0), Ask(0, 7, 1.0)]
    ensures ValidTrace(cfg, s, es) && Keeps(cfg, s, es, 7) && Within(es, 7, 0.0, 1.0)
    ensures !Meets(cfg, s, es, 7, 1.0)
  {
    cfg, s := Config(1.0, 1.0, 10, 90.0), Limiter(map[], map[]);
    es := ThreeInOneSecond(cfg, s);
  }

  lemma ThreeInOneSecond(cfg: Config, s: Limiter) returns (es: seq<Event>)
    requires cfg == Config(1.0, 1.0, 10, 90.0) && s == Limiter(map[], map[])
    ensures es == [Ask(0, 7, 0.0), Ask(0, 7, 1.0), Ask(0, 7, 0.0), Ask(0, 7, 1.0)]
    ensures ValidTrace(cfg, s, es) && Keeps(cfg, s, es, 7) && Admitted(cfg, s, es, 7) == 3
  {
    var early, late := Alone(7, Bucket(0.0, 0.0)), Alone(7, Bucket(0.0, 1.0));
    FirstAsk(cfg, 7, 0.0);
    AskAlone(cfg, 7, Bucket(0.0, 0.0), 1.0, 1.0);
    es := BackAndForth(cfg, []);
    es := AdmitFront(cfg, early, Ask(0, 7, 1.0), late, es, 7);
    es := AdmitFront(cfg, s, Ask(0, 7, 0.0), early, es, 7);
  }

  /** With nothing left at time 1, a request reading 0 is denied, and one reading 1 after it admitted. */
  lemma BackAndForth(cfg: Config, rest: seq<Event>) returns (es: seq<Event>)
    requires cfg == Config(1.0, 1.0, 10, 90.0)
    requires ValidTrace(cfg, Alone(7, Bucket(0.0, 1.0)), rest) && Keeps(cfg, Alone(7, Bucket(0.0, 1.0)), rest, 7)
    ensures es == [Ask(0, 7, 0.0)] + ([Ask(0, 7, 1.0)] + rest)
    ensures ValidTrace(cfg, Alone(7, Bucket(0.0, 1.0)), es) && Keeps(cfg, Alone(7, Bucket(0.0, 1.0)), es, 7)
    ensures Admitted(cfg, Alone(7, Bucket(0.0, 1.0)), es, 7)
         == 1 + Admitted(cfg, Alone(7, Bucket(0.0, 1.0)), rest, 7)
  {
    var early, late := Alone(7, Bucket(0.0, 0.0)), Alone(7, Bucket(0.0, 1.0));
    AskAlone(cfg, 7, Bucket(0.0, 0.0), 1.0, 1.0);
    DenyAlone(cfg, 7, Bucket(0.0, 1.0), 0.0);
    es := AdmitFront(cfg, early, Ask(0, 7, 1.0), late, rest, 7);
    es := AdmitFront(cfg, late, Ask(0, 7, 0.0), early, es, 7);
  }
}

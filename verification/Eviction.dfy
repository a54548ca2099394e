/**
 * What evicting a bucket changes for the peers (src/ratelimit.rs:45-97): nothing if the refill has
 * made it full by the time they ask again, and otherwise something a peer can find out.
 */
module Eviction {
  import opened Protocol
  import Lifecycle
  import opened RateLimiting

  // ---------------------------------------------------------------- what peers are answered

  function Answers(cfg: Config, s: Limiter, es: seq<Event>): seq<bool>
    requires ValidTrace(cfg, s, es)
    decreases |es|
  {
    if es == [] then []
    else
      (if es[0].Ask? then [Admits(cfg, s.buckets, es[0].peer, es[0].now)] else [])
      + Answers(cfg, StepL(cfg, s, es[0]), es[1..])
  }

  function AnswersSimple(cfg: Config, m: Buckets, es: seq<Event>): seq<bool>
    decreases |es|
  {
    if es == [] then []
    else if es[0].Sweep? then AnswersSimple(cfg, m, es[1..])
    else
      [Admits(cfg, m, es[0].peer, es[0].now)] + AnswersSimple(cfg, Charge(cfg, m, es[0].peer, es[0].now), es[1..])
  }

  /** The refill alone has made it full. */
  predicate FullAt(cfg: Config, b: Bucket, t: real) {
    b.tokens + Since(t, b.lastUsed) * cfg.refill >= cfg.burst
  }

  /** Whoever asks again after its bucket was evicted would have found it full. */
  ghost predicate ReturnsRested(cfg: Config, s: Limiter, simple: Buckets, es: seq<Event>)
    requires ValidTrace(cfg, s, es)
    decreases |es|
  {
    if es == [] then true
    else if es[0].Sweep? then ReturnsRested(cfg, StepL(cfg, s, es[0]), simple, es[1..])
    else
      && (es[0].peer in simple && es[0].peer !in s.buckets ==> FullAt(cfg, simple[es[0].peer], es[0].now))
      && ReturnsRested(cfg, StepL(cfg, s, es[0]), Charge(cfg, simple, es[0].peer, es[0].now), es[1..])
  }

  /** `m` is `simple` without some buckets. */
  predicate Part(m: Buckets, simple: Buckets) {
    forall p :: p in m ==> p in simple && m[p] == simple[p]
  }

  lemma AskKeepsPart(cfg: Config, m: Buckets, simple: Buckets, peer: Peer, now: real)
    requires Part(m, simple)
    ensures Level(cfg, m, peer, now) == Level(cfg, simple, peer, now) <==>
            (peer in simple && peer !in m ==> FullAt(cfg, simple[peer], now))
    ensures Level(cfg, m, peer, now) == Level(cfg, simple, peer, now) ==>
            Part(Charge(cfg, m, peer, now), Charge(cfg, simple, peer, now))
  {
  }

  /**
   * Whatever the clock readings and the sweeps: if everybody who comes back after an eviction would
   * have found a full bucket, nobody gets a different answer.
   */
  lemma {:induction false} RestedReturnsUnnoticed(cfg: Config, s: Limiter, simple: Buckets, es: seq<Event>)
    requires ValidTrace(cfg, s, es) && Part(s.buckets, simple) && ReturnsRested(cfg, s, simple, es)
    ensures Answers(cfg, s, es) == AnswersSimple(cfg, simple, es)
    decreases |es|
  {
    if es != [] {
      var e := es[0];
      if e.Sweep? {
        RestedReturnsUnnoticed(cfg, StepL(cfg, s, e), simple, es[1..]);
      } else {
        AskKeepsPart(cfg, s.buckets, simple, e.peer, e.now);
        RestedReturnsUnnoticed(cfg, StepL(cfg, s, e), Charge(cfg, simple, e.peer, e.now), es[1..]);
      }
    }
  }

  /** The token levels the requests of a trace meet. */
  function Levels(cfg: Config, s: Limiter, es: seq<Event>): seq<real>
    requires ValidTrace(cfg, s, es)
    decreases |es|
  {
    if es == [] then []
    else
      (if es[0].Ask? then [Level(cfg, s.buckets, es[0].peer, es[0].now)] else [])
      + Levels(cfg, StepL(cfg, s, es[0]), es[1..])
  }

  /** The same for a limiter that never evicts. */
  function LevelsSimple(cfg: Config, m: Buckets, es: seq<Event>): seq<real>
    decreases |es|
  {
    if es == [] then []
    else if es[0].Sweep? then LevelsSimple(cfg, m, es[1..])
    else
      [Level(cfg, m, es[0].peer, es[0].now)] + LevelsSimple(cfg, Charge(cfg, m, es[0].peer, es[0].now), es[1..])
  }

  /**
   * Whatever the clock readings: eviction leaves every request at the token level it would have
   * met without any eviction if and only if every peer that comes back after an eviction would
   * have found its bucket full.
   */
  lemma {:induction false} LevelsAgreeIff(cfg: Config, s: Limiter, simple: Buckets, es: seq<Event>)
    requires ValidTrace(cfg, s, es) && Part(s.buckets, simple)
    ensures Levels(cfg, s, es) == LevelsSimple(cfg, simple, es) <==> ReturnsRested(cfg, s, simple, es)
    decreases |es|
  {
    if es != [] {
      var e := es[0];
      var s1 := StepL(cfg, s, e);
      if e.Sweep? {
        LevelsAgreeIff(cfg, s1, simple, es[1..]);
      } else {
        var simple1 := Charge(cfg, simple, e.peer, e.now);
        var rest, restSimple := Levels(cfg, s1, es[1..]), LevelsSimple(cfg, simple1, es[1..]);
        var le, ls := Level(cfg, s.buckets, e.peer, e.now), Level(cfg, simple, e.peer, e.now);
        AskKeepsPart(cfg, s.buckets, simple, e.peer, e.now);
        assert ([le] + rest)[0] == le && ([le] + rest)[1..] == rest;
        assert ([ls] + restSimple)[0] == ls && ([ls] + restSimple)[1..] == restSimple;
        if le == ls {
          LevelsAgreeIff(cfg, s1, simple1, es[1..]);
        }
      }
    }
  }

  // ---------------------------------------------------------------- idle eviction

  /** Idle so long that the refill alone makes it full. */
  predicate Rested(cfg: Config, b: Bucket, t: real) {
    b.lastUsed <= t && b.tokens + (t - b.lastUsed) * cfg.refill >= cfg.burst
  }

  /** `m` is `simple` without some buckets that are full by time `t`. */
  ghost predicate Shadows(cfg: Config, m: Buckets, simple: Buckets, t: real) {
    && (forall p :: p in m ==> p in simple && m[p] == simple[p])
    && (forall p :: p in simple ==> simple[p].lastUsed <= t && (p in m || Rested(cfg, simple[p], t)))
  }

  /** Clock readings never go back, in the order the locks are taken. */
  predicate Ordered(es: seq<Event>, t: real)
    decreases |es|
  {
    es == [] || (if es[0].Ask? then t <= es[0].now && Ordered(es[1..], es[0].now) else Ordered(es[1..], t))
  }

  function Clock(e: Event, t: real): real {
    if e.Ask? then e.now else t
  }

  /** Every least-recently-used victim is full again when it is evicted. */
  predicate VictimsRested(cfg: Config, s: Limiter, es: seq<Event>, t: real)
    requires ValidTrace(cfg, s, es)
    decreases |es|
  {
    es == [] ||
    (&& (es[0].Sweep? && |s.buckets| > cfg.maxBuckets ==> Rested(cfg, s.buckets[es[0].victim], t))
     && VictimsRested(cfg, StepL(cfg, s, es[0]), es[1..], Clock(es[0], t)))
  }

  lemma RestedLater(cfg: Config, b: Bucket, t: real, t': real)
    requires cfg.Valid() && Rested(cfg, b, t) && t <= t'
    ensures Rested(cfg, b, t')
  {
    Scaled(t - b.lastUsed, t' - b.lastUsed, cfg.refill);
  }

  lemma AskKeepsShadow(cfg: Config, m: Buckets, simple: Buckets, peer: Peer, now: real, t: real)
    requires cfg.Valid() && Shadows(cfg, m, simple, t) && t <= now
    ensures Level(cfg, m, peer, now) == Level(cfg, simple, peer, now)
    ensures peer in simple && peer !in m ==> FullAt(cfg, simple[peer], now)
    ensures Shadows(cfg, Charge(cfg, m, peer, now), Charge(cfg, simple, peer, now), now)
  {
    forall p | p in simple && p !in m
      ensures Rested(cfg, simple[p], now) && FullAt(cfg, simple[p], now)
    {
      RestedLater(cfg, simple[p], t, now);
    }
    assert Part(m, simple);
    AskKeepsPart(cfg, m, simple, peer, now);
  }

  lemma IdleRefills(tokens: real, idle: real, ttl: real, refill: real, burst: real)
    requires refill >= 0.0 && tokens >= 0.0 && ttl <= idle && ttl * refill >= burst
    ensures tokens + idle * refill >= burst
  {
    Scaled(ttl, idle, refill);
  }

  /** Idle for the whole time-to-live. */
  lemma StaleIsRested(cfg: Config, b: Bucket, t: real)
    requires cfg.Valid() && cfg.ttl * cfg.refill >= cfg.burst && b.tokens >= 0.0 && cfg.ttl <= t - b.lastUsed
    ensures Rested(cfg, b, t)
  {
    IdleRefills(b.tokens, t - b.lastUsed, cfg.ttl, cfg.refill, cfg.burst);
  }

  lemma SweepKeepsShadow(cfg: Config, s: Limiter, e: Event, simple: Buckets, t: real)
    requires cfg.Valid() && cfg.ttl * cfg.refill >= cfg.burst && Bounded(cfg, s.buckets)
    requires e.Sweep? && CanStep(cfg, s, e) && s.waiting[e.id] <= t
    requires |s.buckets| > cfg.maxBuckets ==> Rested(cfg, s.buckets[e.victim], t)
    requires Shadows(cfg, s.buckets, simple, t)
    ensures Shadows(cfg, StepL(cfg, s, e).buckets, simple, t)
  {
    forall p | p in s.buckets && s.buckets[p].lastUsed < s.waiting[e.id] - cfg.ttl
      ensures Rested(cfg, s.buckets[p], t)
    {
      StaleIsRested(cfg, s.buckets[p], t);
    }
  }

  /** When the idle time alone refills a bucket and readings are in lock order, returns are rested. */
  lemma {:induction false} OrderedReturnsRested(cfg: Config, s: Limiter, simple: Buckets, es: seq<Event>, t: real)
    requires cfg.Valid() && cfg.ttl * cfg.refill >= cfg.burst
    requires ValidTrace(cfg, s, es) && Ordered(es, t) && VictimsRested(cfg, s, es, t)
    requires Bounded(cfg, s.buckets) && Shadows(cfg, s.buckets, simple, t)
    requires forall id :: id in s.waiting ==> s.waiting[id] <= t
    ensures ReturnsRested(cfg, s, simple, es)
    decreases |es|
  {
    if es != [] {
      var e := es[0];
      var s1 := StepL(cfg, s, e);
      StepKeepsBounded(cfg, s, e);
      if e.Ask? {
        AskKeepsShadow(cfg, s.buckets, simple, e.peer, e.now, t);
        OrderedReturnsRested(cfg, s1, Charge(cfg, simple, e.peer, e.now), es[1..], e.now);
      } else {
        SweepKeepsShadow(cfg, s, e, simple, t);
        OrderedReturnsRested(cfg, s1, simple, es[1..], t);
      }
    }
  }

  /**
   * When the idle time alone refills a bucket, evicting rested buckets changes no answer to any
   * peer, wherever the sweeps fall.
   */
  lemma RestedEvictionUnobservable(cfg: Config, s: Limiter, simple: Buckets, es: seq<Event>, t: real)
    requires cfg.Valid() && cfg.ttl * cfg.refill >= cfg.burst
    requires ValidTrace(cfg, s, es) && Ordered(es, t) && VictimsRested(cfg, s, es, t)
    requires Bounded(cfg, s.buckets) && Shadows(cfg, s.buckets, simple, t)
    requires forall id :: id in s.waiting ==> s.waiting[id] <= t
    ensures Answers(cfg, s, es) == AnswersSimple(cfg, simple, es)
  {
    OrderedReturnsRested(cfg, s, simple, es, t);
    RestedReturnsUnnoticed(cfg, s, simple, es);
  }

  // ---------------------------------------------------------------- out of lock order

  /** What one more event in front adds to a trace. */
  lemma Prepend(cfg: Config, s: Limiter, e: Event, s1: Limiter, rest: seq<Event>, t: real) returns (es: seq<Event>)
    requires CanStep(cfg, s, e) && StepL(cfg, s, e) == s1 && ValidTrace(cfg, s1, rest)
    ensures es == [e] + rest && ValidTrace(cfg, s, es)
    ensures Answers(cfg, s, es)
         == (if e.Ask? then [Admits(cfg, s.buckets, e.peer, e.now)] else []) + Answers(cfg, s1, rest)
    ensures VictimsRested(cfg, s, es, t) <==>
      && (e.Sweep? && |s.buckets| > cfg.maxBuckets ==> Rested(cfg, s.buckets[e.victim], t))
      && VictimsRested(cfg, s1, rest, Clock(e, t))
  {
    es := [e] + rest;
    assert es[1..] == rest;
  }

  /** The same without eviction. */
  lemma PrependSimple(cfg: Config, m: Buckets, e: Event, m1: Buckets, rest: seq<Event>)
    requires m1 == if e.Ask? then Charge(cfg, m, e.peer, e.now) else m
    ensures AnswersSimple(cfg, m, [e] + rest)
         == (if e.Ask? then [Admits(cfg, m, e.peer, e.now)] else []) + AnswersSimple(cfg, m1, rest)
  {
    assert ([e] + rest)[1..] == rest;
  }

  // The clocks and the tables of the next trace: 7 asks, 8 asks and evicts it, 7 asks again.
  const FIRST := Ask(0, 7, 0.0)
  const SECOND_PEER := Ask(1, 8, 5.0)
  const EVICTION := Sweep(1, 7)
  const BACK := Ask(2, 7, 0.0)

  ghost function OneBucket(): Buckets { map[7 := Bucket(0.0, 0.0)] }

  ghost function TwoBuckets(): Buckets { map[7 := Bucket(0.0, 0.0), 8 := Bucket(0.0, 5.0)] }

  ghost function OtherBucket(): Buckets { map[8 := Bucket(0.0, 5.0)] }

  ghost predicate OneSecond(cfg: Config) {
    cfg == Config(1.0, 1.0, 1, 1.0)
  }

  lemma FirstStep(cfg: Config)
    requires OneSecond(cfg)
    ensures Charge(cfg, map[], 7, 0.0) == OneBucket() && Admits(cfg, map[], 7, 0.0)
    ensures StepL(cfg, Limiter(map[], map[]), FIRST) == Limiter(OneBucket(), map[])
  {
    assert Charge(cfg, map[], 7, 0.0) == OneBucket();
    assert |OneBucket()| == 1;
  }

  lemma SecondStep(cfg: Config)
    requires OneSecond(cfg)
    ensures Charge(cfg, OneBucket(), 8, 5.0) == TwoBuckets() && Admits(cfg, OneBucket(), 8, 5.0)
    ensures StepL(cfg, Limiter(OneBucket(), map[]), SECOND_PEER) == Limiter(TwoBuckets(), map[1 := 5.0])
  {
    assert Charge(cfg, OneBucket(), 8, 5.0) == TwoBuckets();
    assert TwoBuckets().Keys == {7, 8} && |TwoBuckets()| == |TwoBuckets().Keys|;
  }

  lemma EvictionStep(cfg: Config)
    requires OneSecond(cfg)
    ensures Rested(cfg, TwoBuckets()[7], 5.0) && CanStep(cfg, Limiter(TwoBuckets(), map[1 := 5.0]), EVICTION)
    ensures StepL(cfg, Limiter(TwoBuckets(), map[1 := 5.0]), EVICTION) == Limiter(OtherBucket(), map[])
  {
    assert TwoBuckets().Keys == {7, 8} && |TwoBuckets()| == |TwoBuckets().Keys|;
    assert Swept(cfg, TwoBuckets(), 7, 5.0) == OtherBucket();
  }

  lemma BackStep(cfg: Config)
    requires OneSecond(cfg)
    ensures Admits(cfg, OtherBucket(), 7, 0.0) && !Admits(cfg, TwoBuckets(), 7, 0.0)
  {
  }

  /** With eviction, everybody is admitted. */
  lemma EvictedIsAdmitted(cfg: Config) returns (es: seq<Event>)
    requires OneSecond(cfg)
    ensures es == [FIRST] + ([SECOND_PEER] + ([EVICTION] + ([BACK] + [])))
    ensures ValidTrace(cfg, Limiter(map[], map[]), es) && Answers(cfg, Limiter(map[], map[]), es) == [true, true, true]
    ensures VictimsRested(cfg, Limiter(map[], map[]), es, 0.0)
  {
    FirstStep(cfg);
    SecondStep(cfg);
    EvictionStep(cfg);
    BackStep(cfg);
    var s0, s1 := Limiter(map[], map[]), Limiter(OneBucket(), map[]);
    var s2, s3 := Limiter(TwoBuckets(), map[1 := 5.0]), Limiter(OtherBucket(), map[]);
    es := Prepend(cfg, s3, BACK, StepL(cfg, s3, BACK), [], 0.0);
    es := Prepend(cfg, s2, EVICTION, s3, es, 5.0);
    es := Prepend(cfg, s1, SECOND_PEER, s2, es, 0.0);
    es := Prepend(cfg, s0, FIRST, s1, es, 0.0);
  }

  /** Without, the last request is not. */
  lemma KeptIsDenied(cfg: Config)
    requires OneSecond(cfg)
    ensures AnswersSimple(cfg, map[], [FIRST] + ([SECOND_PEER] + ([EVICTION] + ([BACK] + [])))) == [true, true, false]
  {
    FirstStep(cfg);
    SecondStep(cfg);
    BackStep(cfg);
    PrependSimple(cfg, TwoBuckets(), BACK, Charge(cfg, TwoBuckets(), 7, 0.0), []);
    PrependSimple(cfg, TwoBuckets(), EVICTION, TwoBuckets(), [BACK] + []);
    PrependSimple(cfg, OneBucket(), SECOND_PEER, TwoBuckets(), [EVICTION] + ([BACK] + []));
    PrependSimple(cfg, map[], FIRST, OneBucket(), [SECOND_PEER] + ([EVICTION] + ([BACK] + [])));
  }

  /**
   * Out of lock order eviction shows although the idle time refills a bucket and the victim was
   * full when evicted: a request that read the clock before the victim's last one gets a token.
   */
  lemma BackwardClockShowsEviction() returns (cfg: Config, s: Limiter, es: seq<Event>)
    ensures cfg == Config(1.0, 1.0, 1, 1.0) && cfg.ttl * cfg.refill >= cfg.burst && s == Limiter(map[], map[])
    ensures es == [FIRST, SECOND_PEER, EVICTION, BACK] && ValidTrace(cfg, s, es) && VictimsRested(cfg, s, es, 0.0)
    ensures Answers(cfg, s, es) == [true, true, true] && AnswersSimple(cfg, s.buckets, es) == [true, true, false]
  {
    cfg, s := Config(1.0, 1.0, 1, 1.0), Limiter(map[], map[]);
    es := EvictedIsAdmitted(cfg);
    KeptIsDenied(cfg);
  }

}

/**
 * When an eviction can be noticed (src/ratelimit.rs:45-97): exactly which buckets may go without
 * any peer ever getting an answer it would not have got.
 */
module EvictionNoticed {
  import opened Protocol
  import Lifecycle
  import opened RateLimiting
  import opened Eviction

  // ---------------------------------------------------------------- one bucket

  predicate InBounds(cfg: Config, b: Bucket) {
    0.0 <= b.tokens <= cfg.burst
  }

  /** Tokens of a bucket after the refill. */
  function LevelOf(cfg: Config, b: Bucket, now: real): real {
    MinReal(b.tokens + Since(now, b.lastUsed) * cfg.refill, cfg.burst)
  }

  /** The bucket after a request. */
  function Used(cfg: Config, b: Bucket, now: real): Bucket {
    var level := LevelOf(cfg, b, now);
    Bucket(if level >= 1.0 then level - 1.0 else level, now)
  }

  /**
   * A bucket that allows less at `t` than a new one: it is not full, or without any refill it
   * lacks a whole token. With a burst below one nothing is ever allowed.
   */
  predicate Lacks(cfg: Config, b: Bucket, t: real) {
    cfg.burst >= 1.0 && if cfg.refill > 0.0 then !FullAt(cfg, b, t) else b.tokens.Floor < cfg.burst.Floor
  }

  /** Two buckets no sequence of requests can tell apart. */
  predicate Alike(cfg: Config, b: Bucket, b': Bucket) {
    && InBounds(cfg, b) && InBounds(cfg, b') && b.lastUsed == b'.lastUsed
    && (b == b' || cfg.burst < 1.0 || (cfg.refill == 0.0 && b.tokens.Floor == b'.tokens.Floor))
  }

  lemma LevelInBounds(cfg: Config, b: Bucket, now: real)
    requires cfg.Valid() && InBounds(cfg, b)
    ensures 0.0 <= b.tokens <= LevelOf(cfg, b, now) <= cfg.burst
    ensures cfg.refill == 0.0 ==> LevelOf(cfg, b, now) == b.tokens
  {
    assert Since(now, b.lastUsed) * cfg.refill >= 0.0;
  }

  lemma FloorsAgree(x: real, y: real)
    requires x.Floor == y.Floor
    ensures x >= 1.0 <==> y >= 1.0
    ensures (x - 1.0).Floor == (y - 1.0).Floor
  {
    assert (x - 1.0).Floor == x.Floor - 1 && (y - 1.0).Floor == y.Floor - 1;
  }

  lemma UsedInBounds(cfg: Config, b: Bucket, now: real)
    requires cfg.Valid() && InBounds(cfg, b)
    ensures InBounds(cfg, Used(cfg, b, now)) && Used(cfg, b, now).lastUsed == now
  {
    LevelInBounds(cfg, b, now);
  }

  lemma AlikeUsed(cfg: Config, b: Bucket, b': Bucket, now: real)
    requires cfg.Valid() && Alike(cfg, b, b')
    ensures LevelOf(cfg, b, now) >= 1.0 <==> LevelOf(cfg, b', now) >= 1.0
    ensures Alike(cfg, Used(cfg, b, now), Used(cfg, b', now))
  {
    UsedInBounds(cfg, b, now);
    UsedInBounds(cfg, b', now);
    if b != b' {
      var x, y := LevelOf(cfg, b, now), LevelOf(cfg, b', now);
      assert x <= cfg.burst && y <= cfg.burst;
      if cfg.burst >= 1.0 {
        assert x == b.tokens && y == b'.tokens by {
          LevelInBounds(cfg, b, now);
          LevelInBounds(cfg, b', now);
        }
        FloorsAgree(x, y);
      }
    }
  }

  lemma FullLater(cfg: Config, b: Bucket, t: real, now: real)
    requires cfg.Valid() && t <= now && FullAt(cfg, b, t)
    ensures FullAt(cfg, b, now)
  {
    Scaled(Since(t, b.lastUsed), Since(now, b.lastUsed), cfg.refill);
  }

  /** A new bucket does for one that lacked nothing. */
  lemma FreshIsAlike(cfg: Config, b: Bucket, t: real, now: real)
    requires cfg.Valid() && InBounds(cfg, b) && !Lacks(cfg, b, t) && t <= now
    ensures Alike(cfg, Bucket(cfg.burst, now), Bucket(LevelOf(cfg, b, now), now))
    ensures LevelOf(cfg, Bucket(LevelOf(cfg, b, now), now), now) == LevelOf(cfg, b, now)
  {
    LevelInBounds(cfg, b, now);
    LevelInBounds(cfg, Bucket(LevelOf(cfg, b, now), now), now);
    if cfg.burst >= 1.0 && cfg.refill > 0.0 {
      FullLater(cfg, b, t, now);
    }
  }

  // ---------------------------------------------------------------- two tables

  /**
   * Requests of `p` from `t` on get the same answers from both tables: from a bucket on either
   * side, or from a new one for a bucket that lacked nothing at `t`.
   */
  predicate SameFor(cfg: Config, m: Buckets, simple: Buckets, p: Peer, t: real) {
    if p in m then p in simple && Alike(cfg, m[p], simple[p])
    else p in simple ==> InBounds(cfg, simple[p]) && !Lacks(cfg, simple[p], t)
  }

  lemma ChargeIsUse(cfg: Config, m: Buckets, p: Peer, now: real)
    ensures Charge(cfg, m, p, now) == m[p := Used(cfg, Current(cfg, m, p, now), now)]
    ensures Admits(cfg, m, p, now) <==> LevelOf(cfg, Current(cfg, m, p, now), now) >= 1.0
  {
  }

  /** The bucket `p` asks is the same for both tables, whether it was evicted or not. */
  lemma AskedAlike(cfg: Config, m: Buckets, simple: Buckets, p: Peer, now: real, t: real)
    requires cfg.Valid() && SameFor(cfg, m, simple, p, t) && (p !in m ==> t <= now)
    ensures
      var b, b' := Current(cfg, m, p, now), Current(cfg, simple, p, now);
      (LevelOf(cfg, b, now) >= 1.0 <==> LevelOf(cfg, b', now) >= 1.0)
      && Alike(cfg, Used(cfg, b, now), Used(cfg, b', now))
  {
    var b, b' := Current(cfg, m, p, now), Current(cfg, simple, p, now);
    if p in m {
      AlikeUsed(cfg, b, b', now);
    } else if p in simple {
      FreshIsAlike(cfg, b', t, now);
      AlikeUsed(cfg, b, Bucket(LevelOf(cfg, b', now), now), now);
    } else {
      AlikeUsed(cfg, b, b', now);
    }
  }

  lemma AskKeepsSame(cfg: Config, m: Buckets, simple: Buckets, q: Peer, now: real, p: Peer, t: real)
    requires cfg.Valid() && SameFor(cfg, m, simple, p, t) && (q == p && p !in m ==> t <= now)
    ensures q == p ==> (Admits(cfg, m, q, now) <==> Admits(cfg, simple, q, now))
    ensures SameFor(cfg, Charge(cfg, m, q, now), Charge(cfg, simple, q, now), p, t)
  {
    ChargeIsUse(cfg, m, q, now);
    ChargeIsUse(cfg, simple, q, now);
    if q == p {
      AskedAlike(cfg, m, simple, p, now, t);
    }
  }

  // ---------------------------------------------------------------- nobody notices

  /** Requests only, with readings from `t` on; they need not be in order. */
  predicate AsksFrom(es: seq<Event>, t: real) {
    forall i :: 0 <= i < |es| ==> es[i].Ask? && t <= es[i].now
  }

  lemma {:induction false} SameAnswers(cfg: Config, s: Limiter, simple: Buckets, es: seq<Event>, t: real)
    requires cfg.Valid() && ValidTrace(cfg, s, es) && AsksFrom(es, t)
    requires forall p :: SameFor(cfg, s.buckets, simple, p, t)
    ensures Answers(cfg, s, es) == AnswersSimple(cfg, simple, es)
    decreases |es|
  {
    if es != [] {
      var e := es[0];
      forall p
        ensures SameFor(cfg, StepL(cfg, s, e).buckets, Charge(cfg, simple, e.peer, e.now), p, t)
        ensures p == e.peer ==> (Admits(cfg, s.buckets, p, e.now) <==> Admits(cfg, simple, p, e.now))
      {
        AskKeepsSame(cfg, s.buckets, simple, e.peer, e.now, p, t);
      }
      SameAnswers(cfg, StepL(cfg, s, e), Charge(cfg, simple, e.peer, e.now), es[1..], t);
    }
  }

  /** The answers to one peer. */
  function AnswersTo(cfg: Config, s: Limiter, es: seq<Event>, p: Peer): seq<bool>
    requires ValidTrace(cfg, s, es)
    decreases |es|
  {
    if es == [] then []
    else
      var rest := AnswersTo(cfg, StepL(cfg, s, es[0]), es[1..], p);
      if es[0].Ask? && es[0].peer == p then [Admits(cfg, s.buckets, p, es[0].now)] + rest else rest
  }

  /** The same for a limiter that never evicts. */
  function AnswersToSimple(cfg: Config, m: Buckets, es: seq<Event>, p: Peer): seq<bool>
    decreases |es|
  {
    if es == [] then []
    else if es[0].Sweep? then AnswersToSimple(cfg, m, es[1..], p)
    else
      var rest := AnswersToSimple(cfg, Charge(cfg, m, es[0].peer, es[0].now), es[1..], p);
      if es[0].peer == p then [Admits(cfg, m, p, es[0].now)] + rest else rest
  }

  /** While its bucket is kept, a peer sees no difference, whatever the others do. */
  lemma {:induction false} SameAnswersTo(cfg: Config, s: Limiter, simple: Buckets, es: seq<Event>, p: Peer, t: real)
    requires cfg.Valid() && ValidTrace(cfg, s, es) && Keeps(cfg, s, es, p)
    requires p in s.buckets && SameFor(cfg, s.buckets, simple, p, t)
    ensures AnswersTo(cfg, s, es, p) == AnswersToSimple(cfg, simple, es, p)
    decreases |es|
  {
    if es != [] {
      var e := es[0];
      if e.Ask? {
        AskKeepsSame(cfg, s.buckets, simple, e.peer, e.now, p, t);
        SameAnswersTo(cfg, StepL(cfg, s, e), Charge(cfg, simple, e.peer, e.now), es[1..], p, t);
      } else {
        SameAnswersTo(cfg, StepL(cfg, s, e), simple, es[1..], p, t);
      }
    }
  }

  // ---------------------------------------------------------------- finding out

  function Granting(answers: seq<bool>): nat
    decreases |answers|
  {
    if answers == [] then 0 else (if answers[0] then 1 else 0) + Granting(answers[1..])
  }

  lemma GrantingFront(a: bool, rest: seq<bool>)
    ensures Granting([a] + rest) == (if a then 1 else 0) + Granting(rest)
  {
    assert ([a] + rest)[1..] == rest;
  }

  /** The requests of a peer that are admitted are those answered with yes. */
  lemma {:induction false} AdmittedAreGranted(cfg: Config, s: Limiter, es: seq<Event>, p: Peer)
    requires ValidTrace(cfg, s, es)
    ensures Admitted(cfg, s, es, p) == Granting(AnswersTo(cfg, s, es, p))
    decreases |es|
  {
    if es != [] {
      var s1 := StepL(cfg, s, es[0]);
      AdmittedAreGranted(cfg, s1, es[1..], p);
      if es[0].Ask? && es[0].peer == p {
        GrantingFront(Admits(cfg, s.buckets, p, es[0].now), AnswersTo(cfg, s1, es[1..], p));
      }
    }
  }

  lemma {:induction false} SimpleAreGranted(cfg: Config, m: Buckets, es: seq<Event>, p: Peer)
    ensures AdmittedSimple(cfg, m, es, p) == Granting(AnswersToSimple(cfg, m, es, p))
    decreases |es|
  {
    if es != [] {
      if es[0].Sweep? {
        SimpleAreGranted(cfg, m, es[1..], p);
      } else {
        var m1 := Charge(cfg, m, es[0].peer, es[0].now);
        SimpleAreGranted(cfg, m1, es[1..], p);
        if es[0].peer == p {
          GrantingFront(Admits(cfg, m, p, es[0].now), AnswersToSimple(cfg, m1, es[1..], p));
        }
      }
    }
  }

  /** Equal answers are equal answers to each peer. */
  lemma {:induction false} AnswersTellEach(cfg: Config, s: Limiter, m: Buckets, es: seq<Event>, p: Peer)
    requires ValidTrace(cfg, s, es) && Answers(cfg, s, es) == AnswersSimple(cfg, m, es)
    ensures AnswersTo(cfg, s, es, p) == AnswersToSimple(cfg, m, es, p)
    decreases |es|
  {
    if es != [] {
      var e := es[0];
      if e.Sweep? {
        AnswersTellEach(cfg, StepL(cfg, s, e), m, es[1..], p);
      } else {
        var s1, m1 := StepL(cfg, s, e), Charge(cfg, m, e.peer, e.now);
        FrontsAgree(Admits(cfg, s.buckets, e.peer, e.now), Answers(cfg, s1, es[1..]),
                    Admits(cfg, m, e.peer, e.now), AnswersSimple(cfg, m1, es[1..]));
        AnswersTellEach(cfg, s1, m1, es[1..], p);
      }
    }
  }

  lemma FrontsAgree(a: bool, as': seq<bool>, b: bool, bs: seq<bool>)
    ensures [a] + as' == [b] + bs <==> a == b && as' == bs
  {
    assert ([a] + as')[0] == a && ([a] + as')[1..] == as';
    assert ([b] + bs)[0] == b && ([b] + bs)[1..] == bs;
  }

  /** `n` requests of `p` at `r`, then one at each of the readings `last`. */
  function Visits(p: Peer, id: nat, r: real, n: nat, last: Option<real>): seq<Event>
    decreases n
  {
    if n > 0 then [Ask(id, p, r)] + Visits(p, id + 1, r, n - 1, last)
    else if last.Some? then [Ask(id, p, last.value)]
    else []
  }

  function Extra(last: Option<real>): nat {
    if last.Some? then 1 else 0
  }

  function Credit(cfg: Config, r: real, last: Option<real>): real {
    if last.Some? then Since(last.value, r) * cfg.refill else 0.0
  }

  /** Numbers from `id` on are free. */
  predicate FreeFrom(s: Limiter, id: nat) {
    forall w :: w in s.waiting ==> w < id
  }

  lemma VisitStep(cfg: Config, s: Limiter, p: Peer, id: nat, now: real, rest: seq<Event>)
    requires FreeFrom(s, id)
    requires ValidTrace(cfg, StepL(cfg, s, Ask(id, p, now)), rest)
    requires Keeps(cfg, StepL(cfg, s, Ask(id, p, now)), rest, p)
    ensures
      var es, s1 := [Ask(id, p, now)] + rest, StepL(cfg, s, Ask(id, p, now));
      && ValidTrace(cfg, s, es) && Keeps(cfg, s, es, p) && es[0] == Ask(id, p, now) && es[1..] == rest
      && Admitted(cfg, s, es, p) == Cost(cfg, s.buckets, p, now) + Admitted(cfg, s1, rest, p)
  {
    var es := [Ask(id, p, now)] + rest;
    assert es[1..] == rest;
  }

  lemma AskLeaves(cfg: Config, s: Limiter, p: Peer, id: nat, now: real)
    requires FreeFrom(s, id)
    ensures
      var s1 := StepL(cfg, s, Ask(id, p, now));
      && FreeFrom(s1, id + 1) && p in s1.buckets
      && s1.buckets[p] == Used(cfg, Current(cfg, s.buckets, p, now), now)
    ensures Cost(cfg, s.buckets, p, now) == if LevelOf(cfg, Current(cfg, s.buckets, p, now), now) >= 1.0 then 1 else 0
  {
  }

  /** As many tokens as visits: every visit is admitted. */
  lemma {:induction false} DrainAll(cfg: Config, s: Limiter, p: Peer, id: nat, r: real, n: nat, last: Option<real>)
    requires cfg.burst >= 1.0 && FreeFrom(s, id) && p in s.buckets && s.buckets[p].lastUsed == r
    requires n as real <= s.buckets[p].tokens <= cfg.burst
    requires last.Some? ==> s.buckets[p].tokens - n as real + Credit(cfg, r, last) >= 1.0
    ensures
      var es := Visits(p, id, r, n, last);
      && ValidTrace(cfg, s, es) && Keeps(cfg, s, es, p)
      && Admitted(cfg, s, es, p) == n + Extra(last)
    decreases n
  {
    if n > 0 {
      assert Since(r, r) * cfg.refill == 0.0;
      AskLeaves(cfg, s, p, id, r);
      DrainAll(cfg, StepL(cfg, s, Ask(id, p, r)), p, id + 1, r, n - 1, last);
      VisitStep(cfg, s, p, id, r, Visits(p, id + 1, r, n - 1, last));
    } else if last.Some? {
      AskLeaves(cfg, s, p, id, last.value);
      VisitStep(cfg, s, p, id, last.value, []);
    }
  }

  lemma SimpleVisitStep(cfg: Config, m: Buckets, p: Peer, id: nat, now: real, rest: seq<Event>)
    ensures AdmittedSimple(cfg, m, [Ask(id, p, now)] + rest, p)
         == Cost(cfg, m, p, now) + AdmittedSimple(cfg, m[p := Used(cfg, Current(cfg, m, p, now), now)], rest, p)
    ensures Cost(cfg, m, p, now) == if LevelOf(cfg, Current(cfg, m, p, now), now) >= 1.0 then 1 else 0
  {
    ChargeIsUse(cfg, m, p, now);
    assert ([Ask(id, p, now)] + rest)[1..] == rest;
  }

  /** No more visits are admitted than there are tokens. */
  lemma {:induction false} VisitsSpend(
    cfg: Config, m: Buckets, p: Peer, id: nat, r: real, n: nat, last: Option<real>)
    requires cfg.Valid() && p in m && InBounds(cfg, m[p]) && m[p].lastUsed == r
    ensures AdmittedSimple(cfg, m, Visits(p, id, r, n, last), p) as real <= m[p].tokens + Credit(cfg, r, last)
    decreases n
  {
    assert Credit(cfg, r, last) >= 0.0;
    if n > 0 {
      assert Since(r, r) * cfg.refill == 0.0;
      SimpleVisitStep(cfg, m, p, id, r, Visits(p, id + 1, r, n - 1, last));
      VisitsSpend(cfg, m[p := Used(cfg, m[p], r)], p, id + 1, r, n - 1, last);
    } else if last.Some? {
      assert Visits(p, id, r, n, last) == [Ask(id, p, last.value)] + [];
      SimpleVisitStep(cfg, m, p, id, last.value, []);
    }
  }

  /** One visit more than the tokens pay for: what an evicted bucket lacked shows. */
  lemma VisitsTell(cfg: Config, s: Limiter, simple: Buckets, p: Peer, id: nat, r: real, n: nat, last: Option<real>)
    requires cfg.Valid() && cfg.burst >= 1.0 && FreeFrom(s, id) && p !in s.buckets
    requires p in simple && InBounds(cfg, simple[p]) && 1 <= n && n as real <= cfg.burst
    requires last.Some? ==> cfg.burst - n as real + Credit(cfg, r, last) >= 1.0
    requires LevelOf(cfg, simple[p], r) + Credit(cfg, r, last) < (n + Extra(last)) as real
    ensures
      var es := Visits(p, id, r, n, last);
      && ValidTrace(cfg, s, es) && Admitted(cfg, s, es, p) > AdmittedSimple(cfg, simple, es, p)
      && es != [] && es[0] == Ask(id, p, r) && Keeps(cfg, StepL(cfg, s, es[0]), es[1..], p)
  {
    var rest := Visits(p, id + 1, r, n - 1, last);
    NewBucketPays(cfg, s, p, id, r, n, last);
    OldBucketCannot(cfg, simple, p, id, r, n, last);
    assert Visits(p, id, r, n, last)[1..] == rest;
  }

  lemma NewBucketPays(cfg: Config, s: Limiter, p: Peer, id: nat, r: real, n: nat, last: Option<real>)
    requires cfg.burst >= 1.0 && FreeFrom(s, id) && p !in s.buckets && 1 <= n && n as real <= cfg.burst
    requires last.Some? ==> cfg.burst - n as real + Credit(cfg, r, last) >= 1.0
    ensures
      var es := Visits(p, id, r, n, last);
      && ValidTrace(cfg, s, es) && Admitted(cfg, s, es, p) == n + Extra(last)
      && Keeps(cfg, StepL(cfg, s, Ask(id, p, r)), Visits(p, id + 1, r, n - 1, last), p)
  {
    assert Since(r, r) * cfg.refill == 0.0;
    AskLeaves(cfg, s, p, id, r);
    DrainAll(cfg, StepL(cfg, s, Ask(id, p, r)), p, id + 1, r, n - 1, last);
    VisitStep(cfg, s, p, id, r, Visits(p, id + 1, r, n - 1, last));
  }

  lemma OldBucketCannot(cfg: Config, m: Buckets, p: Peer, id: nat, r: real, n: nat, last: Option<real>)
    requires cfg.Valid() && p in m && InBounds(cfg, m[p]) && n >= 1
    ensures AdmittedSimple(cfg, m, Visits(p, id, r, n, last), p) as real <= LevelOf(cfg, m[p], r) + Credit(cfg, r, last)
  {
    UsedInBounds(cfg, m[p], r);
    SimpleVisitStep(cfg, m, p, id, r, Visits(p, id + 1, r, n - 1, last));
    VisitsSpend(cfg, m[p := Used(cfg, m[p], r)], p, id + 1, r, n - 1, last);
  }

  lemma {:induction false} VisitsAsk(p: Peer, id: nat, r: real, n: nat, last: Option<real>)
    requires last.Some? ==> r <= last.value
    ensures AsksFrom(Visits(p, id, r, n, last), r)
    decreases n
  {
    if n > 0 {
      VisitsAsk(p, id + 1, r, n - 1, last);
    }
  }

  /** With a refill, the last visit comes when the new bucket has exactly one token. */
  lemma WholeToken(cfg: Config, r: real, e: real) returns (last: real)
    requires cfg.refill > 0.0 && 0.0 <= e < 1.0
    ensures r <= last && Credit(cfg, r, Some(last)) == 1.0 - e
  {
    var wait := (1.0 - e) / cfg.refill;
    assert wait * cfg.refill == 1.0 - e;
    last := r + wait;
  }

  /** Visits that tell an evicted bucket that lacked something from a new one. */
  lemma LackShows(cfg: Config, s: Limiter, simple: Buckets, p: Peer, r: real) returns (es: seq<Event>)
    requires cfg.Valid() && p !in s.buckets && p in simple && InBounds(cfg, simple[p]) && Lacks(cfg, simple[p], r)
    ensures ValidTrace(cfg, s, es) && Admitted(cfg, s, es, p) > AdmittedSimple(cfg, simple, es, p)
    ensures AsksFrom(es, r)
    ensures es != [] && es[0].peer == p && es[0].now == r && Keeps(cfg, StepL(cfg, s, es[0]), es[1..], p)
  {
    var id := Lifecycle.MaxHandle(s.waiting.Keys) + 1;
    var n: nat := cfg.burst.Floor;
    var last: Option<real> := None;
    LevelInBounds(cfg, simple[p], r);
    if cfg.refill > 0.0 {
      var reading := WholeToken(cfg, r, cfg.burst - n as real);
      last := Some(reading);
    }
    VisitsTell(cfg, s, simple, p, id, r, n, last);
    VisitsAsk(p, id, r, n, last);
    es := Visits(p, id, r, n, last);
  }

  // ---------------------------------------------------------------- theorems

  /** A trace in which `p` comes back at `r`, is not evicted again, and gets an answer it would not have got. */
  ghost predicate Notices(cfg: Config, s: Limiter, simple: Buckets, p: Peer, r: real, es: seq<Event>) {
    && ValidTrace(cfg, s, es)
    && es != [] && es[0].Ask? && es[0].peer == p && es[0].now == r
    && Keeps(cfg, StepL(cfg, s, es[0]), es[1..], p)
    && AnswersTo(cfg, s, es, p) != AnswersToSimple(cfg, simple, es, p)
  }

  lemma NothingToNotice(cfg: Config, s: Limiter, simple: Buckets, p: Peer, r: real, es: seq<Event>)
    requires cfg.Valid() && p !in s.buckets && p in simple && InBounds(cfg, simple[p]) && !Lacks(cfg, simple[p], r)
    ensures !Notices(cfg, s, simple, p, r, es)
  {
    if Notices(cfg, s, simple, p, r, es) {
      AskKeepsSame(cfg, s.buckets, simple, p, r, p, r);
      SameAnswersTo(cfg, StepL(cfg, s, es[0]), Charge(cfg, simple, p, r), es[1..], p, r);
      assert false;
    }
  }

  /**
   * A peer whose bucket was evicted and that comes back at `r` can get an answer it would not have
   * got, at once or later, if and only if its bucket would not have been full at `r` (or, without
   * any refill, would have lacked a whole token); with a burst below one, never. It holds whatever
   * the other peers do meanwhile and in whatever order the clocks are read.
   */
  lemma ReturnNoticedIff(cfg: Config, s: Limiter, simple: Buckets, p: Peer, r: real)
    requires cfg.Valid() && p !in s.buckets && p in simple && InBounds(cfg, simple[p])
    ensures (exists es :: Notices(cfg, s, simple, p, r, es)) <==> Lacks(cfg, simple[p], r)
  {
    if Lacks(cfg, simple[p], r) {
      var es := LackShows(cfg, s, simple, p, r);
      AdmittedAreGranted(cfg, s, es, p);
      SimpleAreGranted(cfg, simple, es, p);
      assert Notices(cfg, s, simple, p, r, es);
    } else {
      forall es
        ensures !Notices(cfg, s, simple, p, r, es)
      {
        NothingToNotice(cfg, s, simple, p, r, es);
      }
    }
  }

  /** Whatever is asked from `t` on, nobody gets an answer a limiter without eviction would not give. */
  ghost predicate Unnoticed(cfg: Config, s: Limiter, simple: Buckets, t: real) {
    forall es :: ValidTrace(cfg, s, es) && AsksFrom(es, t) ==> Answers(cfg, s, es) == AnswersSimple(cfg, simple, es)
  }

  /**
   * Exactly the buckets that lack nothing at `t` may have gone by `t`: no request from then on, by
   * whomever and in whatever order, is answered differently if and only if that is so of every
   * evicted bucket.
   */
  lemma EvictionUnnoticedIff(cfg: Config, s: Limiter, simple: Buckets, t: real)
    requires cfg.Valid() && Bounded(cfg, simple) && Part(s.buckets, simple)
    ensures Unnoticed(cfg, s, simple, t) <==>
            forall p :: p in simple && p !in s.buckets ==> !Lacks(cfg, simple[p], t)
  {
    if forall p :: p in simple && p !in s.buckets ==> !Lacks(cfg, simple[p], t) {
      forall es | ValidTrace(cfg, s, es) && AsksFrom(es, t)
        ensures Answers(cfg, s, es) == AnswersSimple(cfg, simple, es)
      {
        SameAnswers(cfg, s, simple, es, t);
      }
    } else {
      var p :| p in simple && p !in s.buckets && Lacks(cfg, simple[p], t);
      var es := LackShows(cfg, s, simple, p, t);
      if Answers(cfg, s, es) == AnswersSimple(cfg, simple, es) {
        AnswersTellEach(cfg, s, simple, es, p);
        AdmittedAreGranted(cfg, s, es, p);
        SimpleAreGranted(cfg, simple, es, p);
      }
    }
  }
}

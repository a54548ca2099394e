/**
 * Peers without control rights, with the limiter they share with everybody else. A connection is
 * three things at three times: the limiter's decision, possibly an eviction, and the request.
 */
module Interference {
  import opened Protocol
  import opened Lifecycle
  import opened RateLimiting
  import opened Eviction
  import opened Chokepoint

  datatype Traffic =
    | Arrive(id: nat, remote: Peer, now: real)        // line 58: the limiter's first section
    | Evict(id: nat, victim: Peer)                    // line 58: its second section
    | Serve(id: nat, remote: Peer, frame: Frame)      // lines 62-103
    | Meanwhile(step: Step)                           // anything else the supervisor does

  /** A connection, by its peer and its number. */
  type Conn = (Peer, nat)

  /** What the limiter sees. */
  function Limited(ts: seq<Traffic>): seq<Event>
    decreases |ts|
  {
    if ts == [] then []
    else
      match ts[0]
      case Arrive(id, remote, now) => [Ask(id, remote, now)] + Limited(ts[1..])
      case Evict(id, victim) => [Sweep(id, victim)] + Limited(ts[1..])
      case _ => Limited(ts[1..])
  }

  function Arrivals(ts: seq<Traffic>): nat
    decreases |ts|
  {
    if ts == [] then 0 else (if ts[0].Arrive? then 1 else 0) + Arrivals(ts[1..])
  }

  /** The world after the traffic, each arrival taking the next of the limiter's answers. */
  ghost function Served(w: World, a: Authz, ts: seq<Traffic>, answers: seq<bool>, verdicts: map<Conn, bool>): World
    requires |answers| == Arrivals(ts)
    decreases |ts|
  {
    if ts == [] then w
    else
      match ts[0]
      case Arrive(id, remote, _) => Served(w, a, ts[1..], answers[1..], verdicts[(remote, id) := answers[0]])
      case Evict(_, _) => Served(w, a, ts[1..], answers, verdicts)
      case Serve(id, remote, frame) =>
        Served(if (remote, id) in verdicts then AfterCall(w, a, remote, verdicts[(remote, id)], frame) else w,
               a, ts[1..], answers, verdicts - {(remote, id)})
      case Meanwhile(step) =>
        Served(if Enabled(w, step) then Lifecycle.Apply(w, step) else w, a, ts[1..], answers, verdicts)
  }

  /** The limiter's answers to the peers with control rights. */
  function ControlAnswers(a: Authz, ts: seq<Traffic>, answers: seq<bool>): seq<bool>
    requires |answers| == Arrivals(ts)
    decreases |ts|
  {
    if ts == [] then []
    else if ts[0].Arrive? then
      (if Outsider(a, ts[0].remote) then [] else [answers[0]]) + ControlAnswers(a, ts[1..], answers[1..])
    else ControlAnswers(a, ts[1..], answers)
  }

  const EMPTY := Limiter(map[], map[])

  lemma {:induction false} OneAnswerEach(cfg: Config, s: Limiter, ts: seq<Traffic>)
    requires ValidTrace(cfg, s, Limited(ts))
    ensures |Answers(cfg, s, Limited(ts))| == Arrivals(ts)
    decreases |ts|
  {
    if ts != [] {
      var es := Limited(ts);
      if ts[0].Arrive? || ts[0].Evict? {
        assert es[1..] == Limited(ts[1..]);
        OneAnswerEach(cfg, StepL(cfg, s, es[0]), ts[1..]);
      } else {
        OneAnswerEach(cfg, s, ts[1..]);
      }
    }
  }

  lemma {:induction false} OneSimpleAnswerEach(cfg: Config, m: Buckets, ts: seq<Traffic>)
    ensures |AnswersSimple(cfg, m, Limited(ts))| == Arrivals(ts)
    decreases |ts|
  {
    if ts != [] {
      var es := Limited(ts);
      match ts[0] {
        case Arrive(id, remote, now) =>
          assert es[1..] == Limited(ts[1..]);
          OneSimpleAnswerEach(cfg, Charge(cfg, m, remote, now), ts[1..]);
        case Evict(_, _) =>
          assert es[1..] == Limited(ts[1..]);
          OneSimpleAnswerEach(cfg, m, ts[1..]);
        case _ => OneSimpleAnswerEach(cfg, m, ts[1..]);
      }
    }
  }

  /** Evictions, and what outsiders do. */
  predicate Hidden(a: Authz, t: Traffic) {
    t.Evict? || ((t.Arrive? || t.Serve?) && Outsider(a, t.remote))
  }

  /** The traffic without evictions and without the connections of outsiders. */
  function Insiders(a: Authz, ts: seq<Traffic>): seq<Traffic>
    decreases |ts|
  {
    if ts == [] then []
    else if Hidden(a, ts[0]) then Insiders(a, ts[1..])
    else [ts[0]] + Insiders(a, ts[1..])
  }

  // ---------------------------------------------------------------- without eviction

  /** Two tables that hold the same bucket for `p`, or none. */
  predicate SameBucket(m: Buckets, m': Buckets, p: Peer) {
    (p in m <==> p in m') && (p in m ==> m[p] == m'[p])
  }

  /** The two limiters agree on the buckets of the peers with control rights. */
  ghost predicate SameBuckets(a: Authz, m: Buckets, m': Buckets) {
    forall p :: !Outsider(a, p) ==> SameBucket(m, m', p)
  }

  ghost predicate SameVerdicts(a: Authz, v: map<Conn, bool>, v': map<Conn, bool>) {
    forall k: Conn :: !Outsider(a, k.0) ==> (k in v <==> k in v') && (k in v ==> v[k] == v'[k])
  }

  /** What a limiter without eviction makes of the traffic. */
  ghost function Ideal(cfg: Config, a: Authz, w: World, m: Buckets, ts: seq<Traffic>, v: map<Conn, bool>): World {
    OneSimpleAnswerEach(cfg, m, ts);
    Served(w, a, ts, AnswersSimple(cfg, m, Limited(ts)), v)
  }

  ghost function IdealAnswers(cfg: Config, a: Authz, m: Buckets, ts: seq<Traffic>): seq<bool> {
    OneSimpleAnswerEach(cfg, m, ts);
    ControlAnswers(a, ts, AnswersSimple(cfg, m, Limited(ts)))
  }

  /** What one occurrence does to the world, to the buckets and to the verdicts. */
  ghost function NextWorld(a: Authz, w: World, v: map<Conn, bool>, t: Traffic): World {
    match t
    case Serve(id, remote, frame) =>
      if (remote, id) in v then AfterCall(w, a, remote, v[(remote, id)], frame) else w
    case Meanwhile(step) => if Enabled(w, step) then Lifecycle.Apply(w, step) else w
    case _ => w
  }

  function NextBuckets(cfg: Config, m: Buckets, t: Traffic): Buckets {
    if t.Arrive? then Charge(cfg, m, t.remote, t.now) else m
  }

  function NextVerdicts(cfg: Config, m: Buckets, v: map<Conn, bool>, t: Traffic): map<Conn, bool> {
    match t
    case Arrive(id, remote, now) => v[(remote, id) := Admits(cfg, m, remote, now)]
    case Serve(id, remote, _) => v - {(remote, id)}
    case _ => v
  }

  function NextAnswers(cfg: Config, a: Authz, m: Buckets, t: Traffic): seq<bool> {
    if t.Arrive? && !Outsider(a, t.remote) then [Admits(cfg, m, t.remote, t.now)] else []
  }

  /** One occurrence, taken off the front. */
  lemma IdealStep(cfg: Config, a: Authz, w: World, m: Buckets, t: Traffic, rest: seq<Traffic>, v: map<Conn, bool>)
    ensures Ideal(cfg, a, w, m, [t] + rest, v)
         == Ideal(cfg, a, NextWorld(a, w, v, t), NextBuckets(cfg, m, t), rest, NextVerdicts(cfg, m, v, t))
    ensures IdealAnswers(cfg, a, m, [t] + rest)
         == NextAnswers(cfg, a, m, t) + IdealAnswers(cfg, a, NextBuckets(cfg, m, t), rest)
  {
    var ts := [t] + rest;
    assert ts[0] == t && ts[1..] == rest;
    OneSimpleAnswerEach(cfg, m, ts);
    var es := Limited(ts);
    match t {
      case Arrive(id, remote, now) =>
        assert es[0] == Ask(id, remote, now) && es[1..] == Limited(rest);
        var more := AnswersSimple(cfg, Charge(cfg, m, remote, now), Limited(rest));
        assert AnswersSimple(cfg, m, es) == [Admits(cfg, m, remote, now)] + more;
        assert ([Admits(cfg, m, remote, now)] + more)[1..] == more;
      case Evict(id, victim) =>
        assert es[0] == Sweep(id, victim) && es[1..] == Limited(rest);
      case _ =>
    }
  }

  /** What is hidden changes neither the world nor anything of the others. */
  lemma HiddenChangesNothing(cfg: Config, a: Authz, w: World, m: Buckets, v: map<Conn, bool>, t: Traffic)
    requires Hidden(a, t)
    ensures NextWorld(a, w, v, t) == w && NextAnswers(cfg, a, m, t) == []
    ensures SameBuckets(a, NextBuckets(cfg, m, t), m) && SameVerdicts(a, NextVerdicts(cfg, m, v, t), v)
  {
    if t.Serve? && (t.remote, t.id) in v {
      ReaderChangesNothing(w, a, t.remote, v[(t.remote, t.id)], t.frame);
    }
  }

  /** A bucket does not notice other peers. */
  lemma BucketsAgree(cfg: Config, m: Buckets, m': Buckets, t: Traffic, p: Peer)
    requires SameBucket(m, m', p)
    ensures t.Arrive? && t.remote == p ==> Level(cfg, m, p, t.now) == Level(cfg, m', p, t.now)
    ensures SameBucket(NextBuckets(cfg, m, t), NextBuckets(cfg, m', t), p)
    ensures !t.Arrive? || t.remote != p ==> SameBucket(NextBuckets(cfg, m, t), m', p)
  {
  }

  /** What is not hidden does the same to the world on both sides. */
  lemma WorldsAgree(a: Authz, w: World, v: map<Conn, bool>, v': map<Conn, bool>, t: Traffic)
    requires !Hidden(a, t) && SameVerdicts(a, v, v')
    ensures NextWorld(a, w, v, t) == NextWorld(a, w, v', t)
  {
    if t.Serve? {
      var k: Conn := (t.remote, t.id);
      assert !Outsider(a, k.0);
    }
  }

  /** And it gets the same answers, and leaves the same buckets and verdicts. */
  lemma OthersAgree(
    cfg: Config, a: Authz, m: Buckets, m': Buckets, v: map<Conn, bool>, v': map<Conn, bool>, t: Traffic)
    requires !Hidden(a, t) && SameBuckets(a, m, m') && SameVerdicts(a, v, v')
    ensures NextAnswers(cfg, a, m, t) == NextAnswers(cfg, a, m', t)
    ensures SameBuckets(a, NextBuckets(cfg, m, t), NextBuckets(cfg, m', t))
    ensures SameVerdicts(a, NextVerdicts(cfg, m, v, t), NextVerdicts(cfg, m', v', t))
  {
    forall p | !Outsider(a, p)
      ensures SameBucket(NextBuckets(cfg, m, t), NextBuckets(cfg, m', t), p)
      ensures t.Arrive? && t.remote == p ==> Admits(cfg, m, p, t.now) == Admits(cfg, m', p, t.now)
    {
      BucketsAgree(cfg, m, m', t, p);
    }
    if t.Arrive? {
      assert Admits(cfg, m, t.remote, t.now) == Admits(cfg, m', t.remote, t.now);
    }
  }

  /** Without eviction, outsiders can be taken out: no answer to the others changes, nor does the world. */
  lemma {:induction false} PurgeIsIdeal(
    cfg: Config, a: Authz, w: World, m: Buckets, m': Buckets, ts: seq<Traffic>, v: map<Conn, bool>, v': map<Conn, bool>)
    requires SameBuckets(a, m, m') && SameVerdicts(a, v, v')
    ensures Ideal(cfg, a, w, m, ts, v) == Ideal(cfg, a, w, m', Insiders(a, ts), v')
    ensures IdealAnswers(cfg, a, m, ts) == IdealAnswers(cfg, a, m', Insiders(a, ts))
    decreases |ts|
  {
    if ts != [] {
      var t, rest := ts[0], ts[1..];
      var w1, m1, v1 := NextWorld(a, w, v, t), NextBuckets(cfg, m, t), NextVerdicts(cfg, m, v, t);
      assert ts == [t] + rest;
      IdealStep(cfg, a, w, m, t, rest, v);
      if Hidden(a, t) {
        HiddenChangesNothing(cfg, a, w, m, v, t);
        PurgeIsIdeal(cfg, a, w, m1, m', rest, v1, v');
      } else {
        IdealStep(cfg, a, w, m', t, Insiders(a, rest), v');
        WorldsAgree(a, w, v, v', t);
        OthersAgree(cfg, a, m, m', v, v', t);
        PurgeIsIdeal(cfg, a, w1, m1, NextBuckets(cfg, m', t), rest, v1, NextVerdicts(cfg, m', v', t));
      }
    }
  }

  // ---------------------------------------------------------------- with eviction

  /** Traffic in which whoever comes back after an eviction would have found a full bucket. */
  ghost predicate Calm(cfg: Config, ts: seq<Traffic>) {
    ValidTrace(cfg, EMPTY, Limited(ts)) && ReturnsRested(cfg, EMPTY, map[], Limited(ts))
  }

  /** So it is when the time-to-live refills a bucket, readings are in lock order and victims have refilled. */
  lemma OrderedIsCalm(cfg: Config, ts: seq<Traffic>, t: real)
    requires cfg.Valid() && cfg.ttl * cfg.refill >= cfg.burst
    requires ValidTrace(cfg, EMPTY, Limited(ts))
    requires Ordered(Limited(ts), t) && VictimsRested(cfg, EMPTY, Limited(ts), t)
    ensures Calm(cfg, ts)
  {
    OrderedReturnsRested(cfg, EMPTY, map[], Limited(ts), t);
  }

  /** What the supervisor makes of the traffic, evictions and all. */
  ghost function Outcome(cfg: Config, a: Authz, w: World, ts: seq<Traffic>): World
    requires ValidTrace(cfg, EMPTY, Limited(ts))
  {
    OneAnswerEach(cfg, EMPTY, ts);
    Served(w, a, ts, Answers(cfg, EMPTY, Limited(ts)), map[])
  }

  ghost function OutcomeAnswers(cfg: Config, a: Authz, ts: seq<Traffic>): seq<bool>
    requires ValidTrace(cfg, EMPTY, Limited(ts))
  {
    OneAnswerEach(cfg, EMPTY, ts);
    ControlAnswers(a, ts, Answers(cfg, EMPTY, Limited(ts)))
  }

  lemma CalmIsIdeal(cfg: Config, a: Authz, w: World, ts: seq<Traffic>)
    requires Calm(cfg, ts)
    ensures Outcome(cfg, a, w, ts) == Ideal(cfg, a, w, map[], ts, map[])
    ensures OutcomeAnswers(cfg, a, ts) == IdealAnswers(cfg, a, map[], ts)
  {
    RestedReturnsUnnoticed(cfg, EMPTY, map[], Limited(ts));
  }

  /**
   * Outsiders are invisible. Take two histories that differ only in what peers without control
   * rights did and in what the limiter evicted: every other peer gets the same answers from the
   * limiter, and the table, the store, the counter and every task end up the same.
   */
  lemma OutsidersAreInvisible(cfg: Config, a: Authz, w: World, busy: seq<Traffic>, quiet: seq<Traffic>)
    requires Insiders(a, busy) == Insiders(a, quiet)
    requires Calm(cfg, busy) && Calm(cfg, quiet)
    ensures Outcome(cfg, a, w, busy) == Outcome(cfg, a, w, quiet)
    ensures OutcomeAnswers(cfg, a, busy) == OutcomeAnswers(cfg, a, quiet)
  {
    CalmIsIdeal(cfg, a, w, busy);
    CalmIsIdeal(cfg, a, w, quiet);
    PurgeIsIdeal(cfg, a, w, map[], map[], busy, map[], map[]);
    PurgeIsIdeal(cfg, a, w, map[], map[], quiet, map[], map[]);
  }

  /** The requests of a peer that one occurrence admits without eviction. */
  function NextAdmitted(cfg: Config, m: Buckets, t: Traffic, p: Peer): nat {
    if t.Arrive? && t.remote == p then Cost(cfg, m, p, t.now) else 0
  }

  lemma SimpleStep(cfg: Config, m: Buckets, t: Traffic, rest: seq<Traffic>, p: Peer)
    ensures AdmittedSimple(cfg, m, Limited([t] + rest), p)
         == NextAdmitted(cfg, m, t, p) + AdmittedSimple(cfg, NextBuckets(cfg, m, t), Limited(rest), p)
  {
    assert ([t] + rest)[1..] == rest;
    if t.Arrive? || t.Evict? {
      assert Limited([t] + rest)[1..] == Limited(rest);
    }
  }

  /** A limiter without eviction does not notice other peers. */
  lemma {:induction false} SimpleIsPerPeer(cfg: Config, a: Authz, m: Buckets, m': Buckets, ts: seq<Traffic>, p: Peer)
    requires !Outsider(a, p) && SameBucket(m, m', p)
    ensures AdmittedSimple(cfg, m, Limited(ts), p) == AdmittedSimple(cfg, m', Limited(Insiders(a, ts)), p)
    decreases |ts|
  {
    if ts != [] {
      var t, rest := ts[0], ts[1..];
      assert ts == [t] + rest;
      SimpleStep(cfg, m, t, rest, p);
      BucketsAgree(cfg, m, m', t, p);
      if Hidden(a, t) {
        SimpleIsPerPeer(cfg, a, NextBuckets(cfg, m, t), m', rest, p);
      } else {
        SimpleStep(cfg, m', t, Insiders(a, rest), p);
        SimpleIsPerPeer(cfg, a, NextBuckets(cfg, m, t), NextBuckets(cfg, m', t), rest, p);
      }
    }
  }

  /**
   * Outsiders cost nobody requests: whatever the timestamps and the evictions, a peer with control
   * rights is admitted at least as often as by a limiter that evicts nobody and sees no outsider.
   */
  lemma OutsidersCostNothing(cfg: Config, a: Authz, ts: seq<Traffic>, p: Peer)
    requires ValidTrace(cfg, EMPTY, Limited(ts)) && !Outsider(a, p)
    ensures Admitted(cfg, EMPTY, Limited(ts), p) >= AdmittedSimple(cfg, map[], Limited(Insiders(a, ts)), p)
  {
    EvictionNeverCosts(cfg, Limited(ts), p);
    SimpleIsPerPeer(cfg, a, map[], map[], ts, p);
  }
}

/**
 * The telemetry watcher (src/telemetry.rs): replay filtering over an arbitrary stream, and CPU
 * rates from cumulative counters. Signatures are an oracle: an arrival either fails to open or
 * is an authentic tick.
 */
module Telemetry {
  import opened Protocol

  type Publisher = nat
  type Millis = nat

  datatype Tick = Tick(from: Publisher, ts: Millis, seqNo: nat, stats: seq<ProcInfo>)

  /** What `open_tick` makes of a message, and the watcher's clock when it arrives. */
  datatype Arrival = Unreadable | Opened(tick: Tick, now: Millis)

  type Latest = map<Publisher, nat>

  /** Within the window on either side of the watcher's clock. */
  predicate Fresh(ts: Millis, now: Millis, maxAge: Millis) {
    (if now >= ts then now - ts else ts - now) <= maxAge
  }

  predicate IsFresh(a: Arrival, maxAge: Millis) {
    a.Opened? && Fresh(a.tick.ts, a.now, maxAge)
  }

  predicate Accepts(latest: Latest, a: Arrival, maxAge: Millis) {
    IsFresh(a, maxAge) && (a.tick.from in latest ==> a.tick.seqNo > latest[a.tick.from])
  }

  function Noted(latest: Latest, a: Arrival, maxAge: Millis): Latest {
    if Accepts(latest, a, maxAge) then latest[a.tick.from := a.tick.seqNo] else latest
  }

  /** The filter's state after a stream. */
  function LatestAfter(stream: seq<Arrival>, maxAge: Millis): Latest
    decreases |stream|
  {
    if stream == [] then map[]
    else Noted(LatestAfter(stream[..|stream| - 1], maxAge), stream[|stream| - 1], maxAge)
  }

  /** Whether arrival `i` of the stream is accepted. */
  predicate AcceptedAt(stream: seq<Arrival>, i: nat, maxAge: Millis)
    requires i < |stream|
  {
    Accepts(LatestAfter(stream[..i], maxAge), stream[i], maxAge)
  }

  /** The ticks a stream gets through the filter, in order. */
  function AcceptedTicks(stream: seq<Arrival>, maxAge: Millis): seq<Tick>
    decreases |stream|
  {
    if stream == [] then []
    else
      var init, last := stream[..|stream| - 1], stream[|stream| - 1];
      if Accepts(LatestAfter(init, maxAge), last, maxAge) then AcceptedTicks(init, maxAge) + [last.tick]
      else AcceptedTicks(init, maxAge)
  }

  // ---------------------------------------------------------------- replay filtering

  /** The filter remembers exactly the largest fresh sequence number of each publisher. */
  lemma {:induction false} LatestIsMaximum(stream: seq<Arrival>, p: Publisher, maxAge: Millis)
    ensures
      var latest := LatestAfter(stream, maxAge);
      && (forall a :: a in stream && IsFresh(a, maxAge) && a.tick.from == p ==>
            p in latest && a.tick.seqNo <= latest[p])
      && (p in latest ==>
            exists a :: a in stream && IsFresh(a, maxAge) && a.tick.from == p && a.tick.seqNo == latest[p])
    decreases |stream|
  {
    if stream != [] {
      var init, last := stream[..|stream| - 1], stream[|stream| - 1];
      LatestIsMaximum(init, p, maxAge);
      assert stream == init + [last];
      if p in LatestAfter(stream, maxAge) {
        if Accepts(LatestAfter(init, maxAge), last, maxAge) && last.tick.from == p {
          assert last in stream;
        } else {
          var a :| a in init && IsFresh(a, maxAge) && a.tick.from == p && a.tick.seqNo == LatestAfter(init, maxAge)[p];
          assert a in stream;
        }
      }
    }
  }

  /** Accepted means: fresh, and a record among the publisher's fresh ticks so far. */
  predicate IsRecord(stream: seq<Arrival>, i: nat, maxAge: Millis)
    requires i < |stream|
  {
    && IsFresh(stream[i], maxAge)
    && forall j :: 0 <= j < i && IsFresh(stream[j], maxAge) && stream[j].tick.from == stream[i].tick.from ==>
         stream[j].tick.seqNo < stream[i].tick.seqNo
  }

  lemma AcceptedIffRecord(stream: seq<Arrival>, i: nat, maxAge: Millis)
    requires i < |stream|
    ensures AcceptedAt(stream, i, maxAge) <==> IsRecord(stream, i, maxAge)
  {
    if IsFresh(stream[i], maxAge) {
      var p := stream[i].tick.from;
      var past := stream[..i];
      LatestIsMaximum(past, p, maxAge);
      forall j | 0 <= j < i && IsFresh(stream[j], maxAge) && stream[j].tick.from == p
        ensures stream[j] in past
      {
        assert past[j] == stream[j];
      }
      if p in LatestAfter(past, maxAge) {
        var a :| a in past && IsFresh(a, maxAge) && a.tick.from == p && a.tick.seqNo == LatestAfter(past, maxAge)[p];
        var j :| 0 <= j < |past| && past[j] == a;
        assert stream[j] == a;
      }
    }
  }

  /** The two ends of the freshness window: not too old, and not too far ahead. */
  predicate InWindow(a: Arrival, maxAge: Millis) {
    a.Opened? && a.now <= a.tick.ts + maxAge && a.tick.ts <= a.now + maxAge
  }

  /**
   * What the watcher accepts: a tick that opens, within the window on both sides of its clock, and
   * numbered above every earlier tick of its publisher that came within the window.
   */
  lemma AcceptedIffInWindow(stream: seq<Arrival>, i: nat, maxAge: Millis)
    requires i < |stream|
    ensures AcceptedAt(stream, i, maxAge) <==>
      && InWindow(stream[i], maxAge)
      && forall j :: 0 <= j < i && InWindow(stream[j], maxAge) && stream[j].tick.from == stream[i].tick.from ==>
           stream[j].tick.seqNo < stream[i].tick.seqNo
  {
    AcceptedIffRecord(stream, i, maxAge);
    forall j | 0 <= j < |stream|
      ensures IsFresh(stream[j], maxAge) <==> InWindow(stream[j], maxAge)
    {
    }
  }

  /** A tick that is accepted where it arrives. */
  ghost predicate GetsThrough(stream: seq<Arrival>, t: Tick, maxAge: Millis) {
    exists i :: 0 <= i < |stream| && AcceptedAt(stream, i, maxAge) && stream[i].tick == t
  }

  lemma GetsThroughSnoc(stream: seq<Arrival>, t: Tick, maxAge: Millis)
    requires stream != []
    ensures
      var last := |stream| - 1;
      GetsThrough(stream, t, maxAge) <==>
        GetsThrough(stream[..last], t, maxAge) || (AcceptedAt(stream, last, maxAge) && stream[last].tick == t)
  {
    var last := |stream| - 1;
    var init := stream[..last];
    forall i | 0 <= i < last
      ensures init[..i] == stream[..i] && init[i] == stream[i]
    {
    }
    if GetsThrough(init, t, maxAge) {
      var i :| 0 <= i < |init| && AcceptedAt(init, i, maxAge) && init[i].tick == t;
      assert AcceptedAt(stream, i, maxAge) && stream[i].tick == t;
    }
    if GetsThrough(stream, t, maxAge) {
      var i :| 0 <= i < |stream| && AcceptedAt(stream, i, maxAge) && stream[i].tick == t;
      assert i < last ==> AcceptedAt(init, i, maxAge) && init[i].tick == t;
    }
  }

  /** What the watcher prints is exactly what is accepted, where it arrives. */
  lemma {:induction false} AcceptedTicksAre(stream: seq<Arrival>, t: Tick, maxAge: Millis)
    ensures t in AcceptedTicks(stream, maxAge) <==> GetsThrough(stream, t, maxAge)
    decreases |stream|
  {
    if stream != [] {
      AcceptedTicksAre(stream[..|stream| - 1], t, maxAge);
      GetsThroughSnoc(stream, t, maxAge);
    }
  }

  /** No replay: a publisher's accepted sequence numbers strictly increase, so none repeats. */
  lemma AcceptedIncrease(stream: seq<Arrival>, i: nat, j: nat, maxAge: Millis)
    requires i < j < |stream| && AcceptedAt(stream, i, maxAge) && AcceptedAt(stream, j, maxAge)
    requires stream[i].tick.from == stream[j].tick.from
    ensures stream[i].tick.seqNo < stream[j].tick.seqNo
  {
    AcceptedIffRecord(stream, j, maxAge);
  }

  /**
   * A publisher that restarts counts from one again and is not heard: whatever has been accepted
   * up to number `n`, of what arrives afterwards exactly the fresh ticks that are numbered above
   * `n` and above those of them that arrived before are accepted.
   */
  lemma HeardAgainIff(stream: seq<Arrival>, later: seq<Arrival>, p: Publisher, n: nat, i: nat, maxAge: Millis)
    requires p in LatestAfter(stream, maxAge) && LatestAfter(stream, maxAge)[p] == n
    requires i < |later| && later[i].Opened? && later[i].tick.from == p
    ensures AcceptedAt(stream + later, |stream| + i, maxAge) <==> later[i].tick.seqNo > n && IsRecord(later, i, maxAge)
  {
    var all := stream + later;
    AcceptedIffRecord(all, |stream| + i, maxAge);
    LatestIsMaximum(stream, p, maxAge);
    var top :| top in stream && IsFresh(top, maxAge) && top.tick.from == p && top.tick.seqNo == n;
    var k :| 0 <= k < |stream| && stream[k] == top;
    assert all[k] == top && all[|stream| + i] == later[i];
    forall j | 0 <= j < |stream| && IsFresh(stream[j], maxAge) && stream[j].tick.from == p
      ensures all[j].tick.seqNo <= n
    {
      assert stream[j] in stream && all[j] == stream[j];
    }
    forall j | 0 <= j < i
      ensures all[|stream| + j] == later[j]
    {
    }
    if IsRecord(all, |stream| + i, maxAge) {
      forall j | 0 <= j < i && IsFresh(later[j], maxAge) && later[j].tick.from == p
        ensures later[j].tick.seqNo < later[i].tick.seqNo
      {
        assert all[|stream| + j] == later[j];
      }
    }
    if later[i].tick.seqNo > n && IsRecord(later, i, maxAge) {
      forall j | 0 <= j < |stream| + i && IsFresh(all[j], maxAge) && all[j].tick.from == p
        ensures all[j].tick.seqNo < later[i].tick.seqNo
      {
        if j >= |stream| {
          assert all[j] == later[j - |stream|];
        } else {
          assert all[j] == stream[j];
        }
      }
    }
  }

  /** The new life of a publisher, delivered in full and in order: its first `n` ticks are all dropped. */
  lemma NewLifeIsDeaf(stream: seq<Arrival>, life: seq<Arrival>, p: Publisher, n: nat, i: nat, maxAge: Millis)
    requires p in LatestAfter(stream, maxAge) && LatestAfter(stream, maxAge)[p] == n
    requires forall k :: 0 <= k < |life| ==>
      IsFresh(life[k], maxAge) && life[k].tick.from == p && life[k].tick.seqNo == k + 1
    requires i < |life|
    ensures AcceptedAt(stream + life, |stream| + i, maxAge) <==> i >= n
  {
    HeardAgainIff(stream, life, p, n, i, maxAge);
  }

  /** The arrivals of one publisher. */
  function Only(stream: seq<Arrival>, p: Publisher): seq<Arrival>
    decreases |stream|
  {
    if stream == [] then []
    else
      var init, last := stream[..|stream| - 1], stream[|stream| - 1];
      if last.Opened? && last.tick.from == p then Only(init, p) + [last] else Only(init, p)
  }

  function TicksFrom(ticks: seq<Tick>, p: Publisher): seq<Tick>
    decreases |ticks|
  {
    if ticks == [] then []
    else
      var init, last := ticks[..|ticks| - 1], ticks[|ticks| - 1];
      if last.from == p then TicksFrom(init, p) + [last] else TicksFrom(init, p)
  }

  lemma TicksFromSnoc(ticks: seq<Tick>, t: Tick, p: Publisher)
    ensures TicksFrom(ticks + [t], p) == if t.from == p then TicksFrom(ticks, p) + [t] else TicksFrom(ticks, p)
  {
    assert (ticks + [t])[..|ticks|] == ticks;
  }

  lemma StreamSnoc(stream: seq<Arrival>, a: Arrival, maxAge: Millis)
    ensures LatestAfter(stream + [a], maxAge) == Noted(LatestAfter(stream, maxAge), a, maxAge)
    ensures AcceptedTicks(stream + [a], maxAge)
         == if Accepts(LatestAfter(stream, maxAge), a, maxAge) then AcceptedTicks(stream, maxAge) + [a.tick]
            else AcceptedTicks(stream, maxAge)
  {
    assert (stream + [a])[..|stream|] == stream;
  }

  /** One publisher's outcome does not depend on anybody else's ticks. */
  lemma {:induction false} PublishersIndependent(stream: seq<Arrival>, p: Publisher, maxAge: Millis)
    ensures TicksFrom(AcceptedTicks(stream, maxAge), p) == AcceptedTicks(Only(stream, p), maxAge)
    ensures
      var all, own := LatestAfter(stream, maxAge), LatestAfter(Only(stream, p), maxAge);
      (p in all <==> p in own) && (p in all ==> all[p] == own[p])
    decreases |stream|
  {
    if stream != [] {
      var init, last := stream[..|stream| - 1], stream[|stream| - 1];
      PublishersIndependent(init, p, maxAge);
      assert stream == init + [last];
      StreamSnoc(init, last, maxAge);
      if Accepts(LatestAfter(init, maxAge), last, maxAge) {
        TicksFromSnoc(AcceptedTicks(init, maxAge), last.tick, p);
      }
      if last.Opened? && last.tick.from == p {
        StreamSnoc(Only(init, p), last, maxAge);
      }
    }
  }

  // ---------------------------------------------------------------- CPU rates

  /** A process of a publisher, and one reading of its cumulative counter. */
  type Key = (Publisher, Handle)
  datatype Sample = Sample(cpuUsec: nat, ts: Millis)
  datatype Item = Item(key: Key, sample: Sample)

  /** The rate in percent from one sample to the next; none unless time advanced. */
  function Rate(a: Sample, b: Sample): Option<real> {
    if b.ts > a.ts then
      var used := if b.cpuUsec >= a.cpuUsec then b.cpuUsec - a.cpuUsec else 0;
      Some(used as real / ((b.ts - a.ts) as real * 10.0))
    else None
  }

  function RateSince(prev: Option<Sample>, b: Sample): Option<real> {
    if prev.Some? then Rate(prev.value, b) else None
  }

  function ItemsOf(from: Publisher, ts: Millis, stats: seq<ProcInfo>): seq<Item>
    decreases |stats|
  {
    if stats == [] then []
    else
      var s := stats[|stats| - 1];
      var init := ItemsOf(from, ts, stats[..|stats| - 1]);
      if s.usage.Some? then init + [Item((from, s.handle), Sample(s.usage.value.cpuUsec, ts))] else init
  }

  function AllItems(ticks: seq<Tick>): seq<Item>
    decreases |ticks|
  {
    if ticks == [] then []
    else
      var t := ticks[|ticks| - 1];
      AllItems(ticks[..|ticks| - 1]) + ItemsOf(t.from, t.ts, t.stats)
  }

  function SamplesOf(items: seq<Item>, k: Key): seq<Sample>
    decreases |items|
  {
    if items == [] then []
    else
      var x := items[|items| - 1];
      var init := SamplesOf(items[..|items| - 1], k);
      if x.key == k then init + [x.sample] else init
  }

  function Last(ss: seq<Sample>): Option<Sample> {
    if ss == [] then None else Some(ss[|ss| - 1])
  }

  /** The rates a stream of items yields for one key. */
  function Rates(ss: seq<Sample>): (rs: seq<Option<real>>)
    ensures |rs| == |ss|
    decreases |ss|
  {
    if ss == [] then []
    else Rates(ss[..|ss| - 1]) + [RateSince(Last(ss[..|ss| - 1]), ss[|ss| - 1])]
  }

  lemma {:induction false} RatesAt(ss: seq<Sample>, i: nat)
    requires i < |ss|
    ensures Rates(ss)[i] == if i == 0 then None else Rate(ss[i - 1], ss[i])
    decreases |ss|
  {
    if i < |ss| - 1 {
      RatesAt(ss[..|ss| - 1], i);
    }
  }

  /**
   * The rate printed from sample `a` to sample `b`: none unless the clock advanced, and otherwise the
   * microseconds used, a fall counting as none, over ten times the milliseconds.
   */
  predicate IsRate(r: Option<real>, a: Sample, b: Sample) {
    && (r.Some? <==> a.ts < b.ts)
    && (r.Some? ==>
          r.value * ((b.ts - a.ts) as real * 10.0)
          == (if b.cpuUsec >= a.cpuUsec then b.cpuUsec - a.cpuUsec else 0) as real)
  }

  lemma RateIs(a: Sample, b: Sample)
    ensures IsRate(Rate(a, b), a, b)
  {
    if a.ts < b.ts {
      RateTimesSpan(a, b);
    }
  }

  /** A first sample has no rate; every other has that from the sample before it. */
  lemma RatesAre(ss: seq<Sample>, i: nat)
    requires i < |ss|
    ensures if i == 0 then Rates(ss)[i] == None else IsRate(Rates(ss)[i], ss[i - 1], ss[i])
  {
    RatesAt(ss, i);
    if i > 0 {
      RateIs(ss[i - 1], ss[i]);
    }
  }

  /** The CPU time, in microseconds, that one rate per sample stands for. */
  function Total(rates: seq<Option<real>>, ss: seq<Sample>): real
    requires |rates| == |ss|
    decreases |ss|
  {
    if |ss| <= 1 then 0.0
    else
      var a, b, r := ss[|ss| - 2], ss[|ss| - 1], rates[|ss| - 1];
      Total(rates[..|ss| - 1], ss[..|ss| - 1]) + if r.Some? then r.value * ((b.ts - a.ts) as real * 10.0) else 0.0
  }

  /** The CPU time that the rates between successive samples stand for. */
  function Reported(ss: seq<Sample>): real {
    Total(Rates(ss), ss)
  }

  predicate TimeAdvances(ss: seq<Sample>) {
    forall i, j :: 0 <= i < j < |ss| ==> ss[i].ts < ss[j].ts
  }

  predicate CounterGrows(ss: seq<Sample>) {
    forall i, j :: 0 <= i < j < |ss| ==> ss[i].cpuUsec <= ss[j].cpuUsec
  }

  /** Growth between successive samples, falls counting as none. */
  function Growth(ss: seq<Sample>): nat
    decreases |ss|
  {
    if |ss| <= 1 then 0
    else
      Growth(ss[..|ss| - 1]) + Rise(ss[|ss| - 2], ss[|ss| - 1])
  }

  function Rise(a: Sample, b: Sample): nat {
    if b.cpuUsec >= a.cpuUsec then b.cpuUsec - a.cpuUsec else 0
  }

  /** With time advancing, a rate times its span gives the counter's rise back. */
  lemma RateTimesSpan(a: Sample, b: Sample)
    requires a.ts < b.ts
    ensures Rate(a, b).Some? && Rate(a, b).value * ((b.ts - a.ts) as real * 10.0) == Rise(a, b) as real
  {
    var used, span := Rise(a, b) as real, (b.ts - a.ts) as real * 10.0;
    assert span > 0.0;
    assert used / span * span == used;
  }

  lemma ReportedSnoc(ss: seq<Sample>)
    requires |ss| > 1 && ss[|ss| - 2].ts < ss[|ss| - 1].ts
    ensures Reported(ss) == Reported(ss[..|ss| - 1]) + Rise(ss[|ss| - 2], ss[|ss| - 1]) as real
  {
    RateTimesSpan(ss[|ss| - 2], ss[|ss| - 1]);
    assert Rates(ss)[..|ss| - 1] == Rates(ss[..|ss| - 1]);
  }

  lemma {:induction false} ReportedIsGrowth(ss: seq<Sample>)
    requires TimeAdvances(ss)
    ensures Reported(ss) == Growth(ss) as real
    decreases |ss|
  {
    if |ss| > 1 {
      GrowsSnoc(ss);
      ReportedIsGrowth(ss[..|ss| - 1]);
      ReportedSnoc(ss);
    }
  }

  lemma {:induction false} GrowthCoversDifference(ss: seq<Sample>)
    requires ss != []
    ensures Growth(ss) >= ss[|ss| - 1].cpuUsec - ss[0].cpuUsec
    ensures Growth(ss) == ss[|ss| - 1].cpuUsec - ss[0].cpuUsec <==> CounterGrows(ss)
    decreases |ss|
  {
    if |ss| > 1 {
      GrowsSnoc(ss);
      GrowthCoversDifference(ss[..|ss| - 1]);
    }
  }

  lemma GrowsSnoc(ss: seq<Sample>)
    requires |ss| > 1
    ensures CounterGrows(ss) <==> CounterGrows(ss[..|ss| - 1]) && ss[|ss| - 2].cpuUsec <= ss[|ss| - 1].cpuUsec
    ensures TimeAdvances(ss) <==> TimeAdvances(ss[..|ss| - 1]) && ss[|ss| - 2].ts < ss[|ss| - 1].ts
  {
  }

  /**
   * The reported total is never less than the counter's growth from the first to the last
   * sample, and equals it exactly when the counter never fell in between.
   */
  lemma LosslessIffCounterGrows(ss: seq<Sample>)
    requires ss != [] && TimeAdvances(ss)
    ensures Reported(ss) >= (ss[|ss| - 1].cpuUsec - ss[0].cpuUsec) as real
    ensures Reported(ss) == (ss[|ss| - 1].cpuUsec - ss[0].cpuUsec) as real <==> CounterGrows(ss)
  {
    ReportedIsGrowth(ss);
    GrowthCoversDifference(ss);
  }

  /** What two successive samples report beyond the counter's movement between them. */
  function Slip(a: Sample, b: Sample): int {
    (if b.ts > a.ts then Rise(a, b) else 0) - (b.cpuUsec - a.cpuUsec)
  }

  /** Falls count as an excess, movement while the clock stands still as a lack. */
  function Slips(ss: seq<Sample>): int
    decreases |ss|
  {
    if |ss| <= 1 then 0 else Slips(ss[..|ss| - 1]) + Slip(ss[|ss| - 2], ss[|ss| - 1])
  }

  /** Whatever the samples, what is reported is the counter's movement plus the slips. */
  lemma {:induction false} ReportedBalance(ss: seq<Sample>)
    requires ss != []
    ensures Reported(ss) == (ss[|ss| - 1].cpuUsec - ss[0].cpuUsec + Slips(ss)) as real
    decreases |ss|
  {
    if |ss| > 1 {
      ReportedBalance(ss[..|ss| - 1]);
      assert Rates(ss)[..|ss| - 1] == Rates(ss[..|ss| - 1]);
      if ss[|ss| - 2].ts < ss[|ss| - 1].ts {
        RateTimesSpan(ss[|ss| - 2], ss[|ss| - 1]);
      }
    }
  }

  /** Between successive samples the counter does not fall, nor move while the clock does not advance. */
  predicate Faithful(ss: seq<Sample>) {
    forall i :: 0 <= i < |ss| - 1 ==>
      && ss[i].cpuUsec <= ss[i + 1].cpuUsec
      && (ss[i + 1].ts <= ss[i].ts ==> ss[i].cpuUsec == ss[i + 1].cpuUsec)
  }

  /** That is: no pair slips. */
  lemma SlipsNowhere(ss: seq<Sample>)
    ensures Faithful(ss) <==> forall i :: 0 <= i < |ss| - 1 ==> Slip(ss[i], ss[i + 1]) == 0
  {
  }

  lemma {:induction false} FaithfulNeverSlips(ss: seq<Sample>)
    requires Faithful(ss)
    ensures Slips(ss) == 0
    decreases |ss|
  {
    if |ss| > 1 {
      FaithfulNeverSlips(ss[..|ss| - 1]);
      SlipsNowhere(ss);
      assert Slip(ss[|ss| - 2], ss[|ss| - 2 + 1]) == 0;
    }
  }

  /** Over every stretch of the samples, what is reported is the counter's movement. */
  ghost predicate LosslessThroughout(ss: seq<Sample>) {
    forall m, n :: 0 <= m < n <= |ss| ==> Reported(ss[m..n]) == (ss[n - 1].cpuUsec - ss[m].cpuUsec) as real
  }

  /**
   * For any samples at all, also when the clock stands still or goes back: every stretch reports
   * exactly the counter's movement if and only if no successive pair falls, or moves while the
   * clock does not advance.
   */
  lemma LosslessThroughoutIff(ss: seq<Sample>)
    ensures LosslessThroughout(ss) <==> Faithful(ss)
  {
    if Faithful(ss) {
      forall m, n | 0 <= m < n <= |ss|
        ensures Reported(ss[m..n]) == (ss[n - 1].cpuUsec - ss[m].cpuUsec) as real
      {
        SlipsNowhere(ss);
        forall i | 0 <= i < |ss[m..n]| - 1
          ensures Slip(ss[m..n][i], ss[m..n][i + 1]) == 0
        {
          assert Slip(ss[m + i], ss[m + i + 1]) == 0;
        }
        SlipsNowhere(ss[m..n]);
        FaithfulNeverSlips(ss[m..n]);
        ReportedBalance(ss[m..n]);
      }
    }
    if LosslessThroughout(ss) {
      forall i | 0 <= i < |ss| - 1
        ensures Slip(ss[i], ss[i + 1]) == 0
      {
        var pair := ss[i..i + 2];
        assert pair == [ss[i], ss[i + 1]] && Reported(pair) == (ss[i + 1].cpuUsec - ss[i].cpuUsec) as real;
        ReportedBalance(pair);
        assert Slips(pair[..1]) == 0;
      }
      SlipsNowhere(ss);
    }
  }

  /** A relaunch between two ticks: the new leaf counts from zero, and what it has used is not reported. */
  lemma RelaunchLosesTime()
    ensures
      var ss := [Sample(100, 0), Sample(3, 1)];
      Reported(ss) == 0.0 && Reported(ss) != (ss[1].cpuUsec - ss[0].cpuUsec) as real && !Faithful(ss)
  {
    var ss := [Sample(100, 0), Sample(3, 1)];
    assert ss[..1] == [Sample(100, 0)] && Slips(ss[..1]) == 0 && Slips(ss) == 97;
    ReportedBalance(ss);
    assert ss[0].cpuUsec > ss[0 + 1].cpuUsec;
  }

  /** Over a whole stream a stall can hide a fall: the total is right, and the pairs are not. */
  lemma StallHidesFall()
    ensures
      var ss := [Sample(10, 0), Sample(5, 1), Sample(10, 1)];
      Reported(ss) == (ss[2].cpuUsec - ss[0].cpuUsec) as real && !Faithful(ss)
  {
    var ss := [Sample(10, 0), Sample(5, 1), Sample(10, 1)];
    assert ss[..2] == [Sample(10, 0), Sample(5, 1)] && ss[..2][..1] == [Sample(10, 0)];
    assert Slips(ss[..2][..1]) == 0 && Slips(ss[..2]) == 5 && Slips(ss) == 0;
    ReportedBalance(ss);
    assert ss[0].cpuUsec > ss[0 + 1].cpuUsec;
  }

  // ---------------------------------------------------------------- any delivery

  /** A snapshot lists each handle at most once. */
  predicate OncePerHandle(stats: seq<ProcInfo>) {
    forall i, j :: 0 <= i < j < |stats| ==> stats[i].handle != stats[j].handle
  }

  /** Stat `i` of tick `t` is a reading `x` of handle `h`. */
  predicate Carries(t: Tick, i: nat, h: Handle, x: Sample) {
    && i < |t.stats| && t.stats[i].handle == h && t.stats[i].usage.Some?
    && x == Sample(t.stats[i].usage.value.cpuUsec, t.ts)
  }

  /**
   * What publisher `p` signs: later sequence numbers carry later clocks, and the counter of
   * handle `h` never falls.
   */
  ghost predicate Steady(ticks: iset<Tick>, p: Publisher, h: Handle) {
    && (forall t :: t in ticks && t.from == p ==> OncePerHandle(t.stats))
    && (forall a, b, i, j, x, y |
          a in ticks && b in ticks && a.from == b.from == p && a.seqNo < b.seqNo
          && Carries(a, i, h, x) && Carries(b, j, h, y) ::
          x.ts < y.ts && x.cpuUsec <= y.cpuUsec)
  }

  /** Per publisher, sequence numbers strictly increase along the list. */
  predicate SeqsIncrease(ticks: seq<Tick>) {
    forall i, j :: 0 <= i < j < |ticks| && ticks[i].from == ticks[j].from ==> ticks[i].seqNo < ticks[j].seqNo
  }

  lemma {:induction false} SamplesConcat(a: seq<Item>, b: seq<Item>, k: Key)
    ensures SamplesOf(a + b, k) == SamplesOf(a, k) + SamplesOf(b, k)
    decreases |b|
  {
    if b == [] {
      assert a + b == a;
    } else {
      SamplesConcat(a, b[..|b| - 1], k);
      assert (a + b)[..|a + b| - 1] == a + b[..|b| - 1];
    }
  }

  /** One tick yields at most one sample of a key, its stat `i`. */
  lemma {:induction false} TickSamples(t: Tick, stats: seq<ProcInfo>, k: Key) returns (i: nat)
    requires stats <= t.stats && OncePerHandle(t.stats)
    ensures
      var ss := SamplesOf(ItemsOf(t.from, t.ts, stats), k);
      && |ss| <= 1
      && (t.from != k.0 ==> ss == [])
      && (ss != [] ==> i < |stats| && Carries(t, i, k.1, ss[0]))
    decreases |stats|
  {
    i := 0;
    if stats != [] {
      var last := |stats| - 1;
      var init, s := stats[..last], stats[last];
      i := TickSamples(t, init, k);
      var items := ItemsOf(t.from, t.ts, init);
      if s.usage.Some? {
        var x := Item((t.from, s.handle), Sample(s.usage.value.cpuUsec, t.ts));
        assert (items + [x])[..|items|] == items;
        assert t.stats[last] == s;
        if x.key == k {
          assert SamplesOf(items, k) == [];
          i := last;
        }
      }
    }
  }

  lemma {:induction false} AcceptedTicksIncrease(stream: seq<Arrival>, maxAge: Millis)
    ensures
      var ticks, latest := AcceptedTicks(stream, maxAge), LatestAfter(stream, maxAge);
      && SeqsIncrease(ticks)
      && (forall t :: t in ticks ==> Delivered(stream, t) && t.from in latest && t.seqNo <= latest[t.from])
    decreases |stream|
  {
    if stream != [] {
      var init, last := stream[..|stream| - 1], stream[|stream| - 1];
      AcceptedTicksIncrease(init, maxAge);
      assert stream == init + [last];
      forall t | t in AcceptedTicks(init, maxAge)
        ensures Delivered(stream, t)
      {
        var a :| a in init && a.Opened? && a.tick == t;
        assert a in stream;
      }
      if Accepts(LatestAfter(init, maxAge), last, maxAge) {
        assert last in stream;
      }
    }
  }

  /** The stream delivered `t` at least once. */
  ghost predicate Delivered(stream: seq<Arrival>, t: Tick) {
    exists a :: a in stream && a.Opened? && a.tick == t
  }

  lemma ExtendOrdered(ss: seq<Sample>, x: Sample)
    requires TimeAdvances(ss) && CounterGrows(ss)
    requires ss != [] ==> ss[|ss| - 1].ts < x.ts && ss[|ss| - 1].cpuUsec <= x.cpuUsec
    ensures TimeAdvances(ss + [x]) && CounterGrows(ss + [x])
  {
  }

  /** The last tick of a list adds at most one sample of a key, its stat `i`. */
  lemma LastTickSamples(ticks: seq<Tick>, k: Key) returns (i: nat)
    requires ticks != [] && (ticks[|ticks| - 1].from == k.0 ==> OncePerHandle(ticks[|ticks| - 1].stats))
    ensures
      var t := ticks[|ticks| - 1];
      var before, ss := SamplesOf(AllItems(ticks[..|ticks| - 1]), k), SamplesOf(AllItems(ticks), k);
      || ss == before
      || (t.from == k.0 && |ss| == |before| + 1 && ss == before + [ss[|before|]] && Carries(t, i, k.1, ss[|before|]))
  {
    var t := ticks[|ticks| - 1];
    SamplesConcat(AllItems(ticks[..|ticks| - 1]), ItemsOf(t.from, t.ts, t.stats), k);
    i := 0;
    if t.from == k.0 {
      i := TickSamples(t, t.stats, k);
    } else {
      OtherTickNoSamples(t.from, t.ts, t.stats, k);
    }
  }

  /** A reading of a later tick of the list may follow one of an earlier tick. */
  lemma LaterReading(
    ticks: seq<Tick>, published: iset<Tick>, p: Publisher, h: Handle,
    u: nat, i: nat, x: Sample, j: nat, y: Sample)
    requires SeqsIncrease(ticks) && Steady(published, p, h) && u < |ticks| - 1
    requires ticks[u] in published && ticks[|ticks| - 1] in published
    requires ticks[u].from == ticks[|ticks| - 1].from == p
    requires Carries(ticks[u], i, h, x) && Carries(ticks[|ticks| - 1], j, h, y)
    ensures x.ts < y.ts && x.cpuUsec <= y.cpuUsec
  {
    assert ticks[u].seqNo < ticks[|ticks| - 1].seqNo;
  }

  /** The samples of a key are in order; the last one is stat `i` of tick `u`. */
  lemma {:induction false} SamplesOrdered(ticks: seq<Tick>, published: iset<Tick>, p: Publisher, h: Handle)
    returns (u: nat, i: nat)
    requires SeqsIncrease(ticks) && Steady(published, p, h)
    requires forall k :: 0 <= k < |ticks| ==> ticks[k] in published
    ensures
      var ss := SamplesOf(AllItems(ticks), (p, h));
      && TimeAdvances(ss) && CounterGrows(ss)
      && (ss != [] ==> u < |ticks| && ticks[u].from == p && Carries(ticks[u], i, h, ss[|ss| - 1]))
    decreases |ticks|
  {
    u, i := 0, 0;
    if ticks != [] {
      var last := |ticks| - 1;
      var before, ss := SamplesOf(AllItems(ticks[..last]), (p, h)), SamplesOf(AllItems(ticks), (p, h));
      u, i := SamplesOrdered(ticks[..last], published, p, h);
      assert ticks[last].from == p ==> OncePerHandle(ticks[last].stats);
      var j := LastTickSamples(ticks, (p, h));
      if ss != before {
        var x := ss[|before|];
        assert before != [] ==> before[|before| - 1].ts < x.ts && before[|before| - 1].cpuUsec <= x.cpuUsec by {
          if before != [] {
            LaterReading(ticks, published, p, h, u, i, before[|before| - 1], j, x);
          }
        }
        ExtendOrdered(before, x);
        u, i := last, j;
      }
    }
  }

  lemma {:induction false} OtherTickNoSamples(from: Publisher, ts: Millis, stats: seq<ProcInfo>, k: Key)
    requires from != k.0
    ensures SamplesOf(ItemsOf(from, ts, stats), k) == []
    decreases |stats|
  {
    if stats != [] {
      var items := ItemsOf(from, ts, stats[..|stats| - 1]);
      OtherTickNoSamples(from, ts, stats[..|stats| - 1], k);
      assert forall x: Item :: (items + [x])[..|items|] == items;
    }
  }

  /**
   * A dropped tick loses nothing: whatever subset of a steady publisher's ticks arrives, in
   * whatever order and however often, the rates reported for a process account for exactly the
   * CPU time between its first and last accepted readings.
   */
  lemma DroppedTicksLoseNothing(stream: seq<Arrival>, published: iset<Tick>, p: Publisher, h: Handle, maxAge: Millis)
    requires Steady(published, p, h)
    requires forall a :: a in stream && a.Opened? ==> a.tick in published
    ensures
      var ss := SamplesOf(AllItems(AcceptedTicks(stream, maxAge)), (p, h));
      ss != [] ==> Reported(ss) == (ss[|ss| - 1].cpuUsec - ss[0].cpuUsec) as real
  {
    var ticks := AcceptedTicks(stream, maxAge);
    var ss := SamplesOf(AllItems(ticks), (p, h));
    assert TimeAdvances(ss) && CounterGrows(ss) by {
      AcceptedTicksIncrease(stream, maxAge);
      var _, _ := SamplesOrdered(ticks, published, p, h);
    }
    if ss != [] {
      LosslessIffCounterGrows(ss);
    }
  }

  // ---------------------------------------------------------------- the watcher

  const MIB: nat := 1024 * 1024

  /** What the watcher prints for one process of one tick, as far as it is computed from state. */
  datatype Reading = Reading(from: Publisher, handle: Handle, memMiB: Option<nat>, cpu: Option<real>)

  function LastSample(items: seq<Item>, k: Key): Option<Sample> {
    Last(SamplesOf(items, k))
  }

  /** The reading of one stat after the items seen before it. */
  function ReadingOf(before: seq<Item>, from: Publisher, ts: Millis, s: ProcInfo): Reading {
    Reading(from, s.handle,
            if s.usage.Some? then Some(s.usage.value.memBytes / MIB) else None,
            if s.usage.Some? then
              RateSince(LastSample(before, (from, s.handle)), Sample(s.usage.value.cpuUsec, ts))
            else None)
  }

  /** The readings of a tick's stats, each after the items before it. */
  function ReadingsOf(before: seq<Item>, from: Publisher, ts: Millis, stats: seq<ProcInfo>): seq<Reading>
    decreases |stats|
  {
    if stats == [] then []
    else
      var init := stats[..|stats| - 1];
      ReadingsOf(before, from, ts, init) + [ReadingOf(before + ItemsOf(from, ts, init), from, ts, stats[|stats| - 1])]
  }

  /** Everything the watcher prints for a list of accepted ticks. */
  function AllReadings(ticks: seq<Tick>): seq<Reading>
    decreases |ticks|
  {
    if ticks == [] then []
    else
      var init, t := ticks[..|ticks| - 1], ticks[|ticks| - 1];
      AllReadings(init) + ReadingsOf(AllItems(init), t.from, t.ts, t.stats)
  }

  /**
   * What the watcher prints for a tick: one line for each process listed, in order, with its memory
   * in MiB, rounded down, where usage was sampled.
   */
  lemma {:induction false} OneLineEach(before: seq<Item>, from: Publisher, ts: Millis, stats: seq<ProcInfo>, i: nat)
    requires i < |stats|
    ensures
      var lines := ReadingsOf(before, from, ts, stats);
      && |lines| == |stats| && lines[i].from == from && lines[i].handle == stats[i].handle
      && (lines[i].memMiB.Some? <==> stats[i].usage.Some?)
      && (stats[i].usage.Some? ==>
            lines[i].memMiB.value * 1048576 <= stats[i].usage.value.memBytes < (lines[i].memMiB.value + 1) * 1048576)
      && (stats[i].usage.None? ==> lines[i].cpu.None?)
    decreases |stats|
  {
    var last := |stats| - 1;
    LinesMatch(before, from, ts, stats[..last]);
    if i < last {
      OneLineEach(before, from, ts, stats[..last], i);
    }
  }

  lemma {:induction false} LinesMatch(before: seq<Item>, from: Publisher, ts: Millis, stats: seq<ProcInfo>)
    ensures |ReadingsOf(before, from, ts, stats)| == |stats|
    decreases |stats|
  {
    if stats != [] {
      LinesMatch(before, from, ts, stats[..|stats| - 1]);
    }
  }

  /** A tick that lists process `h` at place `i` with its usage yields exactly that sample of it. */
  lemma SampleOfTick(t: Tick, i: nat)
    requires i < |t.stats| && t.stats[i].usage.Some? && OncePerHandle(t.stats)
    ensures SamplesOf(ItemsOf(t.from, t.ts, t.stats), (t.from, t.stats[i].handle))
         == [Sample(t.stats[i].usage.value.cpuUsec, t.ts)]
  {
    SampleThere(t, t.stats, i);
    var j := TickSamples(t, t.stats, (t.from, t.stats[i].handle));
  }

  lemma {:induction false} SampleThere(t: Tick, stats: seq<ProcInfo>, i: nat)
    requires stats <= t.stats && i < |stats| && stats[i].usage.Some?
    ensures SamplesOf(ItemsOf(t.from, t.ts, stats), (t.from, stats[i].handle)) != []
    decreases |stats|
  {
    var last := |stats| - 1;
    var items := ItemsOf(t.from, t.ts, stats[..last]);
    if stats[last].usage.Some? {
      var x := Item((t.from, stats[last].handle), Sample(stats[last].usage.value.cpuUsec, t.ts));
      assert (items + [x])[..|items|] == items;
    }
    if i < last {
      SampleThere(t, stats[..last], i);
    }
  }

  /** The CPU column of the lines printed for one process with its usage. */
  function Reports(readings: seq<Reading>, k: Key): seq<Option<real>>
    decreases |readings|
  {
    if readings == [] then []
    else
      var init, r := Reports(readings[..|readings| - 1], k), readings[|readings| - 1];
      if r.memMiB.Some? && (r.from, r.handle) == k then init + [r.cpu] else init
  }

  lemma {:induction false} ReportsConcat(a: seq<Reading>, b: seq<Reading>, k: Key)
    ensures Reports(a + b, k) == Reports(a, k) + Reports(b, k)
    decreases |b|
  {
    if b == [] {
      assert a + b == a;
    } else {
      ReportsConcat(a, b[..|b| - 1], k);
      assert (a + b)[..|a + b| - 1] == a + b[..|b| - 1];
    }
  }

  function ItemOf(from: Publisher, ts: Millis, s: ProcInfo): seq<Item> {
    if s.usage.Some? then [Item((from, s.handle), Sample(s.usage.value.cpuUsec, ts))] else []
  }

  lemma ItemsOfSnoc(before: seq<Item>, from: Publisher, ts: Millis, stats: seq<ProcInfo>)
    requires stats != []
    ensures before + ItemsOf(from, ts, stats)
         == before + ItemsOf(from, ts, stats[..|stats| - 1]) + ItemOf(from, ts, stats[|stats| - 1])
  {
  }

  /** One more line reports one more rate of its own process, and of no other. */
  lemma LineReportsRate(before: seq<Item>, from: Publisher, ts: Millis, s: ProcInfo, k: Key)
    ensures Rates(SamplesOf(before + ItemOf(from, ts, s), k))
         == Rates(SamplesOf(before, k)) + Reports([ReadingOf(before, from, ts, s)], k)
  {
    var line := ReadingOf(before, from, ts, s);
    assert [line][..0] == [] && Reports([], k) == [];
    if s.usage.Some? {
      var x := Item((from, s.handle), Sample(s.usage.value.cpuUsec, ts));
      assert (before + [x])[..|before|] == before;
      var ss := SamplesOf(before, k);
      assert (ss + [x.sample])[..|ss|] == ss;
    } else {
      assert before + [] == before;
    }
  }

  lemma {:induction false} TickReportsRates(
    before: seq<Item>, from: Publisher, ts: Millis, stats: seq<ProcInfo>, k: Key)
    ensures Rates(SamplesOf(before + ItemsOf(from, ts, stats), k))
         == Rates(SamplesOf(before, k)) + Reports(ReadingsOf(before, from, ts, stats), k)
    decreases |stats|
  {
    if stats == [] {
      assert before + ItemsOf(from, ts, stats) == before;
    } else {
      var init, s := stats[..|stats| - 1], stats[|stats| - 1];
      var seen := before + ItemsOf(from, ts, init);
      var lines, line := ReadingsOf(before, from, ts, init), [ReadingOf(seen, from, ts, s)];
      assert ReadingsOf(before, from, ts, stats) == lines + line;
      TickReportsRates(before, from, ts, init, k);
      ItemsOfSnoc(before, from, ts, stats);
      LineReportsRate(seen, from, ts, s, k);
      ReportsConcat(lines, line, k);
    }
  }

  /** What the watcher prints for a process is the rates between its successive accepted samples. */
  lemma {:induction false} ReportsAreRates(ticks: seq<Tick>, k: Key)
    ensures Reports(AllReadings(ticks), k) == Rates(SamplesOf(AllItems(ticks), k))
    decreases |ticks|
  {
    if ticks != [] {
      var init, t := ticks[..|ticks| - 1], ticks[|ticks| - 1];
      ReportsAreRates(init, k);
      TickReportsRates(AllItems(init), t.from, t.ts, t.stats, k);
      ReportsConcat(AllReadings(init), ReadingsOf(AllItems(init), t.from, t.ts, t.stats), k);
    }
  }

  class Watcher {
    const maxAge: Millis
    var latest: Latest
    var prev: map<Key, Sample>
    ghost var seen: seq<Item>

    /** `prev` holds the last sample of each key among the items seen. */
    ghost predicate Valid()
      reads this
    {
      forall k :: LastSample(seen, k) == if k in prev then Some(prev[k]) else None
    }

    constructor (maxAge: Millis)
      ensures Valid() && this.maxAge == maxAge && latest == map[] && seen == []
    {
      this.maxAge := maxAge;
      latest, prev, seen := map[], map[], [];
    }

    /** `accept_tick`, lines 63-80. */
    method AcceptTick(tick: Tick, now: Millis) returns (ok: bool)
      modifies this`latest
      ensures ok == Accepts(old(latest), Opened(tick, now), maxAge)
      ensures latest == Noted(old(latest), Opened(tick, now), maxAge)
    {
      var apart := if now >= tick.ts then now - tick.ts else tick.ts - now;
      if apart > maxAge {
        return false;
      }
      if tick.from in latest && tick.seqNo <= latest[tick.from] {
        return false;
      }
      latest := latest[tick.from := tick.seqNo];
      ok := true;
    }

    /** Lines 163-169: replace the remembered sample and diff against it. */
    method Read(from: Publisher, ts: Millis, s: ProcInfo) returns (r: Reading)
      requires Valid()
      modifies this`prev, this`seen
      ensures Valid()
      ensures r == ReadingOf(old(seen), from, ts, s)
      ensures seen == old(seen) + ItemOf(from, ts, s)
    {
      if s.usage.None? {
        return Reading(from, s.handle, None, None);
      }
      var k, b := (from, s.handle), Sample(s.usage.value.cpuUsec, ts);
      var cpu: Option<real> := None;
      if k in prev && b.ts > prev[k].ts {
        var used := if b.cpuUsec >= prev[k].cpuUsec then b.cpuUsec - prev[k].cpuUsec else 0;
        cpu := Some(used as real / ((b.ts - prev[k].ts) as real * 10.0));
      }
      assert LastSample(seen, k) == if k in prev then Some(prev[k]) else None;
      r := Reading(from, s.handle, Some(s.usage.value.memBytes / MIB), cpu);
      prev := prev[k := b];
      ghost var before := seen;
      seen := seen + [Item(k, b)];
      assert seen[..|before|] == before;
      forall q
        ensures LastSample(seen, q) == if q in prev then Some(prev[q]) else None
      {
        assert LastSample(before, q) == if q in old(prev) then Some(old(prev)[q]) else None;
      }
    }

    /** Lines 154-188: one message. */
    method Receive(a: Arrival) returns (readings: seq<Reading>)
      requires Valid()
      modifies this
      ensures Valid()
      ensures latest == Noted(old(latest), a, maxAge)
      ensures
        if Accepts(old(latest), a, maxAge) then
          && seen == old(seen) + ItemsOf(a.tick.from, a.tick.ts, a.tick.stats)
          && readings == ReadingsOf(old(seen), a.tick.from, a.tick.ts, a.tick.stats)
        else seen == old(seen) && readings == []
    {
      readings := [];
      if a.Unreadable? {
        return;
      }
      var tick := a.tick;
      var ok := AcceptTick(tick, a.now);
      if !ok {
        return;
      }
      for i := 0 to |tick.stats|
        invariant Valid() && latest == Noted(old(latest), a, maxAge)
        invariant seen == old(seen) + ItemsOf(tick.from, tick.ts, tick.stats[..i])
        invariant readings == ReadingsOf(old(seen), tick.from, tick.ts, tick.stats[..i])
      {
        assert tick.stats[..i + 1][..i] == tick.stats[..i];
        var r := Read(tick.from, tick.ts, tick.stats[i]);
        readings := readings + [r];
      }
      assert tick.stats[..|tick.stats|] == tick.stats;
    }

    /** `watch_loop`, lines 147-200: after a stream the filter and the samples are its own. */
    method Watch(stream: seq<Arrival>) returns (readings: seq<Reading>)
      requires Valid() && latest == map[] && seen == []
      modifies this
      ensures Valid()
      ensures latest == LatestAfter(stream, maxAge)
      ensures seen == AllItems(AcceptedTicks(stream, maxAge))
      ensures readings == AllReadings(AcceptedTicks(stream, maxAge))
    {
      readings := [];
      for i := 0 to |stream|
        invariant Valid()
        invariant latest == LatestAfter(stream[..i], maxAge)
        invariant seen == AllItems(AcceptedTicks(stream[..i], maxAge))
        invariant readings == AllReadings(AcceptedTicks(stream[..i], maxAge))
      {
        var more := Receive(stream[i]);
        readings := readings + more;
        assert stream[..i + 1] == stream[..i] + [stream[i]];
        StreamSnoc(stream[..i], stream[i], maxAge);
        if Accepts(LatestAfter(stream[..i], maxAge), stream[i], maxAge) {
          ghost var ticks := AcceptedTicks(stream[..i], maxAge);
          assert (ticks + [stream[i].tick])[..|ticks|] == ticks;
        }
      }
      assert stream[..|stream|] == stream;
    }
  }

  // ---------------------------------------------------------------- the publisher

  /** What the publisher samples: the clock, and a snapshot of its table. */
  type Sampled = (Millis, seq<ProcInfo>)

  /** The ticks of a publisher: one for each snapshot that is not empty, numbered from one. */
  function TicksOf(from: Publisher, samples: seq<Sampled>): seq<Tick>
    decreases |samples|
  {
    if samples == [] then []
    else
      var ticks, last := TicksOf(from, samples[..|samples| - 1]), samples[|samples| - 1];
      if last.1 == [] then ticks else ticks + [Tick(from, last.0, |ticks| + 1, last.1)]
  }

  /** `publish_loop`. */
  method Publish(from: Publisher, samples: seq<Sampled>) returns (ticks: seq<Tick>)
    ensures ticks == TicksOf(from, samples)
  {
    ticks := [];
    var seqNo := 0;
    for i := 0 to |samples|
      invariant ticks == TicksOf(from, samples[..i]) && seqNo == |ticks|
    {
      assert samples[..i + 1][..i] == samples[..i];
      if samples[i].1 != [] {
        seqNo := seqNo + 1;
        ticks := ticks + [Tick(from, samples[i].0, seqNo, samples[i].1)];
      }
    }
    assert samples[..|samples|] == samples;
  }

  /** Snapshots that are not empty among the samples. */
  function Busy(samples: seq<Sampled>): nat
    decreases |samples|
  {
    if samples == [] then 0
    else Busy(samples[..|samples| - 1]) + if |samples[|samples| - 1].1| > 0 then 1 else 0
  }

  /** As many ticks as there are such snapshots, and each of them goes out under the next number. */
  lemma {:induction false} EverySnapshotGoesOut(from: Publisher, samples: seq<Sampled>, i: nat)
    requires i < |samples| && |samples[i].1| > 0
    ensures |TicksOf(from, samples)| == Busy(samples)
    ensures
      var k := Busy(samples[..i]);
      k < |TicksOf(from, samples)| && TicksOf(from, samples)[k] == Tick(from, samples[i].0, k + 1, samples[i].1)
    decreases |samples|
  {
    var last := |samples| - 1;
    TicksCount(from, samples[..last]);
    if i < last {
      EverySnapshotGoesOut(from, samples[..last], i);
      assert samples[..last][..i] == samples[..i];
    }
  }

  lemma {:induction false} TicksCount(from: Publisher, samples: seq<Sampled>)
    ensures |TicksOf(from, samples)| == Busy(samples)
    decreases |samples|
  {
    if samples != [] {
      TicksCount(from, samples[..|samples| - 1]);
    }
  }

  /** Tick `k` is numbered `k + 1` and carries sample `i`. */
  lemma {:induction false} TickOrigin(from: Publisher, samples: seq<Sampled>, k: nat) returns (i: nat)
    requires k < |TicksOf(from, samples)|
    ensures i < |samples| && TicksOf(from, samples)[k] == Tick(from, samples[i].0, k + 1, samples[i].1)
    decreases |samples|
  {
    var last := |samples| - 1;
    if k < |TicksOf(from, samples[..last])| {
      i := TickOrigin(from, samples[..last], k);
    } else {
      i := last;
    }
  }

  /** Two ticks carry samples in the order of their numbers. */
  lemma {:induction false} OriginsOrdered(from: Publisher, samples: seq<Sampled>, k: nat, l: nat)
    returns (i: nat, j: nat)
    requires k < l < |TicksOf(from, samples)|
    ensures i < j < |samples|
    ensures TicksOf(from, samples)[k] == Tick(from, samples[i].0, k + 1, samples[i].1)
    ensures TicksOf(from, samples)[l] == Tick(from, samples[j].0, l + 1, samples[j].1)
    decreases |samples|
  {
    var last := |samples| - 1;
    if l < |TicksOf(from, samples[..last])| {
      i, j := OriginsOrdered(from, samples[..last], k, l);
    } else {
      i := TickOrigin(from, samples[..last], k);
      j := last;
    }
  }

  /** Sample `s` holds the reading `x` of handle `h` at place `a`. */
  predicate Holds(s: Sampled, a: nat, h: Handle, x: Sample) {
    && a < |s.1| && s.1[a].handle == h && s.1[a].usage.Some?
    && x == Sample(s.1[a].usage.value.cpuUsec, s.0)
  }

  /** Each snapshot lists a handle once; between readings of `h` the clock advances and the counter does not fall. */
  ghost predicate SteadySamples(samples: seq<Sampled>, h: Handle) {
    && (forall i :: 0 <= i < |samples| ==> OncePerHandle(samples[i].1))
    && (forall i, j, a, b, x, y |
          0 <= i < j < |samples| && Holds(samples[i], a, h, x) && Holds(samples[j], b, h, y) ::
          x.ts < y.ts && x.cpuUsec <= y.cpuUsec)
  }

  /** A tick that lists each handle once, and not with a reading of `h`. */
  ghost predicate Silent(t: Tick, h: Handle) {
    OncePerHandle(t.stats) && forall i, x :: !Carries(t, i, h, x)
  }

  /** Steady samples make steady ticks, also among ticks of other lives that carry no reading of `h`. */
  lemma PublishedIsSteady(p: Publisher, samples: seq<Sampled>, published: iset<Tick>, h: Handle)
    requires SteadySamples(samples, h)
    requires forall t :: t in published && t.from == p ==> t in TicksOf(p, samples) || Silent(t, h)
    ensures Steady(published, p, h)
  {
    var ticks := TicksOf(p, samples);
    forall t | t in published && t.from == p
      ensures OncePerHandle(t.stats)
    {
      if !Silent(t, h) {
        var k :| 0 <= k < |ticks| && ticks[k] == t;
        var i := TickOrigin(p, samples, k);
      }
    }
    forall a, b, i, j, x, y |
      a in published && b in published && a.from == b.from == p && a.seqNo < b.seqNo
      && Carries(a, i, h, x) && Carries(b, j, h, y)
      ensures x.ts < y.ts && x.cpuUsec <= y.cpuUsec
    {
      var k :| 0 <= k < |ticks| && ticks[k] == a;
      var l :| 0 <= l < |ticks| && ticks[l] == b;
      var _ := TickOrigin(p, samples, k);
      var _ := TickOrigin(p, samples, l);
      var u, v := OriginsOrdered(p, samples, k, l);
      assert Holds(samples[u], i, h, x) && Holds(samples[v], j, h, y);
    }
  }

  /**
   * From the publisher's loop to the watcher's: whatever the gossip drops, repeats or reorders,
   * and whatever other publishers send, the rates the watcher prints for a process of `p`
   * account for exactly the CPU time between the first and the last reading it accepted. The
   * publisher may have other lives, before or after, in which it does not sample that handle.
   */
  lemma GossipLosesNothing(p: Publisher, samples: seq<Sampled>, stream: seq<Arrival>, h: Handle, maxAge: Millis)
    requires SteadySamples(samples, h)
    requires forall a :: a in stream && a.Opened? && a.tick.from == p ==>
      a.tick in TicksOf(p, samples) || Silent(a.tick, h)
    ensures
      var ticks := AcceptedTicks(stream, maxAge);
      var printed, ss := Reports(AllReadings(ticks), (p, h)), SamplesOf(AllItems(ticks), (p, h));
      && |printed| == |ss|
      && (ss != [] ==> Total(printed, ss) == (ss[|ss| - 1].cpuUsec - ss[0].cpuUsec) as real)
  {
    var published := iset t: Tick | t in TicksOf(p, samples) || t.from != p || Silent(t, h);
    PublishedIsSteady(p, samples, published, h);
    DroppedTicksLoseNothing(stream, published, p, h, maxAge);
    ReportsAreRates(AcceptedTicks(stream, maxAge), (p, h));
  }
}

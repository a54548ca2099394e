/**
 * The request chokepoint (src/supervisor.rs): rate-limit, parse, authorize, then route; stated
 * over request sequences that interleave with everything else the supervisor does.
 */
module Chokepoint {
  import opened Protocol
  import opened Lifecycle
  import opened LifecycleInv
  import opened ProcessManagers
  import opened RateLimiting

  datatype Authz = Authz(open: bool, control: set<Peer>, read: set<Peer>)

  /** What arrives on the stream before the request timeout. */
  datatype Frame = Parsed(req: Request) | Malformed | TimedOut

  /** `authorize`, lines 171-182. */
  function Authorize(a: Authz, remote: Peer, req: Request): Result<(), ControlError> {
    if a.open || remote in a.control then Ok(())
    else if IsReadOnly(req) && remote in a.read then Ok(())
    else Err(Denied)
  }

  /** Lines 58-76: the outcome of one connection; `allowed` is the limiter's answer. */
  function Judge(a: Authz, remote: Peer, allowed: bool, frame: Frame): Result<Request, ControlError> {
    if !allowed then Err(RateLimited)
    else
      match frame
      case TimedOut => Err(Timeout)
      case Malformed => Err(BadRequest("malformed request"))
      case Parsed(req) =>
        match Authorize(a, remote, req)
        case Ok(_) => Ok(req)
        case Err(e) => Err(e)
  }

  /** A request goes through exactly when it was allowed, parsed, and its peer has the rights. */
  lemma PassesIff(a: Authz, remote: Peer, allowed: bool, frame: Frame)
    ensures Judge(a, remote, allowed, frame).Ok? <==>
      && allowed && frame.Parsed?
      && (a.open || remote in a.control || (remote in a.read && IsReadOnly(frame.req)))
    ensures Judge(a, remote, allowed, frame).Ok? ==> Judge(a, remote, allowed, frame).value == frame.req
  {
  }

  /**
   * What a refused connection is told: that it is rate-limited before anything is read of it, that it
   * was late or malformed before its rights are looked at, and that it is denied unless the
   * supervisor is open, the peer may control, or it may read and only wants to.
   */
  lemma RefusalsAre(a: Authz, remote: Peer, allowed: bool, frame: Frame)
    ensures
      var r := Judge(a, remote, allowed, frame);
      var reading := frame.Parsed? && (frame.req.List? || frame.req.Query? || frame.req.Subscribe?);
      var may := a.open || remote in a.control || (remote in a.read && reading);
      && (r == Err(RateLimited) <==> !allowed)
      && (r == Err(Timeout) <==> allowed && frame.TimedOut?)
      && (r == Err(BadRequest("malformed request")) <==> allowed && frame.Malformed?)
      && (r == Err(Denied) <==> allowed && frame.Parsed? && !may)
      && (r.Ok? <==> allowed && frame.Parsed? && may)
  {
  }

  /** Where an accepted request is served. */
  datatype Route = Rejected(error: ControlError) | Streamed(id: Handle) | Fed(id: Handle) | Dispatched(req: Request)

  /** Lines 78-103. */
  function RouteOf(outcome: Result<Request, ControlError>): Route {
    match outcome
    case Err(e) => Rejected(e)
    case Ok(req) =>
      match req
      case Subscribe(id) => Streamed(id)
      case StdinStream(id) => Fed(id)
      case _ => Dispatched(req)
  }

  /** The steps of the lifecycle machine a dispatched request performs. */
  function EffectOf(req: Request): Option<Step> {
    match req
    case Spawn(spec) => Some(Reserve(spec))
    case Stop(id) => Some(StopCall(id))
    case Forget(id) => Some(ForgetCall(id))
    case _ => None
  }

  datatype Reply =
    | Taken(id: Handle)             // spawn: the answer is `SpawnReply`, once the launch is known
    | Spawned(id: Handle, pid: Pid)
    | Ack
    | Status(info: ProcInfo)
    | Listing(infos: seq<ProcInfo>)
    | Failed(error: ControlError)

  /**
   * What the kernel and the peer contribute to an answer: whether a signal could be delivered,
   * the usage counters, and how the copy into stdin ended.
   */
  datatype Outside = Outside(delivered: bool, live: map<Handle, Usage>, fed: Result<(), ControlError>)

  /** What a peer is told about its accepted request. */
  ghost predicate Replies(w: World, req: Request, o: Outside, reply: Reply) {
    match req
    case Spawn(_) => reply == Taken(w.next + 1)
    case Query(id) =>
      if id in w.procs then reply.Status? && reply.info.handle == id && Describes(reply.info, w.procs[id], o.live)
      else reply == Failed(NotFound(id))
    case Signal(id, sig) => reply == AckOr(SignalReply(w.procs, id, sig, o.delivered))
    case Stop(id) => reply == if id in w.procs then Ack else Failed(NotFound(id))
    case Forget(id) =>
      reply == if id !in w.procs then Failed(NotFound(id))
               else if w.procs[id].status.Running? then Failed(BadRequest("cannot forget a running process"))
               else Ack
    case Subscribe(id) => reply == if id in w.procs then Ack else Failed(NotFound(id))
    case StdinStream(id) => reply == if id in w.procs then AckOr(o.fed) else Failed(NotFound(id))
    case List => reply.Listing? && IsSnapshot(reply.infos, w.procs, o.live)
  }

  function AckOr<T>(r: Result<T, ControlError>): Reply {
    if r.Ok? then Ack else Failed(r.error)
  }

  class Supervisor {
    const procs: ProcessManager
    const authz: Authz
    const limiter: RateLimiter

    constructor (procs: ProcessManager, authz: Authz, cfg: Config)
      ensures this.procs == procs && this.authz == authz
      ensures fresh(limiter) && limiter.cfg == cfg && limiter.buckets == map[]
    {
      this.procs := procs;
      this.authz := authz;
      this.limiter := new RateLimiter(cfg);
    }

    /**
     * `dispatch`, lines 139-166. The arms for `Subscribe` and `StdinStream` are unreachable: they
     * are excluded by the caller, and left out of the match.
     */
    method Dispatch(req: Request, o: Outside) returns (reply: Reply)
      requires !req.Subscribe? && !req.StdinStream?
      requires Inv(procs.View())
      modifies procs, procs.store
      ensures Inv(procs.View())
      ensures procs.View() == AfterRequest(old(procs.View()), req)
      ensures Replies(old(procs.View()), req, o, reply)
    {
      match req {
        case Spawn(spec) =>
          var h := procs.Reserve(spec);
          reply := Taken(h);
        case Query(id) =>
          reply := if id in procs.procs then Status(InfoOf(id, procs.procs[id], o.live)) else Failed(NotFound(id));
        case Signal(id, sig) =>
          var r := procs.Signal(id, sig, o.delivered);
          reply := AckOr(r);
        case Stop(id) =>
          var r := procs.Stop(id);
          reply := AckOr(r);
        case Forget(id) =>
          var r := procs.ForgetRow(id);
          reply := AckOr(r);
        case List =>
          var infos := procs.Snapshot(o.live);
          reply := Listing(infos);
      }
    }

    /**
     * `dispatch`, lines 140-146: the answer to a spawn, none exactly as long as the call is under
     * way. After a failure nothing of the handle is left. After a success the answered pid is that
     * of the first launch; until a relaunch, its row and its record, unless forgotten, are there
     * under that pid, and so is its child until it is waited for.
     */
    method SpawnReply(h: Handle) returns (reply: Option<Reply>)
      requires Inv(procs.View()) && h in procs.tasks
      ensures reply == None <==> PreInsert(procs.tasks[h].pc) || procs.tasks[h].pc.SpawnInserted?
      ensures reply == Some(Failed(SpawnFailed("could not start process"))) <==>
              procs.tasks[h].pc.Done? && procs.tasks[h].launches == 0
      ensures reply.Some? && reply.value.Failed? ==>
        && h !in procs.procs && h !in procs.store.records && h !in procs.leaves
        && forall c :: c in procs.children ==> c.handle != h
      ensures reply.Some? && !reply.value.Failed? ==>
        && reply == Some(Spawned(h, procs.tasks[h].first)) && procs.tasks[h].launches >= 1
        && (procs.tasks[h].launches == 1 ==>
              && (HoldsChild(procs.tasks[h].pc) ==>
                    Child(h, 1, reply.value.pid, procs.tasks[h].joined) in procs.children)
              && (h in procs.procs ==>
                    && procs.procs[h].pid == reply.value.pid
                    && h in procs.store.records && procs.store.records[h].pid == reply.value.pid))
    {
      var t := procs.tasks[h];
      ghost var s := SlotOf(procs.View(), h);
      assert SlotOk(s, h, procs.now, procs.next);
      assert forall c :: c in procs.children && c.handle == h <==> c in s.kids;
      if t.pc.Done? && t.launches == 0 {
        reply := Some(Failed(SpawnFailed("could not start process")));
      } else if PreInsert(t.pc) || t.pc.SpawnInserted? {
        reply := None;
      } else {
        assert HoldsChild(t.pc) ==> Child(h, t.launches, t.pid, t.joined) in s.kids;
        reply := Some(Spawned(h, t.first));
      }
    }

    /** `accept`, lines 58-76: the limiter decides first, and what it refuses is neither parsed nor authorized. */
    method Decide(remote: Peer, now: real, frame: Frame) returns (outcome: Result<Request, ControlError>)
      modifies limiter
      ensures outcome == Judge(authz, remote, Admits(limiter.cfg, old(limiter.buckets), remote, now), frame)
      ensures AfterAllow(limiter.cfg, old(limiter.buckets), limiter.buckets, remote, now)
      ensures |old(limiter.buckets)| <= limiter.cfg.maxBuckets ==> |limiter.buckets| <= limiter.cfg.maxBuckets
    {
      var allowed := limiter.Allow(remote, now);
      if !allowed {
        outcome := Err(RateLimited);
      } else if frame.TimedOut? {
        outcome := Err(Timeout);
      } else if frame.Malformed? {
        outcome := Err(BadRequest("malformed request"));
      } else {
        var rights := Authorize(authz, remote, frame.req);
        outcome := if rights.Ok? then Ok(frame.req) else Err(rights.error);
      }
    }

    /** `accept`, lines 78-103, but for the byte streams. */
    method Serve(outcome: Result<Request, ControlError>, o: Outside) returns (reply: Reply)
      requires Inv(procs.View())
      modifies procs, procs.store
      ensures Inv(procs.View())
      ensures
        match outcome
        case Ok(req) =>
          procs.View() == AfterRequest(old(procs.View()), req) && Replies(old(procs.View()), req, o, reply)
        case Err(e) => procs.View() == old(procs.View()) && reply == Failed(e)
    {
      match RouteOf(outcome) {
        case Rejected(e) => reply := Failed(e);
        case Streamed(id) => reply := if id in procs.procs then Ack else Failed(NotFound(id));
        case Fed(id) => reply := if id in procs.procs then AckOr(o.fed) else Failed(NotFound(id));
        case Dispatched(req) => reply := Dispatch(req, o);
      }
    }

    /** `accept`, lines 58-103, but for the byte streams. */
    method Accept(remote: Peer, now: real, frame: Frame, o: Outside) returns (reply: Reply)
      requires Inv(procs.View())
      modifies limiter, procs, procs.store
      ensures Inv(procs.View())
      ensures
        var outcome := Judge(authz, remote, Admits(limiter.cfg, old(limiter.buckets), remote, now), frame);
        match outcome
        case Ok(req) =>
          procs.View() == AfterRequest(old(procs.View()), req) && Replies(old(procs.View()), req, o, reply)
        case Err(e) => procs.View() == old(procs.View()) && reply == Failed(e)
      ensures Outsider(authz, remote) ==> procs.View() == old(procs.View())
      ensures AfterAllow(limiter.cfg, old(limiter.buckets), limiter.buckets, remote, now)
      ensures |old(limiter.buckets)| <= limiter.cfg.maxBuckets ==> |limiter.buckets| <= limiter.cfg.maxBuckets
    {
      var outcome := Decide(remote, now, frame);
      reply := Serve(outcome, o);
    }
  }

  /** The world after an accepted request. */
  ghost function AfterRequest(w: World, req: Request): World {
    match EffectOf(req)
    case Some(step) => if Enabled(w, step) then Lifecycle.Apply(w, step) else w
    case None => w
  }

  /** Only rows may differ: records, children, leaves, tasks, the counter and the flag are the same. */
  predicate OnlyRowsDiffer(w: World, w': World) {
    && w'.records == w.records && w'.children == w.children && w'.leaves == w.leaves
    && w'.tasks == w.tasks && w'.next == w.next && w'.shutdown == w.shutdown
  }

  /** A spawn takes the next handle and starts a task with the spec it carries. */
  lemma SpawnDoes(w: World, spec: Spec)
    requires Inv(w)
    ensures
      var w' := AfterRequest(w, Spawn(spec));
      && w'.records == w.records && w'.children == w.children && w'.leaves == w.leaves && w'.procs == w.procs
      && w'.shutdown == w.shutdown && w'.next == w.next + 1 && w.next + 1 !in w.tasks
      && w'.tasks.Keys == w.tasks.Keys + {w.next + 1} && (forall h :: h in w.tasks ==> w'.tasks[h] == w.tasks[h])
      && w'.tasks[w.next + 1].spec == spec && w'.tasks[w.next + 1].pc.Reserved?
  {
    var h := w.next + 1;
    assert SlotOk(SlotOf(w, h), h, w.now, w.next);
    WithSlotFields(w, h, SlotOf(w, h).(task := Some(NewTask(spec))));
  }

  /** A `stop` disarms the row of its handle, and changes no other. */
  lemma StopDoes(w: World, id: Handle)
    ensures
      var w' := AfterRequest(w, Stop(id));
      && OnlyRowsDiffer(w, w')
      && w'.procs == if id in w.procs then w.procs[id := w.procs[id].(armed := false)] else w.procs
  {
    WithSlotFields(w, id, SlotOf(w, id).(entry := Disarm(SlotOf(w, id).entry)));
  }

  /** A `forget` removes that row and no other, unless it is running. */
  lemma ForgetDoes(w: World, id: Handle)
    ensures
      var w' := AfterRequest(w, Forget(id));
      && OnlyRowsDiffer(w, w')
      && w'.procs == if id in w.procs && !w.procs[id].status.Running? then w.procs - {id} else w.procs
  {
    WithSlotFields(w, id, SlotOf(w, id).(entry := None));
  }

  /** The world after one connection. */
  ghost function AfterCall(w: World, a: Authz, remote: Peer, allowed: bool, frame: Frame): World {
    match Judge(a, remote, allowed, frame)
    case Ok(req) => AfterRequest(w, req)
    case Err(_) => w
  }

  /** A peer without control rights. */
  predicate Outsider(a: Authz, remote: Peer) {
    !a.open && remote !in a.control
  }

  /** What a request changes: a spawn always, a `stop` unless it finds the row disarmed and not running. */
  ghost predicate Disturbs(w: World, req: Request) {
    match req
    case Spawn(_) => true
    case Stop(id) => id in w.procs && (w.procs[id].armed || w.procs[id].status.Running?)
    case Forget(id) => id in w.procs && !w.procs[id].status.Running?
    case _ => false
  }

  lemma RequestChangesIff(w: World, req: Request)
    ensures AfterRequest(w, req) != w <==> Disturbs(w, req)
  {
    match req
    case Spawn(spec) => assert ApplyReserve(w, spec).next == w.next + 1;
    case Stop(id) =>
      if id in w.procs {
        WithSlotFields(w, id, SlotOf(w, id).(entry := Disarm(SlotOf(w, id).entry)));
        if w.procs[id].status.Running? {
          assert ApplyStop(w, id).nextOp == w.nextOp + 1;
        } else if w.procs[id].armed {
          assert !ApplyStop(w, id).procs[id].armed;
        } else {
          assert SlotOf(w, id).(entry := Disarm(SlotOf(w, id).entry)) == SlotOf(w, id);
        }
      }
    case Forget(id) =>
      if id in w.procs && !w.procs[id].status.Running? {
        assert ApplyForget(w, id).nextOp == w.nextOp + 1;
      }
    case _ =>
  }

  /**
   * A connection changes the supervisor if and only if it was allowed, its frame parsed, its peer
   * has control rights, and its request finds something to change; read rights never suffice.
   */
  lemma CallChangesIff(w: World, a: Authz, remote: Peer, allowed: bool, frame: Frame)
    ensures AfterCall(w, a, remote, allowed, frame) != w <==>
      allowed && frame.Parsed? && !Outsider(a, remote) && Disturbs(w, frame.req)
  {
    PassesIff(a, remote, allowed, frame);
    if frame.Parsed? {
      RequestChangesIff(w, frame.req);
    }
  }

  // ---------------------------------------------------------------- non-interference

  /** One event of the whole supervisor: a connection, or anything else it does. */
  datatype Occurrence =
    | Call(remote: Peer, allowed: bool, frame: Frame)
    | Background(step: Step)

  ghost function AfterEvent(w: World, a: Authz, e: Occurrence): World {
    match e
    case Call(remote, allowed, frame) => AfterCall(w, a, remote, allowed, frame)
    case Background(step) => if Enabled(w, step) then Lifecycle.Apply(w, step) else w
  }

  ghost function AfterAll(w: World, a: Authz, events: seq<Occurrence>): World
    decreases |events|
  {
    if events == [] then w else AfterAll(AfterEvent(w, a, events[0]), a, events[1..])
  }

  /** The events with the connections of peers without control rights taken out. */
  function Purge(a: Authz, events: seq<Occurrence>): seq<Occurrence>
    decreases |events|
  {
    if events == [] then []
    else if events[0].Call? && Outsider(a, events[0].remote) then Purge(a, events[1..])
    else [events[0]] + Purge(a, events[1..])
  }

  /** A connection from outside `control` changes nothing, accepted or not. */
  lemma ReaderChangesNothing(w: World, a: Authz, remote: Peer, allowed: bool, frame: Frame)
    requires Outsider(a, remote)
    ensures AfterCall(w, a, remote, allowed, frame) == w
  {
  }

  /**
   * Non-interference: whatever peers outside `control` send, accepted, denied, malformed, late
   * or rate-limited, and however it interleaves with everything else, the table, the store, the
   * handle counter and every task end up as if they had sent nothing.
   */
  lemma {:induction false} ReadersDoNotInterfere(w: World, a: Authz, events: seq<Occurrence>)
    ensures AfterAll(w, a, events) == AfterAll(w, a, Purge(a, events))
    decreases |events|
  {
    if events != [] {
      var e := events[0];
      var w1 := AfterEvent(w, a, e);
      ReadersDoNotInterfere(w1, a, events[1..]);
      if e.Call? && Outsider(a, e.remote) {
        ReaderChangesNothing(w, a, e.remote, e.allowed, e.frame);
      } else {
        var rest := Purge(a, events[1..]);
        assert ([e] + rest)[0] == e && ([e] + rest)[1..] == rest;
      }
    }
  }

  /** The invariant survives any mix of connections and background work. */
  lemma {:induction false} CallsKeepInv(w: World, a: Authz, events: seq<Occurrence>)
    requires Inv(w)
    ensures Inv(AfterAll(w, a, events))
    decreases |events|
  {
    if events != [] {
      var e := events[0];
      match e {
        case Background(step) =>
          if Enabled(w, step) {
            StepKeepsInv(w, step);
          }
        case Call(remote, allowed, frame) =>
          if Judge(a, remote, allowed, frame).Ok? && EffectOf(frame.req).Some? {
            StepKeepsInv(w, EffectOf(frame.req).value);
          }
      }
      CallsKeepInv(AfterEvent(w, a, e), a, events[1..]);
    }
  }
}

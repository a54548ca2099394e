/** Whom the signals of `stop` reach (src/process.rs:442-484), and whom they miss. */
module LifecycleSignals {
  import opened Protocol
  import opened Backoff
  import opened Lifecycle
  import opened LifecycleInv
  import opened LifecycleTheorems
  import opened LifecycleRuns

  /** The supervised children a delivery reaches; a child is the leader of its own process group. */
  ghost function Struck(w: World, d: Delivery): set<Child> {
    match d
    case Nothing => {}
    case Term(pid) => set c | c in w.children && c.pid == pid
    case KillGroup(pid) => set c | c in w.children && c.pid == pid
    case KillLeaf(h) => set c | c in w.children && c.handle == h && c.joined && h in w.leaves
  }

  /** A `stop` that has signals still to send. */
  predicate Pending(w: World, o: nat) {
    o in w.ops && !w.ops[o].Forgetting?
  }

  lemma PendingFacts(w: World, o: nat)
    requires Inv(w) && Pending(w, o)
    ensures
      var op := w.ops[o];
      && op.h <= w.next && op.h in w.tasks
      && w.tasks[op.h].pid == op.pid && w.tasks[op.h].launches == op.launch
      && forall k :: k in w.children && k.handle == op.h <==>
                     HoldsChild(w.tasks[op.h].pc) && k == Child(op.h, op.launch, op.pid, w.tasks[op.h].joined)
  {
    var h := w.ops[o].h;
    assert SlotOk(SlotOf(w, h), h, w.now, w.next) && OpOk(SlotOf(w, h), w.ops[o]);
    forall k
      ensures k in w.children && k.handle == h <==> k in SlotOf(w, h).kids
    {
    }
  }

  // ---------------------------------------------------------------- the captured pid

  /** The task of `h` does not move. */
  predicate Without(steps: seq<Step>, h: Handle) {
    forall i :: 0 <= i < |steps| ==> !(steps[i].Own? && steps[i].h == h)
  }

  lemma {:induction false} TaskStays(w: World, steps: seq<Step>, h: Handle)
    requires Inv(w) && h <= w.next
    requires ValidRun(w, steps) && CrashFree(steps) && Without(steps, h)
    ensures SlotOf(Run(w, steps), h).task == SlotOf(w, h).task
    decreases |steps|
  {
    if steps != [] {
      OthersUndisturbed(w, steps[0], h);
      StepKeepsInv(w, steps[0]);
      TaskStays(Apply(w, steps[0]), steps[1..], h);
    }
  }

  /** The pid the call captured is that of another handle's child. */
  predicate Astray(w: World, op: Op)
    requires !op.Forgetting?
  {
    exists c :: c in w.children && c.handle != op.h && c.pid == op.pid
  }

  /** Steps that leave the stopped task and the pending call alone, and end with the call astray. */
  ghost predicate Strays(w: World, o: nat, steps: seq<Step>)
    requires Pending(w, o)
  {
    && ValidRun(w, steps) && CrashFree(steps) && Without(steps, w.ops[o].h)
    && o in Run(w, steps).ops && Run(w, steps).ops[o] == w.ops[o]
    && Astray(Run(w, steps), w.ops[o])
  }

  /** While the task holds its child, the captured pid is that child's alone. */
  lemma HeldPid(w: World, o: nat)
    requires Inv(w) && Pending(w, o)
    ensures w.ops[o].h in w.tasks
    ensures HoldsChild(w.tasks[w.ops[o].h].pc) ==> !Astray(w, w.ops[o])
  {
    PendingFacts(w, o);
    var child := Child(w.ops[o].h, w.ops[o].launch, w.ops[o].pid, w.tasks[w.ops[o].h].joined);
    assert HoldsChild(w.tasks[w.ops[o].h].pc) ==> child in w.children;
  }

  lemma HeldPidIsOwn(w: World, o: nat, steps: seq<Step>)
    requires Inv(w) && Pending(w, o) && Strays(w, o, steps)
    ensures w.ops[o].h in w.tasks && !HoldsChild(w.tasks[w.ops[o].h].pc)
  {
    var w', h := Run(w, steps), w.ops[o].h;
    PendingFacts(w, o);
    TaskStays(w, steps, h);
    assert SlotOf(w', h).task == Some(w.tasks[h]);
    RunKeepsInv(w, steps);
    HeldPid(w', o);
  }

  /** A spawn of another handle up to its leaf; the pending calls and the children stay. */
  lemma ReserveAndLeaf(w: World) returns (steps: seq<Step>, w': World)
    requires Inv(w)
    ensures ValidRun(w, steps) && CrashFree(steps) && Run(w, steps) == w' && Inv(w')
    ensures forall i :: 0 <= i < |steps| ==> steps[i].Own? ==> steps[i].h == w.next + 1
    ensures w'.ops == w.ops && w'.children == w.children
    ensures w.next + 1 in w'.tasks && w'.tasks[w.next + 1].pc.SpawnLeaf?
  {
    var g := w.next + 1;
    var spec := Spec("", [], [], Limits(None, None, None), Never, 0, false);
    var c := Choice(true, true, 0, None);
    var w1 := Apply(w, Reserve(spec));
    ReserveKeepsInv(w, spec);
    assert w1.tasks[g] == NewTask(spec) && w1.children == w.children;
    w' := Apply(w1, Own(g, c));
    OwnKeepsInv(w1, g, c);
    assert w'.children == w1.children;
    OneStep(w, Reserve(spec));
    OneStep(w1, Own(g, c));
    steps := [Reserve(spec)] + [Own(g, c)];
    RunsCompose(w, [Reserve(spec)], [Own(g, c)]);
  }

  /** A child of the handle with a pid nobody holds. */
  lemma SpawnUnderPid(w: World, g: Handle, pid: Pid) returns (step: Step)
    requires Inv(w) && g in w.tasks && w.tasks[g].pc.SpawnLeaf?
    requires forall k :: k in w.children ==> k.pid != pid
    ensures Enabled(w, step) && step.Own? && step.h == g
    ensures Apply(w, step).ops == w.ops
    ensures exists k :: k in Apply(w, step).children && k.handle == g && k.pid == pid
  {
    var c := Choice(true, true, pid, None);
    step := Own(g, c);
    var t := w.tasks[g];
    assert Child(g, t.launches + 1, pid, t.joined) in Apply(w, step).children;
  }

  /** A pid nobody holds can be given to a new handle's child, with the task of `h` at rest. */
  lemma SpawnTakesPid(w: World, h: Handle, pid: Pid) returns (steps: seq<Step>)
    requires Inv(w) && h <= w.next && forall k :: k in w.children ==> k.pid != pid
    ensures ValidRun(w, steps) && CrashFree(steps) && Without(steps, h) && Run(w, steps).ops == w.ops
    ensures exists k :: k in Run(w, steps).children && k.handle != h && k.pid == pid
  {
    var before, w1 := ReserveAndLeaf(w);
    var step := SpawnUnderPid(w1, w.next + 1, pid);
    OneStep(w1, step);
    RunsCompose(w, before, [step]);
    steps := before + [step];
  }

  /** Once the child has been waited for, another spawn can be given its pid. */
  lemma FreedPidCanStray(w: World, o: nat) returns (steps: seq<Step>)
    requires Inv(w) && Pending(w, o) && w.ops[o].h in w.tasks && !HoldsChild(w.tasks[w.ops[o].h].pc)
    ensures Strays(w, o, steps)
  {
    PendingFacts(w, o);
    if Astray(w, w.ops[o]) {
      steps := [];
    } else {
      steps := SpawnTakesPid(w, w.ops[o].h, w.ops[o].pid);
    }
  }

  /**
   * The pid a pending `stop` is going to signal can come to name another handle's child exactly
   * when the child it was taken from has been waited for. It goes for the SIGTERM, which is sent
   * to the bare pid, and for a SIGKILL to the process group; `cgroup.kill` never uses the pid.
   */
  lemma SignalCanStrayIff(w: World, o: nat)
    requires Reachable(w) && Pending(w, o)
    ensures w.ops[o].h in w.tasks
    ensures (exists steps :: Strays(w, o, steps)) <==> !HoldsChild(w.tasks[w.ops[o].h].pc)
  {
    ReachableIsGood(w);
    PendingFacts(w, o);
    if HoldsChild(w.tasks[w.ops[o].h].pc) {
      forall steps | Strays(w, o, steps)
        ensures false
      {
        HeldPidIsOwn(w, o, steps);
      }
    } else {
      var steps := FreedPidCanStray(w, o);
    }
  }

  // ---------------------------------------------------------------- the leaf

  /** A launch that joined its leaf keeps it until it is reaped, unless everything is torn down. */
  predicate LeafKept(s: Slot, shutdown: bool) {
    s.task.Some? && s.task.value.joined && MayHaveLeaf(s.task.value.pc) ==> s.leaf || shutdown
  }

  /**
   * A launch is given a leaf of its own exactly when one could be made, and joins it exactly when
   * its `cgroup.procs` could be opened too: no leaf of an earlier launch is ever in the way.
   */
  lemma LaunchJoinsIff(w: World, h: Handle, c: Choice)
    requires Reachable(w) && h in w.tasks && (w.tasks[h].pc.Reserved? || w.tasks[h].pc.Launching?)
    ensures
      var w' := Apply(w, Own(h, c));
      h in w'.tasks && (h in w'.leaves <==> c.ok) && (w'.tasks[h].joined <==> c.ok && c.joins)
  {
    CleanBeforeLaunch(w, h);
  }

  lemma OwnKeepsLeaf(s: Slot, h: Handle, now: Time, shutdown: bool, c: Choice, torn: bool)
    requires s.task.Some? && !s.task.value.pc.Done? && LeafKept(s, torn)
    ensures LeafKept(OwnSlot(s, h, now, shutdown, c), torn)
  {
  }

  lemma OwnStepKeepsLeaves(w: World, g: Handle, c: Choice, h: Handle, torn: bool)
    requires Inv(w) && Enabled(w, Own(g, c))
    requires LeafKept(SlotOf(w, g), torn) && LeafKept(SlotOf(w, h), torn)
    ensures LeafKept(SlotOf(Apply(w, Own(g, c)), h), torn)
  {
    OwnKeepsPids(w, g, c);
    SlotAfter(w, g, OwnSlot(SlotOf(w, g), g, w.now, w.shutdown, c), h);
    OwnKeepsLeaf(SlotOf(w, g), g, w.now, w.shutdown, c, torn);
  }

  /** What a pending call does next leaves tasks and leaves as they are. */
  lemma OpKeepsLeaf(w: World, o: nat, h: Handle)
    requires o in w.ops
    ensures SlotOf(ApplyOp(w, o), h).task == SlotOf(w, h).task && SlotOf(ApplyOp(w, o), h).leaf == SlotOf(w, h).leaf
    ensures ApplyOp(w, o).shutdown == w.shutdown
  {
  }

  /** So do the calls of clients. */
  lemma CallKeepsLeaf(w: World, g: Handle, h: Handle)
    ensures SlotOf(ApplyStop(w, g), h).task == SlotOf(ApplyForget(w, g), h).task == SlotOf(w, h).task
    ensures SlotOf(ApplyStop(w, g), h).leaf == SlotOf(ApplyForget(w, g), h).leaf == SlotOf(w, h).leaf
    ensures ApplyStop(w, g).shutdown == ApplyForget(w, g).shutdown == w.shutdown
  {
  }

  ghost predicate LeavesKept(w: World, torn: bool) {
    forall h: Handle :: LeafKept(SlotOf(w, h), torn)
  }

  lemma StepKeepsLeaves(w: World, step: Step, torn: bool)
    requires Inv(w) && Enabled(w, step) && LeavesKept(w, torn) && (step.ForceDown? ==> torn)
    ensures LeavesKept(Apply(w, step), torn)
  {
    forall h: Handle
      ensures LeafKept(SlotOf(Apply(w, step), h), torn)
    {
      assert LeafKept(SlotOf(w, h), torn);
      if step.Own? {
        OwnStepKeepsLeaves(w, step.h, step.c, h, torn);
      } else if step.StopCall? || step.ForgetCall? {
        CallKeepsLeaf(w, step.h, h);
      } else if step.OpStep? {
        OpKeepsLeaf(w, step.o, h);
      }
    }
  }

  /** Only a teardown takes leaves away, and it comes after the shutdown flag. */
  lemma {:induction false} RunKeepsLeaves(w: World, steps: seq<Step>)
    requires Inv(w) && ValidRun(w, steps) && LeavesKept(w, w.shutdown)
    ensures LeavesKept(Run(w, steps), Run(w, steps).shutdown)
    decreases |steps|
  {
    if steps != [] {
      var w1 := Apply(w, steps[0]);
      if steps[0].Crash? {
        assert forall h: Handle :: SlotOf(w1, h).task == None;
      } else {
        assert w.shutdown ==> w1.shutdown;
        assert LeavesKept(w, w1.shutdown) by {
          forall h: Handle
            ensures LeafKept(SlotOf(w, h), w1.shutdown)
          {
            assert LeafKept(SlotOf(w, h), w.shutdown);
          }
        }
        StepKeepsLeaves(w, steps[0], w1.shutdown);
      }
      StepKeepsInv(w, steps[0]);
      RunKeepsLeaves(w1, steps[1..]);
    }
  }

  /** Steps before the end of `kill_all`. */
  predicate Standing(steps: seq<Step>) {
    forall i :: 0 <= i < |steps| ==> !steps[i].ForceDown?
  }

  lemma {:induction false} StandingKeepsLeaves(w: World, steps: seq<Step>)
    requires Inv(w) && ValidRun(w, steps) && Standing(steps) && LeavesKept(w, false)
    ensures LeavesKept(Run(w, steps), false)
    decreases |steps|
  {
    if steps != [] {
      StepKeepsLeaves(w, steps[0], false);
      StepKeepsInv(w, steps[0]);
      StandingKeepsLeaves(Apply(w, steps[0]), steps[1..]);
    }
  }

  lemma ReachableKeepsLeaves(w: World, h: Handle)
    requires Reachable(w)
    ensures LeafKept(SlotOf(w, h), w.shutdown)
  {
    var records, keyNext, now, grace, steps :| ReachedBy(w, records, keyNext, now, grace, steps);
    BootIsGood(records, keyNext, now, 0, grace);
    RunKeepsLeaves(Boot(records, keyNext, now, 0, grace), steps);
  }

  /**
   * Whom the next delivery of a pending `stop` strikes while the child it is meant for is still
   * held: by pid, exactly that child; through the leaf, that child if its launch joined the leaf
   * and otherwise nobody.
   */
  lemma DeliveryStrikes(w: World, o: nat, cgroups: bool)
    requires Reachable(w) && Pending(w, o) && !w.ops[o].Terminating? && !w.shutdown
    requires w.ops[o].h in w.tasks && HoldsChild(w.tasks[w.ops[o].h].pc)
    ensures
      var op, t := w.ops[o], w.tasks[w.ops[o].h];
      var child := Child(op.h, op.launch, op.pid, t.joined);
      && child in w.children
      && Struck(w, Sends(op, cgroups)) == if op.Escalating? && cgroups && !t.joined then {} else {child}
  {
    var op, t := w.ops[o], w.tasks[w.ops[o].h];
    var child := Child(op.h, op.launch, op.pid, t.joined);
    assert
      && PidsUnique(w.children) && child in w.children
      && forall c :: c in w.children && c.handle == op.h ==> c == child by {
      ReachableIsGood(w);
      PendingFacts(w, o);
    }
    ReachableKeepsLeaves(w, op.h);
  }

  /** Through the leaf, a SIGKILL reaches nobody but the child of the launch `stop` saw, ever. */
  lemma LeafKillNeverStrays(w: World, o: nat)
    requires Reachable(w) && Pending(w, o)
    ensures forall c :: c in Struck(w, KillLeaf(w.ops[o].h)) ==>
      c.handle == w.ops[o].h && c.launch == w.ops[o].launch && c.pid == w.ops[o].pid
  {
    SigkillTarget(w, o);
  }

  // ---------------------------------------------------------------- a stop that comes too late

  /** No signal is pending for the handle. */
  ghost predicate NothingPending(w: World, h: Handle) {
    forall o :: o in w.ops && w.ops[o].h == h ==> w.ops[o].Forgetting?
  }

  lemma {:induction false} NothingPendingStays(w: World, steps: seq<Step>, h: Handle)
    requires NothingPending(w, h) && ValidRun(w, steps)
    requires forall i :: 0 <= i < |steps| ==> steps[i] != StopCall(h)
    ensures NothingPending(Run(w, steps), h)
    decreases |steps|
  {
    if steps != [] {
      NothingPendingStays(Apply(w, steps[0]), steps[1..], h);
    }
  }

  /**
   * A `stop` that lands on a committed launch signals nothing, and until somebody calls `stop`
   * again nothing will signal what that launch starts.
   */
  lemma LateStopSignalsNothing(w: World, h: Handle, steps: seq<Step>)
    requires Reachable(w) && h in w.procs && h in w.tasks && Budget(w.tasks[h].pc, w.shutdown) == 1
    requires ValidRun(ApplyStop(w, h), steps)
    requires forall i :: 0 <= i < |steps| ==> steps[i] != StopCall(h)
    ensures ApplyStop(w, h).ops == w.ops
    ensures NothingPending(Run(ApplyStop(w, h), steps), h)
  {
    ReachableIsGood(w);
    var s := SlotOf(w, h);
    assert SlotOk(s, h, w.now, w.next);
    forall o | o in w.ops && w.ops[o].h == h
      ensures w.ops[o].Forgetting?
    {
      assert OpOk(s, w.ops[o]);
    }
    NothingPendingStays(ApplyStop(w, h), steps, h);
  }

  // ---------------------------------------------------------------- shutdown

  /**
   * Which children `kill_all` finds: a child's row says Running exactly unless its launch is not
   * in the table yet, or was published when the row was gone.
   */
  lemma ChildIsListedIff(w: World, c: Child)
    requires Reachable(w) && c in w.children
    ensures c.handle in w.tasks
    ensures
      var t := w.tasks[c.handle];
      && (SaysRunning(w, c.handle) <==> !(t.pc.SpawnLaunched? || t.pc.Relaunched? || t.orphaned))
      && (SaysRunning(w, c.handle) ==> w.procs[c.handle].pid == c.pid)
  {
    ReachableIsGood(w);
    assert SlotOk(SlotOf(w, c.handle), c.handle, w.now, w.next);
    assert c in SlotOf(w, c.handle).kids;
  }

  /** A launch published without a row never has one again: it cannot be stopped or forgotten. */
  lemma OrphanIsOutOfReach(w: World, steps: seq<Step>, h: Handle)
    requires Reachable(w) && h in w.tasks && w.tasks[h].orphaned
    requires ValidRun(w, steps) && CrashFree(steps)
    ensures
      var w' := Run(w, steps);
      h !in w'.procs && ApplyStop(w', h) == w' && ApplyForget(w', h) == w'
  {
    assert Disarmed(SlotOf(w, h), w.shutdown) && SlotOf(w, h).entry == None && !PreInsert(w.tasks[h].pc) by {
      ReachableIsGood(w);
      assert SlotOk(SlotOf(w, h), h, w.now, w.next);
    }
    assert SlotOf(Run(w, steps), h).entry == None by {
      ReachableIsGood(w);
      RunSpends(w, steps, h);
    }
  }

  /** The pid of the last launch of `h` comes to name another handle's child while its task rests. */
  ghost predicate PidStrays(w: World, h: Handle, pid: Pid, steps: seq<Step>) {
    && ValidRun(w, steps) && CrashFree(steps) && Without(steps, h)
    && exists c :: c in Struck(Run(w, steps), KillGroup(pid)) && c.handle != h
  }

  /** The children of a tracked handle. */
  lemma OwnChildren(w: World, h: Handle)
    requires Inv(w) && h in w.tasks
    ensures
      var t := w.tasks[h];
      h <= w.next
      && forall k :: k in w.children && k.handle == h <==>
                     HoldsChild(t.pc) && k == Child(h, t.launches, t.pid, t.joined)
  {
    assert SlotOk(SlotOf(w, h), h, w.now, w.next);
    forall k
      ensures k in w.children && k.handle == h <==> k in SlotOf(w, h).kids
    {
    }
  }

  lemma HeldPidStays(w: World, h: Handle, steps: seq<Step>)
    requires Inv(w) && h in w.tasks && PidStrays(w, h, w.tasks[h].pid, steps)
    ensures !HoldsChild(w.tasks[h].pc)
  {
    var w' := Run(w, steps);
    OwnChildren(w, h);
    TaskStays(w, steps, h);
    assert SlotOf(w', h).task == Some(w.tasks[h]);
    RunKeepsInv(w, steps);
    OwnChildren(w', h);
    var t := w.tasks[h];
    assert HoldsChild(t.pc) ==> Child(h, t.launches, t.pid, t.joined) in w'.children;
  }

  lemma FreedPidStrays(w: World, h: Handle) returns (steps: seq<Step>)
    requires Inv(w) && h in w.tasks && !HoldsChild(w.tasks[h].pc)
    ensures PidStrays(w, h, w.tasks[h].pid, steps)
  {
    var pid := w.tasks[h].pid;
    OwnChildren(w, h);
    if exists k :: k in w.children && k.pid == pid {
      var k :| k in w.children && k.pid == pid;
      steps := [];
      assert k in Struck(Run(w, steps), KillGroup(pid));
    } else {
      steps := SpawnTakesPid(w, h, pid);
      var k :| k in Run(w, steps).children && k.handle != h && k.pid == pid;
      assert k in Struck(Run(w, steps), KillGroup(pid));
    }
  }

  /**
   * Whom the group SIGKILLs at the end of `kill_all` strike: they use pids captured when the rows
   * said Running, a grace period earlier. The launch is still the handle's last; as long as its
   * child has not been waited for they strike that child and nobody else, and they can strike
   * another handle's child exactly when it has.
   */
  lemma ShutdownKillTargets(w: World, h: Handle, steps: seq<Step>)
    requires Reachable(w) && w.shutdown && SaysRunning(w, h)
    requires ValidRun(w, steps) && CrashFree(steps)
    ensures h in w.tasks
    ensures
      var pid, w' := w.procs[h].pid, Run(w, steps);
      && h in w'.tasks && w'.tasks[h].pid == pid && w'.tasks[h].launches == w.tasks[h].launches
      && (HoldsChild(w'.tasks[h].pc) ==>
            Struck(w', KillGroup(pid)) == {Child(h, w'.tasks[h].launches, pid, w'.tasks[h].joined)})
      && ((exists more :: PidStrays(w', h, pid, more)) <==> !HoldsChild(w'.tasks[h].pc))
  {
    assert h in w.tasks && Halted(w, h, w.procs[h].pid, w.tasks[h].launches) by {
      ReachableIsGood(w);
      assert SlotOk(SlotOf(w, h), h, w.now, w.next);
    }
    HaltedStaysHalted(w, h, w.procs[h].pid, w.tasks[h].launches, steps);
    GroupKillStrikes(Run(w, steps), h);
  }

  /** Whom a SIGKILL to the group of a handle's last pid strikes, and can come to strike. */
  lemma GroupKillStrikes(w: World, h: Handle)
    requires Inv(w) && h in w.tasks
    ensures
      var t := w.tasks[h];
      && (HoldsChild(t.pc) ==> Struck(w, KillGroup(t.pid)) == {Child(h, t.launches, t.pid, t.joined)})
      && ((exists more :: PidStrays(w, h, t.pid, more)) <==> !HoldsChild(t.pc))
  {
    var t := w.tasks[h];
    OwnChildren(w, h);
    if HoldsChild(t.pc) {
      assert Child(h, t.launches, t.pid, t.joined) in w.children;
      forall more | PidStrays(w, h, t.pid, more)
        ensures false
      {
        HeldPidStays(w, h, more);
      }
    } else {
      var more := FreedPidStrays(w, h);
    }
  }

  /** The children in some leaf: those that removing the whole cgroup kills. */
  function InLeaves(w: World): set<Child> {
    set c | c in w.children && c.joined && c.handle in w.leaves
  }

  /**
   * The end of `kill_all` with cgroups: however the supervisor got there, it kills exactly the
   * children whose launch joined its leaf, whether or not their rows show them, and leaves no leaf.
   */
  lemma TeardownStrikesIff(w: World, steps: seq<Step>, c: Child)
    requires Reachable(w) && !w.shutdown
    requires ValidRun(w, steps) && CrashFree(steps) && Standing(steps)
    requires Run(w, steps).shutdown && c in Run(w, steps).children
    ensures c in InLeaves(Run(w, steps)) <==> c.joined
    ensures
      var w' := Apply(Run(w, steps), ForceDown);
      w'.leaves == {} && w'.children == Run(w, steps).children && w'.procs == Run(w, steps).procs
  {
    var w' := Run(w, steps);
    assert LeavesKept(w, false) by {
      forall h: Handle
        ensures LeafKept(SlotOf(w, h), false)
      {
        ReachableKeepsLeaves(w, h);
      }
    }
    ReachableIsGood(w);
    StandingKeepsLeaves(w, steps);
    RunKeepsInv(w, steps);
    assert SlotOk(SlotOf(w', c.handle), c.handle, w'.now, w'.next) && LeafKept(SlotOf(w', c.handle), false);
    assert c in SlotOf(w', c.handle).kids;
  }
}
